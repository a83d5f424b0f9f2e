/** The client's side of replication: its table of remote objects, updated packet by packet. */
module Clients {
  import opened Grid
  import opened World

  class GameState {
    const myId: ObjectId
    var myPos: Pos
    var objects: map<ObjectId, Pos>

    constructor (myId: ObjectId, pos: Pos)
      ensures objects == map[] && this.myId == myId && myPos == pos
    {
      this.myId, myPos, objects := myId, pos, map[];
    }

    method AddObject(id: ObjectId, pos: Pos)
      modifies this`objects
      ensures objects == old(objects)[id := pos]
    {
      objects := objects[id := pos];
    }

    method MoveObject(id: ObjectId, pos: Pos)
      modifies this`objects
      ensures objects == if id in old(objects) then old(objects)[id := pos] else old(objects)
    {
      if id in objects {
        objects := objects[id := pos];
      }
    }

    method RemoveObject(id: ObjectId)
      modifies this`objects
      ensures objects == old(objects) - {id}
    {
      objects := objects - {id};
    }

    method MoveMyPlayer(pos: Pos)
      modifies this`myPos
      ensures myPos == pos
    {
      myPos := pos;
    }

    /** One packet from the server. */
    method OnPacket(p: Packet)
      modifies this
      ensures objects == Receive(myId, old(objects), p)
      ensures myPos == if p.Move? && p.id == myId then p.pos else old(myPos)
    {
      match p
      case Add(id, pos) => AddObject(id, pos);
      case Remove(id) => RemoveObject(id);
      case Move(id, pos) =>
        if id == myId {
          MoveMyPlayer(pos);
        } else {
          MoveObject(id, pos);
        }
    }

    /** Everything the server sent since login, in order. */
    method OnPackets(packets: seq<Packet>)
      requires objects == map[]
      modifies this
      ensures objects == ReceiveAll(myId, packets) && myPos == OwnAfter(myId, old(myPos), packets)
    {
      for i := 0 to |packets|
        invariant objects == ReceiveAll(myId, packets[..i]) && myPos == OwnAfter(myId, old(myPos), packets[..i])
      {
        assert packets[..i + 1][..i] == packets[..i];
        OnPacket(packets[i]);
      }
      assert packets[..|packets|] == packets;
    }
  }
}
