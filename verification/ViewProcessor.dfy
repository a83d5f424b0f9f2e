/** Visibility: which packets the handlers send when an object moves, appears or disappears. Each
    loop is proved against the step relation's account of what every client shows afterwards. */
module ViewProcessor {
  import opened Grid
  import opened Sectors
  import opened World
  import opened Creatures

  // ------------------------------------------------------------------ sessions

  /** The position in the login reply, and the packets sent since, in order. */
  datatype Stream = Stream(welcome: Pos, packets: seq<Packet>)

  /** What the clients show once they have received everything, and where they show their own characters. */
  ghost function Tables(sent: map<ObjectId, Stream>): map<ObjectId, Replica> {
    map p | p in sent :: ReceiveAll(p, sent[p].packets)
  }

  ghost function OwnPlaces(sent: map<ObjectId, Stream>): map<ObjectId, Pos> {
    map p | p in sent :: OwnAfter(p, sent[p].welcome, sent[p].packets)
  }

  /** One more packet is one more change to one client. */
  lemma OneMoreSent(sent: map<ObjectId, Stream>, q: ObjectId, p: Packet)
    requires q in sent
    ensures var sent' := sent[q := sent[q].(packets := sent[q].packets + [p])];
      && Tables(sent') == Tables(sent)[q := Receive(q, Tables(sent)[q], p)]
      && OwnPlaces(sent') == if p.Move? && p.id == q then OwnPlaces(sent)[q := p.pos] else OwnPlaces(sent)
  {
    hide Receive;
    var more := sent[q].packets + [p];
    assert more[..|more| - 1] == sent[q].packets;
    assert ReceiveAll(q, more) == Receive(q, ReceiveAll(q, sent[q].packets), p);
    var welcome := sent[q].welcome;
    assert OwnAfter(q, welcome, more) == if p.Move? && p.id == q then p.pos else OwnAfter(q, welcome, sent[q].packets);
    hide ReceiveAll, OwnAfter;
  }

  /** Everything sent to each logged-in player. */
  class Sessions {
    var sent: map<ObjectId, Stream>

    ghost function Shown(): map<ObjectId, Replica>
      reads this
    {
      Tables(sent)
    }

    ghost function Own(): map<ObjectId, Pos>
      reads this
    {
      OwnPlaces(sent)
    }

    lemma ShownKeys()
      ensures Shown().Keys == sent.Keys
    {
    }

    constructor ()
      ensures sent == map[] && Shown() == map[] && Own() == map[]
    {
      sent := map[];
    }

    method Open(id: ObjectId, pos: Pos)
      modifies this
      ensures sent.Keys == old(sent).Keys + {id} && Shown() == old(Shown())[id := map[]]
      ensures Own() == old(Own())[id := pos]
    {
      sent := sent[id := Stream(pos, [])];
    }

    method Close(id: ObjectId)
      modifies this
      ensures sent.Keys == old(sent).Keys - {id} && Shown() == old(Shown()) - {id} && Own() == old(Own()) - {id}
    {
      sent := sent - {id};
    }

    method Send(q: ObjectId, p: Packet)
      requires q in sent
      modifies this
      ensures sent.Keys == old(sent).Keys && q in old(Shown())
      ensures Shown() == old(Shown())[q := Receive(q, old(Shown())[q], p)]
      ensures Own() == if p.Move? && p.id == q then old(Own())[q := p.pos] else old(Own())
    {
      OneMoreSent(sent, q, p);
      assert q in Tables(sent);
      hide Receive, Tables, OwnPlaces;
      sent := sent[q := sent[q].(packets := sent[q].packets + [p])];
    }
  }

  // ------------------------------------------------- what has been told so far

  /** Whom the object `me` has been announced to, and what its own client has been told. */
  datatype Told = Told(adds: set<ObjectId>, removes: set<ObjectId>, moves: set<ObjectId>,
                       ownAdds: set<ObjectId>, ownRemoves: set<ObjectId>)

  /** The five sets after the three loops of a move: who was added, removed and kept. */
  function ToldOnMove(added: set<ObjectId>, gone: set<ObjectId>, kept: set<ObjectId>): Told {
    Told(added, gone, kept, added, gone)
  }

  function Places(at: map<ObjectId, Pos>, ids: set<ObjectId>): Replica
    requires ids <= at.Keys
  {
    map o | o in ids :: at[o]
  }

  /** The clients' tables after those packets. */
  function Spread(seen: map<ObjectId, Replica>, at: map<ObjectId, Pos>, me: ObjectId, told: Told): map<ObjectId, Replica>
    requires me in at && told.ownAdds <= at.Keys
  {
    map q | q in seen ::
      if q == me then seen[q] + Places(at, told.ownAdds) - told.ownRemoves
      else if q in told.adds then Receive(q, seen[q], Add(me, at[me]))
      else if q in told.removes then Receive(q, seen[q], Remove(me))
      else if q in told.moves then Receive(q, seen[q], Move(me, at[me]))
      else seen[q]
  }

  const NOTHING: Told := Told({}, {}, {}, {}, {})

  lemma SpreadNothing(seen: map<ObjectId, Replica>, at: map<ObjectId, Pos>, me: ObjectId)
    requires me in at
    ensures Spread(seen, at, me, NOTHING) == seen
  {
    if me in seen {
      assert seen[me] + Places(at, {}) - {} == seen[me];
    }
  }

  /** Telling one more client that `me` appeared, vanished or moved. */
  lemma SpreadTo(seen: map<ObjectId, Replica>, at: map<ObjectId, Pos>, me: ObjectId, told: Told, o: ObjectId)
    requires me in at && told.ownAdds <= at.Keys && o != me && o in seen
    requires o !in told.adds && o !in told.removes && o !in told.moves
    ensures var r := Spread(seen, at, me, told);
      && o in r
      && Spread(seen, at, me, told.(adds := told.adds + {o})) == r[o := Receive(o, r[o], Add(me, at[me]))]
      && Spread(seen, at, me, told.(removes := told.removes + {o})) == r[o := Receive(o, r[o], Remove(me))]
      && Spread(seen, at, me, told.(moves := told.moves + {o})) == r[o := Receive(o, r[o], Move(me, at[me]))]
  {
    hide Receive, Places;
  }

  /** Telling its own client about one more object. */
  lemma SpreadOwnAdd(seen: map<ObjectId, Replica>, at: map<ObjectId, Pos>, me: ObjectId, told: Told, o: ObjectId)
    requires me in at && told.ownAdds <= at.Keys && me in seen && o in at && told.ownRemoves == {}
    ensures var r := Spread(seen, at, me, told);
      me in r && Spread(seen, at, me, told.(ownAdds := told.ownAdds + {o})) == r[me := Receive(me, r[me], Add(o, at[o]))]
  {
    var known := seen[me] + Places(at, told.ownAdds);
    assert known - {} == known;
    assert seen[me] + Places(at, told.ownAdds + {o}) - {} == known[o := at[o]];
    hide Places;
  }

  lemma SpreadOwnRemove(seen: map<ObjectId, Replica>, at: map<ObjectId, Pos>, me: ObjectId, told: Told, o: ObjectId)
    requires me in at && told.ownAdds <= at.Keys && me in seen
    ensures var r := Spread(seen, at, me, told);
      me in r && Spread(seen, at, me, told.(ownRemoves := told.ownRemoves + {o})) == r[me := Receive(me, r[me], Remove(o))]
  {
    hide Places;
    var known := seen[me] + Places(at, told.ownAdds);
    assert known - told.ownRemoves - {o} == known - (told.ownRemoves + {o});
  }

  /** Ids that have no client, and the own part of an object that has none, do not matter. */
  lemma SpreadSame(seen: map<ObjectId, Replica>, at: map<ObjectId, Pos>, me: ObjectId, a: Told, b: Told)
    requires me in at && a.ownAdds <= at.Keys && b.ownAdds <= at.Keys
    requires forall q :: q in seen && q != me ==>
      (q in a.adds <==> q in b.adds) && (q in a.removes <==> q in b.removes) && (q in a.moves <==> q in b.moves)
    requires me in seen ==> a.ownAdds == b.ownAdds && a.ownRemoves == b.ownRemoves
    ensures Spread(seen, at, me, a) == Spread(seen, at, me, b)
  {
  }

  lemma MoveIsSpread(t: Terrain, at: map<ObjectId, Pos>, seen: map<ObjectId, Replica>, me: ObjectId, from: Pos)
    requires me in at
    ensures var before, after := ViewSet(t, at, me, from), ViewSet(t, at, me, at[me]);
      after <= at.Keys && AfterMove(t, at, seen, me, from)
        == Spread(seen, at, me, Told(after - before, before - after, after * before, after - before, before - after))
  {
  }

  lemma EnterIsSpread(t: Terrain, at: map<ObjectId, Pos>, seen: map<ObjectId, Replica>, me: ObjectId)
    requires me in at && IsPlayerId(me)
    ensures var view := ViewSet(t, at, me, at[me]);
      view <= at.Keys && AfterEnter(t, at, seen, me) == Spread(seen, at, me, ToldOnMove(view, {}, {}))
  {
    var view := ViewSet(t, at, me, at[me]);
    assert View(t, at, me) == Places(at, view);
    if me in seen {
      assert seen[me] + View(t, at, me) - {} == seen[me] + View(t, at, me);
    }
  }

  /** The same packet for a set of clients. */
  function TellAll(seen: map<ObjectId, Replica>, ids: set<ObjectId>, p: Packet): map<ObjectId, Replica> {
    map q | q in seen :: if q in ids then Receive(q, seen[q], p) else seen[q]
  }

  lemma MonsterEntersTellsAll(t: Terrain, at: map<ObjectId, Pos>, seen: map<ObjectId, Replica>, me: ObjectId)
    requires me in at && me !in seen
    ensures AfterEnter(t, at, seen, me) == TellAll(seen, ViewSet(t, at, me, at[me]), Add(me, at[me]))
  {
  }

  // ------------------------------------------------------------- the handlers

  /** Everything in view lies in the nine sectors around. */
  lemma ViewSetIsNearby(t: Terrain, at: map<ObjectId, Pos>, me: ObjectId, c: Pos)
    ensures forall o :: o in ViewSet(t, at, me, c) ==> SectorsTouch(t, c, at[o])
  {
    forall o | o in ViewSet(t, at, me, c) ensures SectorsTouch(t, c, at[o]) {
      WithinSectorSizeTouches(t, c, at[o]);
    }
  }

  /** The view set, read off the sector index: the same ids as scanning every live object. */
  method VisibleFrom(sm: SectorManager, pop: Population, me: ObjectId, c: Pos) returns (view: set<ObjectId>)
    requires sm.Valid() && Standing(pop, sm.at) && sm.t.InMap(c)
    ensures view == ViewSet(sm.t, sm.at, me, c)
    ensures forall o :: o in view <==>
      && o in sm.at && o != me && (IsPlayerId(me) || IsPlayerId(o))
      && InSquare(c, sm.at[o], sm.t.view)
  {
    var ids := sm.GetNearbyObjects(c);
    ViewSetIsNearby(sm.t, sm.at, me, c);
    view := {};
    for i := 0 to |ids|
      invariant forall o :: o in view <==> o in ids[..i] && o in ViewSet(sm.t, sm.at, me, c)
    {
      var id := ids[i];
      assert id in sm.at && ids[..i + 1] == ids[..i] + [id];
      if id == me {
        continue;
      }
      if IsPlayerId(id) {
        if id in pop.players && sm.t.InView(pop.players[id].pos, c) {
          view := view + {id};
        }
      } else {
        if !IsPlayerId(me) {
          continue;
        }
        if pop.IsMonster(id) && sm.t.InView(c, pop.GetMonster(id).pos) {
          view := view + {id};
        }
      }
    }
  }

  /** `o` and `me` learn about each other, each as far as it has a client. */
  lemma AppearedStep(seen: map<ObjectId, Replica>, at: map<ObjectId, Pos>, me: ObjectId, added: set<ObjectId>, o: ObjectId)
    requires me in at && o in at && o != me && added <= at.Keys && o !in added
    ensures var r := Spread(seen, at, me, ToldOnMove(added, {}, {}));
      var r1 := if o in seen then r[o := Receive(o, r[o], Add(me, at[me]))] else r;
      var r2 := if me in seen then r1[me := Receive(me, r1[me], Add(o, at[o]))] else r1;
      Spread(seen, at, me, ToldOnMove(added + {o}, {}, {})) == r2
  {
    hide Receive, Places, Spread;
    var told := ToldOnMove(added, {}, {});
    var told1 := told.(adds := added + {o});
    if o in seen {
      SpreadTo(seen, at, me, told, o);
    } else {
      SpreadSame(seen, at, me, told, told1);
    }
    if me in seen {
      SpreadOwnAdd(seen, at, me, told1, o);
    } else {
      SpreadSame(seen, at, me, told1, ToldOnMove(added + {o}, {}, {}));
    }
  }

  lemma VanishedStep(seen: map<ObjectId, Replica>, at: map<ObjectId, Pos>, me: ObjectId,
                     added: set<ObjectId>, gone: set<ObjectId>, o: ObjectId)
    requires me in at && o in at && o != me && added <= at.Keys && o !in added && o !in gone
    ensures var r := Spread(seen, at, me, ToldOnMove(added, gone, {}));
      var r1 := if o in seen then r[o := Receive(o, r[o], Remove(me))] else r;
      var r2 := if me in seen then r1[me := Receive(me, r1[me], Remove(o))] else r1;
      Spread(seen, at, me, ToldOnMove(added, gone + {o}, {})) == r2
  {
    hide Receive, Places, Spread;
    var told := ToldOnMove(added, gone, {});
    var told1 := told.(removes := gone + {o});
    if o in seen {
      SpreadTo(seen, at, me, told, o);
    } else {
      SpreadSame(seen, at, me, told, told1);
    }
    if me in seen {
      SpreadOwnRemove(seen, at, me, told1, o);
    } else {
      SpreadSame(seen, at, me, told1, ToldOnMove(added, gone + {o}, {}));
    }
  }

  lemma MovedStep(seen: map<ObjectId, Replica>, at: map<ObjectId, Pos>, me: ObjectId,
                  added: set<ObjectId>, gone: set<ObjectId>, kept: set<ObjectId>, o: ObjectId)
    requires me in at && o != me && added <= at.Keys && o !in added && o !in gone && o !in kept
    ensures var r := Spread(seen, at, me, ToldOnMove(added, gone, kept));
      Spread(seen, at, me, ToldOnMove(added, gone, kept + {o}))
        == if o in seen then r[o := Receive(o, r[o], Move(me, at[me]))] else r
  {
    hide Receive, Places, Spread;
    if o in seen {
      SpreadTo(seen, at, me, ToldOnMove(added, gone, kept), o);
    } else {
      SpreadSame(seen, at, me, ToldOnMove(added, gone, kept), ToldOnMove(added, gone, kept + {o}));
    }
  }

  /** Taking one more element out of the rest adds it to what is done. */
  lemma OneMoreDone(ids: set<ObjectId>, rest: set<ObjectId>, id: ObjectId)
    requires rest <= ids && id in rest
    ensures ids - (rest - {id}) == (ids - rest) + {id} && id !in ids - rest
  {
  }

  /** Sends every observer, and the object itself if it is a player, the difference between the views. */
  method ProcessMoveView(sm: SectorManager, pop: Population, net: Sessions, me: ObjectId, from: Pos)
    requires sm.Valid() && Standing(pop, sm.at) && net.sent.Keys == pop.players.Keys
    requires me in sm.at && sm.t.InMap(from)
    modifies net
    ensures net.sent.Keys == old(net.sent).Keys && net.Own() == old(net.Own())
    ensures net.Shown() == AfterMove(sm.t, sm.at, old(net.Shown()), me, from)
  {
    ghost var seen := net.Shown();
    var before := VisibleFrom(sm, pop, me, from);
    var after := VisibleFrom(sm, pop, me, pop.PosOf(me));
    SpreadNothing(seen, sm.at, me);
    SendAppeared(sm, pop, net, me, after - before, seen);
    SendVanished(sm, pop, net, me, after - before, before - after, seen);
    SendMoved(sm, pop, net, me, after - before, before - after, after * before, seen);
    MoveIsSpread(sm.t, sm.at, seen, me, from);
  }

  /** First loop: the objects that came into view. */
  method SendAppeared(sm: SectorManager, pop: Population, net: Sessions, me: ObjectId, ids: set<ObjectId>,
                      ghost seen: map<ObjectId, Replica>)
    requires sm.Valid() && Standing(pop, sm.at) && net.sent.Keys == pop.players.Keys
    requires me in sm.at && me !in ids && ids <= sm.at.Keys && net.Shown() == seen
    modifies net
    ensures net.sent.Keys == old(net.sent).Keys && net.Own() == old(net.Own())
    ensures net.Shown() == Spread(seen, sm.at, me, ToldOnMove(ids, {}, {}))
  {
    hide Occupancy, Indexed, Spread, Receive, Sessions.Own, InSquare;
    var rest := ids;
    ghost var own := net.Own();
    SpreadNothing(seen, sm.at, me);
    assert ids - rest == {};
    while rest != {}
      invariant rest <= ids && net.sent.Keys == seen.Keys && net.Own() == own
      invariant net.Shown() == Spread(seen, sm.at, me, ToldOnMove(ids - rest, {}, {}))
      decreases |rest|
    {
      SomeElement(rest);
      var id :| id in rest;
      OneMoreDone(ids, rest, id);
      AppearedStep(seen, sm.at, me, ids - rest, id);
      if IsPlayerId(id) {
        if id in pop.players {
          net.Send(id, Add(me, pop.PosOf(me)));
          if IsPlayerId(me) {
            net.Send(me, Add(id, pop.players[id].pos));
          }
        }
      } else if IsPlayerId(me) && pop.IsMonster(id) {
        net.Send(me, Add(id, pop.GetMonster(id).pos));
      }
      rest := rest - {id};
    }
    assert ids - rest == ids;
  }

  /** Second loop: the objects that went out of view. */
  method SendVanished(sm: SectorManager, pop: Population, net: Sessions, me: ObjectId,
                      ghost added: set<ObjectId>, ids: set<ObjectId>, ghost seen: map<ObjectId, Replica>)
    requires sm.Valid() && Standing(pop, sm.at) && net.sent.Keys == pop.players.Keys == seen.Keys
    requires me in sm.at && me !in ids && ids <= sm.at.Keys && added <= sm.at.Keys && added !! ids
    requires net.Shown() == Spread(seen, sm.at, me, ToldOnMove(added, {}, {}))
    modifies net
    ensures net.sent.Keys == old(net.sent).Keys && net.Own() == old(net.Own())
    ensures net.Shown() == Spread(seen, sm.at, me, ToldOnMove(added, ids, {}))
  {
    var rest := ids;
    ghost var own := net.Own();
    assert ids - rest == {};
    while rest != {}
      invariant rest <= ids && net.sent.Keys == seen.Keys && net.Own() == own
      invariant net.Shown() == Spread(seen, sm.at, me, ToldOnMove(added, ids - rest, {}))
      decreases |rest|
    {
      SomeElement(rest);
      var id :| id in rest;
      OneMoreDone(ids, rest, id);
      VanishedStep(seen, sm.at, me, added, ids - rest, id);
      if IsPlayerId(id) {
        if id in pop.players {
          net.Send(id, Remove(me));
        }
        if IsPlayerId(me) {
          net.Send(me, Remove(id));
        }
      } else if IsPlayerId(me) {
        net.Send(me, Remove(id));
      }
      rest := rest - {id};
    }
    assert ids - rest == ids;
  }

  /** Third loop: the players that saw `me` before and still do. */
  method SendMoved(sm: SectorManager, pop: Population, net: Sessions, me: ObjectId,
                   ghost added: set<ObjectId>, ghost gone: set<ObjectId>, ids: set<ObjectId>, ghost seen: map<ObjectId, Replica>)
    requires sm.Valid() && Standing(pop, sm.at) && net.sent.Keys == pop.players.Keys == seen.Keys
    requires me in sm.at && me !in ids && ids <= sm.at.Keys && added <= sm.at.Keys && added + gone !! ids
    requires net.Shown() == Spread(seen, sm.at, me, ToldOnMove(added, gone, {}))
    modifies net
    ensures net.sent.Keys == old(net.sent).Keys && net.Own() == old(net.Own())
    ensures net.Shown() == Spread(seen, sm.at, me, ToldOnMove(added, gone, ids))
  {
    var rest := ids;
    ghost var own := net.Own();
    assert ids - rest == {};
    while rest != {}
      invariant rest <= ids && net.sent.Keys == seen.Keys && net.Own() == own
      invariant net.Shown() == Spread(seen, sm.at, me, ToldOnMove(added, gone, ids - rest))
      decreases |rest|
    {
      SomeElement(rest);
      var id :| id in rest;
      OneMoreDone(ids, rest, id);
      MovedStep(seen, sm.at, me, added, gone, ids - rest, id);
      if IsPlayerId(id) && id in pop.players {
        net.Send(id, Move(me, pop.PosOf(me)));
      }
      rest := rest - {id};
    }
    assert ids - rest == ids;
  }

  /** The first `i` ids of a list. */
  ghost function Prefix(ids: seq<ObjectId>, i: nat): set<ObjectId>
    requires i <= |ids|
  {
    set k | 0 <= k < i :: ids[k]
  }

  /** One step of a loop over distinct ids that skips those outside `view`. */
  lemma PrefixStep(ids: seq<ObjectId>, i: nat, view: set<ObjectId>)
    requires NoDuplicates(ids) && i < |ids|
    ensures ids[i] !in Prefix(ids, i) * view
    ensures Prefix(ids, i + 1) * view ==
      if ids[i] in view then Prefix(ids, i) * view + {ids[i]} else Prefix(ids, i) * view
  {
  }

  lemma PrefixAll(ids: seq<ObjectId>, view: set<ObjectId>)
    requires forall id :: id in view ==> id in ids
    ensures Prefix(ids, 0) * view == {} && Prefix(ids, |ids|) * view == view
  {
    forall id | id in view ensures id in Prefix(ids, |ids|) {
      var k :| 0 <= k < |ids| && ids[k] == id;
    }
  }

  /** One step of telling everybody in view: the next id counts if it is in view and has a client. */
  lemma TellNext(seen: map<ObjectId, Replica>, ids: seq<ObjectId>, i: nat, view: set<ObjectId>, p: Packet)
    requires NoDuplicates(ids) && i < |ids|
    ensures var r := TellAll(seen, Prefix(ids, i) * view, p);
      TellAll(seen, Prefix(ids, i + 1) * view, p)
        == if ids[i] in view && ids[i] in r then r[ids[i] := Receive(ids[i], r[ids[i]], p)] else r
  {
    PrefixStep(ids, i, view);
    hide Prefix, Receive;
  }

  lemma TellStart(seen: map<ObjectId, Replica>, ids: seq<ObjectId>, view: set<ObjectId>, p: Packet)
    ensures TellAll(seen, Prefix(ids, 0) * view, p) == seen
  {
  }

  lemma NearbyHoldsView(t: Terrain, at: map<ObjectId, Pos>, me: ObjectId, c: Pos, ids: seq<ObjectId>)
    requires forall id :: id in ids <==> id in at && SectorsTouch(t, c, at[id])
    ensures forall id :: id in ViewSet(t, at, me, c) ==> id in ids
  {
    ViewSetIsNearby(t, at, me, c);
  }

  /** A player appears: it learns about everything in view, and the players in view about it. */
  method SendFullView(sm: SectorManager, pop: Population, net: Sessions, me: ObjectId)
    requires sm.Valid() && Standing(pop, sm.at) && net.sent.Keys == pop.players.Keys
    requires me in pop.players
    modifies net
    ensures net.sent.Keys == old(net.sent).Keys && net.Own() == old(net.Own())
    ensures net.Shown() == AfterEnter(sm.t, sm.at, old(net.Shown()), me)
  {
    ghost var seen, own := net.Shown(), net.Own();
    var c := pop.players[me].pos;
    var ids := sm.GetNearbyObjects(c);
    ghost var view := ViewSet(sm.t, sm.at, me, c);
    NearbyHoldsView(sm.t, sm.at, me, c, ids);
    PrefixAll(ids, view);
    SpreadNothing(seen, sm.at, me);
    for i := 0 to |ids|
      invariant net.sent.Keys == seen.Keys && net.Own() == own
      invariant net.Shown() == Spread(seen, sm.at, me, ToldOnMove(Prefix(ids, i) * view, {}, {}))
    {
      var id := ids[i];
      assert id in ids && pop.Has(id);
      assert id in view <==> id != me && sm.t.InView(c, pop.PosOf(id));
      hide Spread, Receive, Prefix, ViewSet;
      PrefixStep(ids, i, view);
      if id != me && sm.t.InView(c, pop.PosOf(id)) {
        AppearedStep(seen, sm.at, me, Prefix(ids, i) * view, id);
        SendAddBoth(sm, pop, net, me, id);
      }
    }
    EnterIsSpread(sm.t, sm.at, seen, me);
  }

  /** Where the records of a player and of another object put them, and which of them has a client. */
  lemma BothStand(pop: Population, at: map<ObjectId, Pos>, me: ObjectId, id: ObjectId)
    requires Standing(pop, at) && me in pop.players && id in at
    ensures me in at && pop.players[me].pos == at[me] && pop.Has(id) && pop.PosOf(id) == at[id]
    ensures IsPlayerId(id) <==> id in pop.players
  {
  }

  lemma EitherOrder(r: map<ObjectId, Replica>, a: ObjectId, x: Replica, b: ObjectId, y: Replica)
    requires a != b
    ensures r[a := x][b := y] == r[b := y][a := x]
  {
  }

  /** Tells `me` about `id`, and `id`, if it is a player, about `me`. */
  method SendAddBoth(sm: SectorManager, pop: Population, net: Sessions, me: ObjectId, id: ObjectId)
    requires Standing(pop, sm.at) && net.sent.Keys == pop.players.Keys
    requires me in pop.players && id in sm.at && id != me
    modifies net
    ensures net.sent.Keys == old(net.sent).Keys && net.Own() == old(net.Own())
    ensures var r := old(net.Shown());
      var r1 := if id in r then r[id := Receive(id, r[id], Add(me, sm.at[me]))] else r;
      me in r && net.Shown() == r1[me := Receive(me, r1[me], Add(id, sm.at[id]))]
  {
    hide Receive, Sessions.Own, Tables;
    BothStand(pop, sm.at, me, id);
    ghost var r := net.Shown();
    net.ShownKeys();
    hide Standing, Sessions.Shown;
    net.Send(me, Add(id, pop.PosOf(id)));
    if IsPlayerId(id) {
      net.Send(id, Add(me, pop.players[me].pos));
      EitherOrder(r, me, Receive(me, r[me], Add(id, sm.at[id])), id, Receive(id, r[id], Add(me, sm.at[me])));
    }
  }

  /** Sends one packet to every player that has `me`, standing at `c`, in view. */
  method TellObservers(sm: SectorManager, pop: Population, net: Sessions, me: ObjectId, c: Pos, p: Packet)
    requires sm.Valid() && StandingBut(pop, sm.at, me) && net.sent.Keys == pop.players.Keys
    requires me in sm.at && sm.at[me] == c
    requires !p.Move?
    modifies net
    ensures net.sent.Keys == old(net.sent).Keys && net.Own() == old(net.Own())
    ensures net.Shown() == TellAll(old(net.Shown()), ViewSet(sm.t, sm.at, me, c), p)
  {
    ghost var seen := net.Shown();
    var ids := sm.GetNearbyObjects(c);
    ghost var view := ViewSet(sm.t, sm.at, me, c);
    NearbyHoldsView(sm.t, sm.at, me, c, ids);
    PrefixAll(ids, view);
    TellStart(seen, ids, view, p);
    forall i | 0 <= i < |ids| ensures ids[i] in sm.at {
      assert ids[i] in ids;
    }
    TellNearby(sm, pop, net, me, c, p, ids);
  }

  /** The loop over the ids nearby. */
  method TellNearby(sm: SectorManager, pop: Population, net: Sessions, me: ObjectId, c: Pos, p: Packet, ids: seq<ObjectId>)
    requires StandingBut(pop, sm.at, me) && net.sent.Keys == pop.players.Keys && NoDuplicates(ids)
    requires forall i :: 0 <= i < |ids| ==> ids[i] in sm.at
    requires !p.Move?
    modifies net
    ensures net.sent.Keys == old(net.sent).Keys && net.Own() == old(net.Own())
    ensures net.Shown() == TellAll(old(net.Shown()), Prefix(ids, |ids|) * ViewSet(sm.t, sm.at, me, c), p)
  {
    hide *;
    ghost var seen, own, view := net.Shown(), net.Own(), ViewSet(sm.t, sm.at, me, c);
    TellStart(seen, ids, view, p);
    for i := 0 to |ids|
      invariant net.sent.Keys == pop.players.Keys && net.Own() == own
      invariant net.Shown() == TellAll(seen, Prefix(ids, i) * view, p)
    {
      TellNext(seen, ids, i, view, p);
      TellOne(sm, pop, net, me, c, p, ids[i]);
    }
  }

  /** One id nearby: sent to, if it is a player that has `me` in view. */
  method TellOne(sm: SectorManager, pop: Population, net: Sessions, me: ObjectId, c: Pos, p: Packet, id: ObjectId)
    requires StandingBut(pop, sm.at, me) && net.sent.Keys == pop.players.Keys && id in sm.at
    requires !p.Move?
    modifies net
    ensures net.sent.Keys == old(net.sent).Keys && net.Own() == old(net.Own())
    ensures var r := old(net.Shown());
      net.Shown() == if id in ViewSet(sm.t, sm.at, me, c) && id in r then r[id := Receive(id, r[id], p)] else r
  {
    hide Receive;
    if id != me && IsPlayerId(id) && sm.t.InView(c, pop.players[id].pos) {
      net.Send(id, p);
    }
  }

  /** A player disappears. */
  method SendDisappear(sm: SectorManager, pop: Population, net: Sessions, me: ObjectId)
    requires sm.Valid() && Standing(pop, sm.at) && net.sent.Keys == pop.players.Keys
    requires me in pop.players
    modifies net
    ensures net.sent.Keys == old(net.sent).Keys && net.Own() == old(net.Own())
    ensures net.Shown() == AfterVanish(sm.t, sm.at, old(net.Shown()), me)
  {
    TellObservers(sm, pop, net, me, pop.players[me].pos, Remove(me));
  }
}
