/** The timer thread's queue of monster events. */
module Timers {
  import opened Grid
  import opened World

  lemma {:induction false} EarliestExists(q: multiset<Timer>)
    requires |q| > 0
    ensures exists e :: e in q && forall x :: x in q ==> e.due <= x.due
    decreases |q|
  {
    var e :| e in q;
    var rest := q - multiset{e};
    if |rest| > 0 {
      EarliestExists(rest);
      var f :| f in rest && forall x :: x in rest ==> f.due <= x.due;
      var first := if e.due <= f.due then e else f;
      forall x | x in q ensures first.due <= x.due {
        assert x == e || x in rest;
      }
      assert first in q;
    } else {
      forall x | x in q ensures x == e {
        assert x == e || x in rest;
      }
    }
  }

  class TimerManager {
    var queue: multiset<Timer>

    constructor ()
      ensures queue == multiset{}
    {
      queue := multiset{};
    }

    method AddTimer(kind: Kind, target: ObjectId, now: int, delay: int)
      modifies this
      ensures queue == old(queue) + multiset{Timer(now + delay, kind, target)}
    {
      queue := queue + multiset{Timer(now + delay, kind, target)};
    }

    /** One pass of the worker thread: hands out an earliest event if it is due, and otherwise waits. */
    method Next(now: int) returns (due: bool, e: Timer)
      modifies this
      ensures due ==> e in old(queue) && e.due <= now && forall x :: x in old(queue) ==> e.due <= x.due
      ensures queue == if due then old(queue) - multiset{e} else old(queue)
      ensures !due ==> forall x :: x in queue ==> now < x.due
    {
      e := Timer(0, Ai, 0);
      if |queue| == 0 {
        return false, e;
      }
      EarliestExists(queue);
      e :| e in queue && forall x :: x in queue ==> e.due <= x.due;
      if e.due > now {
        return false, e;
      }
      queue := queue - multiset{e};
      return true, e;
    }
  }
}
