/** A pool of agents that are checked out and back in, core/coordination/pool.py:21-48. */
module AgentPools {
  import opened Sequences

  /** The agents that are not busy, in order. */
  function Idle(agents: seq<string>, busy: set<string>): seq<string> {
    if agents == [] then []
    else
      var a := agents[|agents| - 1];
      Idle(agents[..|agents| - 1], busy) + if a in busy then [] else [a]
  }

  lemma {:induction false} IdleMembers(agents: seq<string>, busy: set<string>)
    ensures Elements(Idle(agents, busy)) == Elements(agents) - busy
    ensures NoDup(agents) ==> NoDup(Idle(agents, busy))
  {
    if agents != [] {
      var n := |agents| - 1;
      IdleMembers(agents[..n], busy);
      if agents[n] in busy {
        assert Idle(agents, busy) == Idle(agents[..n], busy);
      } else {
        ElementsPush(Idle(agents[..n], busy), agents[n]);
        NoDupPush(Idle(agents[..n], busy), agents[n]);
      }
    }
  }

  /** They keep the order of the pool; if none of these is busy, they are all of them. */
  lemma {:induction false} IdleInOrder(a: seq<string>, b: seq<string>, busy: set<string>)
    ensures Idle(a + b, busy) == Idle(a, busy) + Idle(b, busy)
    ensures Elements(b) !! busy ==> Idle(b, busy) == b
  {
    if b == [] {
      assert a + b == a;
    } else {
      var n := |b| - 1;
      assert (a + b)[..|a + b| - 1] == a + b[..n];
      IdleInOrder(a, b[..n], busy);
    }
  }

  class AgentPool {
    const agents: seq<string>
    var busy: set<string>

    /** Agents are told apart by their ids, which nothing keeps from being the same. */
    constructor (agents: seq<string>)
      ensures this.agents == agents && busy == {}
    {
      this.agents := agents;
      busy := {};
    }

    function Available(): seq<string>
      reads this
    {
      Idle(agents, busy)
    }

    /** Checks out up to `n` idle agents, the first ones. */
    method Checkout(n: nat) returns (taken: seq<string>)
      modifies this
      ensures taken == Front(old(Available()), n)
      ensures NoDup(agents) ==> NoDup(taken)
      ensures Elements(taken) !! old(busy) && Elements(taken) <= Elements(agents)
      ensures busy == old(busy) + Elements(taken)
    {
      IdleMembers(agents, busy);
      var available := Available();
      taken := Front(available, n);
      MarkBusy(taken);
    }

    method MarkBusy(taken: seq<string>)
      modifies this
      ensures busy == old(busy) + Elements(taken)
    {
      for i := 0 to |taken|
        invariant busy == old(busy) + Elements(taken[..i])
      {
        ElementsUpTo(taken, i);
        busy := busy + {taken[i]};
      }
      assert taken[..|taken|] == taken;
    }

    method Checkin(returned: seq<string>)
      modifies this
      ensures busy == old(busy) - Elements(returned)
    {
      for i := 0 to |returned|
        invariant busy == old(busy) - Elements(returned[..i])
      {
        ElementsUpTo(returned, i);
        busy := busy - {returned[i]};
      }
      assert returned[..|returned|] == returned;
    }
  }

  /** The first `n` elements, or all. */
  function Front(s: seq<string>, n: nat): (front: seq<string>)
    ensures front <= s && |front| == if n < |s| then n else |s|
    ensures Elements(front) <= Elements(s)
    ensures NoDup(s) ==> NoDup(front)
  {
    var m := if n < |s| then n else |s|;
    Cut(s, m);
    s[..m]
  }

  lemma {:induction false} ElementsUpTo(s: seq<string>, i: nat)
    requires i < |s|
    ensures Elements(s[..i + 1]) == Elements(s[..i]) + {s[i]}
  {
    UpTo(s, i);
  }
}
