/** The store of tasks that the runner works off, core/tracker/core.py:30-48 and 341-399. */
module ItemTrackers {
  import opened Sequences

  datatype Status = Pending | InProgress | Completed | Failed | Deleted
  {
    predicate Terminal() {
      Completed? || Deleted?
    }
  }

  function AttemptsIn(attempts: map<string, nat>, id: string): nat {
    if id in attempts then attempts[id] else 0
  }

  class ItemTracker {
    var status: map<string, Status>
    var dependsOn: map<string, set<string>>
    var attempts: map<string, nat>

    constructor ()
      ensures status == map[]
    {
      status, dependsOn, attempts := map[], map[], map[];
    }

    /** Pending, with every dependency terminal. */
    predicate IsReady(id: string)
      reads this
    {
      && id in status && status[id].Pending?
      && (id in dependsOn ==> forall d :: d in dependsOn[id] ==> d in status && status[d].Terminal())
    }

    /** The ready tasks in some order. */
    method Ready() returns (ready: seq<string>)
      ensures NoDup(ready)
      ensures forall id :: id in Elements(ready) <==> IsReady(id)
      ensures forall id :: id in Elements(ready) <==>
                && id in status && status[id] == Pending
                && (id in dependsOn ==> forall d :: d in dependsOn[id] ==>
                      d in status && (status[d] == Completed || status[d] == Deleted))
    {
      ready := [];
      var rest := status.Keys;
      while rest != {}
        invariant rest <= status.Keys && NoDup(ready) && Elements(ready) !! rest
        invariant forall id :: id in Elements(ready) <==> IsReady(id) && id !in rest
      {
        var id :| id in rest;
        if IsReady(id) {
          NoDupPush(ready, id);
          ElementsPush(ready, id);
          ready := ready + [id];
        }
        rest := rest - {id};
      }
    }

    /** Some task is not terminal. */
    predicate HasPending()
      reads this
    {
      exists id :: id in status && !status[id].Terminal()
    }

    method MarkInProgress(id: string)
      modifies this`status, this`attempts
      ensures status == if id in old(status) then old(status)[id := InProgress] else old(status)
      ensures attempts ==
                if id in old(status) then old(attempts)[id := AttemptsIn(old(attempts), id) + 1] else old(attempts)
      ensures id in old(status) && id in old(attempts) ==> attempts[id] == old(attempts)[id] + 1
      ensures id in old(status) && id !in old(attempts) ==> attempts[id] == 1
    {
      if id in status {
        status := status[id := InProgress];
        attempts := attempts[id := AttemptsIn(attempts, id) + 1];
      }
    }

    method RecordResult(id: string, success: bool)
      modifies this`status
      ensures status ==
                if id in old(status) then old(status)[id := if success then Completed else Failed] else old(status)
    {
      if id in status {
        status := status[id := if success then Completed else Failed];
      }
    }
  }
}
