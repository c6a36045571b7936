/** Orphan reconciliation after a restart. What the OS answers when the i-th record is looked at is an
    input: which process, if any, now has that pid, and whether killing it succeeds. */
module Supervisor {
  import opened Options

  datatype Proc = Proc(pid: int, start: nat, session: string)

  /** AliveWithIdentity: the pid exists and, when a start time was recorded, is the same process. */
  predicate AliveWithIdentity(p: Proc, identity: Option<nat>) {
    p.pid > 0 && identity.Some? && (p.start == 0 || identity.value == p.start)
  }

  predicate FirstRecord(prev: seq<Proc>, i: nat)
    requires i < |prev|
  {
    forall j | 0 <= j < i :: prev[j].pid != prev[i].pid
  }

  /** Record i speaks for its pid, belongs to no live session, carries an identity, and the process that
      has the pid now is the one recorded. */
  predicate Orphan(prev: seq<Proc>, live: set<string>, world: seq<Option<nat>>, i: nat)
    requires i < |prev| && |world| == |prev|
  {
    && FirstRecord(prev, i) && prev[i].session !in live
    && prev[i].pid > 0 && prev[i].start != 0 && world[i] == Some(prev[i].start)
  }

  /** In all, a record is an orphan's if it is the first of its pid, has a start time that the process of that pid still
      has, and names no live session; a pid is a positive number. */
  lemma OrphanIff(prev: seq<Proc>, live: set<string>, world: seq<Option<nat>>, i: nat)
    requires i < |prev| && |world| == |prev|
    ensures Orphan(prev, live, world, i) <==>
              prev[i].pid >= 1 && prev[i].start >= 1 && world[i] == Some(prev[i].start) && prev[i].session !in live
              && prev[i].pid !in set j | 0 <= j < i :: prev[j].pid
  {
  }

  predicate Distinct(pids: seq<int>) {
    forall i, j | 0 <= i < j < |pids| :: pids[i] != pids[j]
  }

  /** Kill each pid at most once, only on the strength of its first record, and only if that record's
      identity matches the live process; report exactly the kills that succeeded. */
  method ReconcileOrphans(prev: seq<Proc>, live: set<string>, world: seq<Option<nat>>, killOk: seq<bool>)
    returns (reaped: seq<int>, attempts: seq<int>)
    requires |world| == |prev| && |killOk| == |prev|
    ensures Distinct(attempts) && Distinct(reaped)
    ensures forall pid :: pid in attempts <==>
              exists i :: 0 <= i < |prev| && Orphan(prev, live, world, i) && prev[i].pid == pid
    ensures forall pid :: pid in reaped <==>
              exists i :: 0 <= i < |prev| && Orphan(prev, live, world, i) && killOk[i] && prev[i].pid == pid
  {
    reaped, attempts := [], [];
    var seen: set<int> := {};
    for i := 0 to |prev|
      invariant forall pid :: pid in seen <==> exists j :: 0 <= j < i && prev[j].pid == pid
      invariant Distinct(attempts) && Distinct(reaped)
      invariant forall pid | pid in attempts || pid in reaped :: pid in seen
      invariant forall pid :: pid in attempts <==>
                  exists j :: 0 <= j < i && Orphan(prev, live, world, j) && prev[j].pid == pid
      invariant forall pid :: pid in reaped <==>
                  exists j :: 0 <= j < i && Orphan(prev, live, world, j) && killOk[j] && prev[j].pid == pid
    {
      var r := prev[i];
      if r.pid in seen {
        continue;
      }
      seen := seen + {r.pid};
      if r.session in live || r.start == 0 {
        continue;
      }
      if AliveWithIdentity(r, world[i]) {
        assert Orphan(prev, live, world, i);
        attempts := attempts + [r.pid];
        if killOk[i] {
          reaped := reaped + [r.pid];
        }
      }
    }
  }
}
