/** Terminations interleaved with everything else the daemon does: another caller may come in between any
    two critical sections. */
module Interleaving {
  import opened Documents
  import opened Disks
  import opened LeaseModel
  import opened LeaseInvariant
  import opened LeaseHandoff
  import opened LeaseIdle
  import opened LeaseSnapshots
  import opened Recovery
  import opened Daemon
  import Ports
  import Sessions
  import Store

  /** One critical section of a manager together with the save that follows it. */
  datatype Op = LeaseOp(a: Action) | PortOp | SessionOp | RunOp(r: Run) | StartRunOp(r: Run)

  ghost predicate OwnsNoPort(w: World, id: string) {
    forall p | p in w.ports :: w.ports[p].session != id
  }

  ghost predicate Free(w: World, id: string) {
    Idle(w.leases, id) && OwnsNoPort(w, id)
  }

  /** No session that is over acquires. */
  ghost predicate DoesLeases(w: World, w': World, a: Action) {
    && OnlyLeases(w, w') && w'.leases == Step(w.leases, a)
    && (Saved(w, w', LeasesKey, LeasesDoc(TakeSnapshot(w'.leases)))
        || (Untouched(w, w') && SameButDeadlines(w.leases.leases, w'.leases.leases)))
    && (a.DoAcquire? ==> !Dead(w.sessions, a.session))
  }

  /** Rows go, and come for sessions that are not over. */
  ghost predicate DoesPorts(w: World, w': World) {
    && OnlyPorts(w, w') && PortRows(w'.ports)
    && (Saved(w, w', PortsKey, PortsDoc(w'.ports)) || (Untouched(w, w') && w'.ports == w.ports))
    && forall p | p in w'.ports :: OldRow(w, w', p) || !Dead(w.sessions, w'.ports[p].session)
  }

  predicate OldRow(w: World, w': World, p: int)
    requires p in w'.ports
  {
    p in w.ports && w.ports[p] == w'.ports[p]
  }

  /** Sessions come and change state, and end once they own nothing. */
  ghost predicate DoesSessions(w: World, w': World) {
    && OnlySessions(w, w') && Sessions.IdsOk(w'.sessions, w'.lastSession)
    && (Saved(w, w', SessionsKey, SessionsDoc(w'.sessions)) || (Untouched(w, w') && w'.sessions == w.sessions))
    && forall x | Dead(w'.sessions, x) :: Dead(w.sessions, x) || Free(w, x)
  }

  ghost predicate DoesRuns(w: World, w': World, r: Run) {
    && OnlyRuns(w, w') && w'.runs == w.runs[r.id := r] && w'.disk == w.disk[RunKey(r.id) := RunDoc(r)]
    && w'.images == w.images + Store.OverwriteImages(w.disk, RunKey(r.id), RunDoc(r))
  }

  /** A run enters the table; nothing is written of it yet. */
  ghost predicate StartsRun(w: World, w': World, r: Run) {
    OnlyRuns(w, w') && Untouched(w, w') && w'.runs == w.runs[r.id := r]
  }

  ghost predicate Does(w: World, w': World, op: Op) {
    match op
    case LeaseOp(a) => DoesLeases(w, w', a)
    case PortOp => DoesPorts(w, w')
    case SessionOp => DoesSessions(w, w')
    case RunOp(r) => DoesRuns(w, w', r)
    case StartRunOp(r) => StartsRun(w, w', r)
  }

  /** The worlds an execution goes through. */
  ghost predicate Execution(ws: seq<World>, ops: seq<Op>) {
    |ws| == |ops| + 1 && forall i | 0 <= i < |ops| :: Does(ws[i], ws[i + 1], ops[i])
  }

  lemma OpKeeps(w: World, w': World, op: Op)
    requires Consistent(w) && Does(w, w', op)
    ensures Consistent(w') && Keeps(Span(w, w'))
  {
    match op
    case LeaseOp(a) => LeaseAction(w, w', a);
    case PortOp =>
      PortAction(w, w');
      if Good(w) { assert PortsAlive(w'.ports, w.sessions); }
    case SessionOp =>
      SessionAction(w, w');
      if Good(w) {
        assert PortsAlive(w.ports, w'.sessions);
        forall x | Dead(w'.sessions, x) ensures Idle(w.leases, x) {}
      }
    case RunOp(r) => RunAction(w, w', r);
    case StartRunOp(_) =>
  }

  /** Whatever is going on, no session that is over comes to own anything, and every crash is recoverable. */
  lemma {:induction false} ExecutionKeeps(ws: seq<World>, ops: seq<Op>, n: nat)
    requires Execution(ws, ops) && n <= |ops| && Consistent(ws[0])
    ensures Consistent(ws[n]) && Keeps(Span(ws[0], ws[n]))
  {
    if n == 0 {
      KeepsRefl(ws[0]);
    } else {
      var u, v, w := ws[0], ws[n - 1], ws[n];
      ExecutionKeeps(ws, ops, n - 1);
      assert Does(ws[n - 1], ws[n - 1 + 1], ops[n - 1]);
      OpKeeps(v, w, ops[n - 1]);
      KeepsTrans(u, v, w);
    }
  }

  /** The session acquires a lease or joins a queue. */
  predicate Asks(op: Op, id: string) {
    op.LeaseOp? && op.a.DoAcquire? && op.a.session == id
  }

  /** The session is given a port. */
  ghost predicate GivesPort(w: World, w': World, id: string) {
    exists p :: p in w'.ports && !OldRow(w, w', p) && w'.ports[p].session == id
  }

  lemma {:induction false} StaysReleased(ws: seq<World>, ops: seq<Op>, i: nat, n: nat, id: string)
    requires Execution(ws, ops) && i <= n <= |ops| && Idle(ws[i].leases, id)
    requires forall k | i <= k < n :: !Asks(ops[k], id)
    ensures Idle(ws[n].leases, id)
    decreases n
  {
    if i < n {
      var w := ws[n - 1];
      StaysReleased(ws, ops, i, n - 1, id);
      assert Does(ws[n - 1], ws[n - 1 + 1], ops[n - 1]) && !Asks(ops[n - 1], id);
      if ops[n - 1].LeaseOp? { StepKeepsIdle(w.leases, ops[n - 1].a, id); }
    }
  }

  lemma {:induction false} StaysPortless(ws: seq<World>, ops: seq<Op>, j: nat, n: nat, id: string)
    requires Execution(ws, ops) && j <= n <= |ops| && OwnsNoPort(ws[j], id)
    requires forall k | j <= k < n :: !GivesPort(ws[k], ws[k + 1], id)
    ensures OwnsNoPort(ws[n], id)
    decreases n
  {
    if j < n {
      var w, w' := ws[n - 1], ws[n];
      StaysPortless(ws, ops, j, n - 1, id);
      assert !GivesPort(ws[n - 1], ws[n - 1 + 1], id);
      forall p | p in w'.ports ensures w'.ports[p].session != id {
        assert OldRow(w, w', p) || w'.ports[p].session != id;
      }
    }
  }

  /** The last step of a termination: the row becomes terminal, whatever the session owns by then. */
  ghost predicate Finishes(w: World, w': World, id: string, row: Session) {
    && OnlySessions(w, w') && w'.lastSession == w.lastSession
    && id in w.sessions && row.id == id && Terminal(row.state) && w'.sessions == w.sessions[id := row]
    && Saved(w, w', SessionsKey, SessionsDoc(w'.sessions))
  }

  /** Ending a session is safe exactly when it owns nothing at that moment; the disk it leaves is safe to crash
      on exactly when it holds no lease and no port. */
  lemma FinishIsSafeIff(w: World, w': World, id: string, row: Session)
    requires Good(w) && Finishes(w, w', id, row)
    ensures Consistent(w') && (Keeps(Span(w, w')) <==> Free(w, id))
    ensures CrashSafe(w'.disk) <==> HoldsNothing(w.leases, id) && OwnsNoPort(w, id)
  {
    RevisedSession(w, w', id, row);
    assert Dead(w'.sessions, id);
    if CrashSafe(w'.disk) { CrashSafeMeansHoldsNothing(w', id); }
    forall x | Dead(w'.sessions, x) && x != id ensures Dead(w.sessions, x) {}
    GoodIsRecoverable(w);
    if HoldsNothing(w.leases, id) && OwnsNoPort(w, id) { EndedSafely(w, w', id); }
  }

  lemma EndedSafely(w: World, w': World, id: string)
    requires Good(w) && Consistent(w') && OnlySessions(w, w')
    requires forall x | Dead(w'.sessions, x) && x != id :: Dead(w.sessions, x)
    requires HoldsNothing(w.leases, id) && OwnsNoPort(w, id)
    ensures CrashSafe(w'.disk)
  {
    var d, s := w'.disk, w'.leases;
    forall k | k in LeasesOn(d) && LeasesOn(d)[k].state == Active
      ensures !Dead(w'.sessions, LeasesOn(d)[k].session)
    {
      assert Undated(LeasesOn(d)[k]) == Undated(s.leases[k]);
      assert Dead(w.sessions, s.leases[k].session) ==> Idle(s, s.leases[k].session);
    }
  }

  /** A termination with anything at all going on between its steps. Its own steps other than the last are
      steps of the execution: the i-th releases the session's leases, and serves no request of its own, the j-th
      its ports, runs are given up one by one anywhere. If the session asks for no lease after the one and
      is given no port after the other, every crash from the beginning to the end is recoverable. */
  lemma InterleavedTermination(ws: seq<World>, ops: seq<Op>, i: nat, j: nat, id: string, order: seq<string>,
                               now: Time, w': World, row: Session)
    requires Execution(ws, ops) && Good(ws[0]) && i < |ops| && j < |ops|
    requires ops[i] == LeaseOp(DoReleaseAll(id, order, now))
    requires LegalOrder(ws[i].leases, OwnedBy(id), order, now, now) && NoRematch(ws[i].leases, OwnedBy(id))
    requires forall k | i < k < |ops| :: !Asks(ops[k], id)
    requires ws[j + 1].ports == Ports.Remaining(ws[j].ports, Ports.OfSession(id))
    requires forall k | j < k < |ops| :: !GivesPort(ws[k], ws[k + 1], id)
    requires Finishes(ws[|ops|], w', id, row)
    ensures Keeps(Span(ws[0], w')) && CrashSafe(w'.disk)
  {
    var n := |ops|;
    var u, v := ws[0], ws[n];
    ExecutionKeeps(ws, ops, n);
    ReleasedIdle(ws, ops, i, id, order, now);
    StaysReleased(ws, ops, i + 1, n, id);
    PortsReleased(ws, ops, j, n, id);
    FinishIsSafeIff(v, w', id, row);
    KeepsTrans(u, v, w');
  }

  lemma ReleasedIdle(ws: seq<World>, ops: seq<Op>, i: nat, id: string, order: seq<string>, now: Time)
    requires Execution(ws, ops) && Consistent(ws[0]) && i < |ops|
    requires ops[i] == LeaseOp(DoReleaseAll(id, order, now))
    requires LegalOrder(ws[i].leases, OwnedBy(id), order, now, now) && NoRematch(ws[i].leases, OwnedBy(id))
    ensures Idle(ws[i + 1].leases, id)
  {
    ExecutionKeeps(ws, ops, i);
    var w, w' := ws[i], ws[i + 1];
    assert Does(ws[i], ws[i + 1], ops[i]);
    assert w'.leases == ReleaseAll(w.leases, id, order, now);
    ReleaseAllIdles(w.leases, id, order, now);
  }

  lemma ReleaseAllIdles(s: State, id: string, order: seq<string>, now: Time)
    requires Inv(s) && LegalOrder(s, OwnedBy(id), order, now, now) && NoRematch(s, OwnedBy(id))
    ensures Idle(ReleaseAll(s, id, order, now), id)
  {
    ReleaseAllExact(s, id, order, now);
    ReleasedWaitsForNothing(s, id, order, now);
  }

  lemma PortsReleased(ws: seq<World>, ops: seq<Op>, j: nat, n: nat, id: string)
    requires Execution(ws, ops) && j < n <= |ops|
    requires ws[j + 1].ports == Ports.Remaining(ws[j].ports, Ports.OfSession(id))
    requires forall k | j < k < n :: !GivesPort(ws[k], ws[k + 1], id)
    ensures OwnsNoPort(ws[n], id)
  {
    var w, w' := ws[j], ws[j + 1];
    forall p | p in w'.ports ensures w'.ports[p].session != id {
      assert p !in Ports.HitPorts(w.ports, Ports.OfSession(id));
    }
    StaysPortless(ws, ops, j + 1, n, id);
  }

  /** Without those conditions, what the session owns when its row becomes terminal decides. */
  lemma InterleavedTerminationIff(ws: seq<World>, ops: seq<Op>, id: string, w': World, row: Session)
    requires Execution(ws, ops) && Good(ws[0]) && Finishes(ws[|ops|], w', id, row)
    ensures Keeps(Span(ws[0], w')) <==> Free(ws[|ops|], id)
    ensures CrashSafe(w'.disk) <==> HoldsNothing(ws[|ops|].leases, id) && OwnsNoPort(ws[|ops|], id)
  {
    var u, v := ws[0], ws[|ops|];
    ExecutionKeeps(ws, ops, |ops|);
    FinishIsSafeIff(v, w', id, row);
    if Free(v, id) { KeepsTrans(u, v, w'); } else { NotGoodAfter(v, w', id); }
  }

  lemma NotGoodAfter(w: World, w': World, id: string)
    requires OnlySessions(w, w') && Dead(w'.sessions, id) && !Free(w, id)
    ensures !Good(w')
  {
  }
}
