/** What a termination leaves behind: the exact condition for a disk that is safe to crash on, and the leases it
    does not reach. */
module Terminations {
  import opened Options
  import opened Documents
  import opened LeaseModel
  import opened LeaseInvariant
  import opened LeaseHandoff
  import opened LeaseIdle
  import opened LeaseSnapshots
  import opened Recovery
  import opened Daemon
  import opened Service
  import Ports
  import Runs
  import Sessions
  import Store

  // Row by row

  /** A termination leaves this session stopped, at that time, and all others as they were; its open runs killed, for
      the reason given, and every run that is over or another session's as it was; and exactly the other sessions'
      ports. */
  lemma TerminatedRows(w: World, w': World, id: string, reason: string, order: seq<string>, now: Time)
    requires id in w.sessions && Terminated(w, w', id, reason, order, now)
    ensures w'.sessions == w.sessions[id := w.sessions[id].(state := Stopped, stopped := Some(now))]
    ensures w'.runs.Keys == w.runs.Keys
    ensures forall k | k in w.runs ::
              if IsOpen(w.runs[k]) && (id == "" || w.runs[k].session == id)
              then GivenUp(w.runs[k], w'.runs[k], reason, now) else w'.runs[k] == w.runs[k]
    ensures w'.ports == map p | p in w.ports && w.ports[p].session != id :: w.ports[p]
  {
    StoppedRow(w.sessions[id], reason, now);
    RunsGivenUp(w.runs, id, reason, now);
    PortsLeft(w.ports, id);
  }

  // Leases asked for under a friendly name

  /** A lease belongs to the name it was asked for under. If that was the session's friendly name, terminating the
      session does not end the lease: only the next restart does, which knows no session of that name. */
  lemma NamedLeaseOutlives(w: World, w': World, who: string, id: string, reason: string, order: seq<string>,
                           now: Time, later: Time, k: string)
    requires Inv(w.leases) && id in w.sessions && Names(w.sessions, who, Some(id))
    requires LegalOrder(w.leases, OwnedBy(id), order, now, now) && Terminated(w, w', id, reason, order, now)
    requires IsActive(w.leases, k) && w.leases.leases[k].session == who
    ensures IsActive(w'.leases, k) <==> who != id
    ensures IsActive(w'.leases, k) ==>
              RecoveredLease(w'.leases.leases[k], w'.sessions, later)
              == EndedLease(w.leases.leases[k], LeaseState.Expired, later)
  {
    ReleaseAllEndsOwn(w.leases, id, order, now, k);
    if who != id { UnknownOwnerExpires(w.leases.leases[k], w'.sessions, later); }
  }

  lemma UnknownOwnerExpires(l: Lease, sessions: SessionTable, now: Time)
    requires l.state == Active && l.session !in sessions
    ensures RecoveredLease(l, sessions, now) == EndedLease(l, LeaseState.Expired, now)
  {
  }

  // The rematch, seen from the disk

  function WithSaved(w: World, key: Key, doc: Doc): World {
    w.(disk := w.disk[key := doc], images := w.images + Store.SaveImages(w.disk, key, doc))
  }

  /** The leases are released and saved. */
  lemma LeasesReleased(w: World, id: string, order: seq<string>, now: Time) returns (w': World)
    requires Consistent(w)
    ensures Consistent(w') && OnlyLeases(w, w') && w'.leases == ReleaseAll(w.leases, id, order, now)
  {
    var s := ReleaseAll(w.leases, id, order, now);
    w' := WithSaved(w.(leases := s), LeasesKey, LeasesDoc(TakeSnapshot(s)));
    LeaseAction(w, w', DoReleaseAll(id, order, now));
  }

  lemma PortsReleased(w: World, id: string) returns (w': World)
    requires Consistent(w)
    ensures Consistent(w') && OnlyPorts(w, w') && w'.ports == Ports.Remaining(w.ports, Ports.OfSession(id))
  {
    var ports := Ports.Remaining(w.ports, Ports.OfSession(id));
    w' := WithSaved(w.(ports := ports), PortsKey, PortsDoc(ports));
    PortAction(w, w');
  }

  lemma RowSaved(w: World, id: string, row: Session) returns (w': World)
    requires Consistent(w) && id in w.sessions && row.id == id
    ensures Consistent(w') && Revised(w, w', id, row)
  {
    var sessions := w.sessions[id := row];
    w' := WithSaved(w.(sessions := sessions), SessionsKey, SessionsDoc(sessions));
    RevisedSession(w, w', id, row);
  }

  /** Every termination has an outcome. */
  lemma SomeTermination(w: World, id: string, reason: string, order: seq<string>, now: Time) returns (w': World)
    requires Consistent(w) && id in w.sessions
    ensures Consistent(w') && Terminated(w, w', id, reason, order, now)
  {
    var w1 := LeasesReleased(w, id, order, now);
    var w2 := PortsReleased(w1, id);
    var w3 := RowSaved(w2, id, Sessions.Finished(w.sessions[id].(state := Stopping), Stopped, reason, now));
    w' := w3.(runs := Runs.KilledAmong(w.runs, Runs.Listed(w.runs, id), reason, now));
  }

  /** No other session that is over comes into a lease when this one's are released. */
  lemma OthersStayIdle(w: World, id: string, order: seq<string>, now: Time, x: string)
    requires Good(w) && Dead(w.sessions, x)
    ensures HoldsNothing(ReleaseAll(w.leases, id, order, now), x)
  {
    StepKeepsIdle(w.leases, DoReleaseAll(id, order, now), x);
  }

  lemma ReleasedAlive(w: World, sessions: SessionTable, id: string, row: Session, order: seq<string>, now: Time)
    requires Good(w) && Terminal(row.state) && sessions == w.sessions[id := row]
    ensures var s := ReleaseAll(w.leases, id, order, now);
            LeasesAlive(s.leases, sessions) <==> HoldsNothing(s, id)
  {
    var s := ReleaseAll(w.leases, id, order, now);
    forall k | k in s.leases && s.leases[k].state == Active && s.leases[k].session != id
      ensures !Dead(sessions, s.leases[k].session)
    {
      if Dead(w.sessions, s.leases[k].session) { OthersStayIdle(w, id, order, now, s.leases[k].session); }
    }
  }

  lemma RemainingAlive(ports: PortTable, sessions: SessionTable, id: string, row: Session)
    requires PortsAlive(ports, sessions)
    ensures PortsAlive(Ports.Remaining(ports, Ports.OfSession(id)), sessions[id := row])
  {
    PortsAreGone(ports, id);
  }

  /** A session of a good daemon is terminated: the disk is safe to crash on exactly if it kept no lease. */
  lemma TerminatedSafeIff(w: World, w': World, id: string, reason: string, order: seq<string>, now: Time)
    requires Good(w) && id in w.sessions && Consistent(w') && Terminated(w, w', id, reason, order, now)
    ensures CrashSafe(w'.disk) <==> HoldsNothing(ReleaseAll(w.leases, id, order, now), id)
  {
    var row := Sessions.Finished(w.sessions[id].(state := Stopping), Stopped, reason, now);
    ReleasedAlive(w, w'.sessions, id, row, order, now);
    RemainingAlive(w.ports, w.sessions, id, row);
    CrashSafeInMemory(w');
  }

  /** Which the first waiters before it decide: whatever order the map is visited in, a termination leaves a disk
      that is safe to crash on, exactly if no waiter it serves is the session itself. */
  lemma TerminationIsSafeIff(w: World, id: string, reason: string, now: Time)
    requires Good(w) && id in w.sessions
    ensures NoRematch(w.leases, OwnedBy(id)) <==>
            forall order, w' | LegalOrder(w.leases, OwnedBy(id), order, now, now) && Consistent(w')
                               && Terminated(w, w', id, reason, order, now) ::
              CrashSafe(w'.disk)
  {
    ReleaseAllClearsIff(w.leases, id, now);
    forall order, w' | LegalOrder(w.leases, OwnedBy(id), order, now, now) && Consistent(w')
                       && Terminated(w, w', id, reason, order, now)
      ensures CrashSafe(w'.disk) <==> HoldsNothing(ReleaseAll(w.leases, id, order, now), id)
    {
      TerminatedSafeIff(w, w', id, reason, order, now);
    }
    if !NoRematch(w.leases, OwnedBy(id)) {
      var order :| LegalOrder(w.leases, OwnedBy(id), order, now, now)
                   && !HoldsNothing(ReleaseAll(w.leases, id, order, now), id);
      var w' := SomeTermination(w, id, reason, order, now);
      TerminatedSafeIff(w, w', id, reason, order, now);
    }
  }
}
