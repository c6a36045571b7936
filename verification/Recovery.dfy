/** What crash recovery does to the persisted state, as functions of the disk, and which disks are
    safe to crash on. */
module Recovery {
  import opened Options
  import opened Documents
  import opened Disks
  import opened LeaseModel
  import opened LeaseInvariant
  import opened LeaseHandoff
  import opened LeaseIdle
  import opened LeaseSnapshots
  import Store
  import Ports
  import Sessions
  import Runs

  type PortTable = map<int, Allocation>
  type SessionTable = map<string, Session>
  type RunTable = map<string, Run>

  /** A session that is known and over. */
  predicate Dead(sessions: SessionTable, id: string) {
    id in sessions && Terminal(sessions[id].state)
  }

  predicate LeasesAlive(leases: Leases, sessions: SessionTable) {
    forall id | id in leases && leases[id].state == Active :: !Dead(sessions, leases[id].session)
  }

  predicate PortsAlive(ports: PortTable, sessions: SessionTable) {
    forall p | p in ports :: !Dead(sessions, ports[p].session)
  }

  /** No terminal session owns an active lease or a port. */
  predicate CrashSafe(d: Disk) {
    LeasesAlive(LeasesOn(d), SessionsOn(d)) && PortsAlive(PortsOn(d), SessionsOn(d))
  }

  /** The saved lease table, if any, restores to a sound manager. */
  ghost predicate Loads(d: Disk) {
    forall snap | SavedLeases(d, snap) :: Inv(Restored(snap, 0))
  }

  predicate SavedLeases(d: Disk, snap: Snapshot) {
    LeasesKey in d && d[LeasesKey] == LeasesDoc(snap)
  }

  lemma LoadsStill(d: Disk, d': Disk)
    requires Loads(d) && forall snap | SavedLeases(d', snap) :: SavedLeases(d, snap)
    ensures Loads(d')
  {
  }

  ghost predicate Recoverable(d: Disk) { WellFormed(d) && Loads(d) && CrashSafe(d) }

  /** Only recoverable disks were left behind between two moments. */
  ghost predicate ImagesSafe(before: seq<Disk>, after: seq<Disk>) {
    before <= after && forall i | |before| <= i < |after| :: Recoverable(after[i])
  }

  lemma ImagesSafeTrans(a: seq<Disk>, b: seq<Disk>, c: seq<Disk>)
    requires ImagesSafe(a, b) && ImagesSafe(b, c)
    ensures ImagesSafe(a, c)
  {
    forall i | |a| <= i < |c| ensures Recoverable(c[i]) {
      if i < |b| { assert c[i] == b[i]; }
    }
  }

  lemma SavedSafely(before: seq<Disk>, d: Disk, key: Key, doc: Doc)
    requires Recoverable(d) && Recoverable(d[key := doc])
    ensures ImagesSafe(before, before + Store.SaveImages(d, key, doc))
  {
  }

  // What one save does to a disk that is well-formed and loads

  lemma LeasesSavedLoads(d: Disk, s: State)
    requires WellFormed(d) && Inv(s)
    ensures var d' := d[LeasesKey := LeasesDoc(TakeSnapshot(s))];
            && WellFormed(d') && Loads(d') && LeasesOn(d') == s.leases
            && PortsOn(d') == PortsOn(d) && SessionsOn(d') == SessionsOn(d) && RunsOn(d') == RunsOn(d)
  {
    SnapshotRoundTrip(s);
    LeasesSaved(d, TakeSnapshot(s));
    var d' := d[LeasesKey := LeasesDoc(TakeSnapshot(s))];
    forall snap | SavedLeases(d', snap) ensures Inv(Restored(snap, 0)) {
      assert snap == TakeSnapshot(s);
    }
  }

  // The recovered state

  function Stop(s: Session, now: Time): Session {
    Sessions.Finished(s, Stopped, "daemon restart: session interrupted", now)
  }

  function RecoveredSession(s: Session, now: Time): Session {
    if Terminal(s.state) then s else Stop(s, now)
  }

  /** Leases of interrupted sessions are released, those of unknown sessions expire; leases of sessions
      that were already over are left as they are. */
  function RecoveredLease(l: Lease, sessions: SessionTable, now: Time): Lease {
    if l.state != Active || Dead(sessions, l.session) then l
    else if l.session in sessions then EndedLease(l, LeaseState.Released, now)
    else EndedLease(l, LeaseState.Expired, now)
  }

  function RecoveredRun(r: Run, now: Time): Run {
    Runs.KilledIfOpen(r, "daemon restart", now)
  }

  function RecoveredLeases(leases: Leases, sessions: SessionTable, now: Time): Leases {
    map id | id in leases :: RecoveredLease(leases[id], sessions, now)
  }

  function RecoveredPorts(ports: PortTable, sessions: SessionTable): PortTable {
    map p | p in ports && Dead(sessions, ports[p].session) :: ports[p]
  }

  function RecoveredSessions(sessions: SessionTable, now: Time): SessionTable {
    map id | id in sessions :: RecoveredSession(sessions[id], now)
  }

  function RecoveredRuns(runs: RunTable, now: Time): RunTable {
    map id | id in runs :: RecoveredRun(runs[id], now)
  }

  /** d' is what a recovery at `now` makes of d. */
  ghost predicate Recovers(d: Disk, d': Disk, now: Time) {
    && LeasesOn(d') == RecoveredLeases(LeasesOn(d), SessionsOn(d), now)
    && PortsOn(d') == RecoveredPorts(PortsOn(d), SessionsOn(d))
    && SessionsOn(d') == RecoveredSessions(SessionsOn(d), now)
    && RunsOn(d') == RecoveredRuns(RunsOn(d), now)
  }

  /** Exactly the active leases and ports of sessions already terminal on disk survive a recovery, and
      every session and run is terminal afterwards. */
  lemma RecoveryIsExact(d: Disk, d': Disk, now: Time)
    requires Recovers(d, d', now)
    ensures forall id :: id in LeasesOn(d') && LeasesOn(d')[id].state == Active <==>
              id in LeasesOn(d) && LeasesOn(d)[id].state == Active && Dead(SessionsOn(d), LeasesOn(d)[id].session)
    ensures forall p :: p in PortsOn(d') <==> p in PortsOn(d) && Dead(SessionsOn(d), PortsOn(d)[p].session)
    ensures forall id | id in SessionsOn(d') :: Terminal(SessionsOn(d')[id].state)
    ensures forall id | id in RunsOn(d') :: RunTerminal(RunsOn(d')[id].status)
  {
  }

  /** Recovery leaves no active lease and no port at all exactly when the disk was safe to crash on. */
  lemma RecoveryCleansUpIff(d: Disk, d': Disk, now: Time)
    requires Recovers(d, d', now)
    ensures CrashSafe(d) <==>
            (forall id | id in LeasesOn(d') :: LeasesOn(d')[id].state != Active) && PortsOn(d') == map[]
    ensures CrashSafe(d) ==> CrashSafe(d')
  {
    RecoveryIsExact(d, d', now);
    if CrashSafe(d) {
      assert forall p :: p !in PortsOn(d');
      assert PortsOn(d') == map[];
    } else if LeasesAlive(LeasesOn(d), SessionsOn(d)) {
      var p :| p in PortsOn(d) && Dead(SessionsOn(d), PortsOn(d)[p].session);
      assert p in PortsOn(d');
    }
  }

  lemma LeasesRecoveredTwice(leases: Leases, sessions: SessionTable, now: Time, later: Time)
    ensures RecoveredLeases(RecoveredLeases(leases, sessions, now), RecoveredSessions(sessions, now), later)
         == RecoveredLeases(leases, sessions, now)
  {
  }

  lemma RestRecoveredTwice(ports: PortTable, sessions: SessionTable, runs: RunTable, now: Time, later: Time)
    ensures RecoveredPorts(RecoveredPorts(ports, sessions), RecoveredSessions(sessions, now))
         == RecoveredPorts(ports, sessions)
    ensures RecoveredSessions(RecoveredSessions(sessions, now), later) == RecoveredSessions(sessions, now)
    ensures RecoveredRuns(RecoveredRuns(runs, now), later) == RecoveredRuns(runs, now)
  {
    assert forall p | p in RecoveredPorts(ports, sessions) ::
        Dead(RecoveredSessions(sessions, now), RecoveredPorts(ports, sessions)[p].session);
  }

  /** Recovering again changes nothing, whenever it happens. */
  lemma RecoveryIsIdempotent(d: Disk, d': Disk, d'': Disk, now: Time, later: Time)
    requires Recovers(d, d', now) && Recovers(d', d'', later)
    ensures LeasesOn(d'') == LeasesOn(d') && PortsOn(d'') == PortsOn(d')
    ensures SessionsOn(d'') == SessionsOn(d') && RunsOn(d'') == RunsOn(d')
  {
    LeasesRecoveredTwice(LeasesOn(d), SessionsOn(d), now, later);
    RestRecoveredTwice(PortsOn(d), SessionsOn(d), RunsOn(d), now, later);
  }

  /** An active lease of a session that is over on disk is never reclaimed by any number of restarts. */
  lemma LeakSurvivesRecovery(d: Disk, d': Disk, now: Time, id: string)
    requires Recovers(d, d', now)
    requires id in LeasesOn(d) && LeasesOn(d)[id].state == Active && Dead(SessionsOn(d), LeasesOn(d)[id].session)
    ensures id in LeasesOn(d') && LeasesOn(d')[id] == LeasesOn(d)[id]
    ensures Dead(SessionsOn(d'), LeasesOn(d')[id].session)
  {
  }

  /** A restart neither makes a disk unsafe nor mends one that is. */
  lemma RecoveryKeepsSafetyIff(d: Disk, d': Disk, now: Time)
    requires Recovers(d, d', now)
    ensures CrashSafe(d') <==> CrashSafe(d)
  {
    RecoveryIsExact(d, d', now);
    forall id | id in LeasesOn(d) && LeasesOn(d)[id].state == Active && Dead(SessionsOn(d), LeasesOn(d)[id].session)
      ensures !CrashSafe(d')
    {
      LeakSurvivesRecovery(d, d', now, id);
    }
    forall p | p in PortsOn(d) && Dead(SessionsOn(d), PortsOn(d)[p].session) ensures !CrashSafe(d') {
      assert p in PortsOn(d') && Dead(SessionsOn(d'), PortsOn(d')[p].session);
    }
  }

  // Row by row

  /** The run as it is recorded when the daemon gives up on it. */
  predicate GivenUp(r: Run, r': Run, reason: string, now: Time) {
    && r' == r.(status := Killed, finished := Some(now), exit := None, millis := r'.millis,
                error := if reason == "" then r.error else reason)
    && (now >= r.started ==> 0 <= now - r.started - 1_000_000 * r'.millis < 1_000_000)
  }

  predicate IsOpen(r: Run) {
    r.status == WaitingResources || r.status == RunQueued || r.status == RunRunning
  }

  /** In the table of runs, exactly the open ones of a session have been given up; "" would stand for all. */
  lemma RunsGivenUp(runs: RunTable, session: string, reason: string, now: Time)
    ensures var runs' := Runs.KilledAmong(runs, Runs.Listed(runs, session), reason, now);
            && runs'.Keys == runs.Keys
            && forall k | k in runs ::
                 if IsOpen(runs[k]) && (session == "" || runs[k].session == session)
                 then GivenUp(runs[k], runs'[k], reason, now) else runs'[k] == runs[k]
  {
    forall k | k in runs { Runs.KilledFields(runs[k], reason, now); }
  }

  /** A row ends with its state and its time; no reason is kept for a session that is stopped. */
  lemma StoppedRow(s: Session, reason: string, now: Time)
    ensures Sessions.Finished(s.(state := Stopping), Stopped, reason, now) == s.(state := Stopped, stopped := Some(now))
  {
  }

  lemma PortsLeft(ports: PortTable, id: string)
    ensures Ports.Remaining(ports, Ports.OfSession(id)) == map p | p in ports && ports[p].session != id :: ports[p]
  {
    forall p | p in ports ensures p in Ports.HitPorts(ports, Ports.OfSession(id)) <==> ports[p].session == id {}
  }

  predicate IsOver(s: Session) { s.state == Stopped || s.state == Failed }

  /** A recovery gives up every run that was open, whoever's it was, and stops every session that was not over. */
  lemma RecoveredRows(d: Disk, d': Disk, now: Time)
    requires Recovers(d, d', now)
    ensures RunsOn(d').Keys == RunsOn(d).Keys
    ensures forall k | k in RunsOn(d) ::
              if IsOpen(RunsOn(d)[k]) then GivenUp(RunsOn(d)[k], RunsOn(d')[k], "daemon restart", now)
              else RunsOn(d')[k] == RunsOn(d)[k]
    ensures SessionsOn(d').Keys == SessionsOn(d).Keys
    ensures forall id | id in SessionsOn(d) ::
              SessionsOn(d')[id] == if IsOver(SessionsOn(d)[id]) then SessionsOn(d)[id]
                                    else SessionsOn(d)[id].(state := Stopped, stopped := Some(now))
  {
    forall k | k in RunsOn(d) { Runs.KilledFields(RunsOn(d)[k], "daemon restart", now); }
  }

  lemma RecoveredLeaseIs(l: Lease, sessions: SessionTable, now: Time)
    ensures RecoveredLease(l, sessions, now) ==
            if l.state != Active then l
            else if l.session !in sessions then l.(state := LeaseState.Expired, ended := Some(now))
            else if IsOver(sessions[l.session]) then l
            else l.(state := LeaseState.Released, ended := Some(now))
  {
  }

  /** An active lease is released with an interrupted session, expires with an unknown one, and stays with one that was
      over before; exactly the ports of these stay. */
  lemma RecoveredHoldings(d: Disk, d': Disk, now: Time, id: string, p: int)
    requires Recovers(d, d', now)
    ensures id in LeasesOn(d') <==> id in LeasesOn(d)
    ensures id in LeasesOn(d) ==>
              var l, sessions := LeasesOn(d)[id], SessionsOn(d);
              LeasesOn(d')[id] ==
              if l.state != Active then l
              else if l.session !in sessions then l.(state := LeaseState.Expired, ended := Some(now))
              else if IsOver(sessions[l.session]) then l
              else l.(state := LeaseState.Released, ended := Some(now))
    ensures p in PortsOn(d') <==>
              p in PortsOn(d) && PortsOn(d)[p].session in SessionsOn(d) && IsOver(SessionsOn(d)[PortsOn(d)[p].session])
    ensures p in PortsOn(d') ==> PortsOn(d')[p] == PortsOn(d)[p]
  {
    if id in LeasesOn(d) { RecoveredLeaseIs(LeasesOn(d)[id], SessionsOn(d), now); }
  }

  // The recovery loop: interrupted sessions are finalized one by one

  function Interrupted(sessions: SessionTable): set<string> {
    set id | id in sessions && !Terminal(sessions[id].state)
  }

  /** The tables when the sessions of `done` have been finalized. */
  function PartLeases(leases: Leases, done: set<string>, now: Time): Leases {
    map id | id in leases ::
      if leases[id].state == Active && leases[id].session in done
      then EndedLease(leases[id], LeaseState.Released, now) else leases[id]
  }

  function PartPorts(ports: PortTable, done: set<string>): PortTable {
    map p | p in ports && ports[p].session !in done :: ports[p]
  }

  function PartSessions(sessions: SessionTable, done: set<string>, now: Time): SessionTable {
    map id | id in sessions :: if id in done then Stop(sessions[id], now) else sessions[id]
  }

  lemma NoneFinalized(leases: Leases, ports: PortTable, sessions: SessionTable, now: Time)
    ensures PartLeases(leases, {}, now) == leases && PartPorts(ports, {}) == ports
    ensures PartSessions(sessions, {}, now) == sessions
  {
  }

  lemma LeasesFinalized(leases: Leases, done: set<string>, id: string, now: Time)
    ensures var part := PartLeases(leases, done, now);
            EndedTable(part, OwnedBy(id), part.Keys, now) == PartLeases(leases, done + {id}, now)
  {
  }

  lemma PortsFinalized(ports: PortTable, done: set<string>, id: string)
    ensures Ports.Remaining(PartPorts(ports, done), Ports.OfSession(id)) == PartPorts(ports, done + {id})
  {
    var part := PartPorts(ports, done);
    forall p | p in part ensures p in Ports.HitPorts(part, Ports.OfSession(id)) <==> part[p].session == id {}
  }

  lemma SessionFinalized(sessions: SessionTable, done: set<string>, id: string, now: Time)
    requires id in sessions && id !in done
    ensures PartSessions(sessions, done + {id}, now)
         == PartSessions(sessions, done, now)[id := Stop(PartSessions(sessions, done, now)[id], now)]
  {
  }

  lemma NotYetStopped(sessions: SessionTable, done: set<string>, id: string, now: Time)
    requires id in sessions && id !in done
    ensures id in PartSessions(sessions, done, now)
    ensures !Terminal(PartSessions(sessions, done, now)[id].state) <==> id in Interrupted(sessions)
  {
  }

  /** Finalizing the interrupted sessions and reaping the unknown ones is all there is to it. */
  lemma AllLeasesRecovered(leases: Leases, sessions: SessionTable, now: Time)
    ensures var part := PartLeases(leases, Interrupted(sessions), now);
            EndedTable(part, Unowned(sessions.Keys), part.Keys, now) == RecoveredLeases(leases, sessions, now)
  {
  }

  lemma AllPortsRecovered(ports: PortTable, sessions: SessionTable)
    ensures Ports.Remaining(PartPorts(ports, Interrupted(sessions)), Ports.NotIn(sessions.Keys))
         == RecoveredPorts(ports, sessions)
  {
    var part, c := PartPorts(ports, Interrupted(sessions)), Ports.NotIn(sessions.Keys);
    forall p | p in part ensures p in Ports.HitPorts(part, c) <==> part[p].session !in sessions {}
    forall p | p in ports ensures p in Ports.Remaining(part, c) <==> p in RecoveredPorts(ports, sessions) {
      var owner := ports[p].session;
      assert owner in Interrupted(sessions) <==> owner in sessions && !Dead(sessions, owner);
    }
  }

  lemma AllSessionsRecovered(sessions: SessionTable, now: Time)
    ensures PartSessions(sessions, Interrupted(sessions), now) == RecoveredSessions(sessions, now)
    ensures Interrupted(RecoveredSessions(sessions, now)) == {}
  {
  }

  lemma AllRunsRecovered(runs: RunTable, now: Time)
    ensures Runs.KilledAmong(runs, Runs.Listed(runs, ""), "daemon restart", now) == RecoveredRuns(runs, now)
  {
  }
}
