/** What holds between the daemon's managers and its disk, and how each kind of step keeps it. */
module Daemon {
  import opened Documents
  import opened Disks
  import opened LeaseModel
  import opened LeaseInvariant
  import opened LeaseHandoff
  import opened LeaseIdle
  import opened LeaseSnapshots
  import opened Recovery
  import LeaseManager
  import Store
  import Sessions

  /** Everything the daemon has at one moment: the disk, the crash images so far, and its memory. */
  datatype World = World(disk: Disk, images: seq<Disk>, leases: State, ports: PortTable,
                         sessions: SessionTable, lastSession: nat, runs: RunTable)

  /** The disk can be reloaded and agrees with memory. */
  ghost predicate Synced(d: Disk, leases: Leases, ports: PortTable, sessions: SessionTable) {
    WellFormed(d) && Loads(d) && Mirrors(d, leases, ports, sessions)
  }

  /** Every table is sound and the disk can be reloaded into the same picture. */
  ghost predicate Consistent(w: World) {
    && Inv(w.leases) && Sessions.IdsOk(w.sessions, w.lastSession)
    && Synced(w.disk, w.leases.leases, w.ports, w.sessions)
    && forall id | id in w.runs :: w.runs[id].id == id
  }

  /** And no session that is over holds, awaits or owns anything. */
  ghost predicate Good(w: World) {
    && Consistent(w) && PortsAlive(w.ports, w.sessions)
    && forall x | Dead(w.sessions, x) :: Idle(w.leases, x)
  }

  lemma GoodIsRecoverable(w: World)
    requires Good(w)
    ensures Recoverable(w.disk)
  {
    var d, s := w.disk, w.leases;
    forall id | id in LeasesOn(d) && LeasesOn(d)[id].state == Active
      ensures !Dead(w.sessions, LeasesOn(d)[id].session)
    {
      assert Undated(LeasesOn(d)[id]) == Undated(s.leases[id]);
      assert Dead(w.sessions, s.leases[id].session) ==> Idle(s, s.leases[id].session);
    }
  }

  lemma CrashSafeMeansHoldsNothing(w: World, x: string)
    requires Consistent(w) && CrashSafe(w.disk) && Dead(w.sessions, x)
    ensures HoldsNothing(w.leases, x)
  {
    var d, s := w.disk, w.leases;
    forall id | id in s.leases ensures !(s.leases[id].state == Active && s.leases[id].session == x) {
      assert Undated(LeasesOn(d)[id]) == Undated(s.leases[id]);
    }
  }

  /** Disk and memory agree on whether a session that is over owns a lease or a port. */
  lemma CrashSafeInMemory(w: World)
    requires Consistent(w)
    ensures CrashSafe(w.disk) <==> LeasesAlive(w.leases.leases, w.sessions) && PortsAlive(w.ports, w.sessions)
  {
    AliveUndated(LeasesOn(w.disk), w.leases.leases, w.sessions);
  }

  lemma AliveUndated(a: Leases, b: Leases, sessions: SessionTable)
    requires SameButDeadlines(a, b)
    ensures LeasesAlive(a, sessions) <==> LeasesAlive(b, sessions)
  {
    forall id | id in a ensures a[id].state == b[id].state && a[id].session == b[id].session {
      assert Undated(a[id]) == Undated(b[id]);
    }
  }

  // A manager's step as the disk sees it: one save, or none

  predicate Saved(w: World, w': World, key: Key, doc: Doc) {
    w'.disk == w.disk[key := doc] && w'.images == w.images + Store.SaveImages(w.disk, key, doc)
  }

  predicate Untouched(w: World, w': World) {
    w'.disk == w.disk && w'.images == w.images
  }

  /** The rest of the daemon is as before. */
  predicate OnlyLeases(w: World, w': World) {
    w'.ports == w.ports && w'.sessions == w.sessions && w'.lastSession == w.lastSession && w'.runs == w.runs
  }

  predicate OnlyPorts(w: World, w': World) {
    w'.leases == w.leases && w'.sessions == w.sessions && w'.lastSession == w.lastSession && w'.runs == w.runs
  }

  predicate OnlySessions(w: World, w': World) {
    w'.leases == w.leases && w'.ports == w.ports && w'.runs == w.runs
  }

  predicate OnlyRuns(w: World, w': World) {
    w'.leases == w.leases && w'.ports == w.ports && w'.sessions == w.sessions && w'.lastSession == w.lastSession
  }

  /** A stretch of execution. */
  datatype Span = Span(from: World, to: World)

  /** The stretch keeps the daemon good, and a crash anywhere in it is recoverable. */
  ghost predicate Keeps(s: Span) {
    Good(s.from) ==>
      && Good(s.to) && s.from.images <= s.to.images
      && forall i | |s.from.images| <= i < |s.to.images| :: Recoverable(s.to.images[i])
  }

  /** Wherever in such a stretch the daemon crashes, a recovery leaves no active lease and no port, and
      every session and run over. */
  lemma EveryCrashRecovers(s: Span, i: nat, d': Disk, now: Time)
    requires Good(s.from) && Keeps(s) && |s.from.images| <= i < |s.to.images|
    requires Recovers(s.to.images[i], d', now)
    ensures forall id | id in LeasesOn(d') :: LeasesOn(d')[id].state != Active
    ensures PortsOn(d') == map[]
    ensures forall id | id in SessionsOn(d') :: Terminal(SessionsOn(d')[id].state)
    ensures forall id | id in RunsOn(d') :: RunTerminal(RunsOn(d')[id].status)
  {
    assert Recoverable(s.to.images[i]);
    RecoveryCleansUpIff(s.to.images[i], d', now);
    RecoveryIsExact(s.to.images[i], d', now);
  }

  lemma KeepsRefl(w: World)
    ensures Keeps(Span(w, w))
  {
  }

  lemma KeepsTrans(u: World, v: World, w: World)
    requires Keeps(Span(u, v)) && Keeps(Span(v, w))
    ensures Keeps(Span(u, w))
  {
    if Good(u) { ImagesSafeTrans(u.images, v.images, w.images); }
  }

  lemma StaysRecoverable(w: World, w': World, key: Key, doc: Doc)
    requires Good(w) && Good(w') && (Saved(w, w', key, doc) || Untouched(w, w'))
    ensures ImagesSafe(w.images, w'.images)
  {
    GoodIsRecoverable(w);
    GoodIsRecoverable(w');
    if Saved(w, w', key, doc) { SavedSafely(w.images, w.disk, key, doc); }
  }

  lemma SameTrans(a: Leases, b: Leases, c: Leases)
    requires SameButDeadlines(a, b)
    ensures SameButDeadlines(b, c) ==> SameButDeadlines(a, c)
  {
  }

  lemma LeaseSaveOrNot(w: World, w': World)
    requires Synced(w.disk, w.leases.leases, w.ports, w.sessions) && Inv(w'.leases) && OnlyLeases(w, w')
    requires Saved(w, w', LeasesKey, LeasesDoc(TakeSnapshot(w'.leases)))
             || (Untouched(w, w') && SameButDeadlines(w.leases.leases, w'.leases.leases))
    ensures Synced(w'.disk, w'.leases.leases, w'.ports, w'.sessions) && RunsOn(w'.disk) == RunsOn(w.disk)
  {
    if Saved(w, w', LeasesKey, LeasesDoc(TakeSnapshot(w'.leases))) {
      LeasesSavedLoads(w.disk, w'.leases);
      SameRefl(w'.leases.leases);
    } else {
      SameTrans(LeasesOn(w.disk), w.leases.leases, w'.leases.leases);
    }
  }

  lemma SameRefl(a: Leases)
    ensures SameButDeadlines(a, a)
  {
  }

  /** A lease step keeps memory and disk together; unless a dead session acquires, it also keeps every
      crash on the way recoverable. */
  lemma LeaseAction(w: World, w': World, a: Action)
    requires Consistent(w) && OnlyLeases(w, w') && w'.leases == Step(w.leases, a)
    requires Saved(w, w', LeasesKey, LeasesDoc(TakeSnapshot(w'.leases)))
             || (Untouched(w, w') && SameButDeadlines(w.leases.leases, w'.leases.leases))
    ensures Consistent(w') && RunsOn(w'.disk) == RunsOn(w.disk)
    ensures !(a.DoAcquire? && Dead(w.sessions, a.session)) ==> Keeps(Span(w, w'))
  {
    assert Inv(w'.leases) by { StepKeepsInv(w.leases, a); }
    LeaseSaveOrNot(w, w');
    if Good(w) && !(a.DoAcquire? && Dead(w.sessions, a.session)) {
      DeadStayIdle(w, a);
      StaysRecoverable(w, w', LeasesKey, LeasesDoc(TakeSnapshot(w'.leases)));
    }
  }

  lemma DeadStayIdle(w: World, a: Action)
    requires Good(w) && !(a.DoAcquire? && Dead(w.sessions, a.session))
    ensures forall x | Dead(w.sessions, x) :: Idle(Step(w.leases, a), x)
  {
    forall x | Dead(w.sessions, x) ensures Idle(Step(w.leases, a), x) { StepKeepsIdle(w.leases, a, x); }
  }

  /** Saving the lease table as it is also brings the deadlines on disk up to date. */
  lemma LeasesPersisted(w: World, w': World)
    requires Consistent(w) && OnlyLeases(w, w') && w'.leases == w.leases
    requires Saved(w, w', LeasesKey, LeasesDoc(TakeSnapshot(w.leases)))
    ensures Consistent(w') && RunsOn(w'.disk) == RunsOn(w.disk) && Keeps(Span(w, w'))
    ensures LeasesOn(w'.disk) == w'.leases.leases
  {
    LeaseSaveOrNot(w, w');
    if Good(w) { StaysRecoverable(w, w', LeasesKey, LeasesDoc(TakeSnapshot(w'.leases))); }
  }

  lemma PortAction(w: World, w': World)
    requires Consistent(w) && OnlyPorts(w, w') && PortRows(w'.ports)
    requires Saved(w, w', PortsKey, PortsDoc(w'.ports)) || (Untouched(w, w') && w'.ports == w.ports)
    ensures Consistent(w') && RunsOn(w'.disk) == RunsOn(w.disk) && LeasesOn(w'.disk) == LeasesOn(w.disk)
    ensures PortsAlive(w'.ports, w.sessions) ==> Keeps(Span(w, w'))
  {
    PortsSaved(w.disk, w'.ports);
    LoadsStill(w.disk, w'.disk);
    if Good(w) && PortsAlive(w'.ports, w.sessions) {
      StaysRecoverable(w, w', PortsKey, PortsDoc(w'.ports));
    }
  }

  lemma SessionAction(w: World, w': World)
    requires Consistent(w) && OnlySessions(w, w') && Sessions.IdsOk(w'.sessions, w'.lastSession)
    requires Saved(w, w', SessionsKey, SessionsDoc(w'.sessions)) || (Untouched(w, w') && w'.sessions == w.sessions)
    ensures Consistent(w') && RunsOn(w'.disk) == RunsOn(w.disk) && LeasesOn(w'.disk) == LeasesOn(w.disk)
    ensures PortsAlive(w.ports, w'.sessions) && (forall x | Dead(w'.sessions, x) :: Idle(w.leases, x)) ==>
              Keeps(Span(w, w'))
  {
    SessionsSaved(w.disk, w'.sessions);
    LoadsStill(w.disk, w'.disk);
    if Good(w) && PortsAlive(w.ports, w'.sessions) && (forall x | Dead(w'.sessions, x) :: Idle(w.leases, x)) {
      StaysRecoverable(w, w', SessionsKey, SessionsDoc(w'.sessions));
    }
  }

  /** A new row that is not over. */
  lemma AddedSession(w: World, w': World, row: Session)
    requires Consistent(w) && OnlySessions(w, w') && Sessions.IdsOk(w'.sessions, w'.lastSession)
    requires row.id !in w.sessions && !Terminal(row.state) && w'.sessions == w.sessions[row.id := row]
    requires Saved(w, w', SessionsKey, SessionsDoc(w'.sessions))
    ensures Consistent(w') && Keeps(Span(w, w'))
  {
    SessionAction(w, w');
    if Good(w) {
      forall x | Dead(w'.sessions, x) ensures Dead(w.sessions, x) {}
    }
  }

  lemma RunAction(w: World, w': World, r: Run)
    requires Consistent(w) && OnlyRuns(w, w') && w'.runs == w.runs[r.id := r]
    requires w'.disk == w.disk[RunKey(r.id) := RunDoc(r)]
    requires w'.images == w.images + Store.OverwriteImages(w.disk, RunKey(r.id), RunDoc(r))
    ensures Consistent(w') && Keeps(Span(w, w'))
    ensures RecordsRuns(w.disk, w.runs) ==> RecordsRuns(w'.disk, w'.runs)
  {
    RunSaved(w.disk, r);
    LoadsStill(w.disk, w'.disk);
    if RecordsRuns(w.disk, w.runs) { RunRecorded(w.disk, w.runs, r); }
    if Good(w) {
      assert Good(w');
      RunImagesSafe(w, w', r);
    }
  }

  lemma RunImagesSafe(w: World, w': World, r: Run)
    requires Good(w) && Good(w') && w'.disk == w.disk[RunKey(r.id) := RunDoc(r)]
    requires w'.images == w.images + Store.OverwriteImages(w.disk, RunKey(r.id), RunDoc(r))
    ensures ImagesSafe(w.images, w'.images)
  {
    GoodIsRecoverable(w');
    BlankedIsRecoverable(w, r.id);
    TwoImages(w.images, w.disk - {RunKey(r.id)}, w'.disk);
  }

  lemma BlankedIsRecoverable(w: World, id: string)
    requires Good(w)
    ensures Recoverable(w.disk - {RunKey(id)})
  {
    RunBlanked(w.disk, id);
    LoadsStill(w.disk, w.disk - {RunKey(id)});
    GoodIsRecoverable(w.(disk := w.disk - {RunKey(id)}));
  }

  lemma TwoImages(before: seq<Disk>, first: Disk, second: Disk)
    requires Recoverable(first) && Recoverable(second)
    ensures ImagesSafe(before, before + [first, second])
  {
  }

  /** A row may change without ending its session; a session may end once it owns nothing. */
  lemma RevisedSession(w: World, w': World, id: string, row: Session)
    requires Consistent(w) && OnlySessions(w, w') && w'.lastSession == w.lastSession
    requires id in w.sessions && row.id == id && w'.sessions == w.sessions[id := row]
    requires Saved(w, w', SessionsKey, SessionsDoc(w'.sessions))
    ensures Consistent(w') && RunsOn(w'.disk) == RunsOn(w.disk)
    ensures (Terminal(row.state) && !Dead(w.sessions, id) ==>
               Idle(w.leases, id) && forall p | p in w.ports :: w.ports[p].session != id) ==> Keeps(Span(w, w'))
  {
    SessionAction(w, w');
    if Good(w) {
      forall x | Dead(w'.sessions, x) && x != id ensures Idle(w.leases, x) {
        assert Dead(w.sessions, x);
      }
    }
  }

  /** Whatever ReleaseAll could not release, it leaves no request behind. */
  lemma ReleasedWaitsForNothing(s: State, session: string, order: seq<string>, now: Time)
    requires Inv(s)
    ensures WaitsForNothing(ReleaseAll(s, session, order, now), session)
  {
    VisitsKeepInv(s, OwnedBy(session), order, now, now);
    DropEffect(Visits(s, OwnedBy(session), order, now, now), session);
  }

  lemma NothingReleased(s: State, session: string, order: seq<string>, now: Time)
    requires LeaseManager.EndedBy(s, OwnedBy(session), order, now, now) == []
    ensures ReleaseAll(s, session, order, now).leases == s.leases
  {
    LeaseManager.NothingEnded(s, OwnedBy(session), order, now, now);
  }
}
