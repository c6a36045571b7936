/** Runs of the daemon, from an empty disk, that end with a session that is over owning a lease or a port.
    No restart takes it back. */
module Leaks {
  import opened Options
  import opened Documents
  import opened LeaseModel
  import opened LeaseInvariant
  import opened LeaseHandoff
  import opened Recovery
  import opened Daemon
  import opened Service
  import opened Terminations
  import Disks
  import Ids
  import Ports
  import Runs
  import Sessions
  import Store

  const DEVICE := "adb:0"

  lemma {:induction false} EmptyVisits(s: State, c: Criterion, order: seq<string>, stamp: Time, now: Time)
    requires s.leases == map[]
    ensures Visits(s, c, order, stamp, now) == s
  {
    if order != [] { EmptyVisits(s, c, order[..|order| - 1], stamp, now); }
  }

  lemma EmptyReleaseAll(s: State, session: string, order: seq<string>, now: Time)
    requires s.leases == map[]
    ensures NoRematch(s, OwnedBy(session)) && ReleaseAll(s, session, order, now).leases == map[]
  {
    EmptyVisits(s, OwnedBy(session), order, now, now);
    forall r ensures DoomedOn(s, OwnedBy(session), r) == {} {}
  }

  lemma EmptyGrants(s: State)
    requires Inv(s) && s.leases == map[]
    ensures GrantsAtOnce(s, DEVICE)
  {
    var v := WithDevice(s, DEVICE);
    assert "adb:" <= DEVICE;
    forall k ensures k !in HoldersOf(s.holders, DEVICE) {
      assert k in HoldersOf(s.holders, DEVICE) <==> ActiveOn(s.leases, DEVICE, k);
    }
    assert Holders(v, DEVICE) == {};
  }

  /** Nothing is held or recorded. */
  ghost predicate Blank(w: World) {
    w.leases.leases == map[] && w.ports == map[] && w.sessions == map[]
  }

  lemma BlankRecovers(d: Disk, w: World, now: Time)
    requires d == map[] && Recovers(d, w.disk, now) && Consistent(w) && LeasesOn(w.disk) == w.leases.leases
    ensures Blank(w)
  {
  }

  lemma EmptyDiskIsSafe(d: Disk)
    requires d == map[]
    ensures WellFormed(d) && Loads(d) && CrashSafe(d)
  {
  }

  method NewDaemon(store: Store.Store<Key, Doc>, now: Time) returns (s: Service)
    requires store.Valid() && store.disk == map[]
    modifies store
    ensures fresh(s) && fresh(s.leases) && fresh(s.ports) && fresh(s.sessions) && fresh(s.runs)
    ensures s.store == store && s.Valid() && Good(s.Now()) && Blank(s.Now()) && s.sessions.maxSessions == 1
  {
    ghost var d := store.disk;
    EmptyDiskIsSafe(d);
    s := new Service(store, map[], 1);
    var _ := s.Recover(map[], now, _ => None, _ => false);
    BlankRecovers(d, s.Now(), now);
  }

  /** On a new daemon, a session comes and goes. */
  method OneOver(s: Service, now: Time) returns (id: string)
    requires s.Valid() && Good(s.Now()) && Blank(s.Now()) && s.sessions.maxSessions == 1
    modifies s.leases, s.ports, s.sessions, s.runs, s.store
    ensures s.Valid() && Good(s.Now()) && Dead(s.sessions.sessions, id)
    ensures s.leases.leases == map[] && s.ports.taken == map[]
  {
    assert Sessions.Live(s.sessions.sessions) == {};
    var c, _ := s.CreateSession("", "", now, true, true);
    id := c.s.id;
    ghost var view := s.leases.View();
    var _, order := s.TerminateSession(id, "", now);
    EmptyReleaseAll(view, id, order, now);
  }

  /** The daemon goes down and comes back on its disk. */
  method Restart(store: Store.Store<Key, Doc>, now: Time) returns (s: Service)
    requires store.Valid() && WellFormed(store.disk) && Loads(store.disk)
    modifies store
    ensures s.store == store && s.Valid() && (CrashSafe(store.disk) <==> old(CrashSafe(store.disk)))
  {
    ghost var d := store.disk;
    s := new Service(store, map[], 1);
    var _ := s.Recover(map[], now, _ => None, _ => false);
    RecoveryKeepsSafetyIff(d, store.disk, now);
  }

  /** A session that is over asks for a free device and gets it; the daemon restarts, and the lease is still
      there. */
  method LeaseLeaks(store: Store.Store<Key, Doc>, now: Time) returns (s: Service)
    requires store.Valid() && store.disk == map[]
    modifies store
    ensures s.store == store && s.Valid() && !CrashSafe(store.disk)
  {
    var first := NewDaemon(store, now);
    var id := OneOver(first, now);
    EmptyGrants(first.leases.View());
    var _ := first.AcquireLease(id, DEVICE, 0, now);
    s := Restart(store, now);
  }

  /** The first port the system offers is free. */
  lemma FirstPickWins(session: string, port: int, picks: seq<Ports.Pick>)
    requires |picks| >= Ports.ATTEMPTS && picks[0] == Ports.Bound(port)
    ensures Allocates(session, "tcp", "", picks, map[])
  {
    assert Ports.FirstUsable(picks, map[], 0) == 0;
  }

  method OverTakesPort(s: Service, id: string)
    requires s.Valid() && Good(s.Now()) && Dead(s.sessions.sessions, id) && s.ports.taken == map[]
    modifies s.ports, s.store
    ensures s.Valid() && !CrashSafe(s.store.disk)
  {
    var picks := seq(Ports.ATTEMPTS, _ => Ports.Bound(40000));
    FirstPickWins(id, 40000, picks);
    var _ := s.AllocatePort(id, "tcp", "", picks);
  }

  /** And so for a port. */
  method PortLeaks(store: Store.Store<Key, Doc>, now: Time) returns (s: Service)
    requires store.Valid() && store.disk == map[]
    modifies store
    ensures s.store == store && s.Valid() && !CrashSafe(store.disk)
  {
    var first := NewDaemon(store, now);
    var id := OneOver(first, now);
    OverTakesPort(first, id);
    s := Restart(store, now);
  }

  /** On a new daemon, a session begins to stop and its leases and ports are released. */
  method OneReleased(s: Service, now: Time) returns (id: string)
    requires s.Valid() && Good(s.Now()) && Blank(s.Now()) && s.sessions.maxSessions == 1
    modifies s.leases, s.ports, s.sessions, s.store
    ensures s.Valid() && id in s.sessions.sessions && s.leases.leases == map[]
  {
    assert Sessions.Live(s.sessions.sessions) == {};
    var c := s.CreateStep("", "", now, true);
    id := c.s.id;
    s.MarkStopping(id);
    ghost var view := s.leases.View();
    ghost var order := s.ReleaseLeasesOf(id, now);
    EmptyReleaseAll(view, id, order, now);
    var _ := s.ReleasePortsOf(id);
  }

  /** A request that comes in then is granted: the session is still there, and is not yet over. */
  method AskedMeanwhile(s: Service, id: string, now: Time)
    requires s.Valid() && id in s.sessions.sessions && s.leases.leases == map[]
    modifies s.leases, s.store
    ensures s.Valid() && id in s.sessions.sessions && !HoldsNothing(s.leases.View(), id)
  {
    ghost var view := s.leases.View();
    EmptyGrants(view);
    var _ := s.AcquireLease(id, DEVICE, 0, now);
    GrantedHolds(WithDevice(view, DEVICE), DEVICE, id, 0, now);
  }

  /** And so is a lease acquired between the release and the end of a termination. */
  method MeanwhileLeaks(store: Store.Store<Key, Doc>, now: Time) returns (s: Service)
    requires store.Valid() && store.disk == map[]
    modifies store
    ensures s.store == store && s.Valid() && !CrashSafe(store.disk)
  {
    var first := NewDaemon(store, now);
    var id := OneReleased(first, now);
    AskedMeanwhile(first, id, now);
    first.FinishSession(id, "", now);
    ghost var w := first.Now();
    if CrashSafe(w.disk) { CrashSafeMeansHoldsNothing(w, id); }
    s := Restart(store, now);
  }

  const NAME := "build"

  /** A live session is found under this name, which is not its id. */
  ghost predicate GoesByName(sessions: SessionTable, id: string) {
    id in sessions && id != NAME && Names(sessions, NAME, Some(id)) && !Dead(sessions, id)
  }

  method OneNamed(s: Service, now: Time) returns (id: string)
    requires s.Valid() && Good(s.Now()) && Blank(s.Now()) && s.sessions.maxSessions == 1
    modifies s.sessions, s.store
    ensures s.Valid() && s.leases.leases == map[] && GoesByName(s.sessions.sessions, id)
  {
    assert Sessions.Live(s.sessions.sessions) == {};
    var c := s.CreateStep(NAME, "", now, true);
    id := c.s.id;
    assert id[0] != NAME[0];
  }

  /** The session asks for a free device under its friendly name. */
  method AskedByName(s: Service, ghost id: string, now: Time) returns (k: string)
    requires s.Valid() && s.leases.leases == map[] && GoesByName(s.sessions.sessions, id)
    modifies s.leases, s.store
    ensures s.Valid() && IsActive(s.leases.View(), k) && s.leases.leases[k].session == NAME
  {
    ghost var v := WithDevice(s.leases.View(), DEVICE);
    EmptyGrants(s.leases.View());
    var a := s.AcquireLease(NAME, DEVICE, 0, now);
    GrantedActive(v, DEVICE, NAME, 0, now);
    k := a.value.lease;
  }

  /** The session is terminated, and the lease is as active as before. */
  method TerminatedByName(s: Service, id: string, k: string, now: Time)
    requires s.Valid() && GoesByName(s.sessions.sessions, id)
    requires IsActive(s.leases.View(), k) && s.leases.leases[k].session == NAME
    modifies s.leases, s.ports, s.sessions, s.runs, s.store
    ensures s.Valid() && Dead(s.sessions.sessions, id) && IsActive(s.leases.View(), k)
  {
    ghost var w := s.Now();
    var order := s.TerminateLive(id, "", now);
    NamedLeaseOutlives(w, s.Now(), NAME, id, "", order, now, now, k);
  }

  method NamedAndTerminated(s: Service, now: Time) returns (id: string, k: string)
    requires s.Valid() && Good(s.Now()) && Blank(s.Now()) && s.sessions.maxSessions == 1
    modifies s.leases, s.ports, s.sessions, s.runs, s.store
    ensures s.Valid() && Dead(s.sessions.sessions, id) && IsActive(s.leases.View(), k)
  {
    id := OneNamed(s, now);
    k := AskedByName(s, id, now);
    TerminatedByName(s, id, k, now);
  }

  method NameOutlives(store: Store.Store<Key, Doc>, now: Time) returns (s: Service, id: string, k: string)
    requires store.Valid() && store.disk == map[]
    modifies store
    ensures s.store == store && s.Valid() && Dead(s.sessions.sessions, id) && IsActive(s.leases.View(), k)
  {
    s := NewDaemon(store, now);
    id, k := NamedAndTerminated(s, now);
  }

  lemma OneRecordRead(d: Disk, r: Run, lastId: nat)
    requires d == map[RunKey(Ids.RunId(1)) := RunDoc(r)] && Runs.CounterPast(RunsOn(d), 0, lastId)
    ensures lastId == 1
  {
    var id := Ids.RunId(1);
    Disks.RunAt(d, id);
    Ids.RunSeqInvertsIff(1);
    assert id in RunsOn(d);
    forall k | k in RunsOn(d) ensures k == id { Disks.RunAt(d, k); }
  }

  /** One run comes to its end, and another one is started of which nothing is written yet. */
  method TwoRuns(store: Store.Store<Key, Doc>, now: Time) returns (second: Run, ghost first: Run)
    requires store.Valid() && store.disk == map[]
    modifies store
    ensures store.Valid() && store.disk == map[RunKey(Ids.RunId(1)) := RunDoc(first)]
    ensures second.id == Ids.RunId(2)
  {
    var runs := new Runs.Manager(store);
    var one := runs.NewRun("", now, true);
    var two := runs.NewRun("", now, true);
    var _ := runs.Finish(one.value.id, Succeeded, Some(0), "", now);
    return two.value, runs.byId[one.value.id];
  }

  /** The counter after a restart with nothing but the first run's record. */
  method ReloadedRuns(store: Store.Store<Key, Doc>, ghost first: Run) returns (runs: Runs.Manager)
    requires store.Valid() && store.disk == map[RunKey(Ids.RunId(1)) := RunDoc(first)]
    ensures fresh(runs) && runs.lastId == 1
  {
    runs := new Runs.Manager(store);
    runs.RestoreFromDisk();
    OneRecordRead(store.disk, first, runs.lastId);
  }

  /** The daemon goes down then: the next run after the restart is given the second one's id. */
  method RunIdComesAgain(store: Store.Store<Key, Doc>, now: Time) returns (lost: Run, again: Run)
    requires store.Valid() && store.disk == map[]
    modifies store
    ensures again.id == lost.id
  {
    ghost var first;
    lost, first := TwoRuns(store, now);
    var runs := ReloadedRuns(store, first);
    var next := runs.NewRun("", now, true);
    again := next.value;
  }
}
