/** The daemon service: sessions owning leases and ports, their termination, and the recovery of all
    of it after a crash, as sequences of manager steps over one disk. */
module Service {
  import opened Options
  import opened Documents
  import opened Disks
  import opened LeaseModel
  import opened LeaseInvariant
  import opened LeaseHandoff
  import opened LeaseIdle
  import opened LeaseSnapshots
  import opened Recovery
  import opened Daemon
  import Ids
  import LeaseManager
  import Ports
  import Runs
  import Sessions
  import Store
  import Supervisor

  /** One session's row has changed. */
  predicate Revised(w: World, w': World, id: string, row: Session) {
    OnlySessions(w, w') && w'.lastSession == w.lastSession && w'.sessions == w.sessions[id := row]
  }

  /** The stretch gives up on the runs of `done` and does nothing else. */
  ghost predicate Killing(s: Span, done: set<string>, reason: string, now: Time) {
    && Keeps(s) && OnlyRuns(s.from, s.to)
    && s.to.runs == Runs.KilledAmong(s.from.runs, done, reason, now)
    && (RecordsRuns(s.from.disk, s.from.runs) ==> RecordsRuns(s.to.disk, s.to.runs))
    && forall id | id in s.to.runs :: id in s.from.runs
  }

  lemma KillingNone(w: World, reason: string, now: Time)
    ensures Killing(Span(w, w), Elems([]), reason, now)
  {
    Runs.KillNone(w.runs, reason, now);
  }

  lemma KillingNext(w: World, v: World, w': World, ids: seq<string>, i: nat, reason: string, now: Time)
    requires Runs.NewestFirst(w.runs, ids) && i < |ids|
    requires Killing(Span(w, v), Elems(ids[..i]), reason, now)
    requires Keeps(Span(v, w')) && OnlyRuns(v, w') && ids[i] in v.runs
    requires w'.runs == v.runs[ids[i] := Runs.KilledIfOpen(v.runs[ids[i]], reason, now)]
    requires RecordsRuns(v.disk, v.runs) ==> RecordsRuns(w'.disk, w'.runs)
    ensures Killing(Span(w, w'), Elems(ids[..i + 1]), reason, now)
  {
    KeepsTrans(w, v, w');
    Runs.KillOne(w.runs, ids, i, reason, now);
  }

  class Service {
    const store: Store.Store<Key, Doc>
    const leases: LeaseManager.Manager
    const ports: Ports.Manager
    const sessions: Sessions.Manager
    const runs: Runs.Manager

    /** The managers of a daemon process that has just started on some disk. */
    constructor (store: Store.Store<Key, Doc>, res: map<string, Resource>, maxSessions: int)
      ensures Wired() && this.store == store && Started(res) && sessions.maxSessions == maxSessions
      ensures fresh(leases) && fresh(ports) && fresh(sessions) && fresh(runs)
    {
      this.store := store;
      leases := new LeaseManager.Manager(store, res);
      ports := new Ports.Manager(store);
      sessions := new Sessions.Manager(store, maxSessions);
      runs := new Runs.Manager(store);
    }

    predicate Wired()
    {
      leases.store == store && ports.store == store && sessions.store == store && runs.store == store
    }

    ghost function Now(): World
      reads store, leases, ports, sessions, runs
    {
      World(store.disk, store.images, leases.View(), ports.taken, sessions.sessions, sessions.lastId, runs.byId)
    }

    ghost predicate Started(res: map<string, Resource>)
      reads leases, ports, sessions, runs
    {
      && leases.View() == Start(res) && ports.Valid() && ports.taken == map[] && ports.held == map[]
      && sessions.sessions == map[] && sessions.lastId == 0 && runs.byId == map[]
    }

    ghost predicate Valid()
      reads store, leases, ports, sessions, runs
    {
      Wired() && store.Valid() && ports.Valid() && Consistent(Now())
    }

    // Steps

    method ReleaseLeasesOf(id: string, now: Time) returns (ghost order: seq<string>)
      requires Valid()
      modifies leases, store
      ensures Valid() && Keeps(Span(old(Now()), Now())) && OnlyLeases(old(Now()), Now())
      ensures RunsOn(store.disk) == old(RunsOn(store.disk))
      ensures LegalOrder(old(leases.View()), OwnedBy(id), order, now, now)
      ensures leases.View() == ReleaseAll(old(leases.View()), id, order, now)
    {
      ghost var w := Now();
      var released;
      released, order := leases.ReleaseAll(id, now);
      if released == [] { NothingReleased(w.leases, id, order, now); }
      LeaseAction(w, Now(), DoReleaseAll(id, order, now));
    }

    method ReleasePortsOf(id: string) returns (released: set<int>)
      requires Valid()
      modifies ports, store
      ensures Valid() && Keeps(Span(old(Now()), Now())) && OnlyPorts(old(Now()), Now())
      ensures RunsOn(store.disk) == old(RunsOn(store.disk))
      ensures ports.taken == Ports.Remaining(old(ports.taken), Ports.OfSession(id))
    {
      ghost var w := Now();
      released := ports.ReleaseBySession(id);
      PortAction(w, Now());
    }

    method MarkStopping(id: string)
      requires Valid() && id in sessions.sessions
      modifies sessions, store
      ensures Valid() && Keeps(Span(old(Now()), Now()))
      ensures Revised(old(Now()), Now(), id, old(sessions.sessions)[id].(state := Stopping))
      ensures RunsOn(store.disk) == old(RunsOn(store.disk))
    {
      ghost var w := Now();
      sessions.MarkStopping(id);
      RevisedSession(w, Now(), id, w.sessions[id].(state := Stopping));
    }

    /** Safe for a session that owns nothing any more. */
    method FinishSession(id: string, reason: string, now: Time)
      requires Valid() && id in sessions.sessions
      modifies sessions, store
      ensures Valid()
      ensures Idle(leases.View(), id) && (forall p | p in ports.taken :: ports.taken[p].session != id) ==>
                Keeps(Span(old(Now()), Now()))
      ensures Revised(old(Now()), Now(), id, Sessions.Finished(old(sessions.sessions)[id], Stopped, reason, now))
      ensures RunsOn(store.disk) == old(RunsOn(store.disk))
    {
      ghost var w := Now();
      sessions.Finish(id, Stopped, reason, now);
      RevisedSession(w, Now(), id, Sessions.Finished(w.sessions[id], Stopped, reason, now));
    }

    /** A run that is still open is killed and its record rewritten; one that is over is left alone. */
    method KillRun(id: string, reason: string, now: Time)
      requires Valid() && id in runs.byId
      modifies runs, store
      ensures Valid() && Keeps(Span(old(Now()), Now())) && OnlyRuns(old(Now()), Now())
      ensures runs.byId == old(runs.byId)[id := Runs.KilledIfOpen(old(runs.byId)[id], reason, now)]
      ensures old(RecordsRuns(store.disk, runs.byId)) ==> RecordsRuns(store.disk, runs.byId)
    {
      if RunTerminal(runs.byId[id].status) {
        assert runs.byId == runs.byId[id := runs.byId[id]];
      } else {
        ghost var w := Now();
        var _ := runs.Finish(id, Killed, None, reason, now);
        RunAction(w, Now(), Runs.FinishedRun(w.runs[id], Killed, None, reason, now));
      }
    }

    /** Give up on every listed run that is still open. */
    method KillRuns(filter: string, reason: string, now: Time)
      requires Valid()
      modifies runs, store
      ensures Valid() && Killing(Span(old(Now()), Now()), Runs.Listed(old(runs.byId), filter), reason, now)
    {
      ghost var w := Now();
      var ids := runs.List(filter);
      KillingNone(w, reason, now);
      assert ids[..0] == [];
      for i := 0 to |ids|
        invariant Valid() && Killing(Span(w, Now()), Elems(ids[..i]), reason, now)
      {
        ghost var v := Now();
        assert ids[i] in v.runs;
        KillRun(ids[i], reason, now);
        KillingNext(w, v, Now(), ids, i, reason, now);
      }
      assert Elems(ids[..|ids|]) == Runs.Listed(w.runs, filter);
    }

    // Termination

    /** By id first, then by friendly name. */
    method GetSession(who: string) returns (id: Option<string>)
      ensures Names(sessions.sessions, who, id) && (who in sessions.sessions ==> id == Some(who))
    {
      if who in sessions.sessions {
        return Some(who);
      }
      var todo := sessions.sessions.Keys;
      while todo != {}
        invariant forall k | k in sessions.sessions && k !in todo ::
                    !(sessions.sessions[k].name != "" && sessions.sessions[k].name == who)
      {
        var k :| k in todo;
        if k in sessions.sessions && sessions.sessions[k].name != "" && sessions.sessions[k].name == who {
          return Some(k);
        }
        todo := todo - {k};
      }
      return None;
    }

    /** Stop a session: leases and ports go before the state becomes terminal. When no waiter served by
        the release is the session itself, a crash anywhere on the way is recoverable; if the session
        does end up with a lease again, the disk left behind is the proof. */
    method TerminateLive(id: string, reason: string, now: Time) returns (ghost order: seq<string>)
      requires Valid() && id in sessions.sessions && !Dead(sessions.sessions, id)
      modifies leases, ports, sessions, runs, store
      ensures Valid() && LegalOrder(old(leases.View()), OwnedBy(id), order, now, now)
      ensures Terminated(old(Now()), Now(), id, reason, order, now)
      ensures NoRematch(old(leases.View()), OwnedBy(id)) ==> Keeps(Span(old(Now()), Now()))
      ensures old(Good(Now())) ==> (HoldsNothing(leases.View(), id) <==> CrashSafe(store.disk))
    {
      ghost var w0 := Now();
      MarkStopping(id);
      ghost var w1 := Now();
      order := ReleaseLeasesOf(id, now);
      ghost var w2 := Now();
      var _ := ReleasePortsOf(id);
      ghost var w3 := Now();
      KillRuns(id, reason, now);
      ghost var w4 := Now();
      FinishSession(id, reason, now);
      TerminationKeeps(w0, w1, w2, w3, w4, Now(), id, reason, order, now);
    }

    /** Idempotent: a session that is already over is left alone. */
    method TerminateSession(who: string, reason: string, now: Time)
      returns (id: Option<string>, ghost order: seq<string>)
      requires Valid()
      modifies leases, ports, sessions, runs, store
      ensures Valid() && Names(old(sessions.sessions), who, id)
      ensures id.None? || Dead(old(sessions.sessions), id.value) ==> Now() == old(Now())
      ensures id.Some? && !Dead(old(sessions.sessions), id.value) ==>
                && LegalOrder(old(leases.View()), OwnedBy(id.value), order, now, now)
                && Terminated(old(Now()), Now(), id.value, reason, order, now)
                && (NoRematch(old(leases.View()), OwnedBy(id.value)) ==> Keeps(Span(old(Now()), Now())))
    {
      order := [];
      id := GetSession(who);
      if id.Some? && !Terminal(sessions.sessions[id.value].state) {
        order := TerminateLive(id.value, reason, now);
      }
    }

    // Operations on behalf of a session

    method EnsureStep(r: string)
      requires Valid()
      modifies leases, store
      ensures Valid() && OnlyLeases(old(Now()), Now()) && Keeps(Span(old(Now()), Now()))
      ensures leases.View() == EnsureResource(old(leases.View()), r, Exclusive)
    {
      ghost var w := Now();
      leases.EnsureResource(r, Exclusive);
      LeaseAction(w, Now(), DoEnsure(r, Exclusive));
    }

    method EnsureDevice(r: string)
      requires Valid()
      modifies leases, store
      ensures Valid() && OnlyLeases(old(Now()), Now()) && Keeps(Span(old(Now()), Now()))
      ensures leases.View() == WithDevice(old(leases.View()), r)
    {
      KeepsRefl(Now());
      if "adb:" <= r {
        EnsureStep(r);
      }
    }

    method AcquireStep(session: string, r: string, ttl: int, now: Time) returns (answer: AcquireResult)
      requires Valid()
      modifies leases, store
      ensures Valid() && OnlyLeases(old(Now()), Now())
      ensures answer == AcquireAnswer(old(leases.View()), r)
      ensures leases.View() == Acquire(old(leases.View()), r, session, ttl, now)
      ensures answer.Immediately? || Untouched(old(Now()), Now())
      ensures !Dead(sessions.sessions, session) ==> Keeps(Span(old(Now()), Now()))
    {
      ghost var w := Now();
      answer := leases.Acquire(r, session, ttl, now);
      LeaseAction(w, Now(), DoAcquire(r, session, ttl, now));
    }

    /** Some session answers to this name. */
    method Known(who: string) returns (ok: bool)
      ensures ok <==> !Names(sessions.sessions, who, None)
      ensures !ok ==> who !in sessions.sessions
    {
      var id := GetSession(who);
      return id.Some?;
    }

    /** The request is made under the name as given, dead or not; a resource adb:<serial> comes into
        being on first use. From a good daemon, the disk stays safe to crash on exactly unless the id of a session
        that is over is granted a lease at once, and the daemon stays good exactly unless such an id gets into
        the table or a queue: there, a later hand-off grants it. */
    method AcquireLease(session: string, r: string, ttl: int, now: Time) returns (answer: Option<AcquireResult>)
      requires Valid()
      modifies leases, store
      ensures Valid() && OnlyLeases(old(Now()), Now())
      ensures answer.None? <==> Names(sessions.sessions, session, None)
      ensures answer.None? ==> Now() == old(Now())
      ensures answer.Some? ==>
                var s := WithDevice(old(leases.View()), r);
                answer.value == AcquireAnswer(s, r) && leases.View() == Acquire(s, r, session, ttl, now)
      ensures SafeUnless(Span(old(Now()), Now()),
                         Dead(sessions.sessions, session) && GrantsAtOnce(old(leases.View()), r),
                         Dead(sessions.sessions, session) && Registered(old(leases.View()), r))
    {
      ghost var w := Now();
      var known := Known(session);
      if !known {
        NothingUnsafe(w);
        return None;
      }
      EnsureDevice(r);
      ghost var v := Now();
      var a := AcquireStep(session, r, ttl, now);
      AcquiredSafely(w, v, Now(), r, session, ttl, now);
      return Some(a);
    }

    method ReleaseStep(id: string, now: Time) returns (ok: bool)
      requires Valid()
      modifies leases, store
      ensures Valid() && OnlyLeases(old(Now()), Now()) && Keeps(Span(old(Now()), Now()))
      ensures ok <==> IsActive(old(leases.View()), id)
      ensures leases.View() == Release(old(leases.View()), id, now)
    {
      ghost var w := Now();
      ok := leases.Release(id, now);
      LeaseAction(w, Now(), DoRelease(id, now));
    }

    /** Only its own session may give a lease back. */
    method ReleaseLease(session: string, id: string, now: Time) returns (ok: bool)
      requires Valid()
      modifies leases, store
      ensures Valid() && OnlyLeases(old(Now()), Now()) && Keeps(Span(old(Now()), Now()))
      ensures ok <==> IsActive(old(leases.View()), id) && old(leases.leases)[id].session == session
      ensures leases.View() == if ok then Release(old(leases.View()), id, now) else old(leases.View())
    {
      if id !in leases.leases || leases.leases[id].session != session {
        KeepsRefl(Now());
        return false;
      }
      ok := ReleaseStep(id, now);
    }

    /** The reaper's periodic sweep. */
    method SweepLeases(now: Time) returns (expired: seq<string>, ghost order: seq<string>)
      requires Valid()
      modifies leases, store
      ensures Valid() && OnlyLeases(old(Now()), Now()) && Keeps(Span(old(Now()), Now()))
      ensures LegalOrder(old(leases.View()), Overdue(now), order, now, now)
      ensures leases.View() == Sweep(old(leases.View()), now, order, now)
    {
      ghost var w := Now();
      expired, order := leases.Sweep(now, now);
      if expired == [] { LeaseManager.NothingEnded(w.leases, Overdue(now), order, now, now); }
      LeaseAction(w, Now(), DoSweep(now, order, now));
    }

    /** As for leases: a port allocated to a session that is over, and nothing else, makes the daemon unsafe. */
    method AllocatePort(session: string, protocol: string, name: string, picks: seq<Ports.Pick>)
      returns (r: Option<Ports.AcquireResult>)
      requires Valid() && |picks| >= Ports.ATTEMPTS
      modifies ports, store
      ensures Valid() && OnlyPorts(old(Now()), Now())
      ensures r.None? <==> Names(sessions.sessions, session, None)
      ensures r.None? ==> Now() == old(Now())
      ensures r.Some? ==> r.value == Ports.Answer(session, protocol, name, picks, old(ports.taken))
      ensures ports.taken == if r.Some? && r.value.Allocated? then old(ports.taken)[r.value.a.port := r.value.a]
                             else old(ports.taken)
      ensures var leaks := Dead(sessions.sessions, session)
                           && Allocates(session, protocol, name, picks, old(ports.taken));
              SafeUnless(Span(old(Now()), Now()), leaks, leaks)
    {
      ghost var w := Now();
      var known := Known(session);
      if !known {
        NothingUnsafe(w);
        return None;
      }
      var a := AllocateStep(session, protocol, name, picks);
      AllocatedSafely(w, Now(), session, a);
      return Some(a);
    }

    method AllocateStep(session: string, protocol: string, name: string, picks: seq<Ports.Pick>)
      returns (r: Ports.AcquireResult)
      requires Valid() && |picks| >= Ports.ATTEMPTS
      modifies ports, store
      ensures Valid() && OnlyPorts(old(Now()), Now())
      ensures r == Ports.Answer(session, protocol, name, picks, old(ports.taken))
      ensures ports.taken == if r.Allocated? then old(ports.taken)[r.a.port := r.a] else old(ports.taken)
      ensures PortsAlive(ports.taken, sessions.sessions) ==> Keeps(Span(old(Now()), Now()))
    {
      ghost var w := Now();
      r := ports.Acquire(session, protocol, name, picks);
      PortAction(w, Now());
    }

    method CreateStep(name: string, owner: string, now: Time, dirsOk: bool) returns (r: Sessions.CreateResult)
      requires Valid()
      modifies sessions, store
      ensures Valid() && Keeps(Span(old(Now()), Now())) && OnlySessions(old(Now()), Now())
      ensures if |Sessions.Live(old(sessions.sessions))| >= sessions.maxSessions then r == Sessions.TooMany
              else if !dirsOk then r == Sessions.NoDirs else r.New?
      ensures r.New? ==> && r.s.id !in old(sessions.sessions) && r.s.id == Ids.SessionId(sessions.lastId)
                         && r.s.state == Ready && r.s.name == name
      ensures sessions.sessions == if r.New? then old(sessions.sessions)[r.s.id := r.s] else old(sessions.sessions)
    {
      ghost var w := Now();
      r := sessions.Create(name, owner, now, dirsOk);
      if r.New? {
        AddedSession(w, Now(), r.s);
      } else {
        SessionAction(w, Now());
      }
    }

    /** A new ready session; if its environment cannot be prepared it is terminated at once, which is safe
        like any termination. */
    method CreateSession(name: string, owner: string, now: Time, dirsOk: bool, envOk: bool)
      returns (r: Creation, ghost order: seq<string>)
      requires Valid()
      modifies leases, ports, sessions, runs, store
      ensures Valid()
      ensures if |Sessions.Live(old(sessions.sessions))| >= sessions.maxSessions then r == Refused(Sessions.TooMany)
              else if !dirsOk then r == Refused(Sessions.NoDirs) else if envOk then r.Made? else r.NoEnvironment?
      ensures r.Refused? ==> sessions.sessions == old(sessions.sessions)
      ensures r.Made? ==> && r.s.id !in old(sessions.sessions) && r.s.state == Ready
                          && sessions.sessions == old(sessions.sessions)[r.s.id := r.s]
      ensures !r.NoEnvironment? ==> OnlySessions(old(Now()), Now()) && Keeps(Span(old(Now()), Now()))
      ensures r.NoEnvironment? ==>
                && r.id !in old(sessions.sessions) && Dead(sessions.sessions, r.id)
                && leases.View() == ReleaseAll(old(leases.View()), r.id, order, now)
                && (NoRematch(old(leases.View()), OwnedBy(r.id)) ==> Keeps(Span(old(Now()), Now())))
    {
      order := [];
      ghost var w := Now();
      var c := CreateStep(name, owner, now, dirsOk);
      if !c.New? {
        return Refused(c), order;
      }
      if envOk {
        return Made(c.s), order;
      }
      ghost var v := Now();
      order := TerminateLive(c.s.id, "env prepare failed", now);
      if NoRematch(w.leases, OwnedBy(c.s.id)) { KeepsTrans(w, v, Now()); }
      return NoEnvironment(c.s.id), order;
    }

    // Recovery

    method ReloadLeases(ghost res: map<string, Resource>)
      requires Wired() && store.Valid() && leases.View() == Start(res)
      requires LeasesKey in store.disk ==> store.disk[LeasesKey].LeasesDoc?
      modifies leases
      ensures Reopened(store.disk, res, leases.View())
    {
      leases.RestoreFromStore();
    }

    method ReloadSessions()
      requires Wired() && store.Valid() && sessions.sessions == map[] && sessions.lastId == 0
      requires SessionsKey in store.disk ==> store.disk[SessionsKey].SessionsDoc?
      requires SessionRows(SessionsOn(store.disk))
      modifies sessions
      ensures sessions.sessions == SessionsOn(store.disk) && Sessions.IdsOk(sessions.sessions, sessions.lastId)
    {
      sessions.RestoreFromStore();
    }

    method ReloadPorts()
      requires Wired() && store.Valid() && ports.Valid() && ports.taken == map[] && ports.held == map[]
      modifies ports
      ensures ports.Valid() && ports.taken == PortsOn(store.disk)
    {
      ports.RestoreFromStore();
    }

    method ReloadRuns()
      requires Wired() && store.Valid() && runs.byId == map[] && RunFiles(store.disk)
      modifies runs
      ensures runs.byId == RunsOn(store.disk)
    {
      runs.RestoreFromDisk();
      assert map[] + RunsOn(store.disk) == RunsOn(store.disk);
    }

    method Reload(ghost res: map<string, Resource>)
      requires Wired() && store.Valid() && Started(res) && WellFormed(store.disk)
      modifies leases, ports, sessions, runs
      ensures ports.Valid() && Reloaded(Now(), res)
    {
      ReloadLeases(res);
      ReloadPorts();
      ReloadSessions();
      ReloadRuns();
    }

    /** Finalize one interrupted session: nobody waits, so its leases are simply gone. */
    method StopInterrupted(id: string, now: Time)
      requires Valid() && leases.queues == map[] && id in sessions.sessions
      modifies leases, ports, sessions, store
      ensures Valid() && Finalizes(Span(old(Now()), Now()), id, now)
    {
      ghost var w0 := Now();
      ghost var order := ReleaseLeasesOf(id, now);
      ghost var w1 := Now();
      var _ := ReleasePortsOf(id);
      ghost var w2 := Now();
      FinishSession(id, "daemon restart: session interrupted", now);
      StoppedSafely(w0, w1, w2, Now(), id, order, now);
    }

    method StopOne(ghost d: Disk, ghost w: World, ghost done: set<string>, id: string, now: Time)
      requires id in SessionsOn(d) && id !in done
      requires Valid() && Recovering(d, Now(), done, now) && Keeps(Span(w, Now()))
      modifies leases, ports, sessions, store
      ensures Valid() && Recovering(d, Now(), done + {id}, now) && Keeps(Span(w, Now()))
    {
      ghost var v := Now();
      StopInterrupted(id, now);
      OneMoreStopped(d, v, Now(), done, id, now);
      KeepsTrans(w, v, Now());
    }

    /** One round of the loop over the sessions; those of `todo` are still to come. */
    method StopNext(ghost d: Disk, ghost w: World, ghost todo: set<string>, id: string, now: Time)
      requires id in SessionsOn(d) && id in todo
      requires Valid() && Recovering(d, Now(), Interrupted(SessionsOn(d)) - todo, now) && Keeps(Span(w, Now()))
      modifies leases, ports, sessions, store
      ensures Valid() && Recovering(d, Now(), Interrupted(SessionsOn(d)) - (todo - {id}), now) && Keeps(Span(w, Now()))
    {
      NotYetStopped(SessionsOn(d), Interrupted(SessionsOn(d)) - todo, id, now);
      DoneGrows(Interrupted(SessionsOn(d)), todo, id);
      if !Terminal(sessions.sessions[id].state) {
        StopOne(d, w, Interrupted(SessionsOn(d)) - todo, id, now);
      } else {
        assert Interrupted(SessionsOn(d)) - (todo - {id}) == Interrupted(SessionsOn(d)) - todo;
      }
    }

    /** Finalize every session that was not terminal when the daemon went down. */
    method StopAllInterrupted(now: Time, ghost d: Disk)
      requires Valid() && Recovering(d, Now(), {}, now)
      modifies leases, ports, sessions, store
      ensures Valid() && Recovering(d, Now(), Interrupted(SessionsOn(d)), now) && Keeps(Span(old(Now()), Now()))
    {
      ghost var w := Now();
      KeepsRefl(w);
      NoneFinalized(LeasesOn(d), PortsOn(d), SessionsOn(d), now);
      var todo := sessions.sessions.Keys;
      NoneDone(SessionsOn(d));
      while todo != {}
        invariant todo <= SessionsOn(d).Keys && Valid() && Keeps(Span(w, Now()))
        invariant Recovering(d, Now(), Interrupted(SessionsOn(d)) - todo, now)
      {
        var id :| id in todo;
        StopNext(d, w, todo, id, now);
        todo := todo - {id};
      }
    }

    method ReapStep(known: set<string>, now: Time) returns (ghost order: seq<string>)
      requires Valid()
      modifies leases, store
      ensures Valid() && OnlyLeases(old(Now()), Now()) && Keeps(Span(old(Now()), Now()))
      ensures RunsOn(store.disk) == old(RunsOn(store.disk))
      ensures LegalOrder(old(leases.View()), Unowned(known), order, now, now)
      ensures leases.View() == ReapOrphans(old(leases.View()), known, order, now)
    {
      ghost var w := Now();
      var reaped;
      reaped, order := leases.ReapOrphans(known, now);
      if reaped == [] { LeaseManager.NothingEnded(w.leases, Unowned(known), order, now, now); }
      LeaseAction(w, Now(), DoReapOrphans(known, order, now));
    }

    /** Leases of sessions nobody knows any more. */
    method ReapLeases(known: set<string>, now: Time)
      requires Valid() && leases.queues == map[]
      modifies leases, store
      ensures Valid() && OnlyLeases(old(Now()), Now()) && Keeps(Span(old(Now()), Now()))
      ensures RunsOn(store.disk) == old(RunsOn(store.disk))
      ensures leases.queues == map[]
      ensures leases.leases == EndedTable(old(leases.leases), Unowned(known), old(leases.leases).Keys, now)
    {
      ghost var s := leases.View();
      ghost var order := ReapStep(known, now);
      AllMatchesEnded(s, Unowned(known), order, now, now);
    }

    method ReapPorts(known: set<string>)
      requires Valid()
      modifies ports, store
      ensures Valid() && OnlyPorts(old(Now()), Now()) && Keeps(Span(old(Now()), Now()))
      ensures RunsOn(store.disk) == old(RunsOn(store.disk))
      ensures ports.taken == Ports.Remaining(old(ports.taken), Ports.NotIn(known))
    {
      ghost var w := Now();
      var _ := ports.ReapOrphans(known);
      PortAction(w, Now());
    }

    method PersistLeases()
      requires Valid()
      modifies store
      ensures Valid() && SameMemory(old(Now()), Now()) && Keeps(Span(old(Now()), Now()))
      ensures RunsOn(store.disk) == old(RunsOn(store.disk)) && LeasesOn(store.disk) == leases.leases
    {
      ghost var w := Now();
      leases.Persist();
      LeasesPersisted(w, Now());
    }

    method PersistPorts()
      requires Valid()
      modifies store
      ensures Valid() && SameMemory(old(Now()), Now()) && Keeps(Span(old(Now()), Now()))
      ensures RunsOn(store.disk) == old(RunsOn(store.disk)) && LeasesOn(store.disk) == old(LeasesOn(store.disk))
    {
      ghost var w := Now();
      ports.Persist();
      PortAction(w, Now());
    }

    method PersistSessions()
      requires Valid()
      modifies store
      ensures Valid() && SameMemory(old(Now()), Now()) && Keeps(Span(old(Now()), Now()))
      ensures RunsOn(store.disk) == old(RunsOn(store.disk)) && LeasesOn(store.disk) == old(LeasesOn(store.disk))
    {
      ghost var w := Now();
      sessions.Persist();
      SessionAction(w, Now());
    }

    /** The processes recorded by the runs, newest run first. */
    method CollectPreviousProcs() returns (prev: seq<Supervisor.Proc>)
      ensures PreviousProcs(runs.byId, prev)
    {
      var ids := runs.List("");
      prev := [];
      for i := 0 to |ids|
        invariant prev == ProcsOf(runs.byId, ids[..i])
      {
        assert ids[..i + 1][..i] == ids[..i];
        var r := runs.byId[ids[i]];
        if r.pid != 0 {
          prev := prev + [Supervisor.Proc(r.pid, r.procStart, r.session)];
        }
      }
      assert ids[..|ids|] == ids;
    }

    method BeginRecovery(ghost res: map<string, Resource>, ghost now: Time)
      requires Wired() && store.Valid() && Started(res) && WellFormed(store.disk) && Loads(store.disk)
      modifies leases, ports, sessions, runs
      ensures Valid() && Recovering(store.disk, Now(), {}, now)
      ensures CrashSafe(store.disk) ==> Good(Now())
    {
      Reload(res);
      ReopenedInv(store.disk, leases.View(), res);
      ReloadedIsConsistent(Now());
      RecoveryBegins(Now(), now);
      if CrashSafe(store.disk) { ReloadedIsGood(Now()); }
    }

    /** The reconciled picture goes to disk. */
    method PersistAll()
      requires Valid()
      modifies store
      ensures Valid() && SameMemory(old(Now()), Now()) && Keeps(Span(old(Now()), Now()))
      ensures RunsOn(store.disk) == old(RunsOn(store.disk)) && LeasesOn(store.disk) == leases.leases
    {
      ghost var w := Now();
      PersistLeases();
      ghost var v := Now();
      PersistPorts();
      KeepsTrans(w, v, Now());
      v := Now();
      PersistSessions();
      KeepsTrans(w, v, Now());
    }

    /** Everything after the reload and the orphaned processes. */
    method Reconcile(now: Time, ghost d: Disk)
      requires Valid() && Recovering(d, Now(), Interrupted(SessionsOn(d)), now)
      modifies leases, ports, runs, store
      ensures Valid() && Keeps(Span(old(Now()), Now())) && Recovers(d, store.disk, now)
      ensures LeasesOn(store.disk) == leases.leases && RunsOn(store.disk) == runs.byId
    {
      ghost var w0 := Now();
      var known := sessions.sessions.Keys;
      ReapLeases(known, now);
      ghost var w1 := Now();
      ReapPorts(known);
      ghost var w2 := Now();
      KillRuns("", "daemon restart", now);
      ghost var w3 := Now();
      PersistAll();
      ReconciledSafely(w0, w1, w2, w3, Now());
      Reconciled(d, w0, w1, w2, w3, Now(), now);
    }

    /** What the OS says about the i-th recorded process is an input. Of the records of each pid the newest run's
        decides; sessions that are alive keep their processes. */
    method ReconcileProcs(identity: int -> Option<nat>, killOk: int -> bool)
      returns (reaped: seq<int>, attempts: seq<int>, ghost prev: seq<Supervisor.Proc>)
      ensures PreviousProcs(runs.byId, prev) && Supervisor.Distinct(attempts) && Supervisor.Distinct(reaped)
      ensures var live := Sessions.Live(sessions.sessions);
              && (forall pid :: pid in attempts <==> OrphanOf(prev, live, identity, _ => true, pid))
              && (forall pid :: pid in reaped <==> OrphanOf(prev, live, identity, killOk, pid))
      ensures forall pid | pid in attempts :: Recorded(runs.byId, pid)
    {
      var live := Sessions.Live(sessions.sessions);
      var procs := CollectPreviousProcs();
      reaped, attempts := Supervisor.ReconcileOrphans(procs, live, seq(|procs|, identity), seq(|procs|, killOk));
      prev := procs;
      forall pid | pid in attempts ensures Recorded(runs.byId, pid) {
        RecordedOrphan(runs.byId, procs, live, identity, pid);
      }
    }

    method ReapProcs(identity: int -> Option<nat>, killOk: int -> bool) returns (reaped: seq<int>)
      ensures forall pid | pid in reaped :: Recorded(runs.byId, pid)
    {
      ghost var prev;
      var attempts;
      reaped, attempts, prev := ReconcileProcs(identity, killOk);
      forall pid | pid in reaped ensures Recorded(runs.byId, pid) {
        KilledIsAttempted(prev, Sessions.Live(sessions.sessions), identity, killOk, pid);
      }
    }

    /** Startup: reload, finalize what was interrupted, reap what nobody owns, give up on open runs. */
    method Recover(ghost res: map<string, Resource>, now: Time, identity: int -> Option<nat>, killOk: int -> bool)
      returns (reaped: seq<int>)
      requires Wired() && store.Valid() && Started(res) && WellFormed(store.disk) && Loads(store.disk)
      modifies leases, ports, sessions, runs, store
      ensures Valid() && Recovers(old(store.disk), store.disk, now)
      ensures LeasesOn(store.disk) == leases.leases && RunsOn(store.disk) == runs.byId
      ensures old(CrashSafe(store.disk)) ==> Good(Now()) && ImagesSafe(old(store.images), store.images)
      ensures forall pid | pid in reaped :: Recorded(RunsOn(old(store.disk)), pid)
    {
      ghost var d := store.disk;
      BeginRecovery(res, now);
      ghost var w := Now();
      StopAllInterrupted(now, d);
      ghost var v := Now();
      reaped := ReapProcs(identity, killOk);
      Reconcile(now, d);
      KeepsTrans(w, v, Now());
    }
  }

  lemma ReconciledSafely(w0: World, w1: World, w2: World, w3: World, w4: World)
    requires Keeps(Span(w0, w1)) && Keeps(Span(w1, w2)) && Keeps(Span(w2, w3)) && Keeps(Span(w3, w4))
    ensures Keeps(Span(w0, w4))
  {
    SafeUntilFinished(w0, w1, w2, w3, w4);
  }

  lemma Reconciled(d: Disk, w0: World, w1: World, w2: World, w3: World, w4: World, now: Time)
    requires Recovering(d, w0, Interrupted(SessionsOn(d)), now)
    requires OnlyLeases(w0, w1) && RunsOn(w1.disk) == RunsOn(w0.disk)
    requires w1.leases.leases == EndedTable(w0.leases.leases, Unowned(w0.sessions.Keys), w0.leases.leases.Keys, now)
    requires OnlyPorts(w1, w2) && RunsOn(w2.disk) == RunsOn(w1.disk)
    requires w2.ports == Ports.Remaining(w1.ports, Ports.NotIn(w0.sessions.Keys))
    requires Killing(Span(w2, w3), Runs.Listed(w2.runs, ""), "daemon restart", now)
    requires SameMemory(w3, w4) && RunsOn(w4.disk) == RunsOn(w3.disk) && LeasesOn(w4.disk) == w4.leases.leases
    requires PortsOn(w4.disk) == w4.ports && SessionsOn(w4.disk) == w4.sessions
    ensures Recovers(d, w4.disk, now) && RunsOn(w4.disk) == w4.runs
  {
    PartKeys(SessionsOn(d), now);
    TablesReconciled(d, w0.leases.leases, w0.ports, w0.sessions, now);
    AllRunsRecovered(RunsOn(d), now);
    RecordedRuns(w2.disk, w2.runs, w3.disk, w3.runs);
  }

  lemma PartKeys(sessions: SessionTable, now: Time)
    ensures PartSessions(sessions, Interrupted(sessions), now).Keys == sessions.Keys
  {
  }

  lemma TablesReconciled(d: Disk, leases: Leases, ports: PortTable, sessions: SessionTable, now: Time)
    requires var done := Interrupted(SessionsOn(d));
             && leases == PartLeases(LeasesOn(d), done, now) && ports == PartPorts(PortsOn(d), done)
             && sessions == PartSessions(SessionsOn(d), done, now) && sessions.Keys == SessionsOn(d).Keys
    ensures EndedTable(leases, Unowned(sessions.Keys), leases.Keys, now) ==
            RecoveredLeases(LeasesOn(d), SessionsOn(d), now)
    ensures Ports.Remaining(ports, Ports.NotIn(sessions.Keys)) == RecoveredPorts(PortsOn(d), SessionsOn(d))
    ensures sessions == RecoveredSessions(SessionsOn(d), now)
  {
    AllLeasesRecovered(LeasesOn(d), SessionsOn(d), now);
    AllPortsRecovered(PortsOn(d), SessionsOn(d));
    AllSessionsRecovered(SessionsOn(d), now);
  }

  lemma RecordedRuns(d: Disk, runs: RunTable, d': Disk, runs': RunTable)
    requires RunsOn(d) == runs && (RecordsRuns(d, runs) ==> RecordsRuns(d', runs'))
    ensures RunsOn(d') == runs'
  {
  }

  /** Only the disk has changed. */
  predicate SameMemory(w: World, w': World) {
    w'.leases == w.leases && w'.ports == w.ports && w'.sessions == w.sessions && w'.lastSession == w.lastSession
    && w'.runs == w.runs
  }

  function ProcsOf(runs: RunTable, ids: seq<string>): seq<Supervisor.Proc>
    requires forall id | id in ids :: id in runs
  {
    if ids == [] then []
    else
      var r := runs[ids[|ids| - 1]];
      ProcsOf(runs, ids[..|ids| - 1])
      + if r.pid != 0 then [Supervisor.Proc(r.pid, r.procStart, r.session)] else []
  }

  /** Every run with a process counts, and only these. */
  lemma {:induction false} ProcsOfRuns(runs: RunTable, ids: seq<string>, p: Supervisor.Proc)
    requires forall id | id in ids :: id in runs
    ensures p in ProcsOf(runs, ids) <==>
              exists id :: id in ids && runs[id].pid != 0
                           && p == Supervisor.Proc(runs[id].pid, runs[id].procStart, runs[id].session)
  {
    if ids != [] {
      var init := ids[..|ids| - 1];
      ProcsOfRuns(runs, init, p);
      assert ids == init + [ids[|ids| - 1]];
    }
  }

  /** These are the processes the runs recorded, newest run first. */
  ghost predicate PreviousProcs(runs: RunTable, prev: seq<Supervisor.Proc>) {
    exists ids :: Runs.NewestFirst(runs, ids) && (forall id :: id in ids <==> id in runs) && prev == ProcsOf(runs, ids)
  }

  /** The pid's first record is that of an orphan, and killing it succeeds. */
  ghost predicate OrphanOf(prev: seq<Supervisor.Proc>, live: set<string>, identity: int -> Option<nat>,
                           killOk: int -> bool, pid: int) {
    exists i :: 0 <= i < |prev| && Supervisor.Orphan(prev, live, seq(|prev|, identity), i) && killOk(i)
                && prev[i].pid == pid
  }

  /** Some run recorded this process together with its start time. */
  ghost predicate Recorded(runs: RunTable, pid: int) {
    exists id :: id in runs && runs[id].pid == pid && runs[id].procStart != 0
  }

  lemma {:induction false} ProcsAreRuns(runs: RunTable, ids: seq<string>)
    requires forall id | id in ids :: id in runs
    ensures forall p | p in ProcsOf(runs, ids) ::
              exists id :: id in runs && runs[id].pid == p.pid && runs[id].procStart == p.start
                           && runs[id].session == p.session
  {
    if ids != [] { ProcsAreRuns(runs, ids[..|ids| - 1]); }
  }

  lemma KilledIsAttempted(prev: seq<Supervisor.Proc>, live: set<string>, identity: int -> Option<nat>,
                          killOk: int -> bool, pid: int)
    requires OrphanOf(prev, live, identity, killOk, pid)
    ensures OrphanOf(prev, live, identity, _ => true, pid)
  {
  }

  lemma RecordedOrphan(runs: RunTable, prev: seq<Supervisor.Proc>, live: set<string>, identity: int -> Option<nat>,
                       pid: int)
    requires PreviousProcs(runs, prev) && OrphanOf(prev, live, identity, _ => true, pid)
    ensures Recorded(runs, pid)
  {
    var ids :| Runs.NewestFirst(runs, ids) && prev == ProcsOf(runs, ids);
    ProcsAreRuns(runs, ids);
    var i :| 0 <= i < |prev| && Supervisor.Orphan(prev, live, seq(|prev|, identity), i) && prev[i].pid == pid;
    assert prev[i] in prev;
  }

  lemma NoneDone(sessions: SessionTable)
    ensures Interrupted(sessions) - sessions.Keys == {} && Interrupted(sessions) - {} == Interrupted(sessions)
  {
  }

  lemma DoneGrows(all: set<string>, todo: set<string>, id: string)
    requires id in todo
    ensures all - (todo - {id}) == (all - todo) + if id in all then {id} else {}
  {
  }

  /** The stretch finalizes one session of a daemon on which nobody waits. */
  ghost predicate Finalizes(s: Span, id: string, now: Time) {
    && Keeps(s) && id in s.from.sessions
    && s.to.leases.queues == map[]
    && s.to.leases.leases == EndedTable(s.from.leases.leases, OwnedBy(id), s.from.leases.leases.Keys, now)
    && s.to.ports == Ports.Remaining(s.from.ports, Ports.OfSession(id))
    && s.to.sessions == s.from.sessions[id := Stop(s.from.sessions[id], now)]
    && s.to.runs == s.from.runs && RunsOn(s.to.disk) == RunsOn(s.from.disk)
    && forall k | k in s.to.sessions :: k in s.from.sessions
  }

  lemma StoppedSafely(w0: World, w1: World, w2: World, w3: World, id: string, order: seq<string>, now: Time)
    requires id in w0.sessions && w0.leases.queues == map[]
    requires LegalOrder(w0.leases, OwnedBy(id), order, now, now) && w1.leases == ReleaseAll(w0.leases, id, order, now)
    requires OnlyLeases(w0, w1) && Keeps(Span(w0, w1)) && RunsOn(w1.disk) == RunsOn(w0.disk)
    requires OnlyPorts(w1, w2) && Keeps(Span(w1, w2)) && RunsOn(w2.disk) == RunsOn(w1.disk)
    requires w2.ports == Ports.Remaining(w1.ports, Ports.OfSession(id))
    requires Revised(w2, w3, id, Stop(w2.sessions[id], now)) && RunsOn(w3.disk) == RunsOn(w2.disk)
    requires Idle(w2.leases, id) && (forall p | p in w2.ports :: w2.ports[p].session != id) ==> Keeps(Span(w2, w3))
    ensures Finalizes(Span(w0, w3), id, now)
  {
    ReleasedWithoutWaiters(w0.leases, id, order, now);
    PortsAreGone(w1.ports, id);
    KeepsTrans(w0, w1, w2);
    KeepsTrans(w0, w2, w3);
  }

  lemma ReleasedWithoutWaiters(s: State, id: string, order: seq<string>, now: Time)
    requires s.queues == map[] && LegalOrder(s, OwnedBy(id), order, now, now)
    ensures var s' := ReleaseAll(s, id, order, now);
            && s'.queues == map[] && s'.leases == EndedTable(s.leases, OwnedBy(id), s.leases.Keys, now)
            && Idle(s', id)
  {
    AllMatchesEnded(s, OwnedBy(id), order, now, now);
    DropNobody(Visits(s, OwnedBy(id), order, now, now), id);
    EndedHoldsNothing(s.leases, id, now);
  }

  lemma EndedHoldsNothing(leases: Leases, id: string, now: Time)
    ensures var table := EndedTable(leases, OwnedBy(id), leases.Keys, now);
            forall k | k in table :: !(table[k].state == Active && table[k].session == id)
  {
  }

  lemma OneMoreStopped(d: Disk, v: World, w: World, done: set<string>, id: string, now: Time)
    requires Recovering(d, v, done, now) && Finalizes(Span(v, w), id, now) && id in SessionsOn(d) && id !in done
    ensures Recovering(d, w, done + {id}, now)
  {
    LeasesFinalized(LeasesOn(d), done, id, now);
    PortsFinalized(PortsOn(d), done, id);
    SessionFinalized(SessionsOn(d), done, id, now);
  }

  /** The lease manager after reading its file, if there is one. */
  ghost predicate Reopened(d: Disk, res: map<string, Resource>, s: State) {
    && (LeasesKey !in d ==> s == Start(res))
    && (forall snap | SavedLeases(d, snap) :: s == Restored(snap, 0))
  }

  /** What a fresh process has in memory once it has reloaded its disk. */
  ghost predicate Reloaded(w: World, res: map<string, Resource>) {
    && Reopened(w.disk, res, w.leases)
    && w.ports == PortsOn(w.disk) && w.sessions == SessionsOn(w.disk) && w.runs == RunsOn(w.disk)
    && Sessions.IdsOk(w.sessions, w.lastSession)
  }

  lemma ReloadedIsConsistent(w: World)
    requires WellFormed(w.disk) && Loads(w.disk) && Inv(w.leases) && w.leases.leases == LeasesOn(w.disk)
    requires w.ports == PortsOn(w.disk) && w.sessions == SessionsOn(w.disk) && w.runs == RunsOn(w.disk)
    requires Sessions.IdsOk(w.sessions, w.lastSession)
    ensures Consistent(w)
  {
    Runs.OwnNames(w.disk);
  }

  lemma ReopenedInv(d: Disk, s: State, res: map<string, Resource>)
    requires Loads(d) && (LeasesKey in d ==> d[LeasesKey].LeasesDoc?) && Reopened(d, res, s)
    ensures Inv(s) && s.queues == map[] && s.leases == LeasesOn(d)
  {
    StartInv(res);
    if LeasesKey in d { assert SavedLeases(d, d[LeasesKey].snap); }
  }

  lemma ReloadedIsGood(w: World)
    requires Consistent(w) && w.leases.queues == map[] && CrashSafe(w.disk) && w.leases.leases == LeasesOn(w.disk)
    ensures Good(w)
  {
  }

  lemma RecoveryBegins(w: World, now: Time)
    requires w.leases.queues == map[] && w.leases.leases == LeasesOn(w.disk)
    requires w.ports == PortsOn(w.disk) && w.sessions == SessionsOn(w.disk) && w.runs == RunsOn(w.disk)
    ensures Recovering(w.disk, w, {}, now)
  {
    NoneFinalized(LeasesOn(w.disk), PortsOn(w.disk), SessionsOn(w.disk), now);
  }

  /** Recovery under way: the sessions of `done` have been finalized, nobody waits. */
  ghost predicate Recovering(d: Disk, w: World, done: set<string>, now: Time) {
    && w.leases.queues == map[] && w.leases.leases == PartLeases(LeasesOn(d), done, now)
    && w.ports == PartPorts(PortsOn(d), done) && w.sessions == PartSessions(SessionsOn(d), done, now)
    && w.runs == RunsOn(d) && RunsOn(w.disk) == RunsOn(d)
    && forall id | id in w.sessions :: id in SessionsOn(d)
  }

  /** Device resources are registered on demand. */
  function WithDevice(s: State, r: string): State {
    if "adb:" <= r then EnsureResource(s, r, Exclusive) else s
  }

  /** The request does not end in "unknown resource". */
  predicate Registered(s: State, r: string) { r in WithDevice(s, r).res }

  /** A name that begins with adb: stands for an exclusive device, any other must be registered before. */
  lemma RegisteredIff(s: State, r: string)
    ensures Registered(s, r) <==> r in s.res || (|r| >= 4 && r[..4] == "adb:")
    ensures Registered(s, r) && r !in s.res ==> WithDevice(s, r) == s.(res := s.res[r := Resource(Exclusive, 0)])
  {
  }

  predicate GrantsAtOnce(s: State, r: string) { AcquireAnswer(WithDevice(s, r), r).Immediately? }

  predicate Allocates(session: string, protocol: string, name: string, picks: seq<Ports.Pick>, taken: PortTable)
    requires |picks| >= Ports.ATTEMPTS
  {
    Ports.Answer(session, protocol, name, picks, taken).Allocated?
  }

  /** What CreateSession comes to. */
  datatype Creation = Made(s: Session) | Refused(why: Sessions.CreateResult) | NoEnvironment(id: string)

  /** The stretch is safe, but for two failures: one leaves a disk that is not safe to crash on, the other a daemon
      that is not good any more. */
  ghost predicate SafeUnless(s: Span, unsafe: bool, bad: bool) {
    && (!bad ==> Keeps(s))
    && (Good(s.from) ==> (CrashSafe(s.to.disk) <==> !unsafe) && (Good(s.to) <==> !bad))
  }

  lemma NothingUnsafe(w: World)
    ensures SafeUnless(Span(w, w), false, false)
  {
    KeepsRefl(w);
    if Good(w) { GoodIsRecoverable(w); }
  }

  lemma AcquiredSafely(w: World, v: World, w': World, r: string, session: string, ttl: int, now: Time)
    requires Keeps(Span(w, v)) && (!Dead(w.sessions, session) ==> Keeps(Span(v, w')))
    requires OnlyLeases(w, v) && v.leases == WithDevice(w.leases, r)
    requires OnlyLeases(v, w') && Consistent(w') && w'.leases == Acquire(v.leases, r, session, ttl, now)
    requires AcquireAnswer(v.leases, r).Immediately? || Untouched(v, w')
    ensures SafeUnless(Span(w, w'), Dead(w.sessions, session) && GrantsAtOnce(w.leases, r),
                       Dead(w.sessions, session) && Registered(w.leases, r))
  {
    if !Registered(w.leases, r) {
      assert w' == v;
      if Good(w) { GoodIsRecoverable(v); }
    } else if !Dead(w.sessions, session) {
      KeepsTrans(w, v, w');
      if Good(w) { GoodIsRecoverable(w'); }
    } else if AcquireAnswer(v.leases, r).Immediately? {
      GrantedHolds(v.leases, r, session, ttl, now);
      if CrashSafe(w'.disk) { CrashSafeMeansHoldsNothing(w', session); }
    } else {
      QueuedWaits(v.leases, r, session, ttl, now);
      if Good(w) { GoodIsRecoverable(v); }
    }
  }

  lemma QueuedWaits(s: State, r: string, session: string, ttl: int, now: Time)
    requires AcquireAnswer(s, r).MustWait?
    ensures !WaitsForNothing(Acquire(s, r, session, ttl, now), session)
  {
    var q := Queue(Acquire(s, r, session, ttl, now), r);
    assert q[|q| - 1] in Queue(Acquire(s, r, session, ttl, now), r);
  }

  lemma AllocatedSafely(w: World, w': World, session: string, a: Ports.AcquireResult)
    requires OnlyPorts(w, w') && Consistent(w')
    requires w'.ports == if a.Allocated? then w.ports[a.a.port := a.a] else w.ports
    requires a.Allocated? ==> a.a.session == session
    requires PortsAlive(w'.ports, w.sessions) ==> Keeps(Span(w, w'))
    ensures var leaks := Dead(w.sessions, session) && a.Allocated?; SafeUnless(Span(w, w'), leaks, leaks)
  {
    if Good(w) {
      if Dead(w.sessions, session) && a.Allocated? {
        assert a.a.port in PortsOn(w'.disk);
      } else {
        assert PortsAlive(w'.ports, w.sessions);
        GoodIsRecoverable(w');
      }
    }
  }

  /** A session that is over and waits is granted a lease as soon as it is first in line. */
  lemma DeadWaiterIsGranted(w: World, w': World, id: string, now: Time)
    requires Inv(w.leases) && IsActive(w.leases, id) && Consistent(w') && w'.sessions == w.sessions
    requires w'.leases == Release(w.leases, id, now)
    requires var q := Queue(w.leases, w.leases.leases[id].resource); q != [] && Dead(w.sessions, q[0].session)
    ensures !CrashSafe(w'.disk)
  {
    var s, s' := w.leases, w'.leases;
    var q := Queue(s, s.leases[id].resource);
    HandOffEffect(s, id, LeaseState.Released, now, now);
    assert NewId(s) in s'.leases && s'.leases[NewId(s)].session == q[0].session;
    if CrashSafe(w'.disk) { CrashSafeMeansHoldsNothing(w', q[0].session); }
  }

  lemma GrantedActive(s: State, r: string, session: string, ttl: int, now: Time)
    requires AcquireAnswer(s, r).Immediately?
    ensures var s', id := Acquire(s, r, session, ttl, now), AcquireAnswer(s, r).lease;
            IsActive(s', id) && s'.leases[id].session == session
  {
  }

  lemma GrantedHolds(s: State, r: string, session: string, ttl: int, now: Time)
    requires AcquireAnswer(s, r).Immediately?
    ensures !HoldsNothing(Acquire(s, r, session, ttl, now), session)
  {
    GrantedActive(s, r, session, ttl, now);
  }

  /** What GetSession finds. */
  ghost predicate Names(sessions: SessionTable, who: string, id: Option<string>) {
    if who in sessions then id == Some(who)
    else if id.Some? then who != "" && id.value in sessions && sessions[id.value].name == who
    else who == "" || forall k | k in sessions :: sessions[k].name != who
  }

  /** What terminating a live session does to memory. */
  ghost predicate Terminated(w: World, w': World, id: string, reason: string, order: seq<string>, now: Time)
    requires id in w.sessions
  {
    && w'.leases == ReleaseAll(w.leases, id, order, now)
    && w'.ports == Ports.Remaining(w.ports, Ports.OfSession(id))
    && w'.runs == Runs.KilledAmong(w.runs, Runs.Listed(w.runs, id), reason, now)
    && w'.sessions == w.sessions[id := Sessions.Finished(w.sessions[id].(state := Stopping), Stopped, reason, now)]
  }

  /** The five steps of a termination. */
  ghost predicate TerminationSteps(w0: World, w1: World, w2: World, w3: World, w4: World, w5: World, id: string,
                                   reason: string, order: seq<string>, now: Time) {
    && id in w0.sessions && Revised(w0, w1, id, w0.sessions[id].(state := Stopping)) && Keeps(Span(w0, w1))
    && OnlyLeases(w1, w2) && Keeps(Span(w1, w2)) && w2.leases == ReleaseAll(w1.leases, id, order, now)
    && OnlyPorts(w2, w3) && Keeps(Span(w2, w3)) && w3.ports == Ports.Remaining(w2.ports, Ports.OfSession(id))
    && Killing(Span(w3, w4), Runs.Listed(w3.runs, id), reason, now)
    && id in w4.sessions && Revised(w4, w5, id, Sessions.Finished(w4.sessions[id], Stopped, reason, now))
    && (Idle(w4.leases, id) && (forall p | p in w4.ports :: w4.ports[p].session != id) ==> Keeps(Span(w4, w5)))
  }

  lemma UpdateTwice<K, V>(m: map<K, V>, k: K, first: V, second: V)
    ensures m[k := first][k := second] == m[k := second]
  {
  }

  lemma TerminationEffect(w0: World, w1: World, w2: World, w3: World, w4: World, w5: World, id: string,
                          reason: string, order: seq<string>, now: Time)
    requires TerminationSteps(w0, w1, w2, w3, w4, w5, id, reason, order, now)
    ensures Terminated(w0, w5, id, reason, order, now) && w4.leases == w5.leases && w1.leases == w0.leases
    ensures Dead(w5.sessions, id)
  {
    UpdateTwice(w0.sessions, id, w0.sessions[id].(state := Stopping),
                Sessions.Finished(w0.sessions[id].(state := Stopping), Stopped, reason, now));
  }

  lemma PortsAreGone(ports: PortTable, id: string)
    ensures var left := Ports.Remaining(ports, Ports.OfSession(id)); forall p | p in left :: left[p].session != id
  {
  }

  /** The order leases, ports, then session is what makes it safe. */
  lemma TerminationKeeps(w0: World, w1: World, w2: World, w3: World, w4: World, w5: World, id: string,
                         reason: string, order: seq<string>, now: Time)
    requires TerminationSteps(w0, w1, w2, w3, w4, w5, id, reason, order, now)
    requires Inv(w0.leases) && LegalOrder(w0.leases, OwnedBy(id), order, now, now) && Consistent(w5)
    ensures Terminated(w0, w5, id, reason, order, now)
    ensures NoRematch(w0.leases, OwnedBy(id)) ==> Keeps(Span(w0, w5))
    ensures Good(w0) ==> (HoldsNothing(w5.leases, id) <==> CrashSafe(w5.disk))
  {
    TerminationEffect(w0, w1, w2, w3, w4, w5, id, reason, order, now);
    SafeUntilFinished(w0, w1, w2, w3, w4);
    PortsAreGone(w2.ports, id);
    ReleasedWaitsForNothing(w0.leases, id, order, now);
    if NoRematch(w0.leases, OwnedBy(id)) { ReleaseAllExact(w0.leases, id, order, now); }
    LastStepDecides(w0, w4, w5, id);
  }

  lemma SafeUntilFinished(w0: World, w1: World, w2: World, w3: World, w4: World)
    requires Keeps(Span(w0, w1)) && Keeps(Span(w1, w2)) && Keeps(Span(w2, w3)) && Keeps(Span(w3, w4))
    ensures Keeps(Span(w0, w4))
  {
    KeepsTrans(w0, w1, w2);
    KeepsTrans(w0, w2, w3);
    KeepsTrans(w0, w3, w4);
  }

  lemma LastStepDecides(w0: World, w4: World, w5: World, id: string)
    requires Keeps(Span(w0, w4)) && (HoldsNothing(w5.leases, id) ==> Keeps(Span(w4, w5)))
    requires Consistent(w5) && Dead(w5.sessions, id)
    ensures HoldsNothing(w5.leases, id) ==> Keeps(Span(w0, w5))
    ensures Good(w0) ==> (HoldsNothing(w5.leases, id) <==> CrashSafe(w5.disk))
  {
    if HoldsNothing(w5.leases, id) {
      KeepsTrans(w0, w4, w5);
      if Good(w0) { GoodIsRecoverable(w5); }
    } else if CrashSafe(w5.disk) {
      CrashSafeMeansHoldsNothing(w5, id);
    }
  }
}
