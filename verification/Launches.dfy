/** What a Unity launch asks for, and that it goes ahead with all of it. */
module Launches {
  import opened Options
  import opened LeaseModel
  import opened LeaseInvariant
  import opened LeaseHandoff
  import opened Unity
  import LeaseRuns

  // What is asked for

  predicate Known(command: string) {
    command in {"version", "compile", "test.editmode", "test.playmode", "build", "run.batch"}
  }

  /** A launch gets as far as its list of resources exactly if there is an executable and a known command, and, unless
      it only asks for the version, a workspace that exists. Then everything but the version takes a process slot; the
      tests, builds and batch runs take a license too; and the tests in play mode alone take the GPU. */
  lemma PrepareIs(req: Unity.Request)
    ensures Prepare(req).Needs? <==>
              req.executable != "" && Known(req.command)
              && (req.command == "version" || (req.workspace != "" && req.dirExists))
    ensures Prepare(req).Needs? ==>
              var plan := Prepare(req).resources;
              && (forall r | r in plan :: r in {"unity-process-slot", "unity-license", "gpu"})
              && ("unity-process-slot" in plan <==> req.command != "version")
              && ("unity-license" in plan <==> req.command in {"test.editmode", "test.playmode", "build", "run.batch"})
              && ("gpu" in plan <==> req.command == "test.playmode")
              && (forall i, j | 0 <= i < j < |plan| :: plan[i] != plan[j])
  {
    assert SLOT != LICENSE && LICENSE != GPU && SLOT != GPU;
  }

  // Requests granted from a queue are granted new leases

  /** If t has been granted, it is with none of these leases. */
  predicate NewSince(before: set<string>, s: State, t: nat) {
    WasGranted(s.outcomes, t) ==> s.outcomes[t].lease !in before
  }

  lemma HandOffNew(before: set<string>, s: State, id: string, to: LeaseState, stamp: Time, now: Time, t: nat)
    requires Inv(s) && IsActive(s, id) && to != Active && before <= s.leases.Keys && NewSince(before, s, t)
    ensures var s' := EndAndHandOff(s, id, to, stamp, now); before <= s'.leases.Keys && NewSince(before, s', t)
  {
    HandOffEffect(s, id, to, stamp, now);
  }

  lemma {:induction false} VisitsNew(before: set<string>, s: State, c: Criterion, order: seq<string>, stamp: Time,
                                     now: Time, t: nat)
    requires Inv(s) && before <= s.leases.Keys && NewSince(before, s, t)
    ensures var s' := Visits(s, c, order, stamp, now); before <= s'.leases.Keys && NewSince(before, s', t)
  {
    if order != [] {
      var p, id := order[..|order| - 1], order[|order| - 1];
      var v := Visits(s, c, p, stamp, now);
      VisitsNew(before, s, c, p, stamp, now, t);
      VisitsKeepInv(s, c, p, stamp, now);
      if Doomed(v, c, id) { HandOffNew(before, v, id, EndState(c), stamp, now, t); }
    }
  }

  lemma ReleaseAllNew(before: set<string>, s: State, session: string, order: seq<string>, now: Time, t: nat)
    requires Inv(s) && before <= s.leases.Keys && NewSince(before, s, t)
    ensures NewSince(before, ReleaseAll(s, session, order, now), t)
  {
    VisitsNew(before, s, OwnedBy(session), order, now, now, t);
    VisitsKeepInv(s, OwnedBy(session), order, now, now);
    DropEffect(Visits(s, OwnedBy(session), order, now, now), session);
  }

  lemma LoopNew(before: set<string>, s: State, a: Action, t: nat)
    requires Inv(s) && OverTheTable(a) && before <= s.leases.Keys && NewSince(before, s, t)
    ensures NewSince(before, Step(s, a), t)
  {
    if a.DoReleaseAll? {
      ReleaseAllNew(before, s, a.session, a.order, a.now, t);
    } else if a.DoSweep? {
      VisitsNew(before, s, Overdue(a.cutoff), a.order, a.cutoff, a.now, t);
    } else {
      VisitsNew(before, s, Unowned(a.live), a.order, a.now, a.now, t);
    }
  }

  lemma StepNew(before: set<string>, s: State, a: Action, t: nat)
    requires Inv(s) && before <= s.leases.Keys && NewSince(before, s, t)
    ensures NewSince(before, Step(s, a), t)
  {
    if OverTheTable(a) {
      LoopNew(before, s, a, t);
    } else {
      match a
      case DoRelease(id, now) => if IsActive(s, id) { HandOffNew(before, s, id, Released, now, now, t); }
      case DoExpireNow(id, now) => if IsActive(s, id) { HandOffNew(before, s, id, Expired, now, now, t); }
      case DoAcquire(_, _, _, _) =>
      case DoCancel(_, _) =>
      case DoRenew(_, _, _) =>
      case DoEnsure(_, _) =>
    }
  }

  // What a launch has

  /** A lease on r that was not there before and is, or was, this session's. */
  predicate Got(before: set<string>, m: State, session: string, r: string) {
    exists id :: id in m.leases && id !in before && m.leases[id].session == session && m.leases[id].resource == r
  }

  /** The launch has got the first part of its list, and awaits the next. */
  ghost predicate Tracked(before: set<string>, m: State, session: string, l: Launch) {
    && l.got <= |l.plan|
    && (forall j | 0 <= j < l.got :: Got(before, m, session, l.plan[j]))
    && (l.phase.Waiting? ==>
          && l.got < |l.plan| && l.phase.ticket < |m.asked|
          && m.asked[l.phase.ticket] == LeaseModel.Request(l.plan[l.got], session)
          && NewSince(before, m, l.phase.ticket))
  }

  lemma TrackedStays(before: set<string>, m: State, a: Action, session: string, l: Launch)
    requires Inv(m) && before <= m.leases.Keys && Tracked(before, m, session, l)
    ensures before <= Step(m, a).leases.Keys && Tracked(before, Step(m, a), session, l)
  {
    var m' := Step(m, a);
    LeaseRuns.StepEvolves(m, a);
    forall j | 0 <= j < l.got ensures Got(before, m', session, l.plan[j]) {
      assert Got(before, m, session, l.plan[j]);
      var id :| id in m.leases && id !in before && m.leases[id].session == session
                && m.leases[id].resource == l.plan[j];
      assert LeaseRuns.LeaseEvolves(m.leases[id], m'.leases[id]);
    }
    if l.phase.Waiting? { StepNew(before, m, a, l.phase.ticket); }
  }

  lemma AskTracked(before: set<string>, m: State, session: string, l: Launch, now: Time)
    requires Inv(m) && before <= m.leases.Keys && Tracked(before, m, session, l)
    requires l.phase.Asking? && l.got < |l.plan|
    ensures var r := l.plan[l.got];
            Tracked(before, Acquire(m, r, session, TTL, now), session, AfterAsk(l, AcquireAnswer(m, r)))
  {
    var r := l.plan[l.got];
    var m' := Acquire(m, r, session, TTL, now);
    TrackedStays(before, m, DoAcquire(r, session, TTL, now), session, l);
    if AcquireAnswer(m, r).Immediately? { GrantedNow(before, m, session, r, now); }
  }

  lemma GrantedNow(before: set<string>, m: State, session: string, r: string, now: Time)
    requires Inv(m) && before <= m.leases.Keys && AcquireAnswer(m, r).Immediately?
    ensures Got(before, Acquire(m, r, session, TTL, now), session, r)
  {
    FreshId(m);
    assert NewId(m) in Acquire(m, r, session, TTL, now).leases;
  }

  lemma WakeTracked(before: set<string>, m: State, session: string, l: Launch)
    requires Inv(m) && Tracked(before, m, session, l) && l.phase.Waiting? && l.phase.ticket in m.outcomes
    ensures Tracked(before, m, session, AfterWake(l, m.outcomes[l.phase.ticket]))
  {
    var t := l.phase.ticket;
    if WasGranted(m.outcomes, t) {
      assert GrantFits(m.leases, m.asked[t], m.outcomes[t].lease);
      assert Got(before, m, session, l.plan[l.got]);
    }
  }

  ghost predicate OnTrack(before: set<string>, u: World, session: string) {
    session in u.launches && before <= u.m.leases.Keys && Tracked(before, u.m, session, u.launches[session])
  }

  lemma NextAskTracked(before: set<string>, u: World, s: string, now: Time, session: string)
    requires Inv(u.m) && Possible(u, Ask(s, now)) && OnTrack(before, u, session)
    ensures OnTrack(before, Next(u, Ask(s, now)), session)
  {
    var k, l := u.launches[s], u.launches[session];
    TrackedStays(before, u.m, DoAcquire(k.plan[k.got], s, TTL, now), session, l);
    if s == session { AskTracked(before, u.m, session, l, now); }
  }

  lemma NextGiveUpTracked(before: set<string>, u: World, s: string, session: string)
    requires Inv(u.m) && Possible(u, GiveUp(s)) && OnTrack(before, u, session)
    ensures OnTrack(before, Next(u, GiveUp(s)), session)
  {
    var k := u.launches[s];
    TrackedStays(before, u.m, DoCancel(k.plan[k.got], k.phase.ticket), session, u.launches[session]);
  }

  /** The session's launch goes on, whatever else happens. */
  lemma NextTracked(before: set<string>, u: World, e: Event, session: string)
    requires Inv(u.m) && Possible(u, e) && !(e.Begin? && e.session == session) && OnTrack(before, u, session)
    ensures OnTrack(before, Next(u, e), session)
    ensures Next(u, e).launches[session].plan == u.launches[session].plan
  {
    match e
    case Begin(_, _) =>
    case Ask(s, now) => NextAskTracked(before, u, s, now, session);
    case Wake(s) => if s == session { WakeTracked(before, u.m, session, u.launches[session]); }
    case GiveUp(s) => NextGiveUpTracked(before, u, s, session);
    case Other(a) => TrackedStays(before, u.m, a, session, u.launches[session]);
  }

  /** The session's launch works through this list. */
  ghost predicate Following(before: set<string>, u: World, session: string, plan: seq<string>) {
    OnTrack(before, u, session) && u.launches[session].plan == plan
  }

  lemma FollowingNext(before: set<string>, u: World, e: Event, v: World, session: string, plan: seq<string>)
    requires Ok(u) && LeadsTo(u, e, v) && !(e.Begin? && e.session == session) && Following(before, u, session, plan)
    ensures Following(before, v, session, plan)
  {
    LeadsToIff(u, e, v);
    NextTracked(before, u, e, session);
  }

  lemma FollowingBegin(u: World, v: World, session: string, req: Unity.Request)
    requires LeadsTo(u, Begin(session, req), v) && Prepare(req).Needs?
    ensures Following(u.m.leases.Keys, v, session, Prepare(req).resources)
  {
    LeadsToIff(u, Begin(session, req), v);
  }

  /** A single event. */
  ghost predicate LeadsTo(u: World, e: Event, v: World) { Trace([u, v], [e]) }

  lemma LeadsToIff(u: World, e: Event, v: World)
    ensures LeadsTo(u, e, v) <==> Possible(u, e) && v == Next(u, e)
  {
    var ws, es := [u, v], [e];
    if LeadsTo(u, e, v) { assert Possible(ws[0], es[0]) && ws[0 + 1] == Next(ws[0], es[0]); }
  }

  /** Event b begins a launch of the session, and no other one begins before event n. */
  ghost predicate OneLaunch(events: seq<Event>, b: nat, n: nat, session: string, req: Unity.Request) {
    && b < n <= |events| && events[b] == Begin(session, req) && Prepare(req).Needs?
    && forall k | b < k < n :: !(events[k].Begin? && events[k].session == session)
  }

  /** Event i leads from one sound state to the next. */
  ghost predicate Linked(worlds: seq<World>, events: seq<Event>, i: nat)
    requires |worlds| == |events| + 1 && i < |events|
  {
    Ok(worlds[i]) && LeadsTo(worlds[i], events[i], worlds[i + 1])
  }

  lemma TraceIsLinked(worlds: seq<World>, events: seq<Event>, i: nat)
    requires Trace(worlds, events) && Ok(worlds[0]) && i < |events|
    ensures Linked(worlds, events, i)
  {
    TraceIsOk(worlds, events, i);
    LeadsToIff(worlds[i], events[i], worlds[i + 1]);
  }

  lemma {:induction false} LinkedTracked(worlds: seq<World>, events: seq<Event>, b: nat, n: nat, session: string,
                                         req: Unity.Request)
    requires |worlds| == |events| + 1 && OneLaunch(events, b, n, session, req)
    requires forall i | 0 <= i < n :: Linked(worlds, events, i)
    ensures Following(worlds[b].m.leases.Keys, worlds[n], session, Prepare(req).resources)
    decreases n
  {
    var i := n - 1;
    assert Linked(worlds, events, i);
    if i > b {
      LinkedTracked(worlds, events, b, i, session, req);
      FollowingNext(worlds[b].m.leases.Keys, worlds[i], events[i], worlds[n], session, Prepare(req).resources);
    } else {
      FollowingBegin(worlds[i], worlds[n], session, req);
    }
  }

  lemma LaunchTracked(worlds: seq<World>, events: seq<Event>, b: nat, n: nat, session: string, req: Unity.Request)
    requires Trace(worlds, events) && Ok(worlds[0]) && OneLaunch(events, b, n, session, req)
    ensures Following(worlds[b].m.leases.Keys, worlds[n], session, Prepare(req).resources)
  {
    forall i | 0 <= i < n ensures Linked(worlds, events, i) { TraceIsLinked(worlds, events, i); }
    LinkedTracked(worlds, events, b, n, session, req);
  }

  /** In every execution, a launch that goes ahead has been granted, since it began, a lease on each resource its
      command needs. */
  lemma LaunchHasAll(worlds: seq<World>, events: seq<Event>, b: nat, n: nat, session: string, req: Unity.Request)
    requires Trace(worlds, events) && Ok(worlds[0]) && OneLaunch(events, b, n, session, req)
    requires session in worlds[n].launches && worlds[n].launches[session].got == |worlds[n].launches[session].plan|
    ensures var before, m := worlds[b].m.leases.Keys, worlds[n].m;
            && (req.command != "version" ==> Got(before, m, session, "unity-process-slot"))
            && (req.command in {"test.editmode", "test.playmode", "build", "run.batch"} ==>
                  Got(before, m, session, "unity-license"))
            && (req.command == "test.playmode" ==> Got(before, m, session, "gpu"))
  {
    LaunchTracked(worlds, events, b, n, session, req);
    PrepareIs(req);
    var before, m, plan := worlds[b].m.leases.Keys, worlds[n].m, Prepare(req).resources;
    forall r | r in plan ensures Got(before, m, session, r) {
      var j :| 0 <= j < |plan| && plan[j] == r;
    }
  }

  // Nothing else is asked of a launch

  /** An active lease of the session on r, due two hours after `now`. */
  predicate HasFor(m: State, session: string, r: string, now: Time) {
    exists id :: id in m.leases && m.leases[id].state == Active && m.leases[id].session == session
                 && m.leases[id].resource == r && m.leases[id].expires == Some(now + 7_200_000_000_000)
  }

  predicate Free(m: State, r: string) { r in m.res && HasRoom(m, r) }

  lemma FreeAsk(m: State, session: string, r: string, now: Time)
    requires Inv(m) && Free(m, r)
    ensures var m' := Acquire(m, r, session, TTL, now);
            && AcquireAnswer(m, r).Immediately? && HasFor(m', session, r, now)
            && (forall o | HasFor(m, session, o, now) :: HasFor(m', session, o, now))
            && (forall o | o != r && Free(m, o) :: Free(m', o))
  {
    var m' := Acquire(m, r, session, TTL, now);
    FreshId(m);
    assert m'.leases[NewId(m)].expires == Some(now + 7_200_000_000_000);
    forall o | HasFor(m, session, o, now) ensures HasFor(m', session, o, now) {
      var id :| id in m.leases && m.leases[id].state == Active && m.leases[id].session == session
                && m.leases[id].resource == o && m.leases[id].expires == Some(now + 7_200_000_000_000);
      assert id in m'.leases && m'.leases[id] == m.leases[id];
    }
  }

  /** The session has the first part of its list, and the rest is free. */
  ghost predicate Halfway(m: State, session: string, plan: seq<string>, got: nat, now: Time) {
    && got <= |plan|
    && (forall j | 0 <= j < got :: HasFor(m, session, plan[j], now))
    && (forall j | got <= j < |plan| :: Free(m, plan[j]))
  }

  lemma Further(m: State, session: string, plan: seq<string>, got: nat, now: Time)
    requires Inv(m) && Halfway(m, session, plan, got, now) && got < |plan| && Ascending(plan)
    ensures AcquireAnswer(m, plan[got]).Immediately?
    ensures Halfway(Acquire(m, plan[got], session, TTL, now), session, plan, got + 1, now)
  {
    FreeAsk(m, session, plan[got], now);
    forall j | got + 1 <= j < |plan| ensures plan[j] != plan[got] { assert Rank(plan[got]) < Rank(plan[j]); }
  }

  ghost predicate OnItsWay(u: World, session: string, plan: seq<string>, got: nat, now: Time) {
    && session in u.launches && u.launches[session] == Launch(plan, got, Asking)
    && Halfway(u.m, session, plan, got, now)
  }

  lemma OneMoreAsk(u: World, session: string, plan: seq<string>, got: nat, now: Time) returns (v: World)
    requires Ok(u) && OnItsWay(u, session, plan, got, now) && got < |plan| && Ascending(plan)
    ensures LeadsTo(u, Ask(session, now), v) && Ok(v) && OnItsWay(v, session, plan, got + 1, now)
  {
    Further(u.m, session, plan, got, now);
    v := Next(u, Ask(session, now));
    LeadsToIff(u, Ask(session, now), v);
    NextKeepsOk(u, Ask(session, now));
  }

  lemma TraceFrom(u: World, e: Event, worlds: seq<World>, events: seq<Event>)
    requires Trace(worlds, events) && LeadsTo(u, e, worlds[0])
    ensures Trace([u] + worlds, [e] + events)
  {
    var ws, es := [u] + worlds, [e] + events;
    LeadsToIff(u, e, worlds[0]);
    forall i | 0 <= i < |es| ensures Possible(ws[i], es[i]) && ws[i + 1] == Next(ws[i], es[i]) {
      if i > 0 { assert es[i] == events[i - 1] && ws[i] == worlds[i - 1] && ws[i + 1] == worlds[i - 1 + 1]; }
    }
  }

  /** From u, the launch asks for the rest of its list, at one time, and then holds all of it. */
  ghost predicate GoesAhead(u: World, worlds: seq<World>, events: seq<Event>, session: string, plan: seq<string>,
                            got: nat, now: Time) {
    && Trace(worlds, events) && worlds[0] == u && |events| == |plan| - got
    && (forall e | e in events :: e == Ask(session, now))
    && OnItsWay(worlds[|events|], session, plan, |plan|, now)
  }

  lemma GoesAheadFrom(u: World, v: World, worlds: seq<World>, events: seq<Event>, session: string, plan: seq<string>,
                      got: nat, now: Time)
    requires LeadsTo(u, Ask(session, now), v) && GoesAhead(v, worlds, events, session, plan, got + 1, now)
    ensures GoesAhead(u, [u] + worlds, [Ask(session, now)] + events, session, plan, got, now)
  {
    TraceFrom(u, Ask(session, now), worlds, events);
    assert ([u] + worlds)[|events| + 1] == worlds[|events|];
  }

  /** A launch that finds all its resources free asks for one after the other and then goes ahead, holding each of
      them, with a deadline two hours later. */
  lemma {:induction false} FreeLaunchGoesAhead(u: World, session: string, plan: seq<string>, got: nat, now: Time)
    returns (worlds: seq<World>, events: seq<Event>)
    requires Ok(u) && OnItsWay(u, session, plan, got, now) && Ascending(plan)
    ensures GoesAhead(u, worlds, events, session, plan, got, now)
    decreases |plan| - got
  {
    if got == |plan| {
      worlds, events := [u], [];
    } else {
      var v := OneMoreAsk(u, session, plan, got, now);
      var ws, es := FreeLaunchGoesAhead(v, session, plan, got + 1, now);
      GoesAheadFrom(u, v, ws, es, session, plan, got, now);
      worlds, events := [u] + ws, [Ask(session, now)] + es;
    }
  }

  /** A launch that waits for its turn goes on with its list when it has been granted the lease, and ends when it has
      been dropped with its session. */
  lemma WokenGoesOn(u: World, session: string)
    requires Possible(u, Wake(session))
    ensures var l, l' := u.launches[session], Next(u, Wake(session)).launches[session];
            && l'.plan == l.plan
            && (u.m.outcomes[l.phase.ticket].Granted? ==> l'.got == l.got + 1 && l'.phase.Asking?)
            && (u.m.outcomes[l.phase.ticket].Dropped? ==> l'.got == l.got && l'.phase.Failed?)
  {
  }
}
