/** The session manager: a table of sessions, persisted after every change. */
module Sessions {
  import opened Options
  import opened Finite
  import opened Documents
  import Ids
  import Store

  type Table = map<string, Session>

  datatype CreateResult = New(s: Session) | TooMany | NoDirs

  function Live(sessions: Table): set<string> {
    set id | id in sessions && !Terminal(sessions[id].state)
  }

  /** The id counter is past every id in the table. */
  ghost predicate IdsOk(sessions: Table, lastId: nat) {
    SessionRows(sessions) && forall id {:trigger Ids.SessionSeq(id)} | id in sessions :: Ids.SessionSeq(id) <= lastId
  }

  lemma FreshSessionId(sessions: Table, lastId: nat)
    requires IdsOk(sessions, lastId)
    ensures Ids.SessionId(lastId + 1) !in sessions && Ids.SessionSeq(Ids.SessionId(lastId + 1)) == lastId + 1
  {
    Ids.SessionSeqInvertsSessionId(lastId + 1);
  }

  /** The live sessions already counted. */
  function LiveIn(sessions: Table, todo: set<string>): set<string> {
    set id | id in sessions && id !in todo && !Terminal(sessions[id].state)
  }

  lemma CountOne(sessions: Table, todo: set<string>, id: string)
    requires id in todo && id in sessions
    ensures |LiveIn(sessions, todo - {id})| == |LiveIn(sessions, todo)| + if Terminal(sessions[id].state) then 0 else 1
  {
    if Terminal(sessions[id].state) {
      assert LiveIn(sessions, todo - {id}) == LiveIn(sessions, todo);
    } else {
      assert LiveIn(sessions, todo - {id}) == LiveIn(sessions, todo) + {id};
    }
  }

  lemma CountAll(sessions: Table)
    ensures LiveIn(sessions, sessions.Keys) == {} && LiveIn(sessions, {}) == Live(sessions)
  {
  }

  lemma OneMoreLive(sessions: Table, s: Session)
    requires s.id !in sessions && !Terminal(s.state)
    ensures |Live(sessions[s.id := s])| == |Live(sessions)| + 1
  {
    assert Live(sessions[s.id := s]) == Live(sessions) + {s.id};
  }

  /** A session whose first process has been launched. */
  function Started(s: Session, now: Time): Session {
    if s.state == Ready || s.state == Created then s.(state := Running, started := Some(now)) else s
  }

  /** The state after Finish(id, state, reason); a state that is not terminal is refused. */
  function Finished(s: Session, state: SessionState, reason: string, now: Time): Session
    requires Terminal(state)
  {
    s.(state := state, stopped := Some(now), failure := if state == Failed then reason else s.failure)
  }

  /** Starting changes the state of a session that was created or ready, and dates it; any other is as it was. */
  lemma StartedFields(s: Session, now: Time)
    ensures (s.state == Created || s.state == Ready) ==>
              Started(s, now) == Session(s.id, s.name, s.owner, Running, s.created, Some(now), s.stopped, s.failure)
    ensures s.state != Created && s.state != Ready ==> Started(s, now) == s
  {
  }

  /** A session ends with its state, the time, and a reason only if it failed. */
  lemma FinishedFields(s: Session, reason: string, now: Time)
    ensures Finished(s, Stopped, reason, now) ==
            Session(s.id, s.name, s.owner, Stopped, s.created, s.started, Some(now), s.failure)
    ensures Finished(s, Failed, reason, now) ==
            Session(s.id, s.name, s.owner, Failed, s.created, s.started, Some(now), reason)
  {
  }

  class Manager {
    const store: Store.Store<Key, Doc>
    const maxSessions: int
    var sessions: Table
    var lastId: nat

    constructor (store: Store.Store<Key, Doc>, maxSessions: int)
      ensures this.store == store && this.maxSessions == maxSessions && sessions == map[] && lastId == 0
    {
      this.store, this.maxSessions, sessions, lastId := store, maxSessions, map[], 0;
    }

    /** The table as it is now has been saved, or nothing has. */
    twostate predicate Persisted(saved: bool)
      reads this, store
    {
      if saved then store.Saved(SessionsKey, SessionsDoc(sessions)) else store.Same()
    }

    method Persist()
      requires store.Valid()
      modifies store
      ensures Persisted(true)
    {
      store.Save(SessionsKey, SessionsDoc(sessions));
    }

    method CountLive() returns (live: nat)
      ensures live == |Live(sessions)|
    {
      live := 0;
      var todo := sessions.Keys;
      CountAll(sessions);
      while todo != {}
        invariant todo <= sessions.Keys && live == |LiveIn(sessions, todo)|
      {
        var id :| id in todo;
        CountOne(sessions, todo, id);
        if !Terminal(sessions[id].state) {
          live := live + 1;
        }
        todo := todo - {id};
      }
    }

    /** Create a READY session under an id never used before, unless the limit of live ones is reached. */
    method Create(name: string, owner: string, now: Time, dirsOk: bool) returns (r: CreateResult)
      requires IdsOk(sessions, lastId) && store.Valid()
      modifies this, store
      ensures IdsOk(sessions, lastId) && Persisted(r.New?)
      ensures if |Live(old(sessions))| >= maxSessions then r == TooMany else if !dirsOk then r == NoDirs else r.New?
      ensures r.New? ==>
                && r.s.id !in old(sessions)
                && r.s == Session(Ids.SessionId(lastId), name, owner, Ready, now, None, None, "")
                && sessions == old(sessions)[r.s.id := r.s]
                && |Live(sessions)| == |Live(old(sessions))| + 1 <= maxSessions
      ensures !r.New? ==> sessions == old(sessions)
    {
      var live := CountLive();
      if live >= maxSessions {
        return TooMany;
      }
      FreshSessionId(sessions, lastId);
      lastId := lastId + 1;
      if !dirsOk {
        return NoDirs;
      }
      var s := Session(Ids.SessionId(lastId), name, owner, Ready, now, None, None, "");
      sessions := sessions[s.id := s];
      OneMoreLive(old(sessions), s);
      Persist();
      return New(s);
    }

    /** Mutate: change one row and persist the table, or refuse without effect. */
    method Put(id: string, s: Option<Session>)
      requires store.Valid() && (id in sessions || s.None?)
      modifies this, store
      ensures sessions == if s.Some? then old(sessions)[id := s.value] else old(sessions)
      ensures lastId == old(lastId) && Persisted(s.Some?)
    {
      if s.Some? {
        sessions := sessions[id := s.value];
        Persist();
      }
    }

    /** A session that is neither created nor ready keeps its state, but the table is saved all the same. */
    method MarkRunning(id: string, now: Time)
      requires store.Valid()
      modifies this, store
      ensures sessions == if id in old(sessions) then old(sessions)[id := Started(old(sessions)[id], now)]
                          else old(sessions)
      ensures lastId == old(lastId) && Persisted(id in old(sessions))
    {
      var row: Option<Session> := None;
      if id in sessions {
        var s := sessions[id];
        if s.state == Ready || s.state == Created {
          s := s.(state := Running, started := Some(now));
        }
        row := Some(s);
      }
      Put(id, row);
    }

    method MarkStopping(id: string)
      requires store.Valid()
      modifies this, store
      ensures sessions == if id in old(sessions) then old(sessions)[id := old(sessions)[id].(state := Stopping)]
                          else old(sessions)
      ensures lastId == old(lastId) && Persisted(id in old(sessions))
    {
      Put(id, if id in sessions then Some(sessions[id].(state := Stopping)) else None);
    }

    /** An unknown session, or a state that is not terminal, is refused and nothing is saved. */
    method Finish(id: string, state: SessionState, reason: string, now: Time)
      requires store.Valid()
      modifies this, store
      ensures sessions == if id in old(sessions) && Terminal(state)
                          then old(sessions)[id := Finished(old(sessions)[id], state, reason, now)]
                          else old(sessions)
      ensures lastId == old(lastId) && Persisted(id in old(sessions) && Terminal(state))
    {
      var row: Option<Session> := None;
      if id in sessions && Terminal(state) {
        var s := sessions[id].(state := state, stopped := Some(now));
        if state == Failed {
          s := s.(failure := reason);
        }
        row := Some(s);
      }
      Put(id, row);
    }

    /** Reload the table; the counter resumes after the highest id, so no id is ever reused. */
    method RestoreFromStore()
      requires store.Valid()
      modifies this
      ensures sessions == if SessionsKey in store.disk && store.disk[SessionsKey].SessionsDoc?
                          then store.disk[SessionsKey].sessions else old(sessions)
      ensures lastId >= old(lastId)
      ensures (IdsOk(old(sessions), old(lastId)) && forall id | id in sessions :: sessions[id].id == id)
                ==> IdsOk(sessions, lastId)
    {
      var doc := store.Load(SessionsKey);
      if doc.None? || !doc.value.SessionsDoc? {
        return;
      }
      var table := doc.value.sessions;
      sessions := map[];
      var maxSeq: nat := 0;
      var todo := table.Keys;
      while todo != {}
        invariant todo <= table.Keys && sessions == map id | id in table && id !in todo :: table[id]
        invariant forall id | id in sessions :: Ids.SessionSeq(id) <= maxSeq
        invariant lastId == old(lastId)
      {
        var id :| id in todo;
        sessions := sessions[id := table[id]];
        maxSeq := Larger(Ids.SessionSeq(id), maxSeq);
        todo := todo - {id};
      }
      assert sessions == table;
      if maxSeq > lastId {
        lastId := maxSeq;
      }
    }
  }
}
