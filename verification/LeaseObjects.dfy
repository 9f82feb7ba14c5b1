/** Engine sessions, blob sources, their registry and a task's lease, updated in place. */
module LeaseObjects {
  import opened Base
  import L = Leases

  /** Closing a session runs every closer that waits; each `CloserRun` is one of them. */
  function AllRun(s: L.Session, ids: seq<nat>): L.Session {
    if ids == [] then s else L.CloserRun(AllRun(s, ids[..|ids| - 1]), ids[|ids| - 1])
  }

  function Settled(s: L.Session): L.Session {
    if s.unrun then AllRun(L.ClosersTaken(s), s.waiting) else s
  }

  /** A session that goes from `s` to `y`: the call that closes it runs the closers, no other does. */
  function Ended(s: L.Session, y: L.Session): L.Session {
    if y.closed && !s.closed then Settled(y) else y
  }

  /** A whole release. */
  function Dropped(s: L.Session): L.Session {
    Ended(s, L.Released(s))
  }

  lemma OneMoved(taken: multiset<nat>, fired: multiset<nat>, some: multiset<nat>, id: nat)
    ensures taken - some - multiset{id} == taken - (some + multiset{id})
    ensures fired + some + multiset{id} == fired + (some + multiset{id})
  {
  }

  lemma LastOf(ids: seq<nat>)
    requires ids != []
    ensures multiset(ids) == multiset(ids[..|ids| - 1]) + multiset{ids[|ids| - 1]}
  {
    assert ids == ids[..|ids| - 1] + [ids[|ids| - 1]];
  }

  /** After a close has run its closers none waits, none is left half way, each one ran. */
  lemma {:induction false} AllRunMoves(s: L.Session, ids: seq<nat>)
    ensures AllRun(s, ids) == s.(taken := s.taken - multiset(ids), fired := s.fired + multiset(ids))
  {
    if ids != [] {
      var n := |ids| - 1;
      AllRunMoves(s, ids[..n]);
      LastOf(ids);
      OneMoved(s.taken, s.fired, multiset(ids[..n]), ids[n]);
    }
  }

  class EngineSession {
    var refs: nat
    var closed: bool
    var close: seq<nat>
    ghost var rest: L.Session  // what the code keeps no record of

    ghost function Value(): L.Session
      reads this
    {
      rest.(refs := refs, closed := closed, waiting := close)
    }

    constructor ()
      ensures Value() == L.IDLE
    {
      refs, closed, close := 0, false, [];
      rest := L.IDLE;
    }

    method Retain()
      modifies this
      ensures Value() == L.Retained(old(Value()))
    {
      if closed {
        return;
      }
      refs := refs + 1;
      rest := rest.(retains := rest.retains + 1);
    }

    /** The critical section shared by Release and CloseIfIdle. */
    method MarkClosed() returns (shouldClose: bool)
      modifies this
      ensures Value() == L.ClosedIfIdle(old(Value())) && shouldClose == (old(refs) == 0 && !old(closed))
    {
      shouldClose := refs == 0 && !closed;
      if shouldClose {
        closed := true;
        rest := rest.(closes := rest.closes + 1, unrun := true);
      }
    }

    method RunClosers()
      requires Value().unrun
      modifies this
      ensures Value() == Settled(old(Value()))
    {
      var closeFns := close;
      ghost var taken := L.ClosersTaken(Value());
      close := [];
      rest := taken;
      var n := 0;
      while n < |closeFns|
        invariant 0 <= n <= |closeFns|
        invariant rest == AllRun(taken, closeFns[..n])
        invariant Value() == rest
      {
        assert closeFns[..n + 1][..n] == closeFns[..n];
        rest := L.CloserRun(rest, closeFns[n]);
        n := n + 1;
      }
      assert closeFns[..n] == closeFns;
    }

    method Release()
      modifies this
      ensures Value() == Dropped(old(Value()))
    {
      if refs > 0 {
        refs := refs - 1;
      }
      var shouldClose := MarkClosed();
      if shouldClose {
        RunClosers();
      }
    }

    method CloseIfIdle()
      modifies this
      ensures Value() == Ended(old(Value()), L.ClosedIfIdle(old(Value())))
    {
      var shouldClose := MarkClosed();
      if shouldClose {
        RunClosers();
      }
    }

    /** Registers a closer, known by how many were registered before it. */
    method OnClose(fn: nat)
      requires fn == Value().added
      modifies this
      ensures Value() == L.WithCloser(old(Value()))
    {
      rest := rest.(added := rest.added + 1);
      if closed {
        rest := rest.(fired := rest.fired + multiset{fn});
        return;
      }
      close := close + [fn];
    }
  }

  datatype Error = NotFound | Revoked | Closed

  class Source {
    var revoked: bool
    var taskRefs: nat
    var session: EngineSession?
    ghost const fed: Option<nat>  // the session's number in the model, kept after it is handed over
    ghost var registered: bool
    ghost var handed: nat

    ghost predicate Valid()
      reads this
    {
      session != null <==> !revoked && fed.Some?
    }

    ghost function Value(): L.Source
      reads this
    {
      L.Source(fed, revoked, registered, taskRefs, handed)
    }

    constructor (session: EngineSession?, ghost fed: Option<nat>)
      requires session != null <==> fed.Some?
      ensures Valid() && Value() == L.Source(fed, false, true, 0, 0) && this.session == session
    {
      revoked, taskRefs, handed, registered := false, 0, 0, true;
      this.session, this.fed := session, fed;
    }

    method AcquireTask() returns (err: Option<Error>)
      requires Valid()
      modifies this`taskRefs
      ensures Valid() && Value() == L.Claimed(old(Value()))
      ensures err == if revoked then Some(Revoked) else None
    {
      if revoked {
        return Some(Revoked);
      }
      taskRefs := taskRefs + 1;
      err := None;
    }

    /** Marks the source revoked and hands its session over to the caller, who owes it a release. */
    method Surrender() returns (given: EngineSession?)
      requires Valid() && !revoked
      modifies this`revoked, this`session, this`handed
      ensures Valid() && Value() == L.Shut(old(Value())) && session == null && given == old(session)
    {
      revoked := true;
      given := session;
      session := null;
      handed := handed + if given != null then 1 else 0;
    }

    method ReleaseTask() returns (given: EngineSession?, last: bool, err: Option<Error>)
      requires Valid()
      modifies this`taskRefs, this`revoked, this`session, this`handed
      ensures Valid() && Value() == L.Unclaimed(old(Value()))
      ensures last == (!old(revoked) && old(taskRefs) == 1) && given == if last then old(session) else null
      ensures err == if old(revoked) then Some(Revoked) else if old(taskRefs) == 0 then Some(Closed) else None
      ensures !last ==> session == old(session)
    {
      given, last := null, false;
      if revoked {
        return null, false, Some(Revoked);
      }
      if taskRefs == 0 {
        return null, false, Some(Closed);
      }
      taskRefs := taskRefs - 1;
      if taskRefs > 0 {
        return null, false, None;
      }
      given := Surrender();
      last, err := true, None;
    }

    method ExpireUnclaimed() returns (given: EngineSession?, expired: bool)
      requires Valid()
      modifies this`revoked, this`session, this`handed
      ensures Valid() && Value() == L.Expired(old(Value()))
      ensures expired == (!old(revoked) && taskRefs == 0) && given == if expired then old(session) else null
    {
      given, expired := null, false;
      if revoked || taskRefs > 0 {
        return;
      }
      given := Surrender();
      expired := true;
    }

    /** A reader takes its own reference to the session of a source in use. */
    method AcquireOpen() returns (open: bool, borrowed: EngineSession?)
      requires Valid()
      modifies session
      ensures Valid() && open == !revoked && borrowed == session
      ensures session != null ==> session.Value() == L.Retained(old(session.Value()))
    {
      if revoked {
        return false, null;
      }
      if session != null {
        session.Retain();
      }
      return true, session;
    }

    method Close()
      requires Valid()
      modifies this`revoked, this`session, this`handed, session
      ensures Valid() && Value() == L.Shut(old(Value())) && session == null
      ensures old(session) != null ==> old(session).Value() == Dropped(old(session.Value()))
    {
      if revoked {
        return;
      }
      var given := Surrender();
      if given != null {
        given.Release();
      }
    }

    /** Closing a source the registry has already let go. */
    method Remove()
      requires Valid()
      modifies this, session
      ensures Value() == L.Shut(old(Value())).(registered := false) && session == null
      ensures old(session) != null ==> old(session).Value() == Dropped(old(session.Value()))
    {
      Close();
      registered := false;
    }
  }

  class Registry {
    var sources: map<nat, Source>

    /** Keys and sources correspond, and a source the registry does not hold is not registered. */
    ghost predicate Valid()
      reads this, sources.Values
    {
      && (forall id :: id in sources ==> sources[id].Valid() && sources[id].registered)
      && (forall id, other :: id in sources && other in sources && sources[id] == sources[other] ==> id == other)
    }

    constructor ()
      ensures Valid() && sources == map[]
    {
      sources := map[];
    }

    method CreateOpener(id: nat, session: EngineSession?, ghost fed: Option<nat>) returns (src: Source)
      requires Valid() && id !in sources && (session != null <==> fed.Some?)
      modifies this, session
      ensures Valid() && sources == old(sources)[id := src] && fresh(src)
      ensures src.Value() == L.Source(fed, false, true, 0, 0) && src.session == session
      ensures session != null ==> session.Value() == L.Retained(old(session.Value()))
    {
      if session != null {
        session.Retain();
      }
      src := new Source(session, fed);
      sources := sources[id := src];
    }

    method Get(id: nat) returns (src: Source?, err: Option<Error>)
      requires Valid()
      ensures src != null <==> id in sources && !sources[id].revoked
      ensures src != null ==> src == sources[id] && err == None
      ensures src == null ==> err == Some(if id in sources then Revoked else NotFound)
    {
      if id !in sources {
        return null, Some(NotFound);
      }
      if sources[id].revoked {
        return null, Some(Revoked);
      }
      return sources[id], None;
    }

    method Acquire(id: nat) returns (err: Option<Error>)
      requires Valid()
      modifies if id in sources then {sources[id]} else {}
      ensures Valid() && sources == old(sources)
      ensures err.None? <==> id in sources && !old(sources[id].revoked)
      ensures id in sources ==> sources[id].Value() == L.Claimed(old(sources[id].Value()))
    {
      var src;
      src, err := Get(id);
      if src != null {
        err := src.AcquireTask();
      }
    }

    method DeleteSource(id: nat, src: Source)
      requires Valid() && (id in sources ==> sources[id] == src)
      modifies this, src`registered
      ensures Valid() && sources == old(sources) - {id}
      ensures src.Value() == old(src.Value()).(registered := id !in old(sources) && old(src.registered))
    {
      if id in sources {
        sources := sources - {id};
        src.registered := false;
      }
    }

    /** The session, if the source still feeds one. */
    function Feeding(id: nat): set<EngineSession>
      reads this, sources.Values
    {
      if id in sources && sources[id].session != null then {sources[id].session} else {}
    }

    /** Releasing the last task reference revokes the source, drops it and releases its session. */
    method Release(id: nat) returns (err: Option<Error>)
      requires Valid()
      modifies this, if id in sources then {sources[id]} else {}, Feeding(id)
      ensures Valid()
      ensures err.None? <==> id in old(sources) && !old(sources[id].revoked) && old(sources[id].taskRefs) > 0
      ensures id in old(sources) ==>
                var last := !old(sources[id].revoked) && old(sources[id].taskRefs) == 1;
                && old(sources)[id].Value() == L.Unclaimed(old(sources[id].Value())).(registered := !last)
                && sources == (if last then old(sources) - {id} else old(sources))
                && forall e :: e in old(Feeding(id)) ==>
                     e.Value() == if last then Dropped(old(e.Value())) else old(e.Value())
    {
      var src;
      src, err := Get(id);
      if src == null {
        return;
      }
      var session, last;
      session, last, err := src.ReleaseTask();
      if !last {
        return;
      }
      DeleteSource(id, src);
      if session != null {
        session.Release();
      }
    }

    method Revoke(id: nat) returns (err: Option<Error>)
      requires Valid()
      modifies this, if id in sources then {sources[id]} else {}, Feeding(id)
      ensures Valid()
      ensures err.None? <==> id in old(sources) && !old(sources[id].revoked)
      ensures sources == if err.None? then old(sources) - {id} else old(sources)
      ensures id in old(sources) ==>
                && old(sources)[id].Value() == L.Shut(old(sources[id].Value())).(registered := err.Some?)
                && forall e :: e in old(Feeding(id)) ==> e.Value() == Dropped(old(e.Value()))
    {
      var src;
      src, err := Get(id);
      if src == null {
        return;
      }
      src.Close();
      DeleteSource(id, src);
    }

    method ExpireUnclaimed(id: nat)
      requires Valid() && id in sources
      modifies this, sources[id], Feeding(id)
      ensures Valid()
      ensures var expired := !old(sources[id].revoked) && old(sources[id].taskRefs) == 0;
        && old(sources)[id].Value() == L.Expired(old(sources[id].Value())).(registered := !expired)
        && sources == (if expired then old(sources) - {id} else old(sources))
        && forall e :: e in old(Feeding(id)) ==>
             e.Value() == if expired then Dropped(old(e.Value())) else old(e.Value())
    {
      var src := sources[id];
      var session, expired := src.ExpireUnclaimed();
      if !expired {
        return;
      }
      DeleteSource(id, src);
      if session != null {
        session.Release();
      }
    }

    /** Everything the registry feeds. */
    ghost function AllFeeding(): set<EngineSession>
      reads this, sources.Values
    {
      set id | id in sources && sources[id].session != null :: sources[id].session
    }

    /** Closing unregisters every source first, then revokes them one by one. */
    method Close()
      requires Valid()
      modifies this, sources.Values, AllFeeding()
      ensures Valid() && sources == map[]
      ensures forall id :: id in old(sources) ==>
                (old(sources)[id].session == null
                 && old(sources)[id].Value() == L.Shut(old(sources[id].Value())).(registered := false))
    {
      ghost var fed := AllFeeding();
      var list := sources;
      forall id | id in list && list[id].session != null ensures list[id].session in fed {
      }
      sources := map[];
      RemoveAll(list, fed);
    }
  }

  /** Revoking the sources of a registry that has let go of them; `fed` are their sessions. */
  method RemoveAll(list: map<nat, Source>, ghost fed: set<EngineSession>)
    requires forall id :: id in list ==> list[id].Valid() && (list[id].session != null ==> list[id].session in fed)
    requires forall id, other :: id in list && other in list && list[id] == list[other] ==> id == other
    modifies list.Values, fed
    ensures forall id :: id in list ==> list[id].session == null
    ensures forall id :: id in list ==> list[id].Value() == L.Shut(old(list[id].Value())).(registered := false)
  {
    ghost var final := map id | id in list :: L.Shut(list[id].Value()).(registered := false);
    var todo := list.Keys;
    while todo != {}
      invariant todo <= list.Keys
      invariant forall id :: id in todo ==> unchanged(list[id])
      invariant forall id :: id in list && id !in todo ==> list[id].session == null && list[id].Value() == final[id]
    {
      var id :| id in todo;
      list[id].Remove();
      todo := todo - {id};
    }
  }

  /** The lease a task holds on its blob source. */
  class TaskLease {
    var blobURL: Option<nat>

    constructor ()
      ensures blobURL == None
    {
      blobURL := None;
    }

    /** The sources and sessions a change of this lease to `url` can reach. */
    ghost function Reach(r: Registry, url: Option<nat>): set<object>
      reads this, r, r.sources.Values
    {
      (if blobURL.Some? && blobURL.value in r.sources then {r.sources[blobURL.value]} else {})
      + (if url.Some? && url.value in r.sources then {r.sources[url.value]} else {})
      + (if blobURL.Some? then r.Feeding(blobURL.value) else {})
    }

    method ReleaseBlobTask(r: Registry)
      requires r.Valid()
      modifies this, r, Reach(r, None)
      ensures r.Valid() && blobURL == None
      ensures old(blobURL).Some? && old(blobURL).value in old(r.sources) ==>
                var x := old(r.sources[blobURL.value].Value());
                old(r.sources)[old(blobURL).value].Value()
                == L.Unclaimed(x).(registered := x.revoked || x.taskRefs != 1)
    {
      var raw := blobURL;
      blobURL := None;
      if raw.Some? {
        var _ := r.Release(raw.value);
      }
    }

    /** Only the task that still holds `raw` gives it up. */
    method ReleaseBlobTaskURL(r: Registry, raw: nat)
      requires r.Valid()
      modifies this, r, Reach(r, None)
      ensures r.Valid() && blobURL == if old(blobURL) == Some(raw) then None else old(blobURL)
      ensures raw in old(r.sources) ==>
                var x := old(r.sources[raw].Value());
                old(r.sources)[raw].Value() ==
                if old(blobURL) == Some(raw) then L.Unclaimed(x).(registered := x.revoked || x.taskRefs != 1) else x
    {
      var claimed := blobURL == Some(raw);
      if claimed {
        blobURL := None;
        var _ := r.Release(raw);
      }
    }

    /**
     The lease follows the task's request: the new source is acquired before the old one is
     released, and a task that is done or failed leases nothing.
     */
    method SyncBlobTaskLease(r: Registry, terminal: bool, url: Option<nat>)
      requires r.Valid()
      modifies this, r, Reach(r, url)
      ensures r.Valid()
      ensures blobURL == if !terminal && url.Some? && url.value in old(r.sources) && !old(r.sources[url.value].revoked)
                         then url else None
      ensures blobURL.Some? && blobURL != old(blobURL) ==>
                old(r.sources)[url.value].Value() == L.Claimed(old(r.sources[url.value].Value()))
      ensures old(blobURL).Some? && old(blobURL).value in old(r.sources) ==>
                var x := old(r.sources[blobURL.value].Value());
                old(r.sources)[old(blobURL).value].Value() ==
                if blobURL == old(blobURL) then x else L.Unclaimed(x).(registered := x.revoked || x.taskRefs != 1)
    {
      var newURL: Option<nat> := None;
      if !terminal && url.Some? {
        var src, _ := r.Get(url.value);
        if src != null {
          newURL := url;
        }
      }
      if blobURL == newURL {
        return;
      }
      if newURL.Some? {
        var err := r.Acquire(newURL.value);
        if err.Some? {
          return;
        }
      }
      var oldURL := blobURL;
      blobURL := newURL;
      if oldURL.Some? {
        var _ := r.Release(oldURL.value);
      }
    }
  }
}
