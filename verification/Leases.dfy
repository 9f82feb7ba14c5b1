/**
 Blob sources, the engine sessions that feed them and the tasks that lease them, as a transition
 system. One step is one critical section of a source, a session, the registry or a task's lease
 lock, so every run is one interleaving of tasks, HTTP readers, timers, Revoke and Close.
 */
module Leases {
  import opened Base

  /**
   A blob source. A revoked source has given its session up; `handed` counts how often it did.
   `registered` is whether the registry still finds it.
   */
  datatype Source = Source(session: Option<nat>, revoked: bool, registered: bool, taskRefs: nat, handed: nat)

  /**
   An engine session. `waiting` are the closers registered so far, `taken` the ones a close took
   and has not run yet, `fired` the ones that ran; `added` numbers them. `closes` counts closes
   and `retains` the retains that took effect.
   */
  datatype Session = Session(
    refs: nat, closed: bool, closes: nat, retains: nat,
    added: nat, waiting: seq<nat>, unrun: bool, taken: multiset<nat>, fired: multiset<nat>)

  /** The lease a task holds, and the one it has acquired but not yet recorded. */
  datatype Lease = Lease(url: Option<nat>, hand: Option<nat>)

  /**
   `releasing`: leases given up whose release has not reached the source; `readers` and `owed`:
   for every session the active readers and the releases owed by revoked sources.
   */
  datatype State = State(
    sources: seq<Source>, sessions: seq<Session>, tasks: seq<Lease>,
    releasing: multiset<nat>, readers: multiset<nat>, owed: multiset<nat>)

  const IDLE := Session(0, false, 0, 0, 0, [], false, multiset{}, multiset{})

  // ---- Sources ----

  /** Giving the source up, with the session it hands over. */
  function Shut(x: Source): Source {
    if x.revoked then x
    else x.(revoked := true, handed := x.handed + if x.session.Some? then 1 else 0)
  }

  function Claimed(x: Source): Source {
    if x.revoked then x else x.(taskRefs := x.taskRefs + 1)
  }

  function Unclaimed(x: Source): Source {
    if x.revoked || x.taskRefs == 0 then x
    else if x.taskRefs > 1 then x.(taskRefs := x.taskRefs - 1)
    else Shut(x.(taskRefs := 0))
  }

  function Expired(x: Source): Source {
    if x.revoked || x.taskRefs > 0 then x else Shut(x)
  }

  /** The session a source hands over when it becomes `y`. */
  function Handed(x: Source, y: Source): multiset<nat> {
    if !x.revoked && y.revoked && x.session.Some? then multiset{x.session.value} else multiset{}
  }

  // ---- Sessions ----

  function Retained(s: Session): Session {
    if s.closed then s else s.(refs := s.refs + 1, retains := s.retains + 1)
  }

  function ClosedIfIdle(s: Session): Session {
    if s.refs == 0 && !s.closed then s.(closed := true, closes := s.closes + 1, unrun := true) else s
  }

  function Released(s: Session): Session {
    ClosedIfIdle(if s.refs > 0 then s.(refs := s.refs - 1) else s)
  }

  /** Registering a closer: it runs at once when the session is closed already. */
  function WithCloser(s: Session): Session {
    if s.closed then s.(added := s.added + 1, fired := s.fired + multiset{s.added})
    else s.(added := s.added + 1, waiting := s.waiting + [s.added])
  }

  function ClosersTaken(s: Session): Session {
    s.(waiting := [], taken := s.taken + multiset(s.waiting), unrun := false)
  }

  function CloserRun(s: Session, id: nat): Session {
    s.(taken := s.taken - multiset{id}, fired := s.fired + multiset{id})
  }

  // ---- Steps ----

  datatype Step =
    | Open                          // a new engine session
    | Join                          // a new task
    | Create(session: Option<nat>)  // a new source
    | Acquire(t: nat, i: nat)
    | Record(t: nat)
    | GiveUp(t: nat)
    | Miss(i: nat)
    | Release(i: nat)
    | Revoke(i: nat)
    | Expire(i: nat)
    | Unregister(i: nat)
    | Shutdown
    | OpenReader(i: nat)
    | CloseReader(k: nat)
    | Settle(k: nat)
    | CloseIfIdle(k: nat)
    | OnClose(k: nat)
    | TakeClosers(k: nat)
    | RunCloser(k: nat, id: nat)

  predicate Enabled(s: State, step: Step) {
    match step
    case Open => true
    case Join => true
    case Create(session) => session.Some? ==> session.value < |s.sessions| && !s.sessions[session.value].closed
    case Acquire(t, i) => t < |s.tasks| && i < |s.sources| && s.tasks[t].hand.None? && s.tasks[t].url != Some(i)
                          && !s.sources[i].revoked
    case Record(t) => t < |s.tasks| && s.tasks[t].hand.Some?
    case GiveUp(t) => t < |s.tasks| && s.tasks[t].hand.None? && s.tasks[t].url.Some?
    case Miss(i) => i in s.releasing && i < |s.sources| && (s.sources[i].revoked || !s.sources[i].registered)
    case Release(i) => i in s.releasing && i < |s.sources|
    case Revoke(i) => i < |s.sources|
    case Expire(i) => i < |s.sources| && s.sources[i].session.Some?
    case Unregister(i) => i < |s.sources| && s.sources[i].revoked
    case Shutdown => true
    case OpenReader(i) => i < |s.sources| && !s.sources[i].revoked
    case CloseReader(k) => k in s.readers && k < |s.sessions|
    case Settle(k) => k in s.owed && k < |s.sessions|
    case CloseIfIdle(k) => k < |s.sessions|
    case OnClose(k) => k < |s.sessions|
    case TakeClosers(k) => k < |s.sessions| && s.sessions[k].unrun
    case RunCloser(k, id) => k < |s.sessions| && id in s.sessions[k].taken
  }

  /** Source `i` becomes `y`; a session it hands over is owed a release. */
  function SetSource(s: State, i: nat, y: Source): State
    requires i < |s.sources|
  {
    s.(sources := s.sources[i := y], owed := s.owed + Handed(s.sources[i], y))
  }

  function SetSession(s: State, k: nat, y: Session): State
    requires k < |s.sessions|
  {
    s.(sessions := s.sessions[k := y])
  }

  function Only(i: Option<nat>): multiset<nat> {
    if i.Some? then multiset{i.value} else multiset{}
  }

  function AllUnregistered(xs: seq<Source>): (ys: seq<Source>)
    ensures |ys| == |xs| && forall i :: 0 <= i < |xs| ==> ys[i] == xs[i].(registered := false)
  {
    seq(|xs|, i requires 0 <= i < |xs| => xs[i].(registered := false))
  }

  function DoCreate(s: State, session: Option<nat>): State
    requires session.Some? ==> session.value < |s.sessions|
  {
    var t := s.(sources := s.sources + [Source(session, false, true, 0, 0)]);
    if session.Some? then SetSession(t, session.value, Retained(s.sessions[session.value])) else t
  }

  function DoOpenReader(s: State, i: nat): State
    requires i < |s.sources|
  {
    var session := s.sources[i].session;
    if session.None? || session.value >= |s.sessions| then s
    else
      SetSession(s.(readers := s.readers + multiset{session.value}), session.value,
                 Retained(s.sessions[session.value]))
  }

  function Next(s: State, step: Step): State
    requires Enabled(s, step)
  {
    match step
    case Open => s.(sessions := s.sessions + [IDLE])
    case Join => s.(tasks := s.tasks + [Lease(None, None)])
    case Create(session) => DoCreate(s, session)
    case Acquire(t, i) => SetSource(s, i, Claimed(s.sources[i])).(tasks := s.tasks[t := s.tasks[t].(hand := Some(i))])
    case Record(t) =>
      s.(tasks := s.tasks[t := Lease(s.tasks[t].hand, None)], releasing := s.releasing + Only(s.tasks[t].url))
    case GiveUp(t) => s.(tasks := s.tasks[t := Lease(None, None)], releasing := s.releasing + Only(s.tasks[t].url))
    case Miss(i) => s.(releasing := s.releasing - multiset{i})
    case Release(i) => SetSource(s, i, Unclaimed(s.sources[i])).(releasing := s.releasing - multiset{i})
    case Revoke(i) => SetSource(s, i, Shut(s.sources[i]))
    case Expire(i) => SetSource(s, i, Expired(s.sources[i]))
    case Unregister(i) => SetSource(s, i, s.sources[i].(registered := false))
    case Shutdown => s.(sources := AllUnregistered(s.sources))
    case OpenReader(i) => DoOpenReader(s, i)
    case CloseReader(k) => SetSession(s.(readers := s.readers - multiset{k}), k, Released(s.sessions[k]))
    case Settle(k) => SetSession(s.(owed := s.owed - multiset{k}), k, Released(s.sessions[k]))
    case CloseIfIdle(k) => SetSession(s, k, ClosedIfIdle(s.sessions[k]))
    case OnClose(k) => SetSession(s, k, WithCloser(s.sessions[k]))
    case TakeClosers(k) => SetSession(s, k, ClosersTaken(s.sessions[k]))
    case RunCloser(k, id) => SetSession(s, k, CloserRun(s.sessions[k], id))
  }

  const NOTHING := State([], [], [], multiset{}, multiset{}, multiset{})

  predicate IsRun(run: seq<State>, steps: seq<Step>) {
    && |run| == |steps| + 1
    && run[0] == NOTHING
    && forall k :: 0 <= k < |steps| ==>
         Enabled(run[k], steps[k]) && run[k + 1] == Next(run[k], steps[k])
  }
}
