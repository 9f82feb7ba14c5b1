/** Reference counts of sources, sessions and task leases agree in every reachable state. */
module LeaseProofs {
  import opened Base
  import opened Leases

  // ---- Counting ----

  function One(b: bool): nat {
    if b then 1 else 0
  }

  /** How many leases on source `i` the tasks hold or have in hand. */
  function Leasing(tasks: seq<Lease>, i: nat): nat {
    if tasks == [] then 0
    else
      var last := tasks[|tasks| - 1];
      Leasing(tasks[..|tasks| - 1], i) + One(last.url == Some(i)) + One(last.hand == Some(i))
  }

  lemma {:induction false} LeasingUpdate(tasks: seq<Lease>, t: nat, x: Lease, i: nat)
    requires t < |tasks|
    ensures Leasing(tasks[t := x], i) + One(tasks[t].url == Some(i)) + One(tasks[t].hand == Some(i))
         == Leasing(tasks, i) + One(x.url == Some(i)) + One(x.hand == Some(i))
  {
    var n := |tasks| - 1;
    if t < n {
      LeasingUpdate(tasks[..n], t, x, i);
      assert tasks[t := x][..n] == tasks[..n][t := x];
    } else {
      assert tasks[t := x][..n] == tasks[..n];
    }
  }

  lemma {:induction false} LeasingBounds(tasks: seq<Lease>, t: nat, i: nat)
    requires t < |tasks| && (tasks[t].url == Some(i) || tasks[t].hand == Some(i))
    ensures Leasing(tasks, i) > 0
  {
    if t < |tasks| - 1 {
      LeasingBounds(tasks[..|tasks| - 1], t, i);
    }
  }

  predicate Lives(x: Source, k: nat) {
    !x.revoked && x.session == Some(k)
  }

  /** How many unrevoked sources session `k` feeds. */
  function Living(sources: seq<Source>, k: nat): nat {
    if sources == [] then 0
    else Living(sources[..|sources| - 1], k) + One(Lives(sources[|sources| - 1], k))
  }

  lemma {:induction false} LivingUpdate(sources: seq<Source>, i: nat, x: Source, k: nat)
    requires i < |sources|
    ensures Living(sources[i := x], k) + One(Lives(sources[i], k)) == Living(sources, k) + One(Lives(x, k))
  {
    var n := |sources| - 1;
    if i < n {
      LivingUpdate(sources[..n], i, x, k);
      assert sources[i := x][..n] == sources[..n][i := x];
    } else {
      assert sources[i := x][..n] == sources[..n];
    }
  }

  lemma {:induction false} LivingBounds(sources: seq<Source>, i: nat, k: nat)
    requires i < |sources| && Lives(sources[i], k)
    ensures Living(sources, k) > 0
  {
    if i < |sources| - 1 {
      LivingBounds(sources[..|sources| - 1], i, k);
    }
  }

  lemma {:induction false} LivingUnregistered(sources: seq<Source>, k: nat)
    ensures Living(AllUnregistered(sources), k) == Living(sources, k)
  {
    if sources != [] {
      var n := |sources| - 1;
      assert AllUnregistered(sources)[..n] == AllUnregistered(sources[..n]);
      LivingUnregistered(sources[..n], k);
    }
  }

  // ---- The invariant ----

  /** Every lease there is on source `i`: held, in hand, or on its way back. */
  function Claims(s: State, i: nat): nat {
    Leasing(s.tasks, i) + s.releasing[i]
  }

  /** Everything that keeps session `k` open. */
  function Users(s: State, k: nat): nat {
    Living(s.sources, k) + s.readers[k] + s.owed[k]
  }

  ghost predicate SourceOk(s: State, i: nat)
    requires i < |s.sources|
  {
    var x := s.sources[i];
    && (x.session.Some? ==> x.session.value < |s.sessions|)
    && x.handed == One(x.revoked && x.session.Some?)
    && (!x.revoked ==> x.taskRefs >= Claims(s, i))
    && (!x.revoked && x.registered ==> x.taskRefs == Claims(s, i))
  }

  /** Every closer registered with a session, wherever it stands. */
  function Closers(x: Session): multiset<nat> {
    multiset(x.waiting) + x.taken + x.fired
  }

  function Numbers(n: nat): multiset<nat> {
    if n == 0 then multiset{} else Numbers(n - 1) + multiset{n - 1}
  }

  lemma {:induction false} EachNumberOnce(n: nat, id: nat)
    ensures Numbers(n)[id] == One(id < n)
  {
    if n > 0 {
      EachNumberOnce(n - 1, id);
    }
  }

  ghost predicate Accounted(x: Session) {
    Closers(x) == Numbers(x.added)
  }

  ghost predicate ClosersOk(x: Session) {
    Accounted(x) && TimelyOk(x)
  }

  /** No closer runs before the close, and none waits once it is over. */
  ghost predicate TimelyOk(x: Session) {
    && (!x.closed ==> x.taken == multiset{} && x.fired == multiset{})
    && (x.closed && !x.unrun ==> x.waiting == [])
  }

  ghost predicate SessionOk(s: State, k: nat)
    requires k < |s.sessions|
  {
    var x := s.sessions[k];
    && x.refs == Users(s, k)
    && (x.closed ==> x.refs == 0)
    && (x.retains > 0 && x.refs == 0 ==> x.closed)
    && x.closes == One(x.closed)
    && (x.unrun ==> x.closed)
  }

  ghost predicate SourcesOk(s: State) {
    forall i :: 0 <= i < |s.sources| ==> SourceOk(s, i)
  }

  ghost predicate SessionsOk(s: State) {
    forall k :: 0 <= k < |s.sessions| ==> SessionOk(s, k)
  }

  ghost predicate AllClosersOk(s: State) {
    forall k :: 0 <= k < |s.sessions| ==> ClosersOk(s.sessions[k])
  }

  /** Nothing refers to a source or a session that was never created. */
  ghost predicate Bounded(s: State) {
    && (forall i :: i in s.releasing ==> i < |s.sources|)
    && (forall k :: k in s.readers ==> k < |s.sessions|)
    && (forall k :: k in s.owed ==> k < |s.sessions|)
    && (forall t :: 0 <= t < |s.tasks| ==> LeaseOk(s.tasks[t], |s.sources|))
  }

  ghost predicate LeaseOk(x: Lease, n: nat) {
    (x.url.Some? ==> x.url.value < n) && (x.hand.Some? ==> x.hand.value < n)
  }

  ghost predicate Inv(s: State) {
    Bounded(s) && SourcesOk(s) && SessionsOk(s) && AllClosersOk(s)
  }

  // ---- Steps on a source ----

  /** Whatever a source does, its session is used by the source, or owed one release for it. */
  lemma UsersAfterSource(s: State, i: nat, y: Source, k: nat)
    requires i < |s.sources| && y.session == s.sources[i].session && (s.sources[i].revoked ==> y.revoked)
    ensures Users(SetSource(s, i, y), k) == Users(s, k)
  {
    LivingUpdate(s.sources, i, y, k);
  }

  lemma SessionsAfterSource(s: State, i: nat, y: Source)
    requires SessionsOk(s)
    requires i < |s.sources| && y.session == s.sources[i].session && (s.sources[i].revoked ==> y.revoked)
    ensures SessionsOk(SetSource(s, i, y))
  {
    forall k | 0 <= k < |s.sessions| ensures SessionOk(SetSource(s, i, y), k) {
      assert SessionOk(s, k);
      UsersAfterSource(s, i, y, k);
    }
  }

  /** A source step that leaves the claims alone keeps every source in order. */
  lemma SourcesAfterSource(s: State, i: nat, y: Source)
    requires SourcesOk(s) && i < |s.sources| && SourceOk(SetSource(s, i, y), i)
    ensures SourcesOk(SetSource(s, i, y))
  {
    var s' := SetSource(s, i, y);
    forall j | 0 <= j < |s'.sources| ensures SourceOk(s', j) {
      assert SourceOk(s, j);
    }
  }

  lemma BoundedAfterSource(s: State, i: nat, y: Source)
    requires Bounded(s) && i < |s.sources| && y.session == s.sources[i].session
    requires y.session.Some? ==> y.session.value < |s.sessions|
    ensures Bounded(SetSource(s, i, y))
  {
  }

  /** Leases and releases under way do not concern the sessions. */
  lemma SessionsAside(s: State, s': State)
    requires SessionsOk(s) && s'.sources == s.sources && s'.sessions == s.sessions
    requires s'.readers == s.readers && s'.owed == s.owed
    ensures SessionsOk(s')
  {
    forall k | 0 <= k < |s'.sessions| ensures SessionOk(s', k) {
      assert SessionOk(s, k);
    }
  }

  lemma AcquireSources(s: State, t: nat, i: nat)
    requires SourcesOk(s) && Enabled(s, Acquire(t, i))
    ensures SourcesOk(SetSource(s, i, Claimed(s.sources[i])).(tasks := s.tasks[t := s.tasks[t].(hand := Some(i))]))
  {
    var s' := SetSource(s, i, Claimed(s.sources[i])).(tasks := s.tasks[t := s.tasks[t].(hand := Some(i))]);
    forall j | 0 <= j < |s'.sources| ensures SourceOk(s', j) {
      assert SourceOk(s, j);
      LeasingUpdate(s.tasks, t, s'.tasks[t], j);
    }
  }

  lemma AcquireKeeps(s: State, t: nat, i: nat)
    requires Inv(s) && Enabled(s, Acquire(t, i))
    ensures Inv(SetSource(s, i, Claimed(s.sources[i])).(tasks := s.tasks[t := s.tasks[t].(hand := Some(i))]))
  {
    var u := SetSource(s, i, Claimed(s.sources[i]));
    assert SourceOk(s, i);
    BoundedAfterSource(s, i, Claimed(s.sources[i]));
    SessionsAfterSource(s, i, Claimed(s.sources[i]));
    SessionsAside(u, u.(tasks := s.tasks[t := s.tasks[t].(hand := Some(i))]));
    AcquireSources(s, t, i);
  }

  lemma MoveSources(s: State, t: nat, url: Option<nat>)
    requires SourcesOk(s) && t < |s.tasks| && url == s.tasks[t].hand
    ensures SourcesOk(s.(tasks := s.tasks[t := Lease(url, None)], releasing := s.releasing + Only(s.tasks[t].url)))
  {
    var s' := s.(tasks := s.tasks[t := Lease(url, None)], releasing := s.releasing + Only(s.tasks[t].url));
    forall j | 0 <= j < |s'.sources| ensures SourceOk(s', j) {
      assert SourceOk(s, j);
      LeasingUpdate(s.tasks, t, Lease(url, None), j);
    }
  }

  /** Recording or giving up a lease moves claims without changing how many there are. */
  lemma MoveKeeps(s: State, t: nat, url: Option<nat>)
    requires Inv(s) && t < |s.tasks| && url == s.tasks[t].hand
    ensures Inv(s.(tasks := s.tasks[t := Lease(url, None)], releasing := s.releasing + Only(s.tasks[t].url)))
  {
    var s' := s.(tasks := s.tasks[t := Lease(url, None)], releasing := s.releasing + Only(s.tasks[t].url));
    assert LeaseOk(s.tasks[t], |s.sources|);
    MoveSources(s, t, url);
    SessionsAside(s, s');
  }

  lemma MissSources(s: State, i: nat)
    requires SourcesOk(s) && Enabled(s, Miss(i))
    ensures SourcesOk(s.(releasing := s.releasing - multiset{i}))
  {
    var s' := s.(releasing := s.releasing - multiset{i});
    forall j | 0 <= j < |s'.sources| ensures SourceOk(s', j) {
      assert SourceOk(s, j);
    }
  }

  lemma MissKeeps(s: State, i: nat)
    requires Inv(s) && Enabled(s, Miss(i))
    ensures Inv(s.(releasing := s.releasing - multiset{i}))
  {
    MissSources(s, i);
    SessionsAside(s, s.(releasing := s.releasing - multiset{i}));
  }

  lemma ReleaseSources(s: State, i: nat)
    requires SourcesOk(s) && Enabled(s, Release(i))
    ensures SourcesOk(SetSource(s, i, Unclaimed(s.sources[i])).(releasing := s.releasing - multiset{i}))
  {
    var s' := SetSource(s, i, Unclaimed(s.sources[i])).(releasing := s.releasing - multiset{i});
    forall j | 0 <= j < |s'.sources| ensures SourceOk(s', j) {
      assert SourceOk(s, j);
    }
  }

  lemma ReleaseKeeps(s: State, i: nat)
    requires Inv(s) && Enabled(s, Release(i))
    ensures Inv(SetSource(s, i, Unclaimed(s.sources[i])).(releasing := s.releasing - multiset{i}))
  {
    var u := SetSource(s, i, Unclaimed(s.sources[i]));
    assert SourceOk(s, i);
    BoundedAfterSource(s, i, Unclaimed(s.sources[i]));
    SessionsAfterSource(s, i, Unclaimed(s.sources[i]));
    SessionsAside(u, u.(releasing := s.releasing - multiset{i}));
    ReleaseSources(s, i);
  }

  /** Revoke, expiry and removal from the registry leave the claims alone. */
  lemma ShutKeeps(s: State, i: nat, y: Source)
    requires Inv(s) && i < |s.sources|
    requires y == Shut(s.sources[i]) || y == Expired(s.sources[i])
             || (s.sources[i].revoked && y == s.sources[i].(registered := false))
    ensures Inv(SetSource(s, i, y))
  {
    assert SourceOk(s, i);
    BoundedAfterSource(s, i, y);
    SessionsAfterSource(s, i, y);
    SourcesAfterSource(s, i, y);
  }

  lemma ShutdownKeeps(s: State)
    requires Inv(s)
    ensures Inv(s.(sources := AllUnregistered(s.sources)))
  {
    var s' := s.(sources := AllUnregistered(s.sources));
    forall j | 0 <= j < |s'.sources| ensures SourceOk(s', j) {
      assert SourceOk(s, j);
    }
    forall k | 0 <= k < |s'.sessions| ensures SessionOk(s', k) {
      assert SessionOk(s, k);
      LivingUnregistered(s.sources, k);
    }
  }

  // ---- Steps on a session ----

  /** A session step is sound when it accounts for the users the step adds or removes. */
  lemma SessionsAfterSession(s: State, s': State, k: nat)
    requires SessionsOk(s) && k < |s.sessions| == |s'.sessions| && SessionOk(s', k)
    requires forall j :: 0 <= j < |s.sessions| && j != k ==>
               s'.sessions[j] == s.sessions[j] && Users(s', j) == Users(s, j)
    ensures SessionsOk(s')
  {
    forall j | 0 <= j < |s'.sessions| ensures SessionOk(s', j) {
      assert SessionOk(s, j);
    }
  }

  lemma SourcesAfterSession(s: State, s': State)
    requires SourcesOk(s) && s'.sources == s.sources && s'.tasks == s.tasks && s'.releasing == s.releasing
    requires |s.sessions| <= |s'.sessions|
    ensures SourcesOk(s')
  {
    forall i | 0 <= i < |s.sources| ensures SourceOk(s', i) {
      assert SourceOk(s, i);
    }
  }

  /** Only a close that still has to run the closers lets a closed session keep some waiting. */
  lemma ClosersAfterSession(s: State, s': State, k: nat)
    requires AllClosersOk(s) && k < |s.sessions| == |s'.sessions| && s'.sessions == s.sessions[k := s'.sessions[k]]
    requires var x, y := s.sessions[k], s'.sessions[k];
      && y.waiting == x.waiting && y.taken == x.taken && y.fired == x.fired && y.added == x.added
      && (x.closed ==> y.closed && y.unrun == x.unrun) && (y.closed && !x.closed ==> y.unrun)
    ensures AllClosersOk(s')
  {
    forall j | 0 <= j < |s'.sessions| ensures ClosersOk(s'.sessions[j]) {
      assert ClosersOk(s.sessions[j]);
    }
  }

  lemma CreateSources(s: State, session: Option<nat>)
    requires Bounded(s) && SourcesOk(s) && Enabled(s, Create(session))
    ensures SourcesOk(DoCreate(s, session))
  {
    var s' := DoCreate(s, session);
    var n := |s.sources|;
    forall i | 0 <= i < |s'.sources| ensures SourceOk(s', i) {
      if i < n {
        assert SourceOk(s, i);
      } else {
        NoClaims(s.tasks, n, n);
      }
    }
  }

  lemma CreateSessions(s: State, session: Option<nat>)
    requires SessionsOk(s) && Enabled(s, Create(session))
    ensures SessionsOk(DoCreate(s, session))
  {
    var s' := DoCreate(s, session);
    assert s'.sources[..|s.sources|] == s.sources;
    forall k | 0 <= k < |s'.sessions| ensures SessionOk(s', k) {
      assert SessionOk(s, k);
    }
  }

  lemma CreateKeeps(s: State, session: Option<nat>)
    requires Inv(s) && Enabled(s, Create(session))
    ensures Inv(DoCreate(s, session))
  {
    CreateSources(s, session);
    CreateSessions(s, session);
    if session.Some? {
      ClosersAfterSession(s, DoCreate(s, session), session.value);
    }
  }

  lemma {:induction false} NoClaims(tasks: seq<Lease>, n: nat, i: nat)
    requires n <= i && forall t :: 0 <= t < |tasks| ==> LeaseOk(tasks[t], n)
    ensures Leasing(tasks, i) == 0
  {
    if tasks != [] {
      assert LeaseOk(tasks[|tasks| - 1], n);
      NoClaims(tasks[..|tasks| - 1], n, i);
    }
  }

  lemma {:induction false} NoUsers(sources: seq<Source>, n: nat, k: nat)
    requires n <= k
    requires forall i :: 0 <= i < |sources| ==> sources[i].session.Some? ==> sources[i].session.value < n
    ensures Living(sources, k) == 0
  {
    if sources != [] {
      NoUsers(sources[..|sources| - 1], n, k);
    }
  }

  lemma OpenKeeps(s: State)
    requires Inv(s)
    ensures Inv(s.(sessions := s.sessions + [IDLE]))
  {
    var s' := s.(sessions := s.sessions + [IDLE]);
    forall i | 0 <= i < |s'.sources| ensures SourceOk(s', i) {
      assert SourceOk(s, i);
    }
    forall k | 0 <= k < |s'.sessions| ensures SessionOk(s', k) {
      if k < |s.sessions| {
        assert SessionOk(s, k);
      } else {
        forall i | 0 <= i < |s.sources| ensures s.sources[i].session.Some? ==> s.sources[i].session.value < k {
          assert SourceOk(s, i);
        }
        NoUsers(s.sources, k, k);
        assert k !in s.readers && k !in s.owed;
      }
    }
  }

  lemma JoinKeeps(s: State)
    requires Inv(s)
    ensures Inv(s.(tasks := s.tasks + [Lease(None, None)]))
  {
    var s' := s.(tasks := s.tasks + [Lease(None, None)]);
    assert s'.tasks[..|s.tasks|] == s.tasks;
    forall i | 0 <= i < |s'.sources| ensures SourceOk(s', i) {
      assert SourceOk(s, i);
    }
    forall k | 0 <= k < |s'.sessions| ensures SessionOk(s', k) {
      assert SessionOk(s, k);
    }
  }

  /** A source that is not revoked keeps its session open, so a reader's retain always counts. */
  lemma LiveMeansOpen(s: State, i: nat)
    requires Inv(s) && i < |s.sources| && !s.sources[i].revoked && s.sources[i].session.Some?
    ensures s.sources[i].session.value < |s.sessions| && !s.sessions[s.sources[i].session.value].closed
  {
    var k := s.sources[i].session.value;
    assert SourceOk(s, i);
    assert SessionOk(s, k);
    LivingBounds(s.sources, i, k);
  }

  lemma ReaderKeeps(s: State, i: nat)
    requires Inv(s) && Enabled(s, OpenReader(i))
    ensures Inv(DoOpenReader(s, i))
  {
    if s.sources[i].session.Some? {
      var k := s.sources[i].session.value;
      var s' := DoOpenReader(s, i);
      LiveMeansOpen(s, i);
      assert SessionOk(s, k);
      SourcesAfterSession(s, s');
      SessionsAfterSession(s, s', k);
      ClosersAfterSession(s, s', k);
    }
  }

  /** Giving up one use of a session, by a reader that ends or for a revoked source. */
  lemma EndUseKeeps(s: State, readers: multiset<nat>, owed: multiset<nat>, k: nat)
    requires Inv(s) && k < |s.sessions| && readers <= s.readers && owed <= s.owed
    requires readers + owed == s.readers + s.owed - multiset{k} && k in s.readers + s.owed
    ensures Inv(SetSession(s.(readers := readers, owed := owed), k, Released(s.sessions[k])))
  {
    var s' := SetSession(s.(readers := readers, owed := owed), k, Released(s.sessions[k]));
    assert SessionOk(s, k);
    forall j ensures Users(s', j) + One(j == k) == Users(s, j) {
      assert (readers + owed)[j] + One(j == k) == (s.readers + s.owed)[j];
    }
    SourcesAfterSession(s, s');
    SessionsAfterSession(s, s', k);
    ClosersAfterSession(s, s', k);
  }

  lemma CloseReaderKeeps(s: State, k: nat)
    requires Inv(s) && Enabled(s, CloseReader(k))
    ensures Inv(Next(s, CloseReader(k)))
  {
    EndUseKeeps(s, s.readers - multiset{k}, s.owed, k);
  }

  lemma SettleKeeps(s: State, k: nat)
    requires Inv(s) && Enabled(s, Settle(k))
    ensures Inv(Next(s, Settle(k)))
  {
    EndUseKeeps(s, s.readers, s.owed - multiset{k}, k);
  }

  lemma IdleKeeps(s: State, k: nat)
    requires Inv(s) && k < |s.sessions|
    ensures Inv(SetSession(s, k, ClosedIfIdle(s.sessions[k])))
  {
    var s' := SetSession(s, k, ClosedIfIdle(s.sessions[k]));
    assert SessionOk(s, k);
    SourcesAfterSession(s, s');
    SessionsAfterSession(s, s', k);
    ClosersAfterSession(s, s', k);
  }

  lemma CloserAdded(x: Session)
    ensures Closers(WithCloser(x)) == Closers(x) + multiset{x.added}
  {
    if !x.closed {
      assert multiset(x.waiting + [x.added]) == multiset(x.waiting) + multiset{x.added};
    }
  }

  lemma WithCloserCounted(x: Session)
    requires Accounted(x)
    ensures Accounted(WithCloser(x))
  {
    CloserAdded(x);
    assert WithCloser(x).added == x.added + 1;
  }

  lemma WithCloserTimely(x: Session)
    requires TimelyOk(x)
    ensures TimelyOk(WithCloser(x))
  {
  }

  lemma WithCloserOk(x: Session)
    requires ClosersOk(x)
    ensures ClosersOk(WithCloser(x))
  {
    WithCloserCounted(x);
    WithCloserTimely(x);
  }

  lemma ClosersTakenOk(x: Session)
    requires ClosersOk(x) && x.closed
    ensures ClosersOk(ClosersTaken(x))
  {
    assert Closers(ClosersTaken(x)) == Closers(x);
  }

  lemma CloserRunOk(x: Session, id: nat)
    requires ClosersOk(x) && id in x.taken
    ensures ClosersOk(CloserRun(x, id))
  {
    assert Closers(CloserRun(x, id)) == Closers(x);
  }

  /** Closers change nothing else about a session. */
  lemma CloserKeeps(s: State, k: nat, y: Session)
    requires Inv(s) && k < |s.sessions| && ClosersOk(y) && (y.unrun ==> y.closed)
    requires y.refs == s.sessions[k].refs && y.closed == s.sessions[k].closed
    requires y.closes == s.sessions[k].closes && y.retains == s.sessions[k].retains
    ensures Inv(SetSession(s, k, y))
  {
    assert SessionOk(s, k);
    SourcesAfterSession(s, SetSession(s, k, y));
    SessionsAfterSession(s, SetSession(s, k, y), k);
  }

  // ---- Runs ----

  lemma SourceStepKeeps(s: State, step: Step)
    requires Inv(s) && Enabled(s, step)
    requires step.Acquire? || step.Record? || step.GiveUp? || step.Miss? || step.Release? || step.Revoke?
             || step.Expire? || step.Unregister? || step.Shutdown?
    ensures Inv(Next(s, step))
  {
    match step
    case Acquire(t, i) => AcquireKeeps(s, t, i);
    case Record(t) => MoveKeeps(s, t, s.tasks[t].hand);
    case GiveUp(t) => MoveKeeps(s, t, None);
    case Miss(i) => MissKeeps(s, i);
    case Release(i) => ReleaseKeeps(s, i);
    case Revoke(i) => ShutKeeps(s, i, Shut(s.sources[i]));
    case Expire(i) => ShutKeeps(s, i, Expired(s.sources[i]));
    case Unregister(i) => ShutKeeps(s, i, s.sources[i].(registered := false));
    case Shutdown => ShutdownKeeps(s);
  }

  lemma CloserStepKeeps(s: State, step: Step)
    requires Inv(s) && Enabled(s, step)
    requires step.OnClose? || step.TakeClosers? || step.RunCloser?
    ensures Inv(Next(s, step))
  {
    assert SessionOk(s, step.k);
    match step
    case OnClose(k) =>
      WithCloserOk(s.sessions[k]);
      CloserKeeps(s, k, WithCloser(s.sessions[k]));
    case TakeClosers(k) =>
      ClosersTakenOk(s.sessions[k]);
      CloserKeeps(s, k, ClosersTaken(s.sessions[k]));
    case RunCloser(k, id) =>
      CloserRunOk(s.sessions[k], id);
      CloserKeeps(s, k, CloserRun(s.sessions[k], id));
  }

  lemma StepKeeps(s: State, step: Step)
    requires Inv(s) && Enabled(s, step)
    ensures Inv(Next(s, step))
  {
    match step
    case Open => OpenKeeps(s);
    case Join => JoinKeeps(s);
    case Create(session) => CreateKeeps(s, session);
    case OpenReader(i) => ReaderKeeps(s, i);
    case CloseReader(k) => CloseReaderKeeps(s, k);
    case Settle(k) => SettleKeeps(s, k);
    case CloseIfIdle(k) => IdleKeeps(s, k);
    case OnClose(_) => CloserStepKeeps(s, step);
    case TakeClosers(_) => CloserStepKeeps(s, step);
    case RunCloser(_, _) => CloserStepKeeps(s, step);
    case _ => SourceStepKeeps(s, step);
  }

  lemma {:induction false} EveryRun(run: seq<State>, steps: seq<Step>, k: nat)
    requires IsRun(run, steps) && k < |run|
    ensures Inv(run[k])
  {
    if k == 0 {
      assert run[0] == NOTHING;
    } else {
      EveryRun(run, steps, k - 1);
      StepKeeps(run[k - 1], steps[k - 1]);
    }
  }
}
