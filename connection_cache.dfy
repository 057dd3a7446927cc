/** The process-wide cache of the single MongoDB connection (lib/mongodb.ts).

    The cache is the record `{conn, promise}` shared by every request the process serves.
    It is in one of three phases:
      - Empty:      no connection and no attempt recorded;
      - Connecting: an attempt (the promise of `mongoose.connect`) is recorded, no connection yet;
      - Connected:  the connection is cached.
    `connectDB` runs synchronously up to its `await` (BeginStep) and resumes when the awaited
    attempt settles (FinishStep). Concurrent callers interleave only at that `await`, which the
    trace model at the end of this module makes explicit. */
module ConnectionCache {
  import opened Wrappers
  import opened Js

  // ---------------------------------------------------------------- configuration

  /** The connection string used when MONGODB_URI is unset or empty. */
  const DefaultUri: string := "mongodb://localhost:27017/blog"

  /** The message of the error thrown at module load when no connection string is defined. */
  const MissingUriMessage: string := "Please define the MONGODB_URI environment variable inside .env"

  /** `process.env.MONGODB_URI || DefaultUri`, where `env` is the variable's value if it is set. */
  function ResolveUri(env: Option<string>): (uri: string)
    ensures uri != ""
    ensures Truthy(env) ==> uri == env.value
    ensures !Truthy(env) ==> uri == DefaultUri
  {
    if Truthy(env) then env.value else DefaultUri
  }

  /** Module load: resolve the connection string, then throw if it is falsy.
      The guard can never fire, because the default is a non-empty string. */
  function LoadUri(env: Option<string>): (r: Result<string, Thrown>)
    ensures r == Ok(ResolveUri(env))
  {
    var uri := ResolveUri(env);
    if !Truthy(Some(uri)) then Err(ErrorInstance(MissingUriMessage)) else Ok(uri)
  }

  // ---------------------------------------------------------------- state

  /** An established connection (the resolved `mongoose` object). */
  datatype Connection = Connection(handle: nat)

  /** A connection attempt, named by its position among all calls to `mongoose.connect`;
      it stands for the identity of the promise object that call returned. */
  type Attempt = nat

  /** How a connection attempt settles. */
  datatype AttemptOutcome = Resolved(conn: Connection) | Rejected(error: Thrown)

  /** The `cached` record, plus the number of attempts begun so far. */
  datatype Cache = Cache(conn: Option<Connection>, promise: Option<Attempt>, attempts: nat)

  /** `{ conn: null, promise: null }`, before any attempt. */
  const Initial: Cache := Cache(None, None, 0)

  datatype Phase = Empty | Connecting | Connected

  function PhaseOf(c: Cache): Phase
  {
    if c.conn.Some? then Connected
    else if c.promise.Some? then Connecting
    else Empty
  }

  /** What a caller holds when `connectDB` reaches its `await`, or returns before it. */
  datatype Acquired = Ready(conn: Connection) | Awaiting(attempt: Attempt)

  // ---------------------------------------------------------------- one call of connectDB

  /** The synchronous part of `connectDB`: return a cached connection, or begin an attempt
      when none is recorded, and await the recorded attempt. */
  function BeginStep(c: Cache): (r: (Cache, Acquired))
    ensures c.conn.Some? ==> r == (c, Ready(c.conn.value))
    ensures PhaseOf(c) == Connecting ==> r == (c, Awaiting(c.promise.value))
    ensures PhaseOf(c) == Empty ==>
      PhaseOf(r.0) == Connecting && r.0.promise == Some(c.attempts) && r.1 == Awaiting(c.attempts)
    ensures r.0.attempts > c.attempts <==> PhaseOf(c) == Empty
    ensures r.0.attempts <= c.attempts + 1
  {
    if c.conn.Some? then (c, Ready(c.conn.value))
    else if c.promise.Some? then (c, Awaiting(c.promise.value))
    else (c.(promise := Some(c.attempts), attempts := c.attempts + 1), Awaiting(c.attempts))
  }

  /** One awaiting caller resumes after its attempt settled with `o`: on success it caches
      the connection and returns it; on failure it clears the recorded attempt and rethrows. */
  function FinishStep(c: Cache, o: AttemptOutcome): (r: (Cache, Result<Connection, Thrown>))
    ensures o.Resolved? ==> r.1 == Ok(o.conn) && r.0 == c.(conn := Some(o.conn))
    ensures o.Rejected? ==> r.1 == Err(o.error) && r.0 == c.(promise := None)
    ensures o.Rejected? && c.conn.None? ==> PhaseOf(r.0) == Empty
    ensures o.Resolved? ==> PhaseOf(r.0) == Connected
  {
    match o
    case Resolved(conn) => (c.(conn := Some(conn)), Ok(conn))
    case Rejected(e) => (c.(promise := None), Err(e))
  }

  /** The resume step with the guard the single-flight design needs: a caller clears the
      recorded attempt only when it is still the attempt `awaited` that this caller awaited,
      so a caller resuming late from a replaced attempt leaves a newer one alone. */
  function FinishAwaited(c: Cache, awaited: Attempt, o: AttemptOutcome): (r: (Cache, Result<Connection, Thrown>))
    ensures c.promise == Some(awaited) ==> r == FinishStep(c, o)
    ensures o.Resolved? ==> r.1 == Ok(o.conn) && r.0 == c.(conn := Some(o.conn))
    ensures o.Rejected? ==> r.1 == Err(o.error) && r.0.conn == c.conn && r.0.attempts == c.attempts
    ensures o.Rejected? && c.promise != Some(awaited) ==> r.0 == c
  {
    match o
    case Resolved(conn) => (c.(conn := Some(conn)), Ok(conn))
    case Rejected(e) => (if c.promise == Some(awaited) then c.(promise := None) else c, Err(e))
  }

  /** A whole call of `connectDB` that no other caller interleaves with, where `o` is how the
      awaited attempt settles. */
  function ConnectStep(c: Cache, o: AttemptOutcome): (r: (Cache, Result<Connection, Thrown>))
    ensures c.conn.Some? ==> r == (c, Ok(c.conn.value))
    ensures c.conn.None? && o.Resolved? ==>
      r.1 == Ok(o.conn) && r.0.conn == Some(o.conn) && PhaseOf(r.0) == Connected
    ensures c.conn.None? && o.Rejected? ==>
      r.1 == Err(o.error) && PhaseOf(r.0) == Empty
    ensures r.0.attempts == c.attempts + (if PhaseOf(c) == Empty then 1 else 0)
  {
    var (entered, acquired) := BeginStep(c);
    match acquired
    case Ready(conn) => (entered, Ok(conn))
    case Awaiting(_) => FinishStep(entered, o)
  }

  // ---------------------------------------------------------------- the shared record

  /** The `cached` record that every invocation of `connectDB` reads and updates in place. */
  class Cached {
    var conn: Option<Connection>
    var promise: Option<Attempt>
    var attempts: nat

    function Snapshot(): Cache
      reads this
    {
      Cache(conn, promise, attempts)
    }

    /** `{ conn: null, promise: null }` */
    constructor ()
      ensures Snapshot() == Initial
    {
      conn, promise, attempts := None, None, 0;
    }

    /** `connectDB` up to `await cached.promise`. */
    method Enter() returns (acquired: Acquired)
      modifies this
      ensures (Snapshot(), acquired) == BeginStep(old(Snapshot()))
    {
      if conn.Some? {
        return Ready(conn.value);
      }
      if promise.None? {
        promise := Some(attempts);
        attempts := attempts + 1;
      }
      acquired := Awaiting(promise.value);
    }

    /** `connectDB` from the `await` on, once the awaited attempt settled with `outcome`;
        a rejection clears whatever attempt is recorded (line 50 as written). */
    method Resume(outcome: AttemptOutcome) returns (r: Result<Connection, Thrown>)
      modifies this
      ensures (Snapshot(), r) == FinishStep(old(Snapshot()), outcome)
    {
      match outcome
      case Resolved(c) =>
        conn := Some(c);
        r := Ok(c);
      case Rejected(e) =>
        promise := None;
        r := Err(e);
    }

    /** The corrected resume: a rejection of `awaited` clears the record only if it still
        holds `awaited`. */
    method ResumeGuarded(awaited: Attempt, outcome: AttemptOutcome) returns (r: Result<Connection, Thrown>)
      modifies this
      ensures (Snapshot(), r) == FinishAwaited(old(Snapshot()), awaited, outcome)
    {
      match outcome
      case Resolved(c) =>
        conn := Some(c);
        r := Ok(c);
      case Rejected(e) =>
        if promise == Some(awaited) {
          promise := None;
        }
        r := Err(e);
    }

    /** A whole call of `connectDB`; `outcome` is how the attempt it awaits settles. */
    method ConnectDB(outcome: AttemptOutcome) returns (r: Result<Connection, Thrown>)
      modifies this
      ensures (Snapshot(), r) == ConnectStep(old(Snapshot()), outcome)
      ensures old(conn).Some? ==> r == Ok(old(conn).value) && Snapshot() == old(Snapshot())
    {
      var acquired := Enter();
      match acquired
      case Ready(c) =>
        r := Ok(c);
      case Awaiting(_) =>
        r := Resume(outcome);
    }
  }

  /** Module load: reuse the record already installed as the process global, or install a
      fresh empty one. `installed` is the global afterwards. */
  method LoadCache(global: Cached?) returns (cached: Cached, installed: Cached)
    ensures global != null ==> cached == global
    ensures global == null ==> fresh(cached) && cached.Snapshot() == Initial
    ensures installed == cached
  {
    if global != null {
      cached := global;
    } else {
      cached := new Cached();
    }
    installed := cached;
  }

  // ---------------------------------------------------------------- interleavings

  /** Which resume step the callers run: the source's (line 50 clears whatever attempt is
      recorded) or the guarded one (it clears only the attempt the caller awaited). */
  datatype Variant = AsWritten | Guarded

  function Resumed(c: Cache, awaited: Attempt, o: AttemptOutcome, v: Variant): Cache
  {
    match v
    case AsWritten => FinishStep(c, o).0
    case Guarded => FinishAwaited(c, awaited, o).0
  }

  /** The process: the shared record, the attempts awaited by the callers suspended at the
      `await` (one entry per caller), and the attempts that have settled. */
  datatype World = World(cache: Cache, waiting: multiset<Attempt>, settled: set<Attempt>)

  const InitialWorld: World := World(Initial, multiset{}, {})

  /** A step of the process: a caller enters `connectDB` and runs to its `await` or returns
      (Call); an attempt already begun settles (Settle); one caller suspended on a settled
      attempt resumes (Resume). An event that is not enabled changes nothing. Any settled
      caller may resume at any point, so the traces cover every order the event loop allows,
      including a caller that awaits an attempt after it settled. */
  datatype Event = Call | Settle(attempt: Attempt) | Resume(attempt: Attempt)

  function Step(w: World, e: Event, outcome: Attempt -> AttemptOutcome, v: Variant): World
  {
    match e
    case Call =>
      var (c, acquired) := BeginStep(w.cache);
      World(c, if acquired.Awaiting? then w.waiting + multiset{acquired.attempt} else w.waiting, w.settled)
    case Settle(a) =>
      if a < w.cache.attempts then w.(settled := w.settled + {a}) else w
    case Resume(a) =>
      if a in w.waiting && a in w.settled then
        World(Resumed(w.cache, a, outcome(a), v), w.waiting - multiset{a}, w.settled)
      else w
  }

  /** The world after the events of `trace`, in order; attempt `a` settles with `outcome(a)`. */
  function Run(w: World, trace: seq<Event>, outcome: Attempt -> AttemptOutcome, v: Variant): World
    decreases |trace|
  {
    if trace == [] then w else Run(Step(w, trace[0], outcome, v), trace[1..], outcome, v)
  }

  /** Whether `e` removes the recorded attempt. */
  predicate ClearsAt(w: World, e: Event, outcome: Attempt -> AttemptOutcome, v: Variant)
  {
    w.cache.promise.Some? && Step(w, e, outcome, v).cache.promise.None?
  }

  /** The number of times during `trace` that the recorded attempt is removed. */
  function Clears(w: World, trace: seq<Event>, outcome: Attempt -> AttemptOutcome, v: Variant): nat
    decreases |trace|
  {
    if trace == [] then 0
    else (if ClearsAt(w, trace[0], outcome, v) then 1 else 0)
         + Clears(Step(w, trace[0], outcome, v), trace[1..], outcome, v)
  }

  function Recorded(c: Cache): nat
  {
    if c.promise.Some? then 1 else 0
  }

  /** One event begins an attempt exactly when it records one, and removes a record only by
      clearing it. */
  lemma StepAccounting(w: World, e: Event, outcome: Attempt -> AttemptOutcome, v: Variant)
    ensures Step(w, e, outcome, v).cache.attempts + Recorded(w.cache)
         == w.cache.attempts + Recorded(Step(w, e, outcome, v).cache) + (if ClearsAt(w, e, outcome, v) then 1 else 0)
  {
  }

  /** Every attempt begun is the one now recorded or one whose record was removed:
      attempts begun during a run = removals during it + change in recorded attempts. */
  lemma {:induction false} AttemptAccounting(w: World, trace: seq<Event>, outcome: Attempt -> AttemptOutcome, v: Variant)
    ensures Run(w, trace, outcome, v).cache.attempts + Recorded(w.cache)
         == w.cache.attempts + Recorded(Run(w, trace, outcome, v).cache) + Clears(w, trace, outcome, v)
    decreases |trace|
  {
    if trace != [] {
      StepAccounting(w, trace[0], outcome, v);
      AttemptAccounting(Step(w, trace[0], outcome, v), trace[1..], outcome, v);
    }
  }

  /** The states every run of the guarded variant from the empty cache stays in: the
      recorded attempt is the latest one begun, every caller awaits an attempt begun, every
      other attempt begun has settled and failed, and a cached connection is what the
      recorded attempt resolved to. */
  ghost predicate Consistent(w: World, outcome: Attempt -> AttemptOutcome)
  {
    var c := w.cache;
    (c.promise.Some? ==> c.promise.value + 1 == c.attempts)
    && (forall a <- w.waiting :: a < c.attempts)
    && (forall a: Attempt :: a < c.attempts && Some(a) != c.promise ==> a in w.settled && outcome(a).Rejected?)
    && (c.conn.Some? ==> c.promise.Some? && outcome(c.promise.value) == Resolved(c.conn.value))
  }

  lemma StepConsistent(w: World, e: Event, outcome: Attempt -> AttemptOutcome)
    requires Consistent(w, outcome)
    ensures Consistent(Step(w, e, outcome, Guarded), outcome)
  {
    if e.Resume? && e.attempt in w.waiting && e.attempt in w.settled {
      var a := e.attempt;
      assert a < w.cache.attempts;
      if outcome(a).Resolved? {
        assert w.cache.promise == Some(a);
      }
    }
  }

  lemma {:induction false} ConsistentPreserved(w: World, trace: seq<Event>, outcome: Attempt -> AttemptOutcome)
    requires Consistent(w, outcome)
    ensures Consistent(Run(w, trace, outcome, Guarded), outcome)
    decreases |trace|
  {
    if trace != [] {
      StepConsistent(w, trace[0], outcome);
      ConsistentPreserved(Step(w, trace[0], outcome, Guarded), trace[1..], outcome);
    }
  }

  /** With the guarded resume, starting from the empty cache and however callers, settlements
      and resumptions interleave: every attempt still in flight (begun, not settled) is the
      recorded one, so at most one is in flight; and a new attempt is begun only after every
      earlier one failed. */
  lemma SingleFlight(trace: seq<Event>, outcome: Attempt -> AttemptOutcome)
    ensures var w := Run(InitialWorld, trace, outcome, Guarded);
      && (forall a: Attempt :: a < w.cache.attempts && a !in w.settled ==> w.cache.promise == Some(a))
      && (forall a: Attempt :: a < w.cache.attempts && Some(a) != w.cache.promise ==> outcome(a).Rejected?)
  {
    ConsistentPreserved(InitialWorld, trace, outcome);
  }

  /** A caller joins attempt 0 after it was rejected; the first caller's resume clears it,
      a third caller begins attempt 1, and the late caller's resume then clears attempt 1,
      so a fourth caller begins attempt 2 while attempt 1 is still in flight. */
  const LateJoin: seq<Event> := [Call, Settle(0), Call, Resume(0), Call, Resume(0), Call]

  /** The source as written is not single flight: on `LateJoin`, two attempts are in flight
      at once, attempt 1 unrecorded. The guarded resume keeps attempt 1 recorded instead. */
  lemma LateJoinerClearsNewerAttempt(outcome: Attempt -> AttemptOutcome)
    requires outcome(0).Rejected?
    ensures var w := Run(InitialWorld, LateJoin, outcome, AsWritten);
      w.cache == Cache(None, Some(2), 3) && 1 !in w.settled && 2 !in w.settled
    ensures Run(InitialWorld, LateJoin, outcome, Guarded).cache == Cache(None, Some(1), 2)
  {
    var t := LateJoin;
    assert t[1..] == [Settle(0), Call, Resume(0), Call, Resume(0), Call];
    assert t[1..][1..] == [Call, Resume(0), Call, Resume(0), Call];
    assert t[1..][1..][1..] == [Resume(0), Call, Resume(0), Call];
    assert t[1..][1..][1..][1..] == [Call, Resume(0), Call];
    assert t[1..][1..][1..][1..][1..] == [Resume(0), Call];
    assert t[1..][1..][1..][1..][1..][1..] == [Call];
    assert t[1..][1..][1..][1..][1..][1..][1..] == [];
    var w1 := World(Cache(None, Some(0), 1), multiset{0}, {});
    var w2 := World(Cache(None, Some(0), 1), multiset{0}, {0});
    var w3 := World(Cache(None, Some(0), 1), multiset{0, 0}, {0});
    var w4 := World(Cache(None, None, 1), multiset{0}, {0});
    var w5 := World(Cache(None, Some(1), 2), multiset{0, 1}, {0});
    assert multiset{0, 0} - multiset{0} == multiset{0};
    assert multiset{0, 1} - multiset{0} == multiset{1};
    assert Step(InitialWorld, Call, outcome, AsWritten) == w1;
    assert Step(w1, Settle(0), outcome, AsWritten) == w2;
    assert Step(w2, Call, outcome, AsWritten) == w3;
    assert Step(w3, Resume(0), outcome, AsWritten) == w4;
    assert Step(w4, Call, outcome, AsWritten) == w5;
    var a6 := World(Cache(None, None, 2), multiset{1}, {0});
    assert Step(w5, Resume(0), outcome, AsWritten) == a6;
    assert Step(a6, Call, outcome, AsWritten) == World(Cache(None, Some(2), 3), multiset{1, 2}, {0});
    assert Step(InitialWorld, Call, outcome, Guarded) == w1;
    assert Step(w1, Settle(0), outcome, Guarded) == w2;
    assert Step(w2, Call, outcome, Guarded) == w3;
    assert Step(w3, Resume(0), outcome, Guarded) == w4;
    assert Step(w4, Call, outcome, Guarded) == w5;
    var g6 := World(Cache(None, Some(1), 2), multiset{1}, {0});
    assert Step(w5, Resume(0), outcome, Guarded) == g6;
    assert Step(g6, Call, outcome, Guarded) == World(Cache(None, Some(1), 2), multiset{1, 1}, {0});
  }

  /** `n` callers arriving one after another. */
  function Calls(n: nat): (r: seq<Event>)
    ensures |r| == n && forall e <- r :: e == Call
  {
    if n == 0 then [] else [Call] + Calls(n - 1)
  }

  /** Callers arriving while an attempt is in flight join it: the record is unchanged and
      each of them awaits the recorded attempt. */
  lemma {:induction false} JoinWhileConnecting(w: World, n: nat, outcome: Attempt -> AttemptOutcome, v: Variant)
    requires PhaseOf(w.cache) == Connecting
    ensures var p := w.cache.promise.value;
      Run(w, Calls(n), outcome, v) == w.(waiting := w.waiting[p := w.waiting[p] + n])
    decreases n
  {
    if n > 0 {
      var p := w.cache.promise.value;
      var next := Step(w, Call, outcome, v);
      assert next == w.(waiting := w.waiting + multiset{p});
      JoinWhileConnecting(next, n - 1, outcome, v);
      assert next.waiting[p := next.waiting[p] + (n - 1)] == w.waiting[p := w.waiting[p] + n];
    }
  }

  /** Any number of callers on a cold cache begin exactly one attempt, attempt 0, and all of
      them await it. */
  lemma ColdStartBeginsOneAttempt(n: nat, outcome: Attempt -> AttemptOutcome, v: Variant)
    requires n > 0
    ensures Run(InitialWorld, Calls(n), outcome, v) == World(Cache(None, Some(0), 1), multiset{}[0 := n], {})
  {
    var first := Step(InitialWorld, Call, outcome, v);
    assert first == World(Cache(None, Some(0), 1), multiset{0}, {});
    JoinWhileConnecting(first, n - 1, outcome, v);
    assert first.waiting[0 := first.waiting[0] + (n - 1)] == multiset{}[0 := n];
  }

  /** No step ever clears a cached connection, and once connected no attempt is begun; this
      holds of the source as written too. */
  lemma {:induction false} ConnectedIsAbsorbing(w: World, trace: seq<Event>, outcome: Attempt -> AttemptOutcome, v: Variant)
    requires w.cache.conn.Some?
    ensures Run(w, trace, outcome, v).cache.conn.Some?
    ensures Run(w, trace, outcome, v).cache.attempts == w.cache.attempts
    decreases |trace|
  {
    if trace != [] {
      ConnectedIsAbsorbing(Step(w, trace[0], outcome, v), trace[1..], outcome, v);
    }
  }

  /** In a consistent state the record never changes once connected: every later caller gets
      the same connection. */
  lemma {:induction false} ConnectedIsStable(w: World, trace: seq<Event>, outcome: Attempt -> AttemptOutcome)
    requires Consistent(w, outcome) && w.cache.conn.Some?
    ensures Run(w, trace, outcome, Guarded).cache == w.cache
    ensures BeginStep(Run(w, trace, outcome, Guarded).cache).1 == Ready(w.cache.conn.value)
    decreases |trace|
  {
    if trace != [] {
      StepConsistent(w, trace[0], outcome);
      var next := Step(w, trace[0], outcome, Guarded);
      if trace[0].Resume? && trace[0].attempt in w.waiting && trace[0].attempt in w.settled {
        var a := trace[0].attempt;
        assert a < w.cache.attempts;
        assert w.cache.promise == Some(a) || outcome(a).Rejected?;
      }
      assert next.cache == w.cache;
      ConnectedIsStable(next, trace[1..], outcome);
    }
  }

  /** After the recorded attempt fails and a caller awaiting it resumes, the cache is Empty
      and the next caller begins a fresh, different attempt instead of receiving the old
      failure. */
  lemma RetryAfterFailure(w: World, outcome: Attempt -> AttemptOutcome, v: Variant)
    requires Consistent(w, outcome) && PhaseOf(w.cache) == Connecting
    requires w.cache.promise.value in w.waiting && w.cache.promise.value in w.settled
    requires outcome(w.cache.promise.value).Rejected?
    ensures var failed := Step(w, Resume(w.cache.promise.value), outcome, v);
      PhaseOf(failed.cache) == Empty
      && BeginStep(failed.cache).1 == Awaiting(w.cache.attempts)
      && w.cache.attempts != w.cache.promise.value
  {
  }
}
