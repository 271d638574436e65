/** The sealing key's cell: the store is asked by one thread at a time, and a key once good stays the key. */
module KeyCells {
  import opened Prelude

  const U32_MAX := 0xFFFF_FFFF

  type Key = seq<nat>

  datatype KeyState =
    | Unasked
    | Asking(since: nat, failures: nat)
    | Ready(key: Key)
    | Refused(failures: nat, retryAt: nat)

  /** How long a caller waits on an ask, and the first and largest pause after failures. */
  datatype Config = Config(wait: nat, retryFirst: nat, retryMax: nat)

  function Pow2(n: nat): (p: nat)
    ensures p >= 1
  {
    if n == 0 then 1 else 2 * Pow2(n - 1)
  }

  /** The pause after the n-th failure in a row. */
  function Backoff(c: Config, failures: nat): nat
    requires failures >= 1
  {
    var doubled := c.retryFirst * Pow2(if failures - 1 < 16 then failures - 1 else 16);
    if doubled < c.retryMax then doubled else c.retryMax
  }

  function Failing(c: Config, failuresBefore: nat, now: nat): KeyState {
    var failures := if failuresBefore < U32_MAX then failuresBefore + 1 else U32_MAX;
    Refused(failures, now + Backoff(c, failures))
  }

  /** Whether an ask may start: nobody is asking, no key is here, and the last refusal's pause is over. */
  predicate MayAsk(s: KeyState, now: nat) {
    s.Unasked? || (s.Refused? && now >= s.retryAt)
  }

  function FailuresSoFar(s: KeyState): nat {
    if s.Asking? || s.Refused? then s.failures else 0
  }

  /** `begin`: an ask that may start hands the fetch to a thread of its own, or fails at `failedAt` if there is none. */
  function Begin(c: Config, s: KeyState, now: nat, since: nat, spawned: bool, failedAt: nat): KeyState {
    if !MayAsk(s, now) then s
    else if spawned then Asking(since, FailuresSoFar(s))
    else Failing(c, FailuresSoFar(s), failedAt)
  }

  function Answer(c: Config, s: KeyState, answer: Option<Key>, now: nat): KeyState {
    if answer.Some? then Ready(answer.value) else Failing(c, if s.Asking? then s.failures else 0, now)
  }

  /** What one pass of `get`'s loop does under the lock. */
  datatype Pass = Key(key: Key) | TooSoon | Overdue | WaitUntil(deadline: nat) | AskFirst

  function PassOf(c: Config, s: KeyState, now: nat): Pass {
    match s
    case Ready(key) => Pass.Key(key)
    case Refused(_, retryAt) => if now < retryAt then TooSoon else AskFirst
    case Unasked => AskFirst
    case Asking(since, _) => if now >= since + c.wait then Overdue else WaitUntil(since + c.wait)
  }

  /** The cell: one mutex-guarded state replaced by callers and by the answering thread. */
  class KeyCell {
    const config: Config
    var state: KeyState

    constructor (c: Config)
      ensures state == Unasked && config == c
    {
      config, state := c, Unasked;
    }

    method Ask(now: nat, since: nat, spawned: bool, failedAt: nat) returns (started: bool)
      modifies this`state
      ensures state == Begin(config, old(state), now, since, spawned, failedAt)
      ensures started <==> MayAsk(old(state), now) && spawned
    {
      var failures := 0;
      match state {
        case Unasked =>
        case Refused(before, retryAt) =>
          if now < retryAt {
            return false;
          }
          failures := before;
        case _ =>
          return false;
      }
      state := Asking(since, failures);
      if !spawned {
        state := Failing(config, failures, failedAt);
      }
      started := spawned;
    }

    method Answered(answer: Option<Key>, now: nat)
      modifies this`state
      ensures state == Answer(config, old(state), answer, now)
    {
      var failures := if state.Asking? then state.failures else 0;
      if answer.Some? {
        state := Ready(answer.value);
      } else {
        state := Failing(config, failures, now);
      }
    }

    /** One pass of `get`'s loop: the key, a refusal, a wait, or an ask and another pass. */
    method GetPass(now: nat, since: nat, spawned: bool, failedAt: nat) returns (pass: Pass, started: bool)
      modifies this`state
      ensures pass == PassOf(config, old(state), now)
      ensures state == if pass.AskFirst? then Begin(config, old(state), now, since, spawned, failedAt) else old(state)
      ensures started <==> pass.AskFirst? && spawned
    {
      started := false;
      match state {
        case Ready(key) => pass := Pass.Key(key);
        case Refused(_, retryAt) => pass := if now < retryAt then TooSoon else AskFirst;
        case Unasked => pass := AskFirst;
        case Asking(asked, _) => pass := if now >= asked + config.wait then Overdue else WaitUntil(asked + config.wait);
      }
      if pass.AskFirst? {
        started := Ask(now, since, spawned, failedAt);
      }
    }
  }

  // ---- whole runs -------------------------------------------------------------------------

  /** The cell, the fetches under way, and a trace: when asks started, when they failed, which keys `get` handed out. */
  datatype World = World(state: KeyState, outstanding: nat, starts: seq<nat>, failures: seq<nat>, handed: seq<Key>)

  const QUIET := World(Unasked, 0, [], [], [])

  datatype Event =
    | Asked(now: nat, since: nat, spawned: bool, failedAt: nat)
    | FetchEnded(answer: Option<Key>, now: nat)
    | GetPassed(now: nat, since: nat, spawned: bool, failedAt: nat)

  function Started(c: Config, w: World, now: nat, since: nat, spawned: bool, failedAt: nat): World {
    if !MayAsk(w.state, now) then w
    else w.(state := Begin(c, w.state, now, since, spawned, failedAt),
            outstanding := if spawned then w.outstanding + 1 else w.outstanding,
            starts := w.starts + [since],
            failures := if spawned then w.failures else w.failures + [failedAt])
  }

  /** A fetch can only end while one is under way. */
  function Step(c: Config, w: World, e: Event): World {
    match e
    case Asked(now, since, spawned, failedAt) => Started(c, w, now, since, spawned, failedAt)
    case FetchEnded(answer, now) =>
      if w.outstanding == 0 then w
      else w.(state := Answer(c, w.state, answer, now), outstanding := w.outstanding - 1,
              failures := if answer.Some? then w.failures else w.failures + [now])
    case GetPassed(now, since, spawned, failedAt) =>
      match PassOf(c, w.state, now)
      case Key(key) => w.(handed := w.handed + [key])
      case AskFirst => Started(c, w, now, since, spawned, failedAt)
      case _ => w
  }

  function Run(c: Config, h: seq<Event>): World {
    if h == [] then QUIET else Step(c, Run(c, h[..|h| - 1]), h[|h| - 1])
  }

  /** The clock reads of one ask are in order. */
  predicate ClockInOrder(e: Event) {
    e.Asked? || e.GetPassed? ==> e.now <= e.since
  }

  function Saturated(n: nat): nat {
    if n < U32_MAX then n else U32_MAX
  }

  /** One fetch is under way exactly while the state says so; the counts match the trace. */
  predicate SingleFlight(w: World) {
    && w.outstanding == (if w.state.Asking? then 1 else 0)
    && (w.state.Unasked? ==> w.starts == [] && w.failures == [])
    && (w.state.Asking? ==> |w.starts| == |w.failures| + 1 && w.state.failures == Saturated(|w.failures|))
    && (w.state.Refused? ==> |w.starts| == |w.failures| >= 1 && w.state.failures == Saturated(|w.failures|))
    && (w.state.Ready? ==> |w.starts| == |w.failures| + 1)
  }

  /** The k-th ask after a failure waited out the pause of k failures. */
  predicate Paced(c: Config, w: World) {
    && |w.failures| <= |w.starts| <= |w.failures| + 1
    && (forall k :: 1 <= k < |w.starts| ==> w.starts[k] >= w.failures[k - 1] + Backoff(c, k))
    && (w.state.Refused? ==> |w.failures| >= 1 && w.state.retryAt == w.failures[|w.failures| - 1] + Backoff(c, |w.failures|))
  }

  predicate SameKey(w: World) {
    forall i :: 0 <= i < |w.handed| ==> w.state == Ready(w.handed[i])
  }

  lemma BackoffSaturates(c: Config, n: nat)
    requires n >= 1
    ensures Backoff(c, Saturated(n)) == Backoff(c, n)
  {
  }

  lemma KeepsStart(c: Config, w: World, now: nat, since: nat, spawned: bool, failedAt: nat)
    requires SingleFlight(w) && Paced(c, w) && SameKey(w) && now <= since
    ensures var v := Started(c, w, now, since, spawned, failedAt); SingleFlight(v) && Paced(c, v) && SameKey(v)
  {
    BackoffSaturates(c, |w.failures| + 1);
  }

  lemma KeepsEnd(c: Config, w: World, answer: Option<Key>, now: nat)
    requires SingleFlight(w) && Paced(c, w) && SameKey(w)
    ensures var v := Step(c, w, FetchEnded(answer, now)); SingleFlight(v) && Paced(c, v) && SameKey(v)
  {
    BackoffSaturates(c, |w.failures| + 1);
  }

  lemma KeepsStep(c: Config, w: World, e: Event)
    requires SingleFlight(w) && Paced(c, w) && SameKey(w) && ClockInOrder(e)
    ensures SingleFlight(Step(c, w, e)) && Paced(c, Step(c, w, e)) && SameKey(Step(c, w, e))
  {
    match e {
      case Asked(now, since, spawned, failedAt) => KeepsStart(c, w, now, since, spawned, failedAt);
      case GetPassed(now, since, spawned, failedAt) => KeepsStart(c, w, now, since, spawned, failedAt);
      case FetchEnded(answer, now) => KeepsEnd(c, w, answer, now);
    }
  }

  /**
   * In every interleaving of callers and answering threads: at most one store fetch is under way, exactly when the
   * state is `Asking`; every key handed out is the one key; and after n failures in a row the next ask starts no
   * sooner than the n-th pause later.
   */
  lemma {:induction false} AskedOneAtATime(c: Config, h: seq<Event>)
    requires forall i :: 0 <= i < |h| ==> ClockInOrder(h[i])
    ensures SingleFlight(Run(c, h)) && Paced(c, Run(c, h)) && SameKey(Run(c, h))
  {
    if h != [] {
      AskedOneAtATime(c, h[..|h| - 1]);
      KeepsStep(c, Run(c, h[..|h| - 1]), h[|h| - 1]);
    }
  }

  /** A key once ready is never replaced. */
  lemma {:induction false} ReadyForGood(c: Config, h: seq<Event>, n: nat)
    requires n <= |h| && (forall i :: 0 <= i < |h| ==> ClockInOrder(h[i])) && Run(c, h[..n]).state.Ready?
    ensures Run(c, h).state == Run(c, h[..n]).state
    decreases |h|
  {
    if n < |h| {
      var m := |h| - 1;
      assert h[..m][..n] == h[..n];
      ReadyForGood(c, h[..m], n);
      AskedOneAtATime(c, h[..m]);
    } else {
      assert h[..n] == h;
    }
  }

  lemma {:induction false} Pow2Grows(a: nat, b: nat)
    requires a <= b
    ensures Pow2(a) <= Pow2(b)
  {
    if a < b {
      Pow2Grows(a, b - 1);
    }
  }

  /** The pause never shrinks from one failure to a later one, and never exceeds its limit. */
  lemma BackoffNeverDecreases(c: Config, m: nat, n: nat)
    requires 1 <= m <= n
    ensures Backoff(c, m) <= Backoff(c, n) <= c.retryMax
  {
    var a, b := if m - 1 < 16 then m - 1 else 16, if n - 1 < 16 then n - 1 else 16;
    Pow2Grows(a, b);
    MulGrows(c.retryFirst, Pow2(a), Pow2(b));
  }

  lemma MulGrows(x: nat, a: nat, b: nat)
    requires a <= b
    ensures x * a <= x * b
  {
  }

  /** The first pause is `retryFirst`; each further failure doubles it up to the 17th, within `retryMax`. */
  lemma BackoffDoubles(c: Config, n: nat)
    requires n >= 1
    ensures Backoff(c, 1) == if c.retryFirst < c.retryMax then c.retryFirst else c.retryMax
    ensures n <= 16 ==> Backoff(c, n + 1) == if 2 * Backoff(c, n) < c.retryMax then 2 * Backoff(c, n) else c.retryMax
    ensures n >= 17 ==> Backoff(c, n) == Backoff(c, 17)
  {
    if n <= 16 {
      assert c.retryFirst * Pow2(n) == 2 * (c.retryFirst * Pow2(n - 1));
    }
  }

  // ---- the cell told from its events ------------------------------------------------------------------

  /** What the events come to: a fetch under way since when, the key that came, and the failures so far. */
  datatype Book = Book(asking: Option<nat>, key: Option<Key>, failures: seq<nat>)

  /** A fetch may start: none is under way, no key has come, and the pause after the last failure is over. */
  predicate Free(c: Config, b: Book, now: nat) {
    && b.asking.None? && b.key.None?
    && (b.failures == [] || now >= b.failures[|b.failures| - 1] + Backoff(c, |b.failures|))
  }

  function Enter(c: Config, b: Book, e: Event): Book {
    match e
    case FetchEnded(answer, now) =>
      if b.asking.None? then b
      else if answer.Some? then b.(asking := None, key := answer)
      else b.(asking := None, failures := b.failures + [now])
    case _ =>
      if !Free(c, b, e.now) then b
      else if e.spawned then b.(asking := Some(e.since)) else b.(failures := b.failures + [e.failedAt])
  }

  function Books(c: Config, h: seq<Event>): Book {
    if h == [] then Book(None, None, []) else Enter(c, Books(c, h[..|h| - 1]), h[|h| - 1])
  }

  /** The state of the cell that the book calls for. */
  function StateOf(c: Config, b: Book): KeyState {
    var n := |b.failures|;
    if b.asking.Some? then Asking(b.asking.value, Saturated(n))
    else if b.key.Some? then Ready(b.key.value)
    else if n == 0 then Unasked
    else Refused(Saturated(n), b.failures[n - 1] + Backoff(c, n))
  }

  ghost predicate Kept(c: Config, w: World, b: Book) {
    && w.state == StateOf(c, b) && w.outstanding == (if b.asking.Some? then 1 else 0)
    && !(b.asking.Some? && b.key.Some?)
    && forall i :: 0 <= i < |w.handed| ==> b.key == Some(w.handed[i])
  }

  lemma FreeIff(c: Config, b: Book, now: nat)
    ensures MayAsk(StateOf(c, b), now) <==> Free(c, b, now)
  {
  }

  lemma KeptStart(c: Config, w: World, b: Book, e: Event)
    requires Kept(c, w, b) && !e.FetchEnded?
    ensures Kept(c, Started(c, w, e.now, e.since, e.spawned, e.failedAt), Enter(c, b, e))
  {
    FreeIff(c, b, e.now);
    BackoffSaturates(c, |b.failures| + 1);
  }

  lemma KeptEnd(c: Config, w: World, b: Book, e: Event)
    requires Kept(c, w, b) && e.FetchEnded?
    ensures Kept(c, Step(c, w, e), Enter(c, b, e))
  {
    BackoffSaturates(c, |b.failures| + 1);
  }

  /**
   * A pass of `get` waits on a fetch until `wait` after it started and no longer, hands out the key that came, asks
   * exactly when a fetch may start, and otherwise says that it is too soon.
   */
  lemma PassTells(c: Config, b: Book, now: nat)
    requires !(b.asking.Some? && b.key.Some?)
    ensures PassOf(c, StateOf(c, b), now) ==
      if b.asking.Some? && now < b.asking.value + c.wait then WaitUntil(b.asking.value + c.wait)
      else if b.asking.Some? then Overdue
      else if b.key.Some? then Pass.Key(b.key.value)
      else if Free(c, b, now) then AskFirst
      else TooSoon
  {
  }

  lemma KeptStep(c: Config, w: World, b: Book, e: Event)
    requires Kept(c, w, b)
    ensures Kept(c, Step(c, w, e), Enter(c, b, e))
  {
    if e.FetchEnded? {
      KeptEnd(c, w, b, e);
    } else {
      KeptStart(c, w, b, e);
      PassTells(c, b, e.now);
    }
  }

  /**
   * In every interleaving the cell is exactly what its events come to: a fetch starts exactly when none is under way,
   * no key has come and the pause is over; the key is the first one a fetch brought; every key handed out is that key.
   */
  lemma {:induction false} CellIsBooked(c: Config, h: seq<Event>)
    ensures Kept(c, Run(c, h), Books(c, h))
  {
    if h != [] {
      CellIsBooked(c, h[..|h| - 1]);
      KeptStep(c, Run(c, h[..|h| - 1]), Books(c, h[..|h| - 1]), h[|h| - 1]);
    }
  }

  /** A key that is ready or handed out was brought by a fetch of this run. */
  lemma {:induction false} KeyWasFetched(c: Config, h: seq<Event>) returns (m: nat)
    requires Books(c, h).key.Some?
    ensures m < |h| && h[m].FetchEnded? && h[m].answer == Books(c, h).key && Books(c, h[..m]).asking.Some?
  {
    var n := |h| - 1;
    m := n;
    if Books(c, h[..n]).key == Books(c, h).key {
      m := KeyWasFetched(c, h[..n]);
      assert h[..n][..m] == h[..m];
    }
  }

  lemma RunStep(c: Config, h: seq<Event>, n: nat)
    requires n < |h|
    ensures Run(c, h[..n + 1]) == Step(c, Run(c, h[..n]), h[n])
  {
    assert h[..n + 1][..n] == h[..n];
  }

  /** One event on the cell, with the fetches under way and the keys handed out. */
  method Dispatch(cell: KeyCell, e: Event, outstanding: nat, handed: seq<Key>, ghost w: World)
    returns (outstanding': nat, handed': seq<Key>)
    requires w.state == cell.state && w.outstanding == outstanding && w.handed == handed
    modifies cell`state
    ensures var v := Step(cell.config, w, e); cell.state == v.state && outstanding' == v.outstanding && handed' == v.handed
  {
    outstanding', handed' := outstanding, handed;
    match e {
      case Asked(now, since, spawned, failedAt) =>
        var started := cell.Ask(now, since, spawned, failedAt);
        outstanding' := if started then outstanding + 1 else outstanding;
      case FetchEnded(answer, now) =>
        if outstanding > 0 {
          cell.Answered(answer, now);
          outstanding' := outstanding - 1;
        }
      case GetPassed(now, since, spawned, failedAt) =>
        var pass, started := cell.GetPass(now, since, spawned, failedAt);
        outstanding' := if started then outstanding + 1 else outstanding;
        handed' := if pass.Key? then handed + [pass.key] else handed;
    }
  }

  /**
   * A new cell driven through any interleaving: at most one fetch is under way, exactly while the cell is asking, and
   * all the keys it handed out are one key.
   */
  method DriveCell(c: Config, h: seq<Event>) returns (state: KeyState, outstanding: nat, handed: seq<Key>)
    requires forall i :: 0 <= i < |h| ==> ClockInOrder(h[i])
    ensures state == Run(c, h).state && outstanding == Run(c, h).outstanding && handed == Run(c, h).handed
    ensures outstanding == (if state.Asking? then 1 else 0)
    ensures forall i, j :: 0 <= i < |handed| && 0 <= j < |handed| ==> handed[i] == handed[j]
  {
    var cell := new KeyCell(c);
    outstanding, handed := 0, [];
    for n := 0 to |h|
      invariant fresh(cell) && cell.config == c && cell.state == Run(c, h[..n]).state
      invariant outstanding == Run(c, h[..n]).outstanding && handed == Run(c, h[..n]).handed
    {
      outstanding, handed := Dispatch(cell, h[n], outstanding, handed, Run(c, h[..n]));
      RunStep(c, h, n);
    }
    assert h[..|h|] == h;
    state := cell.state;
    AskedOneAtATime(c, h);
  }
}
