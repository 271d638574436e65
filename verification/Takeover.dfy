/** The Companion's confirmed takeover: a pure attempt reducer and the effect that turns one confirmation into arming. */
module Takeover {
  import opened Prelude

  datatype Grant = StateRead | RtcSignal | TakeoverGrant | ResumeAokie | Monitor | Consult

  datatype Target = Target(
    appId: string, callId: string, callEpoch: nat, ownerEpoch: nat, switchboardRevision: nat, remoteRevision: nat,
    targetDeviceId: string, policyId: string, policyVersion: nat, requiredGrants: seq<Grant>)

  datatype Attempt = Attempt(
    generation: nat,
    target: Option<Target>,
    requestPending: bool,
    requiresConnected: bool,
    retryCount: nat,
    retryAfterRevision: Option<nat>)

  const INITIAL := Attempt(0, None, false, false, 0, None)

  datatype Action =
    | Begin
    | TargetConfirmed(generation: nat, target: Target)
    | RequestEnqueued(generation: nat)
    | LeasePublished
    | FailedOrIdle
    | AutoArmStarted
    | AutoArmRetryable(generation: nat, target: Target, armStartRevision: int)
    | WorkspaceNavigation

  function Reduce(s: Attempt, a: Action): Attempt {
    match a
    case WorkspaceNavigation => s
    case Begin => INITIAL.(generation := s.generation + 1)
    case TargetConfirmed(generation, target) => if generation == s.generation then s.(target := Some(target)) else s
    case RequestEnqueued(generation) => if generation == s.generation then s.(requestPending := true) else s
    case LeasePublished =>
      if s.target.None? && !s.requestPending then s
      else s.(generation := s.generation + 1, requestPending := false)
    case AutoArmStarted =>
      s.(target := None, requestPending := false, requiresConnected := false, retryAfterRevision := None)
    case AutoArmRetryable(generation, target, revision) =>
      if generation != s.generation || s.target.Some? || s.retryCount >= 1 || !(0 <= revision <= MAX_SAFE_INTEGER) then s
      else s.(target := Some(target), requestPending := false, requiresConnected := true,
              retryCount := s.retryCount + 1, retryAfterRevision := Some(revision))
    case FailedOrIdle => INITIAL.(generation := s.generation + 1)
  }

  /** The same confirmed call fence, whatever order its grants are listed in. */
  predicate TargetsEqual(l: Option<Target>, r: Option<Target>) {
    l == r ||
    (&& l.Some? && r.Some?
     && l.value.(requiredGrants := []) == r.value.(requiredGrants := [])
     && |l.value.requiredGrants| == |r.value.requiredGrants|
     && forall i :: 0 <= i < |l.value.requiredGrants| ==> l.value.requiredGrants[i] in r.value.requiredGrants)
  }

  /** The attempt an effect may act on: the current one, if the render it runs for is not stale. */
  function CurrentAttempt(rendered: Attempt, current: Attempt): Option<Attempt> {
    if current.generation == rendered.generation && TargetsEqual(current.target, rendered.target) then Some(current)
    else None
  }

  datatype LeaseMode = TakeoverMode | OtherMode
  datatype LeasePhase = PreparedPhase | ActivePhase | OtherPhase

  datatype Lease = Lease(
    mode: LeaseMode, phase: LeasePhase, appId: string, callId: string, callEpoch: nat, ownerEpoch: nat,
    deviceId: string, talk: bool)

  datatype MediaPhase = Connected | RemoteAudioReady | MicrophoneArmed | MicrophoneDisarmed | AnswerApplied | OtherMediaPhase

  datatype Media = Media(phase: MediaPhase, remoteAudioReady: bool, microphoneActive: bool, session: string)

  predicate Armable(p: MediaPhase) {
    !p.OtherMediaPhase?
  }

  predicate ConnectedPhase(p: MediaPhase) {
    Armable(p) && !p.AnswerApplied?
  }

  predicate MatchesLease(target: Target, lease: Lease) {
    && lease.appId == target.appId && lease.callId == target.callId && lease.callEpoch == target.callEpoch
    && lease.deviceId == target.targetDeviceId && lease.ownerEpoch > target.ownerEpoch
  }

  predicate ShouldAutoArm(target: Target, lease: Lease, media: Media, exactActiveSession: bool, alreadyAttempted: bool,
                          requiresConnected: bool, mediaRevision: nat, retryAfter: Option<nat>)
  {
    && !alreadyAttempted && exactActiveSession && MatchesLease(target, lease)
    && lease.mode.TakeoverMode? && lease.phase.ActivePhase? && lease.talk
    && media.remoteAudioReady && !media.microphoneActive && Armable(media.phase)
    && (requiresConnected ==> ConnectedPhase(media.phase))
    && (retryAfter.Some? ==> mediaRevision > retryAfter.value)
  }

  // ---- the component as a step system ---------------------------------------------------------

  /** What one effect run sees: the render it belongs to, and the facts checked outside this model. */
  datatype View = View(
    lease: Option<Lease>, media: Option<Media>, mediaRevision: nat, snapshotCurrent: bool, exactActiveSession: bool)

  /**
   * A native arm call still unsettled: what the effect captured when it made it, and (for the trace) the era and the
   * position it was made in.
   */
  datatype InFlight = InFlight(
    generation: nat, target: Target, key: string, startRevision: nat, retryCount: nat, era: nat, position: nat)

  /** A native arm call made: attempt generation, media revision and phase it was made at, and retries before it. */
  datatype ArmCall = ArmCall(generation: nat, revision: nat, phase: MediaPhase, retryCount: nat)

  /**
   * The refs and state the effect works on. For the trace: `era` numbers the resets (begin or failed_or_idle), and
   * since the last of them `confirmations` counts the confirmations applied, `calls` lists the arm calls made and
   * `retriedFrom` is the rejected call that earned the retry.
   */
  datatype App = App(
    attempt: Attempt,
    rendered: Attempt,
    attempted: set<string>,
    inFlight: seq<InFlight>,
    era: nat,
    confirmations: nat,
    calls: seq<ArmCall>,
    retriedFrom: Option<InFlight>)

  const FIRST := App(INITIAL, INITIAL, {}, [], 0, 0, [], None)

  datatype Event =
    | Dispatched(action: Action)
    | Rendered
    | EffectRan(view: View)
    | ArmRejected(index: nat, retryable: bool)
    | ArmSettled(index: nat)

  predicate Resets(a: Action) {
    a.Begin? || a.FailedOrIdle?
  }

  /** `transitionV2TakeoverAttempt`; the callers of a reset also forget the attempted sessions, except `begin`. */
  function Transition(x: App, a: Action): App {
    var next := Reduce(x.attempt, a);
    x.(attempt := next,
       attempted := if a.FailedOrIdle? then {} else x.attempted,
       era := if Resets(a) then x.era + 1 else x.era,
       confirmations := if Resets(a) then 0
                        else if a.TargetConfirmed? && a.generation == x.attempt.generation then x.confirmations + 1
                        else x.confirmations,
       calls := if Resets(a) then [] else x.calls,
       retriedFrom := if Resets(a) then None else x.retriedFrom)
  }

  function RunEffect(x: App, v: View): App {
    var fenced := CurrentAttempt(x.rendered, x.attempt);
    if fenced.None? || fenced.value.target.None? || v.lease.None? || v.media.None? || !v.snapshotCurrent then x
    else
      var attempt, target, lease, media := fenced.value, fenced.value.target.value, v.lease.value, v.media.value;
      if MatchesLease(target, lease) && v.exactActiveSession && media.microphoneActive then Transition(x, AutoArmStarted)
      else if !ShouldAutoArm(target, lease, media, v.exactActiveSession, media.session in x.attempted,
                             attempt.requiresConnected, v.mediaRevision, attempt.retryAfterRevision) then x
      else
        var consumed := Transition(x.(attempted := x.attempted + {media.session}), AutoArmStarted);
        consumed.(inFlight := x.inFlight + [InFlight(attempt.generation, target, media.session, v.mediaRevision,
                                                     attempt.retryCount, x.era, |x.calls|)],
                  calls := x.calls + [ArmCall(attempt.generation, v.mediaRevision, media.phase, attempt.retryCount)])
  }

  function Without(s: seq<InFlight>, i: nat): seq<InFlight>
    requires i < |s|
  {
    s[..i] + s[i + 1..]
  }

  function OnReject(x: App, index: nat, retryable: bool): App {
    if index >= |x.inFlight| then x
    else
      var call := x.inFlight[index];
      var settled := x.(inFlight := Without(x.inFlight, index));
      if x.attempt.generation != call.generation then settled
      else
        var forgot := settled.(attempted := x.attempted - {call.key});
        if retryable && call.retryCount < 1 then
          var next := Transition(forgot, AutoArmRetryable(call.generation, call.target, call.startRevision));
          if next.attempt != x.attempt then next.(retriedFrom := Some(call)) else next
        else Transition(forgot, FailedOrIdle)
  }

  function Step(x: App, e: Event): App {
    match e
    case Dispatched(a) => Transition(x, a)
    case Rendered => x.(rendered := x.attempt)
    case EffectRan(v) => RunEffect(x, v)
    case ArmRejected(index, retryable) => OnReject(x, index, retryable)
    case ArmSettled(index) => if index < |x.inFlight| then x.(inFlight := Without(x.inFlight, index)) else x
  }

  /** The effect and the rejection handler are the only senders of the arm actions. */
  predicate External(e: Event) {
    e.Dispatched? ==> !e.action.AutoArmStarted? && !e.action.AutoArmRetryable?
  }

  predicate AllExternal(h: seq<Event>) {
    forall i :: 0 <= i < |h| ==> External(h[i])
  }

  function Run(h: seq<Event>): App {
    if h == [] then FIRST else Step(Run(h[..|h| - 1]), h[|h| - 1])
  }

  lemma RunStep(h: seq<Event>, n: nat)
    requires n < |h|
    ensures Run(h[..n + 1]) == Step(Run(h[..n]), h[n])
  {
    assert h[..n + 1][..n] == h[..n];
  }

  // ---- stale actions ------------------------------------------------------------------------------

  /** An action carrying another generation than the current one changes nothing, and generations never go back. */
  lemma StaleActionsChangeNothing(s: Attempt, a: Action)
    ensures (a.TargetConfirmed? || a.RequestEnqueued? || a.AutoArmRetryable?) && a.generation != s.generation ==>
      Reduce(s, a) == s
    ensures s.generation <= Reduce(s, a).generation
    ensures Resets(a) ==> Reduce(s, a) == INITIAL.(generation := s.generation + 1)
  {
  }

  // ---- how often one confirmation arms the microphone -----------------------------------------------

  function One(yes: bool): nat {
    if yes then 1 else 0
  }

  /** The unsettled call is the recorded one of its position in this era. */
  predicate Recorded(x: App, f: InFlight) {
    && f.position < |x.calls| && x.calls[f.position].generation == f.generation
    && x.calls[f.position].revision == f.startRevision && x.calls[f.position].retryCount == f.retryCount
  }

  /** Unsettled calls of earlier eras carry older generations, so their rejections are ignored. */
  ghost predicate FlightsFenced(x: App) {
    forall i | 0 <= i < |x.inFlight| :: FlightFenced(x, x.inFlight[i])
  }

  predicate FlightFenced(x: App, f: InFlight) {
    && f.era <= x.era
    && (f.era < x.era ==> f.generation < x.attempt.generation)
    && (f.era == x.era ==> f.generation <= x.attempt.generation && Recorded(x, f))
  }

  /** Arm calls, plus the one a held target can still cause, are paid for by confirmations and the one retry. */
  predicate Budgeted(x: App) {
    && x.attempt.retryCount <= 1
    && |x.calls| + One(x.attempt.target.Some?) <= x.confirmations + x.attempt.retryCount
    && (x.calls != [] || x.attempt.target.Some? || x.attempt.retryCount == 1 ==> x.confirmations >= 1)
    && (x.attempt.retryCount == 1 ==>
          x.retriedFrom.Some? && Recorded(x, x.retriedFrom.value) && x.retriedFrom.value.retryCount == 0)
  }

  /** The second call of a confirmation is the retry of the first, on newer media and in a connected phase. */
  predicate SecondCallEarned(x: App) {
    && |x.calls| == 2 && x.attempt.retryCount == 1 && x.retriedFrom.Some?
    && x.calls[0].retryCount == 0 && x.calls[1].retryCount == 1
    && x.retriedFrom.value.generation == x.calls[0].generation && x.retriedFrom.value.startRevision == x.calls[0].revision
    && x.calls[1].revision > x.calls[0].revision && ConnectedPhase(x.calls[1].phase)
  }

  predicate Earned(x: App) {
    x.confirmations <= 1 ==>
      && (x.attempt.retryCount == 1 && x.attempt.target.Some? ==>
            && x.attempt.requiresConnected && x.retriedFrom.Some?
            && x.attempt.retryAfterRevision == Some(x.retriedFrom.value.startRevision))
      && (|x.calls| == 2 ==> SecondCallEarned(x))
  }

  ghost predicate Fine(x: App) {
    FlightsFenced(x) && Budgeted(x) && Earned(x)
  }

  lemma FineTransition(x: App, a: Action)
    requires Fine(x) && !a.AutoArmRetryable?
    ensures Fine(Transition(x, a))
  {
    var y := Transition(x, a);
    forall i | 0 <= i < |y.inFlight|
      ensures FlightFenced(y, y.inFlight[i])
    {
      assert FlightFenced(x, x.inFlight[i]);
    }
  }

  lemma FineEffect(x: App, v: View)
    requires Fine(x)
    ensures Fine(RunEffect(x, v))
  {
    var y := RunEffect(x, v);
    FineTransition(x, AutoArmStarted);
    if y.calls != x.calls {
      assert |y.calls| == |x.calls| + 1 && y.attempt.target.None? && x.attempt.target.Some?;
      forall i | 0 <= i < |y.inFlight|
        ensures FlightFenced(y, y.inFlight[i])
      {
        if i < |x.inFlight| {
          assert FlightFenced(x, x.inFlight[i]);
        }
      }
    }
  }

  lemma FineWithout(x: App, index: nat, attempted: set<string>)
    requires Fine(x) && index < |x.inFlight|
    ensures Fine(x.(inFlight := Without(x.inFlight, index), attempted := attempted))
  {
    var y := x.(inFlight := Without(x.inFlight, index), attempted := attempted);
    forall i | 0 <= i < |y.inFlight|
      ensures FlightFenced(y, y.inFlight[i])
    {
      assert FlightFenced(x, x.inFlight[if i < index then i else i + 1]);
    }
  }

  lemma FineRetry(x: App, call: InFlight)
    requires Fine(x) && FlightFenced(x, call) && call.generation == x.attempt.generation && call.retryCount < 1
    ensures var y := Transition(x, AutoArmRetryable(call.generation, call.target, call.startRevision));
      Fine(if y.attempt != x.attempt then y.(retriedFrom := Some(call)) else y)
  {
    var y := Transition(x, AutoArmRetryable(call.generation, call.target, call.startRevision));
    forall i | 0 <= i < |y.inFlight|
      ensures FlightFenced(y, y.inFlight[i])
    {
      assert FlightFenced(x, x.inFlight[i]);
    }
  }

  lemma FineReject(x: App, index: nat, retryable: bool)
    requires Fine(x)
    ensures Fine(OnReject(x, index, retryable))
  {
    if index < |x.inFlight| {
      var call := x.inFlight[index];
      assert FlightFenced(x, call);
      FineWithout(x, index, x.attempted);
      FineWithout(x, index, x.attempted - {call.key});
      var forgot := x.(inFlight := Without(x.inFlight, index), attempted := x.attempted - {call.key});
      if call.generation == x.attempt.generation {
        if retryable && call.retryCount < 1 {
          FineRetry(forgot, call);
        } else {
          FineTransition(forgot, FailedOrIdle);
        }
      }
    }
  }

  lemma {:induction false} EveryAppIsFine(h: seq<Event>)
    requires AllExternal(h)
    ensures Fine(Run(h))
  {
    if h != [] {
      var x, e := Run(h[..|h| - 1]), h[|h| - 1];
      EveryAppIsFine(h[..|h| - 1]);
      match e {
        case Dispatched(a) => FineTransition(x, a);
        case Rendered =>
        case EffectRan(v) => FineEffect(x, v);
        case ArmRejected(index, retryable) => FineReject(x, index, retryable);
        case ArmSettled(index) => if index < |x.inFlight| { FineWithout(x, index, x.attempted); }
      }
    }
  }

  // ---- the events behind a second call -----------------------------------------------------------

  /** Within an era confirmations and calls only accumulate. */
  predicate SameEra(x: App, y: App) {
    x.era == y.era && x.confirmations <= y.confirmations && x.calls <= y.calls
  }

  /** What one event may do: at most one more call in the era, or a new era with none. */
  predicate EraNext(x: App, y: App) {
    && x.era <= y.era
    && (y.era == x.era ==> SameEra(x, y) && |y.calls| <= |x.calls| + 1)
    && (y.era != x.era ==> y.calls == [] && y.retriedFrom.None?)
  }

  lemma EraStep(x: App, e: Event)
    ensures EraNext(x, Step(x, e))
  {
  }

  /** The states of a run, one after each number of events. */
  ghost function States(h: seq<Event>): (s: seq<App>)
    ensures |s| == |h| + 1
  {
    seq(|h| + 1, n requires 0 <= n <= |h| => Run(h[..n]))
  }

  predicate Eras(s: seq<App>) {
    forall k, l :: 0 <= k < |s| && l == k + 1 < |s| ==> EraNext(s[k], s[l])
  }

  lemma StatesFollow(h: seq<Event>)
    ensures Eras(States(h))
  {
    forall k, l | 0 <= k <= |h| && l == k + 1 <= |h|
      ensures EraNext(States(h)[k], States(h)[l])
    {
      RunStep(h, k);
      EraStep(Run(h[..k]), h[k]);
    }
  }

  lemma {:induction false} EraHolds(s: seq<App>, m: nat, n: nat)
    requires Eras(s) && m <= n < |s|
    ensures s[m].era <= s[n].era && (s[m].era == s[n].era ==> SameEra(s[m], s[n]))
    decreases n
  {
    if m < n {
      EraHolds(s, m, n - 1);
      assert EraNext(s[n - 1], s[n]);
    }
  }

  /** Between states `m` and `m + 1` call `k` of the era was recorded. */
  predicate CallBetween(s: seq<App>, m: nat, k: nat, era: nat) {
    m + 1 < |s| && s[m].era == s[m + 1].era == era && |s[m].calls| == k && |s[m + 1].calls| == k + 1
  }

  /** The step at which call `k` of the era was recorded. */
  lemma {:induction false} RecordedAt(s: seq<App>, n: nat, k: nat) returns (m: nat)
    requires Eras(s) && n < |s| && k < |s[n].calls| && s[0].calls == []
    ensures m < n && CallBetween(s, m, k, s[n].era)
    ensures s[n].calls[k] == s[m + 1].calls[k]
    decreases n
  {
    assert EraNext(s[n - 1], s[n]);
    m := n - 1;
    if k < |s[n - 1].calls| {
      m := RecordedAt(s, n - 1, k);
    }
  }

  /** Event `m` is an effect run that made arm call `k` of the era that `h` ends in, as recorded. */
  ghost predicate CallMadeAt(h: seq<Event>, m: int, k: int) {
    && 0 <= m < |h| && h[m].EffectRan? && h[m].view.media.Some? && 0 <= k < |Run(h).calls|
    && Run(h[..m]).era == Run(h).era && |Run(h[..m]).calls| == k && |Run(h[..m + 1]).calls| == k + 1
    && Run(h).calls[k].revision == h[m].view.mediaRevision && Run(h).calls[k].phase == h[m].view.media.value.phase
    && Run(h).calls[k].generation == Run(h[..m]).attempt.generation
  }

  lemma CallStep(x: App, e: Event)
    requires Step(x, e).calls != x.calls && Step(x, e).era == x.era
    ensures e.EffectRan? && e.view.media.Some? && Step(x, e).calls ==
      x.calls + [ArmCall(x.attempt.generation, e.view.mediaRevision, e.view.media.value.phase, x.attempt.retryCount)]
  {
  }

  /** Every recorded arm call was made by an effect run of this era. */
  lemma {:induction false} CallWasMade(h: seq<Event>, k: nat) returns (m: nat)
    requires k < |Run(h).calls|
    ensures CallMadeAt(h, m, k) && CallBetween(States(h), m, k, Run(h).era)
  {
    assert h[..|h|] == h;
    StatesFollow(h);
    m := RecordedAt(States(h), |h|, k);
    RunStep(h, m);
    CallStep(Run(h[..m]), h[m]);
  }

  /** Event `m` is a retryable rejection, in its own generation, of the unsettled call `f`. */
  ghost predicate RejectedAt(h: seq<Event>, m: int, index: nat, f: InFlight) {
    && 0 <= m < |h| && h[m] == ArmRejected(index, true)
    && index < |Run(h[..m]).inFlight| && Run(h[..m]).inFlight[index] == f
    && f.generation == Run(h[..m]).attempt.generation && f.era == Run(h[..m]).era
  }

  /** What earned a retry was such a rejection. */
  lemma RetryStep(x: App, e: Event)
    requires Step(x, e).retriedFrom != x.retriedFrom && Step(x, e).retriedFrom.Some?
    ensures e.ArmRejected? && e.retryable && e.index < |x.inFlight| && Step(x, e).retriedFrom == Some(x.inFlight[e.index])
    ensures x.inFlight[e.index].generation == x.attempt.generation && Step(x, e).era == x.era
    ensures Step(x, e).attempt.target.Some? && Step(x, e).calls == x.calls && Step(x, e).confirmations == x.confirmations
  {
  }

  /** The step at which the retry in force was earned. */
  lemma {:induction false} EarnedAt(s: seq<App>, n: nat) returns (m: nat)
    requires Eras(s) && n < |s| && s[n].retriedFrom.Some? && s[0].retriedFrom.None?
    ensures m < n && s[m].retriedFrom != s[m + 1].retriedFrom == s[n].retriedFrom && s[m + 1].era == s[n].era
    decreases n
  {
    assert EraNext(s[n - 1], s[n]);
    m := n - 1;
    if s[n].retriedFrom == s[n - 1].retriedFrom {
      m := EarnedAt(s, n - 1);
    }
  }

  lemma {:induction false} RejectionIsFenced(h: seq<Event>, m: nat)
    requires AllExternal(h) && m < |h|
    requires Run(h[..m + 1]).retriedFrom != Run(h[..m]).retriedFrom && Run(h[..m + 1]).retriedFrom.Some?
    ensures h[m].ArmRejected? && RejectedAt(h, m, h[m].index, Run(h[..m + 1]).retriedFrom.value)
    ensures Run(h[..m + 1]).era == Run(h[..m]).era
    ensures Run(h[..m + 1]).attempt.target.Some? && Run(h[..m + 1]).calls == Run(h[..m]).calls
  {
    RunStep(h, m);
    RetryStep(Run(h[..m]), h[m]);
    EveryAppIsFine(h[..m]);
    assert FlightFenced(Run(h[..m]), Run(h[..m]).inFlight[h[m].index]);
  }

  lemma {:induction false} RetryWasRejected(h: seq<Event>) returns (m: nat, index: nat)
    requires AllExternal(h) && Run(h).retriedFrom.Some?
    ensures RejectedAt(h, m, index, Run(h).retriedFrom.value)
    ensures Run(h[..m]).era == Run(h[..m + 1]).era == Run(h).era
    ensures Run(h[..m + 1]).attempt.target.Some? && Run(h[..m + 1]).calls == Run(h[..m]).calls
  {
    assert h[..|h|] == h;
    StatesFollow(h);
    m := EarnedAt(States(h), |h|);
    RejectionIsFenced(h, m);
    index := h[m].index;
  }

  /**
   * In any order of events, since the last begin or reset the microphone was armed at most once more than the
   * operator confirmed: at most twice for the single confirmation of a takeover.
   */
  lemma OneConfirmationArmsAtMostTwice(h: seq<Event>)
    requires AllExternal(h)
    ensures |Run(h).calls| <= Run(h).confirmations + 1
    ensures Run(h).confirmations == 0 ==> Run(h).calls == []
    ensures Run(h).confirmations == 1 ==> |Run(h).calls| <= 2
  {
    EveryAppIsFine(h);
  }

  /** The rejection came after the first call and before the second. */
  lemma {:induction false} RejectedBetween(h: seq<Event>, m: nat)
    requires AllExternal(h) && m < |h| && Run(h).confirmations == 1 && Run(h[..m]).era == Run(h).era
    requires Run(h[..m + 1]).attempt.target.Some? && Run(h[..m + 1]).calls == Run(h[..m]).calls
    requires Run(h[..m]).calls != [] && Run(h[..m + 1]).era == Run(h).era
    ensures |Run(h[..m]).calls| == 1
  {
    assert h[..|h|] == h;
    StatesFollow(h);
    EraHolds(States(h), m + 1, |h|);
    EveryAppIsFine(h[..m + 1]);
  }

  /** Two calls on one confirmation: the second is the retry of the first. */
  lemma RetryOfFirst(x: App)
    requires Fine(x) && x.confirmations == 1 && |x.calls| == 2
    ensures x.retriedFrom.Some? && x.retriedFrom.value.position == 0
    ensures x.retriedFrom.value.generation == x.calls[0].generation && x.retriedFrom.value.startRevision == x.calls[0].revision
    ensures x.calls[1].revision > x.calls[0].revision && ConnectedPhase(x.calls[1].phase)
  {
    assert SecondCallEarned(x);
  }

  /** A rejected call of the era had been recorded. */
  lemma {:induction false} CallsBefore(h: seq<Event>, m: nat, index: nat)
    requires AllExternal(h) && m < |h| && index < |Run(h[..m]).inFlight| && Run(h[..m]).inFlight[index].era == Run(h[..m]).era
    ensures Run(h[..m]).calls != []
  {
    EveryAppIsFine(h[..m]);
    assert FlightFenced(Run(h[..m]), Run(h[..m]).inFlight[index]);
  }

  /**
   * The second arm call for one confirmation, in the events of the run: a first effect run armed at some revision;
   * then that very call was rejected as retryable while its generation was still current; then a second effect run
   * armed on a strictly newer media revision in a connected phase.
   */
  lemma {:induction false} SecondCallFollowsRetryableFailure(h: seq<Event>)
      returns (first: nat, rejected: nat, index: nat, second: nat)
    requires AllExternal(h) && Run(h).confirmations == 1 && |Run(h).calls| == 2
    ensures first < rejected < second < |h| && CallMadeAt(h, first, 0) && CallMadeAt(h, second, 1)
    ensures h[rejected] == ArmRejected(index, true) && index < |Run(h[..rejected]).inFlight|
    ensures var f := Run(h[..rejected]).inFlight[index];
      && f.position == 0 && f.era == Run(h).era && f.startRevision == h[first].view.mediaRevision
      && f.generation == Run(h[..first]).attempt.generation == Run(h[..rejected]).attempt.generation
    ensures h[second].view.mediaRevision > h[first].view.mediaRevision
    ensures ConnectedPhase(h[second].view.media.value.phase)
  {
    EveryAppIsFine(h);
    RetryOfFirst(Run(h));
    first := CallWasMade(h, 0);
    second := CallWasMade(h, 1);
    rejected, index := RetryWasRejected(h);
    CallsBefore(h, rejected, index);
    RejectedBetween(h, rejected);
    StatesFollow(h);
    OrderedCalls(States(h), first, rejected, second);
  }

  /** With one call before and after it, the rejection lies between the two calls. */
  lemma OrderedCalls(s: seq<App>, first: nat, rejected: nat, second: nat)
    requires Eras(s) && rejected + 1 < |s| && |s[rejected].calls| == 1 == |s[rejected + 1].calls|
    requires CallBetween(s, first, 0, s[rejected].era) && CallBetween(s, second, 1, s[rejected].era)
    ensures first < rejected < second
  {
    if rejected <= first {
      EraHolds(s, rejected, first);
    }
    if second < rejected {
      EraHolds(s, second + 1, rejected);
    }
  }

  /** Arming consumes the confirmation: right after an arm call no target is held, so no second one can follow at once. */
  lemma ArmingConsumesConsent(x: App, v: View)
    requires RunEffect(x, v).calls != x.calls
    ensures x.attempt.target.Some? && RunEffect(x, v).attempt.target.None?
    ensures x.rendered.generation == x.attempt.generation && TargetsEqual(x.attempt.target, x.rendered.target)
    ensures forall w: View :: RunEffect(RunEffect(x, v), w) == RunEffect(x, v)
  {
  }

  // ---- the component object ----------------------------------------------------------------------

  /** What the effect's promise handlers close over; the trace adds the era and the position of the call. */
  datatype Captured = Captured(generation: nat, target: Target, key: string, startRevision: nat, retryCount: nat)

  function CapturedBy(f: InFlight): Captured {
    Captured(f.generation, f.target, f.key, f.startRevision, f.retryCount)
  }

  /** The native arm call that event `e` makes, if it makes one. */
  function Arms(x: App, e: Event): Option<ArmCall> {
    if e.EffectRan? && RunEffect(x, e.view).calls != x.calls && RunEffect(x, e.view).calls != []
    then Some(RunEffect(x, e.view).calls[|RunEffect(x, e.view).calls| - 1]) else None
  }

  /** The refs of the React component, mutated by its subscription, its effect and its promise handlers. */
  class TakeoverComponent {
    var attempt: Attempt
    var rendered: Attempt
    var attempted: set<string>
    var inFlight: seq<Captured>
    ghost var flights: seq<InFlight>
    ghost var era: nat
    ghost var confirmations: nat
    ghost var calls: seq<ArmCall>
    ghost var retriedFrom: Option<InFlight>

    ghost predicate Valid()
      reads this
    {
      |inFlight| == |flights| && forall i :: 0 <= i < |flights| ==> inFlight[i] == CapturedBy(flights[i])
    }

    ghost function Value(): App
      reads this
    {
      App(attempt, rendered, attempted, flights, era, confirmations, calls, retriedFrom)
    }

    constructor ()
      ensures Valid() && Value() == FIRST
    {
      attempt, rendered, attempted, inFlight := INITIAL, INITIAL, {}, [];
      flights, era, confirmations, calls, retriedFrom := [], 0, 0, [], None;
    }

    method Apply(a: Action)
      requires Valid()
      modifies this
      ensures Valid() && Value() == Transition(old(Value()), a)
    {
      if Resets(a) {
        era, confirmations, calls, retriedFrom := era + 1, 0, [], None;
      } else if a.TargetConfirmed? && a.generation == attempt.generation {
        confirmations := confirmations + 1;
      }
      attempt := Reduce(attempt, a);
      if a.FailedOrIdle? {
        attempted := {};
      }
    }

    method Render()
      requires Valid()
      modifies this`rendered
      ensures Value() == old(Value()).(rendered := old(attempt))
    {
      rendered := attempt;
    }

    method Effect(v: View) returns (armed: Option<ArmCall>)
      requires Valid()
      modifies this
      ensures Valid() && Value() == RunEffect(old(Value()), v) && armed == Arms(old(Value()), EffectRan(v))
    {
      armed := None;
      var fenced := CurrentAttempt(rendered, attempt);
      if fenced.None? || fenced.value.target.None? || v.lease.None? || v.media.None? || !v.snapshotCurrent {
        return;
      }
      var now, target, media := fenced.value, fenced.value.target.value, v.media.value;
      if MatchesLease(target, v.lease.value) && v.exactActiveSession && media.microphoneActive {
        Apply(AutoArmStarted);
        return;
      }
      if !ShouldAutoArm(target, v.lease.value, media, v.exactActiveSession, media.session in attempted,
                        now.requiresConnected, v.mediaRevision, now.retryAfterRevision) {
        return;
      }
      attempted := attempted + {media.session};
      Apply(AutoArmStarted);
      inFlight := inFlight + [Captured(now.generation, target, media.session, v.mediaRevision, now.retryCount)];
      flights := flights + [InFlight(now.generation, target, media.session, v.mediaRevision, now.retryCount, era, |calls|)];
      armed := Some(ArmCall(now.generation, v.mediaRevision, media.phase, now.retryCount));
      calls := calls + [armed.value];
    }

    /** The promise of unsettled call `index` is settled, either way. */
    method Settle(index: nat)
      requires Valid() && index < |inFlight|
      modifies this`inFlight, this`flights
      ensures Valid() && Value() == old(Value()).(inFlight := Without(old(flights), index))
    {
      inFlight := inFlight[..index] + inFlight[index + 1..];
      flights := Without(flights, index);
    }

    method Rejected(index: nat, retryable: bool)
      requires Valid()
      modifies this
      ensures Valid() && Value() == OnReject(old(Value()), index, retryable)
    {
      if index >= |inFlight| {
        return;
      }
      var call, before := inFlight[index], attempt;
      ghost var flight := flights[index];
      Settle(index);
      if attempt.generation != call.generation {
        return;
      }
      attempted := attempted - {call.key};
      if retryable && call.retryCount < 1 {
        Apply(AutoArmRetryable(call.generation, call.target, call.startRevision));
        if attempt != before {
          retriedFrom := Some(flight);
        }
      } else {
        Apply(FailedOrIdle);
      }
    }

    method Dispatch(e: Event) returns (armed: Option<ArmCall>)
      requires Valid()
      modifies this
      ensures Valid() && Value() == Step(old(Value()), e) && armed == Arms(old(Value()), e)
    {
      armed := None;
      match e {
        case Dispatched(a) => Apply(a);
        case Rendered => Render();
        case EffectRan(v) => armed := Effect(v);
        case ArmRejected(index, retryable) => Rejected(index, retryable);
        case ArmSettled(index) =>
          if index < |inFlight| {
            Settle(index);
          }
      }
    }
  }

  /** Entry `i` is the native call that event `i` made in the state the events before it led to. */
  ghost predicate AllArmed(h: seq<Event>, armed: seq<Option<ArmCall>>) {
    |armed| <= |h| && forall i :: 0 <= i < |armed| ==> armed[i] == Arms(Run(h[..i]), h[i])
  }

  lemma ArmNext(h: seq<Event>, armed: seq<Option<ArmCall>>, call: Option<ArmCall>)
    requires AllArmed(h, armed) && |armed| < |h| && call == Arms(Run(h[..|armed|]), h[|armed|])
    ensures AllArmed(h, armed + [call])
  {
  }

  /** A new component driven through any events: it ends with the modelled refs and makes the modelled native calls. */
  method DriveTakeover(h: seq<Event>) returns (attempt: Attempt, attempted: set<string>, armed: seq<Option<ArmCall>>)
    ensures attempt == Run(h).attempt && attempted == Run(h).attempted && |armed| == |h| && AllArmed(h, armed)
  {
    var component := new TakeoverComponent();
    armed := [];
    for n := 0 to |h|
      invariant fresh(component) && component.Valid() && component.Value() == Run(h[..n])
      invariant |armed| == n && AllArmed(h, armed)
    {
      var call := component.Dispatch(h[n]);
      RunStep(h, n);
      ArmNext(h, armed, call);
      armed := armed + [call];
    }
    assert h[..|h|] == h;
    attempt, attempted := component.attempt, component.attempted;
  }
}
