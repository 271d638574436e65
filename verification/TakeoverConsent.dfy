/** What permits every native arm call of a takeover: the facts of its effect run, and the consent behind its target. */
module TakeoverConsent {
  import opened Prelude
  import opened Takeover

  // ---- the reducer, field by field -----------------------------------------------------------------

  /** The action carries the current generation, where it carries one. */
  predicate Current(s: Attempt, a: Action) {
    a.TargetConfirmed? || a.RequestEnqueued? || a.AutoArmRetryable? ==> a.generation == s.generation
  }

  /** The one retry of an attempt that holds no target, from a media revision a JavaScript number can carry. */
  predicate Retries(s: Attempt, a: Action) {
    a.AutoArmRetryable? && Current(s, a) && s.target.None? && s.retryCount == 0 && 0 <= a.armStartRevision <= MAX_SAFE_INTEGER
  }

  predicate Publishes(s: Attempt, a: Action) {
    a.LeasePublished? && (s.target.Some? || s.requestPending)
  }

  /** A reset or a published lease fences all earlier actions; only a reset or an arm call gives up the target. */
  lemma ReducesExactly(s: Attempt, a: Action)
    ensures var r := Reduce(s, a);
      && r.generation == (if Resets(a) || Publishes(s, a) then s.generation + 1 else s.generation)
      && r.target == (if Resets(a) || a.AutoArmStarted? then None
                      else if (a.TargetConfirmed? && Current(s, a)) || Retries(s, a) then Some(a.target) else s.target)
      && r.requestPending == (if a.RequestEnqueued? && Current(s, a) then true
                              else s.requestPending && !Resets(a) && !a.LeasePublished? && !a.AutoArmStarted? && !Retries(s, a))
      && r.requiresConnected == (Retries(s, a) || (s.requiresConnected && !Resets(a) && !a.AutoArmStarted?))
      && r.retryCount == (if Resets(a) then 0 else if Retries(s, a) then 1 else s.retryCount)
      && r.retryAfterRevision == (if Resets(a) || a.AutoArmStarted? then None
                                  else if Retries(s, a) then Some(a.armStartRevision) else s.retryAfterRevision)
  {
  }

  // ---- the effect ------------------------------------------------------------------------------------

  /** An active talk takeover lease of the target's call and device, newer than what was confirmed. */
  predicate LeaseFits(t: Target, l: Lease) {
    l.mode == TakeoverMode && l.phase == ActivePhase && l.talk && LeaseOf(t, l)
  }

  predicate LeaseOf(t: Target, l: Lease) {
    && l.appId == t.appId && l.callId == t.callId && l.callEpoch == t.callEpoch && l.deviceId == t.targetDeviceId
    && l.ownerEpoch > t.ownerEpoch
  }

  predicate MediaFits(m: Media) {
    && m.remoteAudioReady && !m.microphoneActive
    && m.phase in {Connected, RemoteAudioReady, MicrophoneArmed, MicrophoneDisarmed, AnswerApplied}
  }

  /** Two confirmed targets count as the same exactly when all their fences agree and their grants do up to order. */
  lemma SameTargetIff(l: Target, r: Target)
    ensures TargetsEqual(Some(l), Some(r)) <==>
      && l.appId == r.appId && l.callId == r.callId && l.callEpoch == r.callEpoch && l.ownerEpoch == r.ownerEpoch
      && l.switchboardRevision == r.switchboardRevision && l.remoteRevision == r.remoteRevision
      && l.targetDeviceId == r.targetDeviceId && l.policyId == r.policyId && l.policyVersion == r.policyVersion
      && |l.requiredGrants| == |r.requiredGrants| && forall g :: g in l.requiredGrants ==> g in r.requiredGrants
  {
    if l == r {
      assert forall i :: 0 <= i < |l.requiredGrants| ==> l.requiredGrants[i] in r.requiredGrants;
    }
  }

  /** The effect runs for a render that is not stale: same generation, same confirmed call. */
  predicate Fresh(x: App) {
    x.rendered.generation == x.attempt.generation && TargetsEqual(x.attempt.target, x.rendered.target)
  }

  /** Everything an effect run needs to arm the microphone. */
  predicate MayArm(x: App, v: View) {
    && Fresh(x) && v.snapshotCurrent && v.exactActiveSession && x.attempt.target.Some? && v.lease.Some? && v.media.Some?
    && LeaseFits(x.attempt.target.value, v.lease.value) && MediaFits(v.media.value)
    && v.media.value.session !in x.attempted
    && (x.attempt.requiresConnected ==> v.media.value.phase != AnswerApplied)
    && (x.attempt.retryAfterRevision.Some? ==> v.mediaRevision > x.attempt.retryAfterRevision.value)
  }

  /** The microphone is on already: the confirmation is spent without a call. */
  predicate AlreadyOn(x: App, v: View) {
    && Fresh(x) && v.snapshotCurrent && v.exactActiveSession && x.attempt.target.Some? && v.lease.Some? && v.media.Some?
    && LeaseOf(x.attempt.target.value, v.lease.value) && v.media.value.microphoneActive
  }

  function Spent(s: Attempt): Attempt {
    s.(target := None, requestPending := false, requiresConnected := false, retryAfterRevision := None)
  }

  /** What one arm call leaves: the confirmation spent, the session marked, the call recorded and unsettled. */
  function Armed(x: App, v: View): App
    requires MayArm(x, v)
  {
    var media, s := v.media.value, x.attempt;
    x.(attempt := Spent(s), attempted := x.attempted + {media.session},
       inFlight := x.inFlight + [InFlight(s.generation, s.target.value, media.session, v.mediaRevision, s.retryCount, x.era, |x.calls|)],
       calls := x.calls + [ArmCall(s.generation, v.mediaRevision, media.phase, s.retryCount)])
  }

  /** An effect run arms the microphone exactly when all of it holds, and otherwise at most spends the confirmation. */
  lemma ArmsExactly(x: App, v: View)
    ensures RunEffect(x, v).calls != x.calls <==> MayArm(x, v)
    ensures RunEffect(x, v) ==
      if MayArm(x, v) then Armed(x, v) else if AlreadyOn(x, v) then x.(attempt := Spent(x.attempt)) else x
  {
  }

  // ---- rejections ---------------------------------------------------------------------------------------

  /** The unsettled call that a rejection is about, if its generation is still current. */
  function RejectedCall(x: App, e: Event): Option<InFlight> {
    if e.ArmRejected? && e.index < |x.inFlight| && x.inFlight[e.index].generation == x.attempt.generation
    then Some(x.inFlight[e.index]) else None
  }

  /** The rejection may be retried: it was retryable and its call was not itself a retry. */
  predicate MayRetry(x: App, e: Event) {
    RejectedCall(x, e).Some? && e.retryable && RejectedCall(x, e).value.retryCount == 0
  }

  /** Every attempted session is forgotten. */
  predicate ForgetsAll(x: App, e: Event) {
    e == Dispatched(FailedOrIdle) || (RejectedCall(x, e).Some? && !MayRetry(x, e))
  }

  /** The session may be tried again. */
  predicate Forgets(x: App, e: Event, session: string) {
    ForgetsAll(x, e) || (RejectedCall(x, e).Some? && RejectedCall(x, e).value.key == session)
  }

  /** A current rejection is retried, or ends the attempt; a stale one only settles its call. */
  lemma RejectsExactly(x: App, e: Event)
    requires e.ArmRejected? && e.index < |x.inFlight|
    ensures Step(x, e).inFlight == Without(x.inFlight, e.index)
    ensures Step(x, e).attempt ==
      if RejectedCall(x, e).None? then x.attempt
      else if MayRetry(x, e) then
        var f := RejectedCall(x, e).value; Reduce(x.attempt, AutoArmRetryable(f.generation, f.target, f.startRevision))
      else INITIAL.(generation := x.attempt.generation + 1)
  {
  }

  /** The event arms the microphone in `session`. */
  predicate ArmsIn(x: App, e: Event, session: string) {
    e.EffectRan? && MayArm(x, e.view) && e.view.media.value.session == session
  }

  lemma AttemptedStep(x: App, e: Event, session: string)
    ensures session in Step(x, e).attempted <==> ArmsIn(x, e, session) || (session in x.attempted && !Forgets(x, e, session))
  {
    if e.EffectRan? {
      ArmsExactly(x, e.view);
    }
  }

  // ---- in the events of a run -----------------------------------------------------------------------------

  ghost predicate ArmedIn(h: seq<Event>, j: nat, session: string) {
    j < |h| && ArmsIn(Run(h[..j]), h[j], session)
  }

  ghost predicate ForgottenAt(h: seq<Event>, i: nat, session: string) {
    i < |h| && Forgets(Run(h[..i]), h[i], session)
  }

  /** The session was armed by event `j` and not forgotten by any event since, before event `n`. */
  ghost predicate TriedAt(h: seq<Event>, j: nat, n: nat, session: string) {
    j < n && ArmedIn(h, j, session) && forall i | j < i < n :: !ForgottenAt(h, i, session)
  }

  ghost predicate Tried(h: seq<Event>, n: nat, session: string) {
    exists j :: TriedAt(h, j, n, session)
  }

  lemma {:induction false} TriedNext(h: seq<Event>, n: nat, session: string)
    requires n < |h|
    ensures Tried(h, n + 1, session) <==> ArmedIn(h, n, session) || (Tried(h, n, session) && !ForgottenAt(h, n, session))
  {
    if Tried(h, n + 1, session) {
      var j: nat :| TriedAt(h, j, n + 1, session);
      if j < n {
        assert !ForgottenAt(h, n, session) && TriedAt(h, j, n, session);
      }
    }
    if ArmedIn(h, n, session) {
      assert TriedAt(h, n, n + 1, session);
    } else if Tried(h, n, session) && !ForgottenAt(h, n, session) {
      var j: nat :| TriedAt(h, j, n, session);
      assert TriedAt(h, j, n + 1, session);
    }
  }

  /** A session is marked as attempted exactly while an arm call in it has not been forgotten. */
  lemma {:induction false} AttemptedIffTried(h: seq<Event>, n: nat, session: string)
    requires n <= |h|
    ensures session in Run(h[..n]).attempted <==> Tried(h, n, session)
  {
    if n > 0 {
      AttemptedIffTried(h, n - 1, session);
      RunStep(h, n - 1);
      AttemptedStep(Run(h[..n - 1]), h[n - 1], session);
      TriedNext(h, n - 1, session);
    }
  }

  // ---- the consent behind a target ---------------------------------------------------------------------------

  /** Event `j` confirmed target `t` in the generation then current, in the era in which event `n` finds the app. */
  ghost predicate ConfirmedAt(h: seq<Event>, j: nat, n: nat, t: Target) {
    && j < n <= |h| && h[j] == Dispatched(TargetConfirmed(Run(h[..j]).attempt.generation, t))
    && Run(h[..j]).era == Run(h[..n]).era
  }

  ghost predicate Confirmed(h: seq<Event>, n: nat, t: Target) {
    exists j :: ConfirmedAt(h, j, n, t)
  }

  /** Where a held target comes from in one event. */
  predicate TargetFrom(x: App, e: Event, t: Target) {
    || e == Dispatched(TargetConfirmed(x.attempt.generation, t))
    || x.attempt.target == Some(t)
    || (RejectedCall(x, e).Some? && RejectedCall(x, e).value.target == t)
  }

  lemma TargetStep(x: App, e: Event)
    requires External(e)
    ensures Step(x, e).attempt.target.Some? ==>
      Step(x, e).era == x.era && TargetFrom(x, e, Step(x, e).attempt.target.value)
  {
    match e {
      case Dispatched(a) => ReducesExactly(x.attempt, a);
      case Rendered =>
      case EffectRan(v) => ArmsExactly(x, v);
      case ArmRejected(index, _) => if index < |x.inFlight| { RejectsExactly(x, e); }
      case ArmSettled(_) =>
    }
  }

  lemma FlightStep(x: App, e: Event, f: InFlight)
    requires f in Step(x, e).inFlight
    ensures f in x.inFlight || (f.era == x.era == Step(x, e).era && x.attempt.target == Some(f.target))
  {
    if e.EffectRan? {
      ArmsExactly(x, e.view);
    }
  }

  /** Held and unsettled targets of the era were all confirmed in it. */
  ghost predicate Consented(h: seq<Event>, n: nat)
    requires n <= |h|
  {
    && (Run(h[..n]).attempt.target.Some? ==> Confirmed(h, n, Run(h[..n]).attempt.target.value))
    && (forall f | f in Run(h[..n]).inFlight && f.era == Run(h[..n]).era :: Confirmed(h, n, f.target))
  }

  lemma {:induction false} ConfirmedStays(h: seq<Event>, n: nat, t: Target)
    requires n < |h| && Confirmed(h, n, t) && Run(h[..n + 1]).era == Run(h[..n]).era
    ensures Confirmed(h, n + 1, t)
  {
    var j: nat :| ConfirmedAt(h, j, n, t);
    assert ConfirmedAt(h, j, n + 1, t);
  }

  lemma {:induction false} TargetConsented(h: seq<Event>, n: nat)
    requires n < |h| && AllExternal(h) && Consented(h, n)
    ensures Run(h[..n + 1]).attempt.target.Some? ==> Confirmed(h, n + 1, Run(h[..n + 1]).attempt.target.value)
  {
    var x := Run(h[..n]);
    RunStep(h, n);
    TargetStep(x, h[n]);
    if Run(h[..n + 1]).attempt.target.Some? {
      var t := Run(h[..n + 1]).attempt.target.value;
      if h[n] == Dispatched(TargetConfirmed(x.attempt.generation, t)) {
        assert ConfirmedAt(h, n, n + 1, t);
      } else {
        if x.attempt.target != Some(t) {
          EveryAppIsFine(h[..n]);
          assert FlightFenced(x, x.inFlight[h[n].index]);
        }
        ConfirmedStays(h, n, t);
      }
    }
  }

  lemma {:induction false} FlightConsented(h: seq<Event>, n: nat, f: InFlight)
    requires n < |h| && AllExternal(h) && Consented(h, n)
    requires f in Run(h[..n + 1]).inFlight && f.era == Run(h[..n + 1]).era
    ensures Confirmed(h, n + 1, f.target)
  {
    var x := Run(h[..n]);
    RunStep(h, n);
    FlightStep(x, h[n], f);
    EraStep(x, h[n]);
    EveryAppIsFine(h[..n]);
    if f in x.inFlight {
      var i :| 0 <= i < |x.inFlight| && x.inFlight[i] == f;
      assert FlightFenced(x, x.inFlight[i]);
    }
    ConfirmedStays(h, n, f.target);
  }

  lemma {:induction false} EveryTargetIsConsented(h: seq<Event>, n: nat)
    requires n <= |h| && AllExternal(h)
    ensures Consented(h, n)
  {
    if n > 0 {
      EveryTargetIsConsented(h, n - 1);
      TargetConsented(h, n - 1);
      forall f | f in Run(h[..n]).inFlight && f.era == Run(h[..n]).era
        ensures Confirmed(h, n, f.target)
      {
        FlightConsented(h, n - 1, f);
      }
    }
  }

  // ---- what was rendered ---------------------------------------------------------------------------------------

  /** Event `m` is the last render among the first `n` events. */
  predicate LastRender(h: seq<Event>, m: nat, n: nat) {
    m < n <= |h| && h[m].Rendered? && forall k | m < k < n :: !h[k].Rendered?
  }

  lemma RenderStep(x: App, e: Event)
    ensures Step(x, e).rendered == if e.Rendered? then x.attempt else x.rendered
  {
    if e.EffectRan? {
      ArmsExactly(x, e.view);
    }
  }

  /** An effect always compares with the attempt of the last render. */
  lemma {:induction false} RenderedIsLast(h: seq<Event>, m: nat, n: nat)
    requires LastRender(h, m, n)
    ensures Run(h[..n]).rendered == Run(h[..m]).attempt
    decreases n
  {
    RunStep(h, n - 1);
    RenderStep(Run(h[..n - 1]), h[n - 1]);
    if m < n - 1 {
      RenderedIsLast(h, m, n - 1);
    }
  }

  /**
   * Every native arm call: the effect run that made it had a current snapshot, the exact active session, a fitting
   * active lease, ready and unarmed media and an unstale render; its session had no unforgotten arm call; and its
   * target was confirmed by an event of the same era. An effect run with all of this arms (`ArmsExactly`).
   */
  lemma {:induction false} EveryCallIsPermitted(h: seq<Event>, m: nat, k: nat) returns (confirmed: nat)
    requires AllExternal(h) && CallMadeAt(h, m, k)
    ensures MayArm(Run(h[..m]), h[m].view)
    ensures !Tried(h, m, h[m].view.media.value.session)
    ensures ConfirmedAt(h, confirmed, m, Run(h[..m]).attempt.target.value)
  {
    RunStep(h, m);
    ArmsExactly(Run(h[..m]), h[m].view);
    AttemptedIffTried(h, m, h[m].view.media.value.session);
    EveryTargetIsConsented(h, m);
    confirmed :| ConfirmedAt(h, confirmed, m, Run(h[..m]).attempt.target.value);
  }
}
