/**
 * What a delivered frame proves about the history itself: the arm message, the RTP reports and the route calls that
 * stand behind it, each named by its position among the events of the run.
 */
module FrameEvidence {
  import opened Prelude
  import opened SessionBindings
  import opened DesktopPeers
  import Auth = MicrophoneAuthority
  import Codec = AuthorityCodec
  import Rtp = RtpProgress
  import Route = RouteGates
  import Heard = AuthorityHistory

  // ---- the arm message ----------------------------------------------------------------------

  /** Only an arm message for exactly this binding arms the authority, in that message's generation. */
  lemma ArmingNeedsMessage(p: Peer, e: Event)
    ensures var a := Step(p, e).authority;
      a.armed && a != p.authority ==>
        && e.AuthorityMessage? && e.binary
        && Codec.ParsePayload(e.data, p.binding) == Ok(Auth.AuthorityProof(Auth.Arm, a.generation))
  {
    if DrivesGate(e) {
      EvolvesOnGateEvent(p, e);
    }
  }

  ghost predicate ArmReceivedAt(b: SessionBinding, h: seq<Event>, k: nat, generation: nat) {
    && k < |h| && h[k].AuthorityMessage? && h[k].binary
    && Codec.ParsePayload(h[k].data, b) == Ok(Auth.AuthorityProof(Auth.Arm, generation))
  }

  lemma BindingStays(b: SessionBinding, h: seq<Event>, n: nat)
    requires n <= |h|
    ensures Run(b, h[..n]).binding == b
  {
    EveryStateIsSound(b, h, n);
  }

  lemma ArmedNowOrBefore(b: SessionBinding, h: seq<Event>, n: nat)
    requires n < |h| && Run(b, h[..n + 1]).authority.armed
    ensures Run(b, h[..n]).authority == Run(b, h[..n + 1]).authority
            || ArmReceivedAt(b, h, n, Run(b, h[..n + 1]).authority.generation)
  {
    BindingStays(b, h, n);
    ArmingNeedsMessage(Run(b, h[..n]), h[n]);
    RunStep(b, h, n);
  }

  lemma ArmWasReceived(b: SessionBinding, h: seq<Event>, n: nat) returns (k: nat)
    requires n <= |h| && Run(b, h[..n]).authority.armed
    ensures k < n && ArmReceivedAt(b, h, k, Run(b, h[..n]).authority.generation)
  {
    k := 0;
    for m := 0 to n
      invariant Run(b, h[..m]).authority.armed ==> k < m && ArmReceivedAt(b, h, k, Run(b, h[..m]).authority.generation)
    {
      if Run(b, h[..m + 1]).authority.armed {
        ArmedNowOrBefore(b, h, m);
        k := if Run(b, h[..m]).authority == Run(b, h[..m + 1]).authority then k else m;
      }
    }
  }

  // ---- traces that only grow ------------------------------------------------------------------

  /** `s` lists the states of a log, each a prefix of the next. */
  predicate Growing<T(==)>(s: seq<seq<T>>) {
    forall k, l :: 0 <= k < |s| && l == k + 1 < |s| ==> s[k] <= s[l]
  }

  lemma {:induction false} GrowingIsOrdered<T>(s: seq<seq<T>>, m: nat, n: nat)
    requires Growing(s) && m <= n < |s|
    ensures s[m] <= s[n]
    decreases n
  {
    if m < n {
      GrowingIsOrdered(s, m, n - 1);
      assert s[n - 1] <= s[n];
    }
  }

  /** The step at which entry `i` was written. */
  lemma {:induction false} WrittenAt<T>(s: seq<seq<T>>, n: nat, i: nat) returns (m: nat)
    requires Growing(s) && n < |s| && s[0] == [] && i < |s[n]|
    ensures m < n && |s[m]| <= i < |s[m + 1]| && s[m + 1] <= s[n]
    decreases n
  {
    m := n - 1;
    assert s[n - 1] <= s[n];
    if i < |s[n - 1]| {
      m := WrittenAt(s, n - 1, i);
    }
  }

  // ---- gate calls and the events that made them -------------------------------------------------

  /** The gate's own trace after `n` events. */
  function GateTrace(b: SessionBinding, h: seq<Event>, n: nat): seq<Rtp.GateEvent>
    requires n <= |h|
  {
    Run(b, h[..n]).gateTrace
  }

  /** Event `e` of a peer in state `p` is what made gate call `g`. */
  predicate Causes(p: Peer, e: Event, g: Rtp.GateEvent) {
    match g
    case Observed(report, t) => p.phase.Polling? && e == StatsArrived(Some(report), t)
    case Missed => p.phase.Polling? && e.StatsArrived? && e.progress.None?
    case Checked(t) => p.phase.Waiting? && e == FrameArrived(t)
    case Begun(generation) => generation == p.authority.generation && DrivesGate(e) && !e.StatsArrived?
    case Abandoned(_) => e.FrameWaitTimedOut? || e.StatsTimedOut? || e.StreamEnded?
  }

  function Reported(e: Event): Rtp.GateEvent
    requires e.StatsArrived?
  {
    if e.progress.Some? then Rtp.Observed(e.progress.value, e.now) else Rtp.Missed
  }

  /** From `p` to `q` the trace only grew, by calls that event `e` made. */
  ghost predicate CallsOf(p: Peer, e: Event, q: Peer) {
    && p.gateTrace <= q.gateTrace
    && (forall i | |p.gateTrace| <= i < |q.gateTrace| :: Causes(p, e, q.gateTrace[i]))
    && (p.phase.Polling? && e.StatsArrived? ==> q.gateTrace == p.gateTrace + [Reported(e)])
  }

  lemma FrameCalls(p: Peer, now: nat)
    ensures CallsOf(p, FrameArrived(now), Step(p, FrameArrived(now)))
  {
  }

  lemma StatsCalls(p: Peer, progress: Option<Rtp.Progress>, now: nat)
    ensures CallsOf(p, StatsArrived(progress, now), Step(p, StatsArrived(progress, now)))
  {
  }

  lemma TimeoutCalls(p: Peer, e: Event)
    requires e.FrameWaitTimedOut? || e.StatsTimedOut? || e.StreamEnded?
    ensures CallsOf(p, e, Step(p, e))
  {
  }

  lemma StepCalls(p: Peer, e: Event)
    ensures CallsOf(p, e, Step(p, e))
  {
    match e {
      case FrameArrived(now) => FrameCalls(p, now);
      case StatsArrived(progress, now) => StatsCalls(p, progress, now);
      case FrameWaitTimedOut(_) => TimeoutCalls(p, e);
      case StatsTimedOut(_) => TimeoutCalls(p, e);
      case StreamEnded => TimeoutCalls(p, e);
      case _ => EvolvesOnOther(p, e);
    }
  }

  lemma NextCalls(b: SessionBinding, h: seq<Event>, n: nat)
    requires n < |h|
    ensures CallsOf(Run(b, h[..n]), h[n], Run(b, h[..n + 1]))
  {
    RunStep(b, h, n);
    StepCalls(Run(b, h[..n]), h[n]);
  }

  /** The trace after each number of events. */
  ghost function GateTraces(b: SessionBinding, h: seq<Event>): seq<seq<Rtp.GateEvent>> {
    seq(|h| + 1, n requires 0 <= n <= |h| => GateTrace(b, h, n))
  }

  lemma GateTracesGrow(b: SessionBinding, h: seq<Event>)
    ensures Growing(GateTraces(b, h))
  {
    forall k, l | 0 <= k <= |h| && l == k + 1 <= |h|
      ensures GateTraces(b, h)[k] <= GateTraces(b, h)[l]
    {
      NextCalls(b, h, k);
    }
  }

  lemma TraceGrows(b: SessionBinding, h: seq<Event>, m: nat, n: nat)
    requires m <= n <= |h|
    ensures GateTrace(b, h, m) <= GateTrace(b, h, n)
  {
    GateTracesGrow(b, h);
    GrowingIsOrdered(GateTraces(b, h), m, n);
  }

  /** Every call in the trace was made by one event of the history. */
  lemma SourceOf(b: SessionBinding, h: seq<Event>, n: nat, i: nat) returns (m: nat)
    requires n <= |h| && i < |GateTrace(b, h, n)|
    ensures m < n && |GateTrace(b, h, m)| <= i < |GateTrace(b, h, m + 1)|
    ensures Causes(Run(b, h[..m]), h[m], GateTrace(b, h, n)[i])
  {
    GateTracesGrow(b, h);
    m := WrittenAt(GateTraces(b, h), n, i);
    NextCalls(b, h, m);
  }

  /** Event `m` answered the stats poll of a frame in hand. */
  predicate PollAnsweredAt(b: SessionBinding, h: seq<Event>, m: int) {
    0 <= m < |h| && h[m].StatsArrived? && Run(b, h[..m]).phase.Polling?
  }

  /** Event `m` answered it with a report. */
  predicate ReportAt(b: SessionBinding, h: seq<Event>, m: int) {
    PollAnsweredAt(b, h, m) && h[m].progress.Some?
  }

  /** An answered poll is in the trace, right after everything the earlier events put there. */
  lemma AnswerIsTraced(b: SessionBinding, h: seq<Event>, m: nat, n: nat)
    requires m < n <= |h| && PollAnsweredAt(b, h, m)
    ensures |GateTrace(b, h, m)| < |GateTrace(b, h, n)| && |GateTrace(b, h, m + 1)| == |GateTrace(b, h, m)| + 1
    ensures GateTrace(b, h, n)[|GateTrace(b, h, m)|] == Reported(h[m])
    ensures GateTrace(b, h, n)[..|GateTrace(b, h, m)|] == GateTrace(b, h, m)
    ensures Run(b, h[..m]).gate == Rtp.Run(GateTrace(b, h, m))
  {
    NextCalls(b, h, m);
    TraceGrows(b, h, m + 1, n);
    EveryStateIsSound(b, h, m);
  }

  /** An observation in the trace is a report of the history, seen by the gate as it then was. */
  lemma ReportSource(b: SessionBinding, h: seq<Event>, n: nat, i: nat) returns (m: nat)
    requires n <= |h| && i < |GateTrace(b, h, n)| && GateTrace(b, h, n)[i].Observed?
    ensures m < n && ReportAt(b, h, m) && Reported(h[m]) == GateTrace(b, h, n)[i]
    ensures |GateTrace(b, h, m)| == i && GateTrace(b, h, m) == GateTrace(b, h, n)[..i]
    ensures Run(b, h[..m]).gate == Rtp.Run(GateTrace(b, h, n)[..i])
  {
    m := SourceOf(b, h, n, i);
    AnswerIsTraced(b, h, m, n);
  }

  // ---- the RTP proof behind a frame, over the history -----------------------------------------------

  /** Event `m` is a report that continues the one the gate held and moved all three of its counters on. */
  predicate StrictReportAt(b: SessionBinding, h: seq<Event>, m: int) {
    && ReportAt(b, h, m) && Rtp.Continues(Run(b, h[..m]).gate, h[m].progress.value)
    && Rtp.StrictlyAbove(h[m].progress.value, Run(b, h[..m]).gate.last.value)
  }

  predicate Tops(b: SessionBinding, h: seq<Event>, k: int, m: int) {
    && ReportAt(b, h, k) && ReportAt(b, h, m) && m < k && h[k].progress.value.Id() == h[m].progress.value.Id()
    && Rtp.StrictlyAbove(h[k].progress.value, h[m].progress.value)
  }

  /** Two strict advances from a fresh baseline, 100 ms or more apart, and a latest one. */
  predicate AdvancedTwice(b: SessionBinding, h: seq<Event>, w: Rtp.Evidence) {
    && ReportAt(b, h, w.baseline) && !Rtp.Continues(Run(b, h[..w.baseline]).gate, h[w.baseline].progress.value)
    && StrictReportAt(b, h, w.first) && Tops(b, h, w.first, w.baseline)
    && StrictReportAt(b, h, w.readying) && Tops(b, h, w.readying, w.first)
    && h[w.first].now + Rtp.READY_FLOOR <= h[w.readying].now
    && w.readying <= w.latest && StrictReportAt(b, h, w.latest)
  }

  /** The latest advance is above the baseline and every strict advance since it. */
  ghost predicate LatestTopsAll(b: SessionBinding, h: seq<Event>, w: Rtp.Evidence) {
    forall m | w.baseline <= m < w.latest && (m == w.baseline || StrictReportAt(b, h, m)) :: Tops(b, h, w.latest, m)
  }

  predicate Accepted(b: SessionBinding, h: seq<Event>, m: int) {
    ReportAt(b, h, m) && Rtp.Observe(Run(b, h[..m]).gate, h[m].progress.value, h[m].now).outcome.Ok?
  }

  /** Every report accepted between the baseline and the latest advance continued the one before it. */
  ghost predicate PinnedSince(b: SessionBinding, h: seq<Event>, w: Rtp.Evidence) {
    forall m | w.baseline < m <= w.latest && Accepted(b, h, m) ::
      Rtp.Continues(Run(b, h[..m]).gate, h[m].progress.value)
  }

  /** After `latest` and before `decided` no poll went unanswered and no report was refused. */
  ghost predicate NothingMissed(b: SessionBinding, h: seq<Event>, latest: int, decided: nat) {
    forall m | latest < m < decided && PollAnsweredAt(b, h, m) :: Accepted(b, h, m)
  }

  ghost predicate OneGeneration(b: SessionBinding, h: seq<Event>, from: int, to: nat, generation: nat)
    requires 0 <= from && to <= |h|
  {
    forall m | from <= m <= to :: Run(b, h[..m]).gate.authorityGeneration == generation
  }

  /** The RTP proof behind the decision at event `decided`; `w` names events of the history. */
  ghost predicate RtpBacked(b: SessionBinding, h: seq<Event>, decided: nat, generation: nat, w: Rtp.Evidence) {
    && decided < |h| && h[decided].Decided? && 0 <= w.latest < decided
    && AdvancedTwice(b, h, w) && LatestTopsAll(b, h, w) && PinnedSince(b, h, w)
    && NothingMissed(b, h, w.latest, decided)
    && OneGeneration(b, h, w.baseline, decided, generation)
    && h[decided].now < h[w.latest].now + Rtp.PCM_WINDOW
  }

  /** `m` is the event behind observation `i` of the trace after `n` events. */
  ghost predicate Stands(b: SessionBinding, h: seq<Event>, n: nat, i: int, m: int)
    requires n <= |h|
  {
    && 0 <= m < n && ReportAt(b, h, m) && |GateTrace(b, h, m)| == i < |GateTrace(b, h, n)|
    && GateTrace(b, h, n)[i] == Reported(h[m])
    && Run(b, h[..m]).gate == Rtp.Run(GateTrace(b, h, n)[..i])
  }

  /** `w` names the events behind the observations that `v` names in the trace. */
  ghost predicate Backs(b: SessionBinding, h: seq<Event>, n: nat, v: Rtp.Evidence, w: Rtp.Evidence)
    requires n <= |h|
  {
    && Stands(b, h, n, v.baseline, w.baseline) && Stands(b, h, n, v.first, w.first)
    && Stands(b, h, n, v.readying, w.readying) && Stands(b, h, n, v.latest, w.latest)
  }

  /** The trace after `n` events holds a window open, proved by `v`. */
  ghost predicate ProvedBy(b: SessionBinding, h: seq<Event>, n: nat, v: Rtp.Evidence)
    requires n <= |h|
  {
    var t := GateTrace(b, h, n);
    Rtp.Run(t).liveUntil.Some? && Rtp.Proves(t, |t|, v, Rtp.Run(t).liveUntil.value)
  }

  lemma {:induction false} EvidenceSources(b: SessionBinding, h: seq<Event>, n: nat, v: Rtp.Evidence) returns (w: Rtp.Evidence)
    requires n <= |h| && ProvedBy(b, h, n, v)
    ensures Backs(b, h, n, v, w)
  {
    var m0 := ReportSource(b, h, n, v.baseline);
    var m1 := ReportSource(b, h, n, v.first);
    var m2 := ReportSource(b, h, n, v.readying);
    var m3 := ReportSource(b, h, n, v.latest);
    w := Rtp.Evidence(m0, m1, m2, m3);
  }

  /** Where answered poll `m` stands in the trace. */
  lemma AnswerStands(b: SessionBinding, h: seq<Event>, n: nat, m: nat) returns (j: nat)
    requires m < n <= |h| && PollAnsweredAt(b, h, m)
    ensures j == |GateTrace(b, h, m)| < |GateTrace(b, h, n)| && GateTrace(b, h, n)[j] == Reported(h[m])
    ensures ReportAt(b, h, m) ==> Stands(b, h, n, j, m)
    ensures ReportAt(b, h, m) ==> (Rtp.StrictAt(GateTrace(b, h, n), j) <==> StrictReportAt(b, h, m))
    ensures ReportAt(b, h, m) ==> (Rtp.Succeeds(GateTrace(b, h, n), j) <==> Accepted(b, h, m))
  {
    AnswerIsTraced(b, h, m, n);
    j := |GateTrace(b, h, m)|;
  }

  /** Two answered polls stand in the trace in the order they came. */
  lemma AnswersInOrder(b: SessionBinding, h: seq<Event>, m: nat, k: nat)
    requires m <= |h| && k <= |h| && (m < |h| && PollAnsweredAt(b, h, m)) && (k < |h| && PollAnsweredAt(b, h, k))
    ensures m < k <==> |GateTrace(b, h, m)| < |GateTrace(b, h, k)|
  {
    if m < k {
      AnswerIsTraced(b, h, m, k);
    } else {
      TraceGrows(b, h, k, m);
    }
  }

  lemma {:induction false} AdvancesStand(b: SessionBinding, h: seq<Event>, n: nat, v: Rtp.Evidence, w: Rtp.Evidence)
    requires n <= |h| && ProvedBy(b, h, n, v) && Backs(b, h, n, v, w)
    ensures AdvancedTwice(b, h, w) && w.latest < n
  {
    AnswersInOrder(b, h, w.baseline, w.first);
    AnswersInOrder(b, h, w.first, w.readying);
    AnswersInOrder(b, h, w.latest, w.readying);
  }

  lemma {:induction false} TopStands(b: SessionBinding, h: seq<Event>, n: nat, v: Rtp.Evidence, w: Rtp.Evidence)
    requires n <= |h| && ProvedBy(b, h, n, v) && Backs(b, h, n, v, w)
    ensures LatestTopsAll(b, h, w)
  {
    var t := GateTrace(b, h, n);
    forall m | w.baseline <= m < w.latest && (m == w.baseline || StrictReportAt(b, h, m))
      ensures Tops(b, h, w.latest, m)
    {
      var j := AnswerStands(b, h, n, m);
      AnswersInOrder(b, h, m, w.latest);
      AnswersInOrder(b, h, m, w.baseline);
      assert v.baseline <= j < v.latest && (j == v.baseline || Rtp.StrictAt(t, j));
      assert Rtp.StrictlyAbove(t[v.latest].progress, t[j].progress);
      SameReport(t, v.baseline, v.latest, j);
      SameReport(t, v.baseline, v.latest, v.latest);
    }
  }

  /** Strict advances of a pinned stretch carry the identity of its baseline. */
  lemma SameReport(t: seq<Rtp.GateEvent>, baseline: int, latest: int, j: int)
    requires Rtp.ObservedAt(t, baseline) && latest < |t| && Rtp.Pinned(t, baseline, latest + 1)
    requires baseline <= j <= latest && (j == baseline || Rtp.StrictAt(t, j))
    ensures t[j].Observed? && t[j].progress.Id() == t[baseline].progress.Id()
  {
    assert baseline < j ==> Rtp.Succeeds(t, j);
  }

  lemma {:induction false} PinStands(b: SessionBinding, h: seq<Event>, n: nat, v: Rtp.Evidence, w: Rtp.Evidence)
    requires n <= |h| && ProvedBy(b, h, n, v) && Backs(b, h, n, v, w)
    ensures PinnedSince(b, h, w) && NothingMissed(b, h, w.latest, n)
  {
    var t := GateTrace(b, h, n);
    forall m | w.baseline < m <= w.latest && Accepted(b, h, m)
      ensures Rtp.Continues(Run(b, h[..m]).gate, h[m].progress.value)
    {
      var j := AnswerStands(b, h, n, m);
      AnswersInOrder(b, h, w.baseline, m);
      AnswersInOrder(b, h, w.latest, m);
      assert v.baseline < j < v.latest + 1 && Rtp.Succeeds(t, j);
    }
    forall m | w.latest < m < n && PollAnsweredAt(b, h, m)
      ensures Accepted(b, h, m)
    {
      var j := AnswerStands(b, h, n, m);
      AnswersInOrder(b, h, w.latest, m);
      assert v.latest + 1 <= j < |t| && Rtp.Succeeds(t, j) && !t[j].Missed?;
    }
  }

  lemma OnlyBeginningRenumbers(g: Rtp.Gate, e: Rtp.GateEvent)
    requires !e.Begun?
    ensures Rtp.Apply(g, e).gate.authorityGeneration == g.authorityGeneration
  {
  }

  lemma {:induction false} GenerationStays(t: seq<Rtp.GateEvent>, i: nat, j: nat)
    requires i <= j <= |t| && forall m | i <= m < j :: !t[m].Begun?
    ensures Rtp.Run(t[..j]).authorityGeneration == Rtp.Run(t[..i]).authorityGeneration
    decreases j
  {
    if i < j {
      GenerationStays(t, i, j - 1);
      Rtp.RunStep(t, j - 1);
      OnlyBeginningRenumbers(Rtp.Run(t[..j - 1]), t[j - 1]);
    }
  }

  lemma {:induction false} GenerationStands(b: SessionBinding, h: seq<Event>, n: nat, v: Rtp.Evidence, w: Rtp.Evidence)
    requires n <= |h| && ProvedBy(b, h, n, v) && Backs(b, h, n, v, w)
    ensures OneGeneration(b, h, w.baseline, n, Run(b, h[..n]).gate.authorityGeneration)
  {
    var t := GateTrace(b, h, n);
    EveryStateIsSound(b, h, n);
    forall m | w.baseline <= m <= n
      ensures Run(b, h[..m]).gate.authorityGeneration == Run(b, h[..n]).gate.authorityGeneration
    {
      TraceGrows(b, h, w.baseline, m);
      TraceGrows(b, h, m, n);
      EveryStateIsSound(b, h, m);
      var j := |GateTrace(b, h, m)|;
      assert t[..j] == GateTrace(b, h, m) && t[..|t|] == t;
      GenerationStays(t, j, |t|);
    }
  }

  lemma {:induction false} RtpProofAt(b: SessionBinding, h: seq<Event>, decided: nat, generation: nat)
      returns (w: Rtp.Evidence)
    requires ProvedAt(b, h, decided, generation)
    ensures RtpBacked(b, h, decided, generation, w)
  {
    EveryStateIsSound(b, h, decided);
    var v := Rtp.OpenWindowWasProved(GateTrace(b, h, decided), h[decided].now);
    w := EvidenceSources(b, h, decided, v);
    AdvancesStand(b, h, decided, v, w);
    TopStands(b, h, decided, v, w);
    PinStands(b, h, decided, v, w);
    GenerationStands(b, h, decided, v, w);
  }

  // ---- the route behind a frame, over the history -----------------------------------------------------

  function RouteTrace(b: SessionBinding, h: seq<Event>, n: nat): seq<Route.RouteOp>
    requires n <= |h|
  {
    Run(b, h[..n]).routeTrace
  }

  /** The route call that event `e` makes on a talk peer in state `p`, if it makes one. */
  function Asked(p: Peer, e: Event): Option<Route.RouteOp> {
    match e
    case CallerAuthorized(permit) => if permit.binding == p.binding then Some(Route.AuthorizeOp(permit)) else None
    case CallerRevoked => Some(Route.RevokeOp)
    case CallerRenewed(lifetime, now) => Some(Route.RenewOp(p.binding, lifetime, now))
    case Routed(now, _) => if p.phase.Routing? then Some(Route.AllowsOp(p.binding, now)) else None
    case _ => None
  }

  ghost predicate AsksOf(p: Peer, e: Event, q: Peer) {
    q.routeTrace == if Asked(p, e).Some? then p.routeTrace + [Asked(p, e).value] else p.routeTrace
  }

  lemma StepAsks(p: Peer, e: Event)
    requires p.binding.mode.Talk?
    ensures AsksOf(p, e, Step(p, e))
  {
    if DrivesGate(e) {
      EvolvesOnGateEvent(p, e);
    }
  }

  lemma NextAsks(b: SessionBinding, h: seq<Event>, n: nat)
    requires n < |h| && b.mode.Talk?
    ensures AsksOf(Run(b, h[..n]), h[n], Run(b, h[..n + 1])) && Run(b, h[..n]).route == Route.Run(RouteTrace(b, h, n))
  {
    EveryStateIsSound(b, h, n);
    RunStep(b, h, n);
    StepAsks(Run(b, h[..n]), h[n]);
  }

  ghost function RouteTraces(b: SessionBinding, h: seq<Event>): seq<seq<Route.RouteOp>> {
    seq(|h| + 1, n requires 0 <= n <= |h| => RouteTrace(b, h, n))
  }

  lemma RouteTracesGrow(b: SessionBinding, h: seq<Event>)
    requires b.mode.Talk?
    ensures Growing(RouteTraces(b, h))
  {
    forall k, l | 0 <= k <= |h| && l == k + 1 <= |h|
      ensures RouteTraces(b, h)[k] <= RouteTraces(b, h)[l]
    {
      NextAsks(b, h, k);
    }
  }

  lemma RouteTraceGrows(b: SessionBinding, h: seq<Event>, m: nat, n: nat)
    requires m <= n <= |h| && b.mode.Talk?
    ensures RouteTrace(b, h, m) <= RouteTrace(b, h, n)
  {
    RouteTracesGrow(b, h);
    GrowingIsOrdered(RouteTraces(b, h), m, n);
  }

  /** Call `j` of the trace after `n` events was made by event `m`, on the route as it then was. */
  ghost predicate AskedBy(b: SessionBinding, h: seq<Event>, n: nat, j: int, m: int)
    requires n <= |h|
  {
    && 0 <= m < n && |RouteTrace(b, h, m)| == j < |RouteTrace(b, h, n)|
    && Asked(Run(b, h[..m]), h[m]) == Some(RouteTrace(b, h, n)[j])
    && Run(b, h[..m]).route == Route.Run(RouteTrace(b, h, n)[..j])
  }

  lemma AskSource(b: SessionBinding, h: seq<Event>, n: nat, j: nat) returns (m: nat)
    requires n <= |h| && b.mode.Talk? && j < |RouteTrace(b, h, n)|
    ensures AskedBy(b, h, n, j, m)
  {
    RouteTracesGrow(b, h);
    m := WrittenAt(RouteTraces(b, h), n, j);
    NextAsks(b, h, m);
    assert RouteTrace(b, h, n)[..j] == RouteTrace(b, h, m);
  }

  lemma AskIsTraced(b: SessionBinding, h: seq<Event>, n: nat, m: nat)
    requires m < n <= |h| && b.mode.Talk? && Asked(Run(b, h[..m]), h[m]).Some?
    ensures AskedBy(b, h, n, |RouteTrace(b, h, m)|, m) && |RouteTrace(b, h, m + 1)| == |RouteTrace(b, h, m)| + 1
  {
    NextAsks(b, h, m);
    RouteTraceGrows(b, h, m + 1, n);
    assert RouteTrace(b, h, n)[..|RouteTrace(b, h, m)|] == RouteTrace(b, h, m);
  }

  /** What event `m` granted this talk peer: an accepted permit's expiry, or a successful renewal's. */
  function GrantedAt(b: SessionBinding, h: seq<Event>, m: int): Option<nat>
    requires 0 <= m < |h|
  {
    var stored := Run(b, h[..m]).route;
    match h[m]
    case CallerAuthorized(permit) =>
      if AuthorizeCallerTransmit(b, stored, permit).outcome.Ok? then Some(permit.expiresAt) else None
    case CallerRenewed(lifetime, now) =>
      if Route.Renew(stored, b, lifetime, now).outcome.Ok? then Some(now + lifetime) else None
    case _ => None
  }

  /** Event `m` neither revoked the route, nor replaced its permit, nor was a renewal that found none current. */
  predicate LeavesRoute(b: SessionBinding, h: seq<Event>, m: int)
    requires 0 <= m < |h|
  {
    var stored := Run(b, h[..m]).route;
    match h[m]
    case CallerAuthorized(permit) => AuthorizeCallerTransmit(b, stored, permit).outcome.Err?
    case CallerRevoked => false
    case CallerRenewed(lifetime, now) =>
      var outcome := Route.Renew(stored, b, lifetime, now).outcome;
      outcome.Ok? || outcome.error.AlreadyExpired? || outcome.error.ExpiryOverflow?
    case _ => true
  }

  /**
   * The permit behind the route check at event `routed`: authorized by event `grant` for this binding, left alone by
   * every event since, and still ahead of its latest expiry, the one granted by event `latest`.
   */
  ghost predicate RouteBacked(b: SessionBinding, h: seq<Event>, routed: nat, grant: int, latest: int) {
    && 0 <= grant <= latest < routed < |h| && h[routed].Routed?
    && h[grant].CallerAuthorized? && h[grant].permit.binding == b && GrantedAt(b, h, grant).Some?
    && (forall m | grant < m < routed :: LeavesRoute(b, h, m))
    && GrantedAt(b, h, latest).Some? && h[routed].now < GrantedAt(b, h, latest).value
  }

  lemma GrantStands(b: SessionBinding, h: seq<Event>, n: nat, j: int, m: int)
    requires n <= |h| && b.mode.Talk? && AskedBy(b, h, n, j, m) && Run(b, h[..m]).binding == b
    ensures GrantedAt(b, h, m) == Route.Granted(RouteTrace(b, h, n), j, b)
    ensures LeavesRoute(b, h, m) <==> Route.KeepsRoute(RouteTrace(b, h, n), j)
    ensures h[m].CallerAuthorized? <==> RouteTrace(b, h, n)[j].AuthorizeOp?
  {
  }

  /** Every event since the grant left the route alone. */
  lemma {:induction false} LeftAlone(b: SessionBinding, h: seq<Event>, n: nat, k: nat, grant: nat)
    requires n <= |h| && b.mode.Talk? && AskedBy(b, h, n, k, grant) && Route.KeptAfter(RouteTrace(b, h, n), k)
    ensures forall m | grant < m < n :: LeavesRoute(b, h, m)
  {
    forall m | grant < m < n
      ensures LeavesRoute(b, h, m)
    {
      BindingStays(b, h, m);
      if Asked(Run(b, h[..m]), h[m]).Some? {
        AskIsTraced(b, h, n, m);
        AskIsTraced(b, h, n, grant);
        RouteTraceGrows(b, h, grant + 1, m);
        GrantStands(b, h, n, |RouteTrace(b, h, m)|, m);
        assert Route.KeepsRoute(RouteTrace(b, h, n), |RouteTrace(b, h, m)|);
      }
    }
  }

  lemma {:induction false} RouteProofAt(b: SessionBinding, h: seq<Event>, routed: nat)
      returns (grant: int, latest: int)
    requires RoutedAt(b, h, routed) && b.mode.Talk?
    ensures RouteBacked(b, h, routed, grant, latest)
  {
    EveryStateIsSound(b, h, routed);
    var k, j := Route.OpenRouteWasGranted(RouteTrace(b, h, routed), b, h[routed].now);
    grant := AskSource(b, h, routed, k);
    latest := AskSource(b, h, routed, j);
    BindingStays(b, h, grant);
    BindingStays(b, h, latest);
    GrantStands(b, h, routed, k, grant);
    GrantStands(b, h, routed, j, latest);
    if latest < grant {
      RouteTraceGrows(b, h, latest + 1, grant);
      AskIsTraced(b, h, routed, latest);
      assert false;
    }
    LeftAlone(b, h, routed, k, grant);
  }

  /**
   * What actually happened before a frame came out, as events of the history: an arm message for exactly this peer in
   * the frame's generation, with no disarm, no higher generation and no breach before the frame's snapshot; in that generation RTP reports that advanced strictly twice, 100 ms or more apart, and
   * again within 125 ms of the decision with no missed or refused report since; and on a talk peer a permit for
   * exactly this binding, authorized and left alone since, with an expiry still ahead.
   */
  lemma {:induction false} DeliveredFrameHasAllProofs(b: SessionBinding, h: seq<Event>, d: Delivery)
      returns (arm: nat, w: Rtp.Evidence, grant: int, latest: int)
    requires d in Run(b, h).deliveries
    ensures Authorized(b, h, d)
    ensures arm < d.taken && ArmReceivedAt(b, h, arm, d.generation) && Heard.ArmStands(b, h, d.taken, d.generation)
    ensures RtpBacked(b, h, d.decided, d.generation, w)
    ensures b.mode.Talk? ==> RouteBacked(b, h, d.routed, grant, latest)
  {
    DeliveredFramesAreAuthorized(b, h);
    arm := ArmWasReceived(b, h, d.taken);
    Heard.ArmedStands(b, h, d.taken, d.generation);
    w := RtpProofAt(b, h, d.decided, d.generation);
    grant, latest := 0, 0;
    if b.mode.Talk? {
      grant, latest := RouteProofAt(b, h, d.routed);
    }
  }

  // ---- the discontinuity budget of a whole peer ---------------------------------------------------------

  /** Event `m` is a report of another stream, or one that went back, that the gate accepted as its new baseline. */
  predicate RebaselinedAt(b: SessionBinding, h: seq<Event>, m: int) {
    && Accepted(b, h, m) && Run(b, h[..m]).gate.last.Some?
    && !Rtp.Continues(Run(b, h[..m]).gate, h[m].progress.value)
  }

  lemma TraceIsMonotone(b: SessionBinding, h: seq<Event>, n: nat)
    requires n <= |h| && InOrder(h, 0)
    ensures Rtp.Monotone(GateTrace(b, h, n))
  {
    var t := GateTrace(b, h, n);
    forall i, j | 0 <= i < j < |t| && Rtp.Timed(t[i]) && Rtp.Timed(t[j])
      ensures t[i].now <= t[j].now
    {
      var m := SourceOf(b, h, n, i);
      var k := SourceOf(b, h, n, j);
      if k < m {
        TraceGrows(b, h, k + 1, m);
        assert false;
      }
    }
  }

  /**
   * Over the whole life of a peer, disarming and re-arming included, any three accepted rebaselines span at least ten
   * seconds of a clock that does not go back.
   */
  lemma {:induction false} PeerRebaselinesAreSpread(b: SessionBinding, h: seq<Event>, i: nat, j: nat, k: nat)
    requires InOrder(h, 0) && i < j < k
    requires RebaselinedAt(b, h, i) && RebaselinedAt(b, h, j) && RebaselinedAt(b, h, k)
    ensures h[k].now >= h[i].now + Rtp.DISCONTINUITY_WINDOW
  {
    var n, t := |h|, GateTrace(b, h, |h|);
    var first := AnswerStands(b, h, n, i);
    var second := AnswerStands(b, h, n, j);
    var third := AnswerStands(b, h, n, k);
    AnswersInOrder(b, h, i, j);
    AnswersInOrder(b, h, j, k);
    TraceIsMonotone(b, h, n);
    Rtp.RebaselinesAreSpread(t, first, second, third);
  }
}
