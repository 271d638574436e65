/** The timed proof that a microphone's RTP stream is really advancing, kept by the decoded-audio task. */
module RtpProgress {
  import opened Prelude

  const PCM_WINDOW := 125
  const READY_FLOOR := 100
  const REPROOF_TIMEOUT := 500
  const DISCONTINUITY_WINDOW := 10_000
  const DISCONTINUITY_BUDGET := 2

  datatype Identity = Identity(reportId: string, ssrc: nat, mid: string)

  datatype Progress = Progress(reportId: string, ssrc: nat, mid: string, packets: u64, bytes: u64, nonconcealed: u64) {
    function Id(): Identity { Identity(reportId, ssrc, mid) }
  }

  /** Packets, bytes and non-concealed samples have all moved on. */
  predicate StrictlyAbove(p: Progress, q: Progress) {
    p.packets > q.packets && p.bytes > q.bytes && p.nonconcealed > q.nonconcealed
  }

  predicate Decreased(p: Progress, q: Progress) {
    p.packets < q.packets || p.bytes < q.bytes || p.nonconcealed < q.nonconcealed
  }

  datatype GateFailure = RemainedDiscontinuous | BudgetExceeded | DeadlineUnavailable | ReproofTimedOut | StreamEnded

  datatype Gate = Gate(
    authorityGeneration: nat,
    identity: Option<Identity>,
    last: Option<Progress>,
    strictAdvances: nat,
    firstStrictAt: Option<nat>,
    ready: bool,
    reproofPending: bool,
    reproofDeadline: Option<nat>,
    discontinuities: seq<nat>,
    liveUntil: Option<nat>)

  const INITIAL := Gate(0, None, None, 0, None, false, false, None, [], None)

  datatype GateStep = GateStep(gate: Gate, outcome: Result<(), GateFailure>)

  function BeginAuthority(g: Gate, generation: nat): Gate {
    INITIAL.(authorityGeneration := generation, discontinuities := g.discontinuities)
  }

  function Fail(g: Gate): Gate {
    g.(ready := false, reproofPending := false, reproofDeadline := None, liveUntil := None)
  }

  function Miss(g: Gate): Gate {
    g.(liveUntil := None)
  }

  predicate AllowsPcm(g: Gate, now: nat) {
    g.liveUntil.Some? && now < g.liveUntil.value
  }

  function PendingDeadline(g: Gate): Option<nat> {
    if g.reproofPending then g.reproofDeadline else None
  }

  /** `p` continues the report the gate is pinned to; anything else after a baseline is a discontinuity. */
  predicate Continues(g: Gate, p: Progress) {
    g.last.Some? && g.identity == Some(p.Id()) && !Decreased(p, g.last.value)
  }

  function DropExpired(seen: seq<nat>, now: nat): seq<nat> {
    if seen != [] && now >= seen[0] + DISCONTINUITY_WINDOW then DropExpired(seen[1..], now) else seen
  }

  function Advance(g: Gate, p: Progress, now: nat): Gate {
    var first := if g.firstStrictAt.Some? then g.firstStrictAt.value else now;
    var advances := if g.strictAdvances < 255 then g.strictAdvances + 1 else 255;
    var proved := advances >= 2 && now >= first + READY_FLOOR;
    g.(last := Some(p), strictAdvances := advances, firstStrictAt := Some(first),
       ready := g.ready || proved,
       reproofPending := g.reproofPending && !proved,
       reproofDeadline := if proved then None else g.reproofDeadline,
       liveUntil := if g.ready || proved then CheckedAdd(now, PCM_WINDOW) else g.liveUntil)
  }

  function Rebaseline(g: Gate, p: Progress, now: nat): GateStep {
    if g.reproofPending then GateStep(Fail(g), Err(RemainedDiscontinuous))
    else
      var kept := g.(discontinuities := DropExpired(g.discontinuities, now));
      if |kept.discontinuities| >= DISCONTINUITY_BUDGET then GateStep(Fail(kept), Err(BudgetExceeded))
      else
        var rebased := kept.(discontinuities := kept.discontinuities + [now], identity := Some(p.Id()), last := Some(p),
                           strictAdvances := 0, firstStrictAt := None, ready := false, reproofPending := true);
        match CheckedAdd(now, REPROOF_TIMEOUT)
        case None => GateStep(Fail(rebased), Err(DeadlineUnavailable))
        case Some(deadline) => GateStep(rebased.(reproofDeadline := Some(deadline)), Ok(()))
  }

  function Observe(g: Gate, p: Progress, now: nat): GateStep {
    if g.last.None? then GateStep(g.(identity := Some(p.Id()), last := Some(p)), Ok(()))
    else if !Continues(g, p) then Rebaseline(g, p, now)
    else if StrictlyAbove(p, g.last.value) then GateStep(Advance(g, p, now), Ok(()))
    else GateStep(g, Ok(()))
  }

  function FailIfReproofExpired(g: Gate, now: nat): GateStep {
    if !g.reproofPending then GateStep(g, Ok(()))
    else match g.reproofDeadline
      case Some(deadline) =>
        if now < deadline then GateStep(g, Ok(())) else GateStep(Fail(g), Err(ReproofTimedOut))
      case None => GateStep(Fail(g), Err(DeadlineUnavailable))
  }

  /** The gate object: fields and a deque of discontinuity times, all updated in place. */
  class RtpProgressGate {
    var authorityGeneration: nat
    var identity: Option<Identity>
    var last: Option<Progress>
    var strictAdvances: nat
    var firstStrictAt: Option<nat>
    var ready: bool
    var reproofPending: bool
    var reproofDeadline: Option<nat>
    var discontinuities: seq<nat>
    var liveUntil: Option<nat>

    function View(): Gate
      reads this
    {
      Gate(authorityGeneration, identity, last, strictAdvances, firstStrictAt, ready, reproofPending, reproofDeadline,
           discontinuities, liveUntil)
    }

    constructor ()
      ensures View() == INITIAL
    {
      authorityGeneration, identity, last, strictAdvances, firstStrictAt := 0, None, None, 0, None;
      ready, reproofPending, reproofDeadline, discontinuities, liveUntil := false, false, None, [], None;
    }

    method Begin(generation: nat)
      modifies this
      ensures View() == BeginAuthority(old(View()), generation)
    {
      authorityGeneration := generation;
      identity := None;
      last := None;
      strictAdvances := 0;
      firstStrictAt := None;
      ready := false;
      reproofPending := false;
      reproofDeadline := None;
      liveUntil := None;
    }

    method FailClosed()
      modifies this
      ensures View() == Fail(old(View()))
    {
      ready := false;
      reproofPending := false;
      reproofDeadline := None;
      liveUntil := None;
    }

    method ObserveProgress(p: Progress, now: nat) returns (r: Result<(), GateFailure>)
      modifies this
      ensures GateStep(View(), r) == Observe(old(View()), p, now)
    {
      if last.None? {
        identity := Some(p.Id());
        last := Some(p);
        return Ok(());
      }
      if identity != Some(p.Id()) || Decreased(p, last.value) {
        r := RebaselineOn(p, now);
        return;
      }
      if StrictlyAbove(p, last.value) {
        last := Some(p);
        strictAdvances := if strictAdvances < 255 then strictAdvances + 1 else 255;
        if firstStrictAt.None? {
          firstStrictAt := Some(now);
        }
        if strictAdvances >= 2 && now >= firstStrictAt.value + READY_FLOOR {
          ready := true;
          reproofPending := false;
          reproofDeadline := None;
        }
        if ready {
          liveUntil := CheckedAdd(now, PCM_WINDOW);
        }
      }
      r := Ok(());
    }

    /** The front of the deque is popped while it lies outside the window. */
    method ForgetExpired(now: nat)
      modifies this`discontinuities
      ensures discontinuities == DropExpired(old(discontinuities), now)
    {
      while discontinuities != [] && now >= discontinuities[0] + DISCONTINUITY_WINDOW
        invariant DropExpired(discontinuities, now) == DropExpired(old(discontinuities), now)
        decreases |discontinuities|
      {
        discontinuities := discontinuities[1..];
      }
    }

    method RebaselineOn(p: Progress, now: nat) returns (r: Result<(), GateFailure>)
      modifies this
      ensures GateStep(View(), r) == Rebaseline(old(View()), p, now)
    {
      if reproofPending {
        FailClosed();
        return Err(RemainedDiscontinuous);
      }
      ForgetExpired(now);
      if |discontinuities| >= DISCONTINUITY_BUDGET {
        FailClosed();
        return Err(BudgetExceeded);
      }
      discontinuities := discontinuities + [now];
      identity := Some(p.Id());
      last := Some(p);
      strictAdvances := 0;
      firstStrictAt := None;
      ready := false;
      reproofPending := true;
      var deadline := CheckedAdd(now, REPROOF_TIMEOUT);
      if deadline.None? {
        FailClosed();
        return Err(DeadlineUnavailable);
      }
      reproofDeadline := deadline;
      r := Ok(());
    }

    method FailIfExpired(now: nat) returns (r: Result<(), GateFailure>)
      modifies this
      ensures GateStep(View(), r) == FailIfReproofExpired(old(View()), now)
    {
      if reproofPending {
        if reproofDeadline.None? {
          FailClosed();
          return Err(DeadlineUnavailable);
        }
        if now >= reproofDeadline.value {
          FailClosed();
          return Err(ReproofTimedOut);
        }
      }
      r := Ok(());
    }
  }

  // ---- whole runs -----------------------------------------------------------------

  datatype GateEvent =
    | Begun(generation: nat)
    | Observed(progress: Progress, now: nat)
    | Missed
    | Checked(now: nat)
    | Abandoned(reason: GateFailure)

  function Apply(g: Gate, e: GateEvent): GateStep {
    match e
    case Begun(generation) => GateStep(BeginAuthority(g, generation), Ok(()))
    case Observed(p, now) => Observe(g, p, now)
    case Missed => GateStep(Miss(g), Ok(()))
    case Checked(now) => FailIfReproofExpired(g, now)
    case Abandoned(reason) => GateStep(Fail(g), Err(reason))
  }

  /** The gate after every event of `h`, from a new gate; it may go on being used after a failure. */
  function Run(h: seq<GateEvent>): Gate {
    if h == [] then INITIAL else Apply(Run(h[..|h| - 1]), h[|h| - 1]).gate
  }

  predicate Succeeds(h: seq<GateEvent>, m: nat)
    requires m < |h|
  {
    Apply(Run(h[..m]), h[m]).outcome.Ok?
  }

  lemma RunStep(h: seq<GateEvent>, n: nat)
    requires n < |h|
    ensures Run(h[..n + 1]) == Apply(Run(h[..n]), h[n]).gate
  {
    assert h[..n + 1][..n] == h[..n];
  }

  predicate Timed(e: GateEvent) {
    e.Observed? || e.Checked?
  }

  predicate Monotone(h: seq<GateEvent>) {
    forall i, j :: 0 <= i < j < |h| && Timed(h[i]) && Timed(h[j]) ==> h[i].now <= h[j].now
  }

  // ---- readiness and re-proof -------------------------------------------------------

  ghost predicate Coherent(g: Gate) {
    && (g.reproofPending <==> g.reproofDeadline.Some?)
    && !(g.reproofPending && g.ready)
    && (g.last.Some? <==> g.identity.Some?)
    && (g.last.Some? ==> g.identity == Some(g.last.value.Id()))
    && (g.liveUntil.Some? ==> g.last.Some? && g.liveUntil.value <= MAX_INSTANT)
    && (g.strictAdvances >= 1 <==> g.firstStrictAt.Some?)
    && (g.strictAdvances >= 1 ==> g.last.Some?)
    && (g.ready ==> g.strictAdvances >= 2)
    && |g.discontinuities| <= DISCONTINUITY_BUDGET
  }

  lemma {:induction false} DropExpiredShrinks(seen: seq<nat>, now: nat)
    ensures |DropExpired(seen, now)| <= |seen|
    ensures forall t | t in seen && now < t + DISCONTINUITY_WINDOW :: t in DropExpired(seen, now)
    ensures |DropExpired(seen, now)| == |seen| ==> DropExpired(seen, now) == seen
  {
    if seen != [] && now >= seen[0] + DISCONTINUITY_WINDOW {
      DropExpiredShrinks(seen[1..], now);
    }
  }

  lemma RebaselineKeepsCoherent(g: Gate, p: Progress, now: nat)
    requires Coherent(g)
    ensures Coherent(Rebaseline(g, p, now).gate)
  {
    DropExpiredShrinks(g.discontinuities, now);
  }

  lemma AdvanceKeepsCoherent(g: Gate, p: Progress, now: nat)
    requires Coherent(g) && Continues(g, p)
    ensures Coherent(Advance(g, p, now))
  {
  }

  lemma ApplyKeepsCoherent(g: Gate, e: GateEvent)
    requires Coherent(g)
    ensures Coherent(Apply(g, e).gate)
  {
    if e.Observed? {
      RebaselineKeepsCoherent(g, e.progress, e.now);
      if Continues(g, e.progress) {
        AdvanceKeepsCoherent(g, e.progress, e.now);
      }
    }
  }

  /**
   * In every reachable gate a re-proof deadline is set exactly while a re-proof is pending, and never together
   * with readiness.
   */
  lemma {:induction false} ReachableGateIsCoherent(h: seq<GateEvent>)
    ensures Coherent(Run(h))
  {
    if h != [] {
      ReachableGateIsCoherent(h[..|h| - 1]);
      ApplyKeepsCoherent(Run(h[..|h| - 1]), h[|h| - 1]);
    }
  }

  /** A discontinuity never moves the PCM deadline later; a second one while a re-proof is pending fails closed. */
  lemma DiscontinuityEarnsNothing(g: Gate, p: Progress, now: nat)
    requires g.last.Some? && !Continues(g, p)
    ensures var s := Observe(g, p, now);
      && (forall t: nat :: AllowsPcm(s.gate, t) ==> AllowsPcm(g, t))
      && !s.gate.ready
      && (s.outcome.Ok? ==> s.gate.liveUntil == g.liveUntil && s.gate.reproofDeadline == Some(now + REPROOF_TIMEOUT))
      && (s.outcome.Err? ==> s.gate.liveUntil.None? && !s.gate.reproofPending)
      && (g.reproofPending ==> s.outcome == Err(RemainedDiscontinuous))
  {
  }

  // ---- what an open PCM window proves ---------------------------------------------------

  /** The observations that prove an open window: baseline, first advance, readying advance, latest advance. */
  datatype Evidence = Evidence(baseline: int, first: int, readying: int, latest: int)

  predicate ObservedAt(h: seq<GateEvent>, m: int) {
    0 <= m < |h| && h[m].Observed?
  }

  /** Event `m` is a report the gate took as a new baseline: its first, or one that did not continue the last. */
  predicate Adopted(h: seq<GateEvent>, m: int) {
    && ObservedAt(h, m) && !Continues(Run(h[..m]), h[m].progress) && Run(h[..m + 1]).last == Some(h[m].progress)
  }

  /**
   * Event `baseline` was adopted, and from there (exclusive) to `end` (exclusive) nothing begins a new authority,
   * nothing else is adopted and every accepted report continues.
   */
  ghost predicate Pinned(h: seq<GateEvent>, baseline: int, end: int)
    requires ObservedAt(h, baseline) && end <= |h|
  {
    && Adopted(h, baseline)
    && forall m | baseline < m < end ::
      && !h[m].Begun? && !Adopted(h, m)
      && (h[m].Observed? && Succeeds(h, m) ==>
            Continues(Run(h[..m]), h[m].progress) && h[m].progress.Id() == h[baseline].progress.Id())
  }

  /** Event `m` is a report that continues the one the gate held and moved all three of its counters on. */
  predicate StrictAt(h: seq<GateEvent>, m: int) {
    && ObservedAt(h, m) && Continues(Run(h[..m]), h[m].progress)
    && StrictlyAbove(h[m].progress, Run(h[..m]).last.value)
  }

  /** `p` is above the baseline report and above every strict advance made from it before event `end`. */
  ghost predicate TopsChain(h: seq<GateEvent>, baseline: int, end: int, p: Progress)
    requires ObservedAt(h, baseline) && end <= |h|
  {
    forall m | baseline <= m < end && (m == baseline || StrictAt(h, m)) :: StrictlyAbove(p, h[m].progress)
  }

  ghost predicate FirstAdvance(h: seq<GateEvent>, baseline: int, first: int) {
    && ObservedAt(h, baseline) && StrictAt(h, first) && baseline < first
    && h[first].progress.Id() == h[baseline].progress.Id()
    && StrictlyAbove(h[first].progress, h[baseline].progress)
  }

  ghost predicate ReadyingAdvance(h: seq<GateEvent>, first: int, readying: int) {
    && ObservedAt(h, first) && StrictAt(h, readying) && first < readying
    && h[readying].progress.Id() == h[first].progress.Id()
    && StrictlyAbove(h[readying].progress, h[first].progress)
    && h[readying].now >= h[first].now + READY_FLOOR
  }

  /** Nothing from `from` (inclusive) to `end` missed, failed or began a new authority. */
  ghost predicate Undisturbed(h: seq<GateEvent>, from: int, end: int)
    requires 0 <= from && end <= |h|
  {
    forall m | from <= m < end :: !h[m].Begun? && !h[m].Missed? && Succeeds(h, m)
  }

  ghost predicate Proves(h: seq<GateEvent>, end: int, w: Evidence, liveUntil: nat)
    requires end <= |h|
  {
    && 0 <= w.latest < end && StrictAt(h, w.latest) && w.readying <= w.latest
    && FirstAdvance(h, w.baseline, w.first) && ReadyingAdvance(h, w.first, w.readying)
    && Pinned(h, w.baseline, w.latest + 1)
    && TopsChain(h, w.baseline, w.latest, h[w.latest].progress)
    && liveUntil == h[w.latest].now + PCM_WINDOW
    && Undisturbed(h, w.latest + 1, end)
  }

  /** `p` is the top of the chain: the report of one of its members, above all the others. */
  ghost predicate HoldsTop(h: seq<GateEvent>, baseline: int, end: int, p: Progress)
    requires ObservedAt(h, baseline) && end <= |h|
  {
    forall m | baseline <= m < end && (m == baseline || StrictAt(h, m)) ::
      p == h[m].progress || StrictlyAbove(p, h[m].progress)
  }

  /** The chain of strict advances the gate holds after the first `n` events. */
  ghost predicate Chain(h: seq<GateEvent>, n: int, w: Evidence)
    requires 0 <= n <= |h|
  {
    var g := Run(h[..n]);
    g.last.Some? ==>
      && ObservedAt(h, w.baseline) && w.baseline < n && Pinned(h, w.baseline, n)
      && g.last.value.Id() == h[w.baseline].progress.Id()
      && (g.strictAdvances == 0 ==> g.last.value == h[w.baseline].progress)
      && HoldsTop(h, w.baseline, n, g.last.value)
      && (g.strictAdvances >= 1 ==>
            && FirstAdvance(h, w.baseline, w.first) && w.first < n && g.firstStrictAt == Some(h[w.first].now)
            && (g.strictAdvances == 1 ==> g.last.value == h[w.first].progress)
            && (g.strictAdvances >= 2 ==> StrictlyAbove(g.last.value, h[w.first].progress)))
      && (g.ready ==> g.strictAdvances >= 2 && w.readying < n && ReadyingAdvance(h, w.first, w.readying))
  }

  lemma PinnedGrows(h: seq<GateEvent>, baseline: int, n: int)
    requires 0 <= n < |h| && ObservedAt(h, baseline) && baseline < n && Pinned(h, baseline, n)
    requires !h[n].Begun? && !Adopted(h, n)
    requires h[n].Observed? && Succeeds(h, n) ==>
      Continues(Run(h[..n]), h[n].progress) && h[n].progress.Id() == h[baseline].progress.Id()
    ensures Pinned(h, baseline, n + 1)
  {
  }

  /** What a strict advance makes of the evidence so far. */
  function AfterAdvance(w: Evidence, n: nat, g: Gate, now: nat): Evidence {
    var first := if g.strictAdvances == 0 then n else w.first;
    var proved := g.strictAdvances >= 1 && g.firstStrictAt.Some? && now >= g.firstStrictAt.value + READY_FLOOR;
    Evidence(w.baseline, first, if proved && !g.ready then n else w.readying, n)
  }

  /** A strict advance is the new top of the chain. */
  lemma {:induction false} AdvanceTops(h: seq<GateEvent>, baseline: int, n: nat, last: Progress)
    requires n < |h| && ObservedAt(h, baseline) && baseline < n && HoldsTop(h, baseline, n, last)
    requires h[n].Observed? && StrictlyAbove(h[n].progress, last)
    ensures HoldsTop(h, baseline, n + 1, h[n].progress) && TopsChain(h, baseline, n, h[n].progress)
  {
  }

  lemma {:induction false} ChainOnAdvance(h: seq<GateEvent>, n: nat, w: Evidence)
    requires n < |h| && Coherent(Run(h[..n])) && Chain(h, n, w) && StrictAt(h, n)
    ensures Chain(h, n + 1, AfterAdvance(w, n, Run(h[..n]), h[n].now))
    ensures TopsChain(h, w.baseline, n, h[n].progress) && Pinned(h, w.baseline, n + 1)
  {
    RunStep(h, n);
    PinnedGrows(h, w.baseline, n);
    AdvanceTops(h, w.baseline, n, Run(h[..n]).last.value);
  }

  lemma {:induction false} AdvanceProves(h: seq<GateEvent>, n: nat, w: Evidence)
    requires n < |h| && StrictAt(h, n) && ObservedAt(h, w.baseline) && w.latest == n && w.baseline < n
    requires Chain(h, n + 1, w) && TopsChain(h, w.baseline, n, h[n].progress) && Pinned(h, w.baseline, n + 1)
    requires Run(h[..n + 1]).ready && Run(h[..n + 1]).liveUntil.Some?
    ensures Proves(h, n + 1, w, Run(h[..n + 1]).liveUntil.value)
  {
    RunStep(h, n);
  }

  /** Anything but a strict advance drops the report held, keeps it with all that was proved of it, or replaces it. */
  lemma OtherwiseKeptOrReplaced(g: Gate, e: GateEvent)
    requires Coherent(g) && !(e.Observed? && Continues(g, e.progress) && StrictlyAbove(e.progress, g.last.value))
    ensures var after := Apply(g, e).gate;
      || after.last.None?
      || KeepsReport(g, e, after)
      || (e.Observed? && !Continues(g, e.progress) && after.last == Some(e.progress) && after.strictAdvances == 0 && !after.ready)
  {
  }

  predicate KeepsReport(g: Gate, e: GateEvent, after: Gate) {
    && !e.Begun? && after.last == g.last && after.strictAdvances == g.strictAdvances
    && after.firstStrictAt == g.firstStrictAt && (after.ready ==> g.ready)
    && (e.Observed? && Apply(g, e).outcome.Ok? ==> Continues(g, e.progress))
  }

  lemma ChainKept(h: seq<GateEvent>, n: nat, w: Evidence)
    requires n < |h| && Coherent(Run(h[..n])) && Chain(h, n, w) && Run(h[..n]).last.Some? && !StrictAt(h, n)
    requires KeepsReport(Run(h[..n]), h[n], Run(h[..n + 1]))
    ensures Chain(h, n + 1, w)
  {
    PinnedGrows(h, w.baseline, n);
  }

  lemma ChainRestarts(h: seq<GateEvent>, n: nat)
    requires n < |h| && h[n].Observed? && !Continues(Run(h[..n]), h[n].progress)
    requires var g := Run(h[..n + 1]); g.last == Some(h[n].progress) && g.strictAdvances == 0 && !g.ready
    ensures Chain(h, n + 1, Evidence(n, n, n, n))
  {
  }

  lemma ChainOnOther(h: seq<GateEvent>, n: nat, w: Evidence) returns (w': Evidence)
    requires n < |h| && Coherent(Run(h[..n])) && Chain(h, n, w) && !StrictAt(h, n)
    ensures Chain(h, n + 1, w')
  {
    RunStep(h, n);
    var g, g' := Run(h[..n]), Run(h[..n + 1]);
    OtherwiseKeptOrReplaced(g, h[n]);
    w' := w;
    if g'.last.Some? {
      if KeepsReport(g, h[n], g') {
        ChainKept(h, n, w);
      } else {
        ChainRestarts(h, n);
        w' := Evidence(n, n, n, n);
      }
    }
  }

  /** A miss, a failure or a new authority closes the window. */
  lemma OpenWindowMeansUndisturbed(g: Gate, e: GateEvent)
    requires Apply(g, e).gate.liveUntil.Some?
    ensures !e.Begun? && !e.Missed? && Apply(g, e).outcome.Ok?
  {
  }

  lemma EvidenceStands(h: seq<GateEvent>, n: nat, w: Evidence, liveUntil: nat)
    requires n < |h| && Proves(h, n, w, liveUntil) && !h[n].Begun? && !h[n].Missed? && Succeeds(h, n)
    ensures Proves(h, n + 1, w, liveUntil)
  {
  }

  /** Every event keeps the evidence, or closes the window. */
  lemma EvidenceCarries(h: seq<GateEvent>, n: nat, w: Evidence)
    requires n < |h| && Run(h[..n]).liveUntil.Some? && Proves(h, n, w, Run(h[..n]).liveUntil.value)
    requires Run(h[..n + 1]).liveUntil == Run(h[..n]).liveUntil
    ensures Proves(h, n + 1, w, Run(h[..n + 1]).liveUntil.value)
  {
    RunStep(h, n);
    OpenWindowMeansUndisturbed(Run(h[..n]), h[n]);
    EvidenceStands(h, n, w, Run(h[..n]).liveUntil.value);
  }

  /** An event that leaves the window as it was leaves its evidence standing. */
  lemma WindowKept(h: seq<GateEvent>, n: nat, live: Evidence)
    requires n < |h| && !(Run(h[..n + 1]).liveUntil.Some? && Run(h[..n + 1]).liveUntil != Run(h[..n]).liveUntil)
    requires Run(h[..n]).liveUntil.Some? ==> Proves(h, n, live, Run(h[..n]).liveUntil.value)
    ensures Run(h[..n + 1]).liveUntil.Some? ==> Proves(h, n + 1, live, Run(h[..n + 1]).liveUntil.value)
  {
    if Run(h[..n + 1]).liveUntil.Some? {
      EvidenceCarries(h, n, live);
    }
  }

  /** Only a strict advance that finds or makes the gate ready moves the window. */
  lemma WindowMovesOnlyOnAdvance(g: Gate, e: GateEvent)
    ensures var g' := Apply(g, e).gate;
      g'.liveUntil.Some? && g'.liveUntil != g.liveUntil ==>
        e.Observed? && g'.ready && Continues(g, e.progress) && StrictlyAbove(e.progress, g.last.value)
  {
  }

  /** The chain the gate is on after `n` events, and the evidence behind any window it then holds open. */
  ghost predicate Backed(h: seq<GateEvent>, n: nat, chain: Evidence, live: Evidence)
    requires n <= |h|
  {
    Chain(h, n, chain) && (Run(h[..n]).liveUntil.Some? ==> Proves(h, n, live, Run(h[..n]).liveUntil.value))
  }

  lemma {:induction false} BackedOnAdvance(h: seq<GateEvent>, n: nat, chain: Evidence, live: Evidence)
    requires n < |h| && Coherent(Run(h[..n])) && Backed(h, n, chain, live) && StrictAt(h, n)
    ensures var w := AfterAdvance(chain, n, Run(h[..n]), h[n].now);
      Backed(h, n + 1, w, if Run(h[..n + 1]).ready then w else live)
  {
    var w := AfterAdvance(chain, n, Run(h[..n]), h[n].now);
    ChainOnAdvance(h, n, chain);
    if Run(h[..n + 1]).ready {
      if Run(h[..n + 1]).liveUntil.Some? {
        AdvanceProves(h, n, w);
      }
    } else {
      RunStep(h, n);
      WindowMovesOnlyOnAdvance(Run(h[..n]), h[n]);
      WindowKept(h, n, live);
    }
  }

  lemma {:induction false} TraceStep(h: seq<GateEvent>, n: nat, chain: Evidence, live: Evidence)
      returns (chain': Evidence, live': Evidence)
    requires n < |h| && Coherent(Run(h[..n])) && Backed(h, n, chain, live)
    ensures Backed(h, n + 1, chain', live')
  {
    if StrictAt(h, n) {
      BackedOnAdvance(h, n, chain, live);
      chain' := AfterAdvance(chain, n, Run(h[..n]), h[n].now);
      live' := if Run(h[..n + 1]).ready then chain' else live;
    } else {
      RunStep(h, n);
      WindowMovesOnlyOnAdvance(Run(h[..n]), h[n]);
      chain' := ChainOnOther(h, n, chain);
      live' := live;
      WindowKept(h, n, live);
    }
  }

  lemma {:induction false} Trace(h: seq<GateEvent>, n: nat) returns (chain: Evidence, live: Evidence)
    requires n <= |h|
    ensures Backed(h, n, chain, live)
    decreases n
  {
    chain, live := Evidence(0, 0, 0, 0), Evidence(0, 0, 0, 0);
    if n > 0 {
      chain, live := Trace(h, n - 1);
      ReachableGateIsCoherent(h[..n - 1]);
      chain, live := TraceStep(h, n - 1, chain, live);
    }
  }

  /**
   * PCM is allowed at `t` only within 125 ms of a strict advance over the report the gate held, above everything the
   * chain held before it, with no miss, failure or new authority since, made when the pinned report had advanced
   * strictly at least twice, 100 ms or more apart, since its baseline.
   */
  lemma OpenWindowWasProved(h: seq<GateEvent>, t: nat) returns (w: Evidence)
    requires AllowsPcm(Run(h), t)
    ensures Proves(h, |h|, w, Run(h).liveUntil.value) && t < h[w.latest].now + PCM_WINDOW
  {
    var chain;
    assert h[..|h|] == h;
    chain, w := Trace(h, |h|);
  }

  // ---- the discontinuity budget ----------------------------------------------------------

  /** Event `m` is a discontinuity the gate accepted as a new baseline. */
  predicate AcceptedRebaseline(h: seq<GateEvent>, m: nat)
    requires m < |h|
  {
    h[m].Observed? && Run(h[..m]).last.Some? && !Continues(Run(h[..m]), h[m].progress) && Succeeds(h, m)
  }

  /** Event `m` was charged to the budget (an accepted rebaseline is). */
  predicate Charged(h: seq<GateEvent>, m: nat)
    requires m < |h|
  {
    var g := Run(h[..m]);
    && h[m].Observed? && g.last.Some? && !Continues(g, h[m].progress) && !g.reproofPending
    && |DropExpired(g.discontinuities, h[m].now)| < DISCONTINUITY_BUDGET
  }

  /** By event `n` the clock had moved a whole window past event `i`. */
  ghost predicate AgedOut(h: seq<GateEvent>, n: nat, i: nat)
    requires i < n <= |h| && h[i].Observed?
  {
    exists e :: 0 <= e < n && Timed(h[e]) && h[i].now + DISCONTINUITY_WINDOW <= h[e].now
  }

  /** Charges not yet aged out are in the deque; two of them fill it. */
  ghost predicate Ledger(h: seq<GateEvent>, n: nat)
    requires n <= |h|
  {
    LedgerOf(h, n, Run(h[..n]).discontinuities)
  }

  ghost predicate LedgerOf(h: seq<GateEvent>, n: nat, seen: seq<nat>)
    requires n <= |h|
  {
    && (forall i | 0 <= i < n && Charged(h, i) :: AgedOut(h, n, i) || h[i].now in seen)
    && (forall i, j | 0 <= i < j < n && Charged(h, i) && Charged(h, j) ::
          AgedOut(h, n, i) || (|seen| == 2 && seen[0] == h[i].now && seen[1] == h[j].now))
  }

  lemma AgedOutGrows(h: seq<GateEvent>, n: nat, i: nat)
    requires i < n < |h| && h[i].Observed? && AgedOut(h, n, i)
    ensures AgedOut(h, n + 1, i)
  {
    var e :| 0 <= e < n && Timed(h[e]) && h[i].now + DISCONTINUITY_WINDOW <= h[e].now;
    assert e < n + 1;
  }

  /** An event that is not charged leaves the deque as it was. */
  lemma UnchargedStep(g: Gate, e: GateEvent)
    requires Coherent(g)
    requires e.Observed? && g.last.Some? && !Continues(g, e.progress) && !g.reproofPending ==>
      |DropExpired(g.discontinuities, e.now)| >= DISCONTINUITY_BUDGET
    ensures Apply(g, e).gate.discontinuities == g.discontinuities
  {
    if e.Observed? {
      DropExpiredShrinks(g.discontinuities, e.now);
    }
  }

  lemma {:induction false} LedgerGrows(h: seq<GateEvent>, n: nat, seen: seq<nat>)
    requires n < |h| && LedgerOf(h, n, seen) && !Charged(h, n)
    ensures LedgerOf(h, n + 1, seen)
  {
    forall i | 0 <= i < n && Charged(h, i) && AgedOut(h, n, i)
      ensures AgedOut(h, n + 1, i)
    {
      AgedOutGrows(h, n, i);
    }
  }

  lemma {:induction false} LedgerUncharged(h: seq<GateEvent>, n: nat)
    requires n < |h| && Ledger(h, n) && !Charged(h, n)
    ensures Ledger(h, n + 1)
  {
    RunStep(h, n);
    ReachableGateIsCoherent(h[..n]);
    UnchargedStep(Run(h[..n]), h[n]);
    LedgerGrows(h, n, Run(h[..n]).discontinuities);
  }

  /** An earlier charge has aged out by charge `n`, or is the only one left in the deque before it. */
  lemma ChargeAgesOrStays(h: seq<GateEvent>, n: nat, i: nat)
    requires i < n < |h| && Charged(h, i) && Charged(h, n)
    requires AgedOut(h, n, i) || h[i].now in Run(h[..n]).discontinuities
    ensures AgedOut(h, n + 1, i) || DropExpired(Run(h[..n]).discontinuities, h[n].now) == [h[i].now]
  {
    var seen, now := Run(h[..n]).discontinuities, h[n].now;
    if AgedOut(h, n, i) {
      AgedOutGrows(h, n, i);
    } else if now >= h[i].now + DISCONTINUITY_WINDOW {
      assert Timed(h[n]);
    } else {
      DropExpiredShrinks(seen, now);
    }
  }

  /** Two earlier charges cannot both be fresh at charge `n`: the elder has aged out. */
  lemma ElderChargeAges(h: seq<GateEvent>, n: nat, i: nat, j: nat)
    requires i < j < n < |h| && Charged(h, i) && Charged(h, j) && Charged(h, n)
    requires var seen := Run(h[..n]).discontinuities;
      AgedOut(h, n, i) || (|seen| == 2 && seen[0] == h[i].now && seen[1] == h[j].now)
    ensures AgedOut(h, n + 1, i)
  {
    if AgedOut(h, n, i) {
      AgedOutGrows(h, n, i);
    } else {
      assert h[n].now >= Run(h[..n]).discontinuities[0] + DISCONTINUITY_WINDOW && Timed(h[n]);
    }
  }

  lemma ChargedStep(g: Gate, p: Progress, now: nat)
    requires g.last.Some? && !Continues(g, p) && !g.reproofPending && |DropExpired(g.discontinuities, now)| < DISCONTINUITY_BUDGET
    ensures Observe(g, p, now).gate.discontinuities == DropExpired(g.discontinuities, now) + [now]
  {
  }

  /** Every earlier charge has aged out, or is the only one kept; of two earlier ones the elder has aged out. */
  lemma {:induction false} LedgerTakes(h: seq<GateEvent>, n: nat, kept: seq<nat>)
    requires n < |h| && Charged(h, n)
    requires forall i | 0 <= i < n && Charged(h, i) :: AgedOut(h, n + 1, i) || kept == [h[i].now]
    requires forall i, j | 0 <= i < j < n && Charged(h, i) && Charged(h, j) :: AgedOut(h, n + 1, i)
    ensures LedgerOf(h, n + 1, kept + [h[n].now])
  {
  }

  lemma {:induction false} LedgerCharged(h: seq<GateEvent>, n: nat)
    requires n < |h| && Ledger(h, n) && Charged(h, n)
    ensures Ledger(h, n + 1)
  {
    var kept := DropExpired(Run(h[..n]).discontinuities, h[n].now);
    RunStep(h, n);
    ChargedStep(Run(h[..n]), h[n].progress, h[n].now);
    forall i | 0 <= i < n && Charged(h, i)
      ensures AgedOut(h, n + 1, i) || kept == [h[i].now]
    {
      ChargeAgesOrStays(h, n, i);
    }
    forall i, j | 0 <= i < j < n && Charged(h, i) && Charged(h, j)
      ensures AgedOut(h, n + 1, i)
    {
      ElderChargeAges(h, n, i, j);
    }
    LedgerTakes(h, n, kept);
  }

  lemma LedgerStep(h: seq<GateEvent>, n: nat)
    requires n < |h| && Ledger(h, n)
    ensures Ledger(h, n + 1)
  {
    if Charged(h, n) {
      LedgerCharged(h, n);
    } else {
      LedgerUncharged(h, n);
    }
  }

  lemma {:induction false} LedgerHolds(h: seq<GateEvent>, n: nat)
    requires n <= |h|
    ensures Ledger(h, n)
  {
    if n == 0 {
      LedgerStarts(h);
    } else {
      LedgerHolds(h, n - 1);
      LedgerStep(h, n - 1);
    }
  }

  lemma LedgerStarts(h: seq<GateEvent>)
    ensures Ledger(h, 0)
  {
  }

  /**
   * Over the whole life of a peer, disarming and re-arming included, any three accepted rebaselines span at least
   * ten seconds.
   */
  lemma RebaselinesAreSpread(h: seq<GateEvent>, i: nat, j: nat, k: nat)
    requires Monotone(h) && i < j < k < |h|
    requires AcceptedRebaseline(h, i) && AcceptedRebaseline(h, j) && AcceptedRebaseline(h, k)
    ensures h[k].now >= h[i].now + DISCONTINUITY_WINDOW
  {
    LedgerHolds(h, k);
    var seen := Run(h[..k]).discontinuities;
    if AgedOut(h, k, i) {
      var e :| 0 <= e < k && Timed(h[e]) && h[i].now + DISCONTINUITY_WINDOW <= h[e].now;
    } else {
      assert |seen| == 2 && seen[0] == h[i].now;
      assert |DropExpired(seen, h[k].now)| < 2;
    }
  }
}
