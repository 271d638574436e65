/** The RTP gate told exactly: when its PCM window is open, when a discontinuity is forgiven, when a re-proof is pending. */
module RtpExact {
  import opened Prelude
  import opened RtpProgress

  // ---- what the comparisons mean -------------------------------------------------------------------

  /** A report continues the one the gate holds: same stream, no counter gone back; it advances if all three moved on. */
  lemma ReportsCompare(g: Gate, p: Progress)
    requires g.last.Some? && g.identity == Some(g.last.value.Id())
    ensures var q := g.last.value;
      && (Continues(g, p) <==>
            && p.reportId == q.reportId && p.ssrc == q.ssrc && p.mid == q.mid
            && p.packets >= q.packets && p.bytes >= q.bytes && p.nonconcealed >= q.nonconcealed)
      && (StrictlyAbove(p, q) <==> p.packets > q.packets && p.bytes > q.bytes && p.nonconcealed > q.nonconcealed)
  {
  }

  // ---- the report held ------------------------------------------------------------------------------

  /** Event `k` is a report, and no authority began between it and state `n`. */
  predicate ReportedAt(h: seq<GateEvent>, k: nat, n: nat) {
    k < n <= |h| && h[k].Observed? && forall j: nat | k < j < n :: !h[j].Begun?
  }

  ghost predicate Reported(h: seq<GateEvent>, n: nat) {
    exists k: nat :: ReportedAt(h, k, n)
  }

  lemma {:induction false} ReportedNext(h: seq<GateEvent>, n: nat)
    requires n < |h|
    ensures Reported(h, n + 1) <==> h[n].Observed? || (Reported(h, n) && !h[n].Begun?)
  {
    if h[n].Observed? {
      assert ReportedAt(h, n, n + 1);
    } else if Reported(h, n + 1) {
      var k: nat :| ReportedAt(h, k, n + 1);
      assert ReportedAt(h, k, n);
    } else if Reported(h, n) && !h[n].Begun? {
      var k: nat :| ReportedAt(h, k, n);
      assert ReportedAt(h, k, n + 1);
    }
  }

  lemma HoldsStep(g: Gate, e: GateEvent)
    ensures Apply(g, e).gate.last.Some? <==> e.Observed? || (g.last.Some? && !e.Begun?)
  {
  }

  /** The gate holds a report exactly when one has come since the authority began. */
  lemma {:induction false} HoldsIff(h: seq<GateEvent>, n: nat)
    requires n <= |h|
    ensures Run(h[..n]).last.Some? <==> Reported(h, n)
  {
    if n > 0 {
      HoldsIff(h, n - 1);
      RunStep(h, n - 1);
      HoldsStep(Run(h[..n - 1]), h[n - 1]);
      ReportedNext(h, n - 1);
    }
  }

  // ---- the PCM window ----------------------------------------------------------------------------------

  /** Event `m` proves the report so close to the platform's last instant that its window cannot be dated. */
  ghost predicate Undatable(h: seq<GateEvent>, m: nat) {
    StrictAt(h, m) && Run(h[..m + 1]).ready && h[m].now + PCM_WINDOW > MAX_INSTANT
  }

  ghost predicate NoneUndatable(h: seq<GateEvent>, from: nat) {
    forall m: nat | from <= m < |h| :: !Undatable(h, m)
  }

  /** An event of a pinned stretch keeps the report held, and what was counted of it. */
  lemma PinnedStep(g: Gate, e: GateEvent)
    requires Coherent(g) && g.last.Some? && !e.Begun?
    requires e.Observed? && !Continues(g, e.progress) ==> Apply(g, e).gate.last != Some(e.progress)
    ensures var u := Apply(g, e).gate;
      && u.last.Some? && (g.strictAdvances >= 1 ==> u.strictAdvances >= 1)
      && (g.firstStrictAt.Some? ==> u.firstStrictAt == g.firstStrictAt)
      && (u.firstStrictAt != g.firstStrictAt ==> e.Observed? && u.firstStrictAt == Some(e.now))
      && (e.Observed? && Continues(g, e.progress) && StrictlyAbove(e.progress, g.last.value) ==>
            u.strictAdvances >= 1 && u.firstStrictAt.Some?)
  {
  }

  /** The first strict advance counted lies before everything still to come. */
  ghost predicate Counted(h: seq<GateEvent>, n: nat, g: Gate) {
    && g.last.Some?
    && (g.firstStrictAt.Some? ==> forall j | n <= j < |h| && Timed(h[j]) :: g.firstStrictAt.value <= h[j].now)
  }

  lemma {:induction false} CountedStep(h: seq<GateEvent>, n: nat, g: Gate)
    requires n < |h| && Monotone(h) && Coherent(g) && Counted(h, n, g) && !h[n].Begun?
    requires h[n].Observed? && !Continues(g, h[n].progress) ==> Apply(g, h[n]).gate.last != Some(h[n].progress)
    ensures Counted(h, n + 1, Apply(g, h[n]).gate)
  {
    PinnedStep(g, h[n]);
  }

  /** Event `n` neither begins an authority nor brings a new baseline. */
  ghost predicate Pins(h: seq<GateEvent>, n: nat) {
    n < |h| && !h[n].Begun? && !Adopted(h, n)
  }

  ghost predicate AllPin(h: seq<GateEvent>, from: nat, end: nat) {
    forall m: nat | from <= m < end :: Pins(h, m)
  }

  lemma {:induction false} PinnedCounts(h: seq<GateEvent>, baseline: nat, n: nat)
    requires baseline < n <= |h| && Adopted(h, baseline) && AllPin(h, baseline + 1, n) && Monotone(h)
    ensures Counted(h, n, Run(h[..n]))
    decreases n
  {
    if n - 1 > baseline {
      PinnedCounts(h, baseline, n - 1);
      assert Pins(h, n - 1);
      PinKeepsCount(h, n - 1);
    } else {
      AdoptedStarts(h, n - 1);
    }
  }

  lemma {:induction false} PinKeepsCount(h: seq<GateEvent>, n: nat)
    requires Pins(h, n) && Monotone(h) && Counted(h, n, Run(h[..n]))
    ensures Counted(h, n + 1, Run(h[..n + 1]))
  {
    RunStep(h, n);
    ReachableGateIsCoherent(h[..n]);
    CountedStep(h, n, Run(h[..n]));
  }

  /** An adopted report starts the count anew. */
  lemma {:induction false} AdoptedStarts(h: seq<GateEvent>, n: nat)
    requires n < |h| && Adopted(h, n)
    ensures Counted(h, n + 1, Run(h[..n + 1]))
  {
    RunStep(h, n);
    ReachableGateIsCoherent(h[..n]);
    BaselineStarts(Run(h[..n]), h[n].progress, h[n].now);
  }

  lemma BaselineStarts(g: Gate, p: Progress, now: nat)
    requires Coherent(g) && !Continues(g, p) && Observe(g, p, now).gate.last == Some(p)
    ensures Observe(g, p, now).gate.firstStrictAt.None? && Observe(g, p, now).gate.strictAdvances == 0
  {
  }

  /** The gate has counted a strict advance, no later than `t`. */
  ghost predicate CountedBy(g: Gate, t: nat) {
    g.strictAdvances >= 1 && g.firstStrictAt.Some? && g.firstStrictAt.value <= t
  }

  lemma {:induction false} PinKeepsAdvance(h: seq<GateEvent>, n: nat, t: nat)
    requires Pins(h, n) && Run(h[..n]).last.Some? && CountedBy(Run(h[..n]), t)
    ensures CountedBy(Run(h[..n + 1]), t)
  {
    RunStep(h, n);
    ReachableGateIsCoherent(h[..n]);
    PinnedStep(Run(h[..n]), h[n]);
  }

  lemma {:induction false} AdvanceIsCounted(h: seq<GateEvent>, n: nat)
    requires n < |h| && StrictAt(h, n) && Counted(h, n, Run(h[..n]))
    ensures CountedBy(Run(h[..n + 1]), h[n].now)
  {
    RunStep(h, n);
    ReachableGateIsCoherent(h[..n]);
    PinnedStep(Run(h[..n]), h[n]);
  }

  /** After a strict advance of a pinned stretch, one is counted, no later than it. */
  lemma {:induction false} StrictCounts(h: seq<GateEvent>, baseline: nat, m: nat, n: nat)
    requires baseline < m < n <= |h| && Adopted(h, baseline) && AllPin(h, baseline + 1, n) && Monotone(h) && StrictAt(h, m)
    ensures CountedBy(Run(h[..n]), h[m].now)
    decreases n
  {
    PinnedCounts(h, baseline, n - 1);
    if n - 1 > m {
      StrictCounts(h, baseline, m, n - 1);
      assert Pins(h, n - 1);
      PinKeepsAdvance(h, n - 1, h[m].now);
    } else {
      AdvanceIsCounted(h, m);
    }
  }

  /** A strict advance of a report that has advanced before, 100 ms or more ago, opens the window. */
  lemma AdvanceOpens(g: Gate, p: Progress, now: nat)
    requires g.strictAdvances >= 1 && g.firstStrictAt.Some? && now >= g.firstStrictAt.value + READY_FLOOR
    requires Continues(g, p) && StrictlyAbove(p, g.last.value) && now + PCM_WINDOW <= MAX_INSTANT
    ensures Observe(g, p, now).gate.liveUntil == Some(now + PCM_WINDOW)
  {
  }

  lemma {:induction false} StrictOpens(h: seq<GateEvent>, n: nat, t: nat)
    requires StrictAt(h, n) && h[n].now + PCM_WINDOW <= MAX_INSTANT && CountedBy(Run(h[..n]), t) && h[n].now >= t + READY_FLOOR
    ensures Run(h[..n + 1]).liveUntil == Some(h[n].now + PCM_WINDOW)
  {
    RunStep(h, n);
    AdvanceOpens(Run(h[..n]), h[n].progress, h[n].now);
  }

  lemma {:induction false} StretchOpens(h: seq<GateEvent>, baseline: nat, first: nat, latest: nat)
    requires baseline < first < latest < |h| && Monotone(h) && Adopted(h, baseline)
    requires StrictAt(h, first) && StrictAt(h, latest) && AllPin(h, baseline + 1, latest)
    requires h[latest].now >= h[first].now + READY_FLOOR && h[latest].now + PCM_WINDOW <= MAX_INSTANT
    ensures Run(h[..latest + 1]).liveUntil == Some(h[latest].now + PCM_WINDOW)
  {
    StrictCounts(h, baseline, first, latest);
    StrictOpens(h, latest, h[first].now);
  }

  /** An undisturbed event leaves an open window as it is or moves it later, if the new one can be dated. */
  lemma OpenStays(g: Gate, e: GateEvent)
    requires g.liveUntil.Some? && !e.Begun? && !e.Missed? && Apply(g, e).outcome.Ok?
    requires e.Observed? && Continues(g, e.progress) && StrictlyAbove(e.progress, g.last.value) && Apply(g, e).gate.ready ==>
      e.now + PCM_WINDOW <= MAX_INSTANT
    ensures var u := Apply(g, e).gate.liveUntil; u == g.liveUntil || (e.Observed? && u == Some(e.now + PCM_WINDOW))
  {
  }

  ghost predicate OpenPast(g: Gate, live: nat) {
    g.liveUntil.Some? && live <= g.liveUntil.value
  }

  lemma {:induction false} WindowStep(h: seq<GateEvent>, k: nat, live: nat)
    requires k < |h| && !Undatable(h, k) && Undisturbed(h, k, k + 1) && OpenPast(Run(h[..k]), live)
    requires h[k].Observed? ==> live <= h[k].now + PCM_WINDOW
    ensures OpenPast(Run(h[..k + 1]), live)
  {
    RunStep(h, k);
    OpenStays(Run(h[..k]), h[k]);
  }

  lemma {:induction false} WindowLasts(h: seq<GateEvent>, m: nat, n: nat, live: nat)
    requires m <= n <= |h| && NoneUndatable(h, m) && OpenPast(Run(h[..m]), live) && Undisturbed(h, m, n)
    requires forall k | m <= k < n && h[k].Observed? :: live <= h[k].now + PCM_WINDOW
    ensures OpenPast(Run(h[..n]), live)
    decreases n
  {
    if m < n {
      assert Undisturbed(h, m, n - 1) && Undisturbed(h, n - 1, n);
      WindowLasts(h, m, n - 1, live);
      assert !Undatable(h, n - 1);
      WindowStep(h, n - 1, live);
    }
  }

  lemma {:induction false} UndatableCloses(h: seq<GateEvent>, m: nat)
    requires m < |h| && Undatable(h, m)
    ensures Run(h[..m + 1]).liveUntil.None?
  {
    RunStep(h, m);
    AdvanceDates(Run(h[..m]), h[m].progress, h[m].now);
  }

  lemma AdvanceDates(g: Gate, p: Progress, now: nat)
    requires Continues(g, p) && StrictlyAbove(p, g.last.value) && Observe(g, p, now).gate.ready
    ensures Observe(g, p, now).gate.liveUntil == CheckedAdd(now, PCM_WINDOW)
  {
  }

  lemma ClosedStays(g: Gate, e: GateEvent)
    requires g.liveUntil.None? && (e.Observed? ==> e.now + PCM_WINDOW > MAX_INSTANT)
    ensures Apply(g, e).gate.liveUntil.None?
  {
  }

  ghost predicate ClosedAt(h: seq<GateEvent>, n: nat) {
    n <= |h| && Run(h[..n]).liveUntil.None?
  }

  /** A report of event `k` would come too late for a window to be dated. */
  predicate TooLate(h: seq<GateEvent>, k: nat) {
    k < |h| && (h[k].Observed? ==> h[k].now + PCM_WINDOW > MAX_INSTANT)
  }

  lemma {:induction false} ClosedNext(h: seq<GateEvent>, n: nat)
    requires ClosedAt(h, n) && TooLate(h, n)
    ensures ClosedAt(h, n + 1)
  {
    RunStep(h, n);
    ClosedStays(Run(h[..n]), h[n]);
  }

  lemma {:induction false} ClosedForGood(h: seq<GateEvent>, m: nat, n: nat)
    requires m <= n <= |h| && ClosedAt(h, m) && forall k: nat | m <= k < n :: TooLate(h, k)
    ensures ClosedAt(h, n)
    decreases n
  {
    if m < n {
      ClosedForGood(h, m, n - 1);
      ClosedNext(h, n - 1);
    }
  }

  /** After an advance that cannot be dated the window never opens again. */
  lemma {:induction false} UndatableForGood(h: seq<GateEvent>, m: nat)
    requires m < |h| && Monotone(h) && Undatable(h, m)
    ensures ClosedAt(h, |h|)
  {
    UndatableCloses(h, m);
    ClosedForGood(h, m + 1, |h|);
  }

  /** The evidence that PCM is allowed at `t`. */
  ghost predicate Allowed(h: seq<GateEvent>, t: nat, w: Evidence) {
    && ObservedAt(h, w.latest) && Proves(h, |h|, w, h[w.latest].now + PCM_WINDOW) && t < h[w.latest].now + PCM_WINDOW
    && h[w.latest].now + PCM_WINDOW <= MAX_INSTANT && NoneUndatable(h, w.latest + 1)
  }

  lemma {:induction false} AllowedWhenOpen(h: seq<GateEvent>, t: nat) returns (w: Evidence)
    requires Monotone(h) && AllowsPcm(Run(h), t)
    ensures Allowed(h, t, w)
  {
    w := OpenWindowWasProved(h, t);
    ReachableGateIsCoherent(h);
    NoneUndatableWhenOpen(h, w.latest + 1);
  }

  lemma {:induction false} NoneUndatableWhenOpen(h: seq<GateEvent>, from: nat)
    requires Monotone(h) && Run(h).liveUntil.Some?
    ensures NoneUndatable(h, from)
  {
    assert h[..|h|] == h;
    forall m: nat | from <= m < |h|
      ensures !Undatable(h, m)
    {
      if Undatable(h, m) {
        UndatableForGood(h, m);
      }
    }
  }

  /**
   * PCM is allowed at `t` exactly when, within the last 125 ms and with no miss, failure or new authority since, the
   * report advanced strictly, having advanced strictly at least twice, 100 ms or more apart, since its baseline, and
   * neither that advance nor a later proving one came too close to the platform's last instant to be dated.
   */
  lemma {:induction false} OpenWindowIff(h: seq<GateEvent>, t: nat)
    requires Monotone(h)
    ensures AllowsPcm(Run(h), t) <==> exists w :: Allowed(h, t, w)
  {
    if AllowsPcm(Run(h), t) {
      var w := AllowedWhenOpen(h, t);
    }
    if w :| Allowed(h, t, w) {
      EvidenceStretch(h, t, w);
      StretchAllows(h, w.baseline, w.first, w.latest, t);
    }
  }

  /** A baseline, two strict advances since, 100 ms or more apart, and nothing after the second that closes the window. */
  ghost predicate Stretch(h: seq<GateEvent>, baseline: int, first: int, latest: int) {
    && 0 <= baseline < first < latest < |h| && Adopted(h, baseline) && StrictAt(h, first) && StrictAt(h, latest)
    && AllPin(h, baseline + 1, latest) && h[latest].now >= h[first].now + READY_FLOOR
    && Undisturbed(h, latest + 1, |h|) && NoneUndatable(h, latest + 1) && h[latest].now + PCM_WINDOW <= MAX_INSTANT
  }

  lemma {:induction false} EvidenceStretch(h: seq<GateEvent>, t: nat, w: Evidence)
    requires Monotone(h) && Allowed(h, t, w)
    ensures Stretch(h, w.baseline, w.first, w.latest)
  {
  }

  lemma {:induction false} StretchAllows(h: seq<GateEvent>, baseline: int, first: int, latest: int, t: nat)
    requires Monotone(h) && Stretch(h, baseline, first, latest) && t < h[latest].now + PCM_WINDOW
    ensures AllowsPcm(Run(h), t)
  {
    StretchOpens(h, baseline, first, latest);
    AdvanceLasts(h, latest, t);
  }

  lemma {:induction false} AdvanceLasts(h: seq<GateEvent>, m: nat, t: nat)
    requires m < |h| && h[m].Observed? && Monotone(h) && NoneUndatable(h, m + 1) && Undisturbed(h, m + 1, |h|)
    requires Run(h[..m + 1]).liveUntil == Some(h[m].now + PCM_WINDOW) && t < h[m].now + PCM_WINDOW
    ensures AllowsPcm(Run(h), t)
  {
    WindowLasts(h, m + 1, |h|, h[m].now + PCM_WINDOW);
    assert h[..|h|] == h;
  }

  // ---- the budget -----------------------------------------------------------------------------------------

  /** Event `m` is a report that does not continue the one held. */
  predicate DiscontinuousAt(h: seq<GateEvent>, m: nat) {
    m < |h| && h[m].Observed? && Run(h[..m]).last.Some? && !Continues(Run(h[..m]), h[m].progress)
  }

  /** What a discontinuity is answered by, in terms of the deque. */
  lemma AcceptsIff(g: Gate, p: Progress, now: nat)
    requires g.last.Some? && !Continues(g, p)
    ensures Observe(g, p, now).outcome.Ok? <==>
      && !g.reproofPending && |DropExpired(g.discontinuities, now)| < DISCONTINUITY_BUDGET
      && now + REPROOF_TIMEOUT <= MAX_INSTANT
  {
  }

  lemma {:induction false} ChargedIffAccepted(h: seq<GateEvent>, m: nat)
    requires m < |h| && (h[m].Observed? ==> h[m].now + REPROOF_TIMEOUT <= MAX_INSTANT)
    ensures Charged(h, m) <==> AcceptedRebaseline(h, m)
  {
    if DiscontinuousAt(h, m) {
      AcceptsIff(Run(h[..m]), h[m].progress, h[m].now);
    }
  }

  /** `at` lists, in order, the charged events whose times the deque holds. */
  ghost predicate Dated(h: seq<GateEvent>, n: nat, seen: seq<nat>, at: seq<nat>)
    requires n <= |h|
  {
    && |at| == |seen| && (forall i :: 0 <= i < |at| ==> at[i] < n && Charged(h, at[i]) && h[at[i]].now == seen[i])
    && (forall i, j :: 0 <= i < j < |at| ==> at[i] < at[j])
  }

  /** Dropping the expired times drops a front of the deque. */
  lemma {:induction false} DropsFront(seen: seq<nat>, now: nat) returns (k: nat)
    ensures k <= |seen| && DropExpired(seen, now) == seen[k..]
    ensures k < |seen| ==> now < seen[k] + DISCONTINUITY_WINDOW
  {
    k := 0;
    if seen != [] && now >= seen[0] + DISCONTINUITY_WINDOW {
      k := DropsFront(seen[1..], now);
      assert seen[1..][k..] == seen[k + 1..];
      k := k + 1;
    }
  }

  lemma {:induction false} DatedLater(h: seq<GateEvent>, n: nat, seen: seq<nat>, at: seq<nat>, k: nat)
    requires n < |h| && Dated(h, n, seen, at) && k <= |seen|
    ensures Dated(h, n + 1, seen[k..], at[k..])
  {
  }

  lemma {:induction false} DatedCharge(h: seq<GateEvent>, n: nat, seen: seq<nat>, at: seq<nat>)
    requires n < |h| && Dated(h, n, seen, at) && Charged(h, n)
    ensures Dated(h, n + 1, seen + [h[n].now], at + [n])
  {
  }

  lemma {:induction false} DequeIsDated(h: seq<GateEvent>, n: nat) returns (at: seq<nat>)
    requires n <= |h|
    ensures Dated(h, n, Run(h[..n]).discontinuities, at)
  {
    at := [];
    if n > 0 {
      at := DequeIsDated(h, n - 1);
      at := DatedNext(h, n - 1, at);
    }
  }

  lemma {:induction false} DatedNext(h: seq<GateEvent>, n: nat, at: seq<nat>) returns (at': seq<nat>)
    requires n < |h| && Dated(h, n, Run(h[..n]).discontinuities, at)
    ensures Dated(h, n + 1, Run(h[..n + 1]).discontinuities, at')
  {
    var g := Run(h[..n]);
    RunStep(h, n);
    ReachableGateIsCoherent(h[..n]);
    if Charged(h, n) {
      var k := DropsFront(g.discontinuities, h[n].now);
      ChargedStep(g, h[n].progress, h[n].now);
      DatedLater(h, n, g.discontinuities, at, k);
      DatedFront(h, n, g.discontinuities, at, k);
      at' := at[k..] + [n];
    } else {
      UnchargedStep(g, h[n]);
      DatedLater(h, n, g.discontinuities, at, 0);
      assert g.discontinuities[0..] == g.discontinuities && at[0..] == at;
      at' := at;
    }
  }

  lemma {:induction false} DatedFront(h: seq<GateEvent>, n: nat, seen: seq<nat>, at: seq<nat>, k: nat)
    requires n < |h| && Dated(h, n, seen, at) && k <= |seen| && Charged(h, n)
    ensures Dated(h, n + 1, seen[k..] + [h[n].now], at[k..] + [n])
  {
    assert Dated(h, n, seen[k..], at[k..]);
    DatedCharge(h, n, seen[k..], at[k..]);
  }

  /** Two accepted rebaselines before event `n` lie within the ten seconds before it. */
  ghost predicate BudgetSpent(h: seq<GateEvent>, n: nat)
    requires n < |h| && h[n].Observed?
  {
    exists i, j | 0 <= i < j < n ::
      AcceptedRebaseline(h, i) && AcceptedRebaseline(h, j) && h[n].now < h[i].now + DISCONTINUITY_WINDOW
  }

  lemma {:induction false} FullMeansSpent(h: seq<GateEvent>, n: nat)
    requires n < |h| && h[n].Observed? && Monotone(h) && h[n].now + REPROOF_TIMEOUT <= MAX_INSTANT
    requires |DropExpired(Run(h[..n]).discontinuities, h[n].now)| >= 2
    ensures BudgetSpent(h, n)
  {
    var seen := Run(h[..n]).discontinuities;
    var at := DequeIsDated(h, n);
    var k := DropsFront(seen, h[n].now);
    ChargedIffAccepted(h, at[k]);
    ChargedIffAccepted(h, at[k + 1]);
    assert h[at[k]].now == seen[k] && at[k] < at[k + 1];
  }

  lemma {:induction false} SpentMeansFull(h: seq<GateEvent>, n: nat)
    requires n < |h| && h[n].Observed? && Monotone(h) && h[n].now + REPROOF_TIMEOUT <= MAX_INSTANT && BudgetSpent(h, n)
    ensures |DropExpired(Run(h[..n]).discontinuities, h[n].now)| >= 2
  {
    var i, j :| 0 <= i < j < n && AcceptedRebaseline(h, i) && AcceptedRebaseline(h, j) && h[n].now < h[i].now + DISCONTINUITY_WINDOW;
    var seen := Run(h[..n]).discontinuities;
    ChargedIffAccepted(h, i);
    ChargedIffAccepted(h, j);
    LedgerHolds(h, n);
    assert !AgedOut(h, n, i) by {
      assert forall e | 0 <= e < n && Timed(h[e]) :: h[e].now <= h[n].now;
    }
    assert |seen| == 2 && seen[0] == h[i].now;
  }

  /**
   * A discontinuity is forgiven exactly when no re-proof is pending, fewer than two were forgiven in the ten seconds
   * before it, over the whole life of the gate, and its own re-proof deadline exists on the platform.
   */
  lemma {:induction false} ForgivenIff(h: seq<GateEvent>, n: nat)
    requires Monotone(h) && DiscontinuousAt(h, n)
    ensures AcceptedRebaseline(h, n) <==>
      !SomePending(h, n) && !BudgetSpent(h, n) && h[n].now + REPROOF_TIMEOUT <= MAX_INSTANT
  {
    PendingIff(h, n);
    AcceptsIff(Run(h[..n]), h[n].progress, h[n].now);
    if h[n].now + REPROOF_TIMEOUT <= MAX_INSTANT {
      if BudgetSpent(h, n) {
        SpentMeansFull(h, n);
      } else if |DropExpired(Run(h[..n]).discontinuities, h[n].now)| >= 2 {
        FullMeansSpent(h, n);
      }
    }
  }

  // ---- the re-proof ------------------------------------------------------------------------------------------

  /** Event `k` ends a pending re-proof: a new authority, any failure, or the strict advance that proves the report. */
  predicate SettlesAt(h: seq<GateEvent>, k: nat) {
    k < |h| && (h[k].Begun? || !Succeeds(h, k) || (StrictAt(h, k) && Run(h[..k + 1]).ready))
  }

  /** Event `m` set the re-proof that is pending at `n`. */
  ghost predicate PendingSince(h: seq<GateEvent>, m: nat, n: nat) {
    m < n <= |h| && AcceptedRebaseline(h, m) && forall k | m < k < n :: !SettlesAt(h, k)
  }

  ghost predicate SomePending(h: seq<GateEvent>, n: nat) {
    exists m :: PendingSince(h, m, n)
  }

  lemma PendingStep(g: Gate, e: GateEvent)
    requires Coherent(g)
    ensures var s := Apply(g, e);
      var accepted := e.Observed? && g.last.Some? && !Continues(g, e.progress) && s.outcome.Ok?;
      var proves := e.Observed? && Continues(g, e.progress) && StrictlyAbove(e.progress, g.last.value) && s.gate.ready;
      && (s.gate.reproofPending <==> accepted || (g.reproofPending && !e.Begun? && s.outcome.Ok? && !proves))
      && (accepted ==> s.gate.reproofDeadline == Some(e.now + REPROOF_TIMEOUT))
      && (!accepted && s.gate.reproofPending ==> s.gate.reproofDeadline == g.reproofDeadline)
  {
  }

  lemma {:induction false} PendingNext(h: seq<GateEvent>, n: nat)
    requires n < |h|
    ensures SomePending(h, n + 1) <==> AcceptedRebaseline(h, n) || (SomePending(h, n) && !SettlesAt(h, n))
  {
    if SomePending(h, n + 1) {
      var m: nat :| PendingSince(h, m, n + 1);
      if m < n {
        assert !SettlesAt(h, n) && PendingSince(h, m, n);
      }
    }
    if AcceptedRebaseline(h, n) {
      assert PendingSince(h, n, n + 1);
    } else if SomePending(h, n) && !SettlesAt(h, n) {
      var m: nat :| PendingSince(h, m, n);
      assert PendingSince(h, m, n + 1);
    }
  }

  lemma {:induction false} PendingGoes(h: seq<GateEvent>, n: nat)
    requires n < |h|
    ensures Run(h[..n + 1]).reproofPending <==> AcceptedRebaseline(h, n) || (Run(h[..n]).reproofPending && !SettlesAt(h, n))
  {
    ReachableGateIsCoherent(h[..n]);
    PendingStep(Run(h[..n]), h[n]);
    RunStep(h, n);
  }

  /** A re-proof is pending exactly since an accepted rebaseline that nothing has settled. */
  lemma {:induction false} PendingIff(h: seq<GateEvent>, n: nat)
    requires n <= |h|
    ensures Run(h[..n]).reproofPending <==> SomePending(h, n)
  {
    if n > 0 {
      PendingIff(h, n - 1);
      PendingGoes(h, n - 1);
      PendingNext(h, n - 1);
    }
  }

  ghost predicate DueAt(g: Gate, deadline: nat) {
    g.reproofPending && g.reproofDeadline == Some(deadline)
  }

  lemma {:induction false} PendingStarts(h: seq<GateEvent>, n: nat)
    requires n < |h| && AcceptedRebaseline(h, n)
    ensures DueAt(Run(h[..n + 1]), h[n].now + REPROOF_TIMEOUT)
  {
    ReachableGateIsCoherent(h[..n]);
    PendingStep(Run(h[..n]), h[n]);
    RunStep(h, n);
  }

  lemma {:induction false} PendingStays(h: seq<GateEvent>, n: nat, deadline: nat)
    requires n < |h| && DueAt(Run(h[..n]), deadline) && !SettlesAt(h, n)
    ensures DueAt(Run(h[..n + 1]), deadline)
  {
    ReachableGateIsCoherent(h[..n]);
    PendingStep(Run(h[..n]), h[n]);
    RunStep(h, n);
  }

  /** The deadline of a pending re-proof is 500 ms after the rebaseline that set it. */
  lemma {:induction false} PendingUntil(h: seq<GateEvent>, m: nat, n: nat)
    requires PendingSince(h, m, n)
    ensures DueAt(Run(h[..n]), h[m].now + REPROOF_TIMEOUT)
    decreases n
  {
    if m < n - 1 {
      PendingUntil(h, m, n - 1);
      assert !SettlesAt(h, n - 1);
      PendingStays(h, n - 1, h[m].now + REPROOF_TIMEOUT);
    } else {
      PendingStarts(h, m);
    }
  }

  /** Checking the clock fails the gate exactly when some unsettled rebaseline is 500 ms old. */
  lemma {:induction false} OverdueIff(h: seq<GateEvent>, now: nat)
    ensures Apply(Run(h), Checked(now)).outcome.Err? <==>
      exists m: nat :: PendingSince(h, m, |h|) && now >= h[m].now + REPROOF_TIMEOUT
  {
    assert h[..|h|] == h;
    PendingIff(h, |h|);
    if SomePending(h, |h|) {
      var m: nat :| PendingSince(h, m, |h|);
      PendingUntil(h, m, |h|);
    }
    forall m: nat | PendingSince(h, m, |h|)
      ensures Run(h).reproofDeadline == Some(h[m].now + REPROOF_TIMEOUT)
    {
      PendingUntil(h, m, |h|);
    }
  }
}
