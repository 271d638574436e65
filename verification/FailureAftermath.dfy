/** What can still come out of a peer once its authority protocol has failed. */
module FailureAftermath {
  import opened Prelude
  import opened SessionBindings
  import opened DesktopPeers
  import Auth = MicrophoneAuthority
  import Codec = AuthorityCodec
  import Rtp = RtpProgress
  import Route = RouteGates

  lemma FailedAuthorityIsDisarmed(b: SessionBinding, h: seq<Event>, n: nat)
    requires n <= |h|
    ensures Run(b, h[..n]).authority.protocolFailed ==> !Run(b, h[..n]).authority.armed
  {
    EveryStateIsSound(b, h, n);
  }

  lemma {:induction false} FailureSticks(b: SessionBinding, h: seq<Event>, f: nat, n: nat)
    requires f <= n <= |h| && Run(b, h[..f]).authority.protocolFailed
    ensures Run(b, h[..n]).authority.protocolFailed
    decreases n - f
  {
    if f < n {
      FailureSticksOnce(b, h, f);
      FailureSticks(b, h, f + 1, n);
    }
  }

  lemma FailureSticksOnce(b: SessionBinding, h: seq<Event>, n: nat)
    requires n < |h| && Run(b, h[..n]).authority.protocolFailed
    ensures Run(b, h[..n + 1]).authority.protocolFailed
  {
    FailedAuthorityIsDisarmed(b, h, n);
    AuthorityEvolves(Run(b, h[..n]), h[n]);
    RunStep(b, h, n);
  }

  lemma SnapshotPrecedesFailure(b: SessionBinding, h: seq<Event>, f: nat, d: Delivery)
    requires f <= |h| && Run(b, h[..f]).authority.protocolFailed && Authorized(b, h, d)
    ensures d.taken < f
  {
    if f <= d.taken {
      FailureSticks(b, h, f, d.taken);
      assert false;
    }
  }

  /**
   * Once the authority protocol has failed, no frame that takes its snapshot afterwards is ever delivered, so at
   * most one frame, the one already in hand, can still come out.
   */
  lemma AtMostOneFrameOutlivesFailure(b: SessionBinding, h: seq<Event>, f: nat)
    requires f <= |h| && Run(b, h[..f]).authority.protocolFailed
    ensures forall i | 0 <= i < |Run(b, h).deliveries| :: Run(b, h).deliveries[i].taken < f
    ensures forall i | 0 <= i < |Run(b, h).deliveries| - 1 :: Run(b, h).deliveries[i].routed < f
  {
    assert h[..|h|] == h;
    EveryHistoryIsOrdered(b, h, |h|);
    var log := Run(b, h).deliveries;
    forall i | 0 <= i < |log|
      ensures log[i].taken < f
    {
      SnapshotPrecedesFailure(b, h, f, log[i]);
    }
    forall i | 0 <= i < |log| - 1
      ensures log[i].routed < f
    {
      assert log[i].routed < log[i + 1].taken;
    }
  }

  // ---- exactly when one more frame can come out ---------------------------------------------------------

  predicate BelowLimit(r: Rtp.Progress) {
    r.packets < U64_MAX && r.bytes < U64_MAX && r.nonconcealed < U64_MAX
  }

  /** The first instant from `now` on at which one more strict advance would open the window. */
  function OpensFrom(g: Rtp.Gate, now: nat): nat {
    if !g.ready && g.firstStrictAt.Some? && now < g.firstStrictAt.value + Rtp.READY_FLOOR
    then g.firstStrictAt.value + Rtp.READY_FLOOR else now
  }

  /** One more report, at `now` or later, could open the PCM window. */
  predicate OneReportOpens(g: Rtp.Gate, now: nat) {
    && g.last.Some? && BelowLimit(g.last.value) && g.strictAdvances >= 1
    && OpensFrom(g, now) + Rtp.PCM_WINDOW <= MAX_INSTANT
  }

  /** The frame in hand, if any, can still pass its PCM decision at `now` or later. */
  predicate CanPassGate(p: Peer, now: nat) {
    match p.phase
    case Routing(_, _, _) => true
    case Deciding(_, _) => Rtp.AllowsPcm(p.gate, now)
    case Polling(_, _) => Rtp.AllowsPcm(p.gate, now) || OneReportOpens(p.gate, now)
    case _ => false
  }

  /**
   * ... and can then be routed: on a talk peer only a valid binding can ever hold a permit, and at the platform's last
   * instant no new one can be made.
   */
  predicate CanBeRouted(p: Peer, now: nat) {
    p.binding.mode.Talk? ==>
      && ValidBinding(p.binding)
      && (now < MAX_INSTANT || (p.route.Some? && now < p.route.value.expiresAt))
  }

  predicate MayStillDeliver(p: Peer, now: nat) {
    CanPassGate(p, now) && CanBeRouted(p, now)
  }

  /** An event at `now` or later; a permit that is made expires by the platform's last instant. */
  predicate Timely(e: Event, now: nat) {
    && (Clock(e).Some? ==> now <= Clock(e).value)
    && (e.CallerAuthorized? ==> e.permit.expiresAt <= MAX_INSTANT)
  }

  /** Events by a clock that goes on from `now`. */
  predicate Continuation(more: seq<Event>, now: nat) {
    InOrder(more, now) && forall i :: 0 <= i < |more| ==> Timely(more[i], now)
  }

  /** The peer after further events. */
  function After(p: Peer, more: seq<Event>): Peer {
    if more == [] then p else Step(After(p, more[..|more| - 1]), more[|more| - 1])
  }

  lemma RunExtended(b: SessionBinding, h: seq<Event>, more: seq<Event>)
    requires more != []
    ensures Run(b, h + more) == Step(Run(b, h + more[..|more| - 1]), more[|more| - 1])
  {
    assert (h + more)[..|h + more| - 1] == h + more[..|more| - 1];
  }

  lemma {:induction false} RunAfter(b: SessionBinding, h: seq<Event>, more: seq<Event>)
    ensures Run(b, h + more) == After(Run(b, h), more)
  {
    if more == [] {
      assert h + more == h;
    } else {
      RunAfter(b, h, more[..|more| - 1]);
      RunExtended(b, h, more);
    }
  }

  /** What holds of every peer whose authority protocol has failed. */
  ghost predicate Failed(p: Peer) {
    && p.authority.protocolFailed && !p.authority.armed && Rtp.Coherent(p.gate)
    && (p.route.Some? ==> p.route.value.binding == p.binding && p.binding.mode.Talk? && ValidBinding(p.binding))
  }

  lemma StoredStaysValid(stored: Option<Route.RoutePermit>, op: Route.RouteOp)
    requires stored.Some? ==> ValidBinding(stored.value.binding)
    ensures Route.Apply(stored, op).Some? ==> ValidBinding(Route.Apply(stored, op).value.binding)
  {
  }

  lemma {:induction false} StoredPermitIsValid(calls: seq<Route.RouteOp>)
    ensures Route.Run(calls).Some? ==> ValidBinding(Route.Run(calls).value.binding)
  {
    if calls != [] {
      StoredPermitIsValid(calls[..|calls| - 1]);
      StoredStaysValid(Route.Run(calls[..|calls| - 1]), calls[|calls| - 1]);
    }
  }

  lemma FailedPeer(b: SessionBinding, h: seq<Event>)
    requires Run(b, h).authority.protocolFailed
    ensures Failed(Run(b, h)) && Run(b, h).binding == b
  {
    assert h[..|h|] == h;
    EveryStateIsSound(b, h, |h|);
    Rtp.ReachableGateIsCoherent(Run(b, h).gateTrace);
    StoredPermitIsValid(Run(b, h).routeTrace);
  }

  lemma FrameKeepsCoherent(p: Peer, now: nat)
    requires Rtp.Coherent(p.gate)
    ensures Rtp.Coherent(OnFrame(p, now).gate)
  {
    var begun := Rtp.Begun(p.authority.generation);
    Rtp.ApplyKeepsCoherent(p.gate, begun);
    Rtp.ApplyKeepsCoherent(p.gate, Rtp.Checked(now));
    Rtp.ApplyKeepsCoherent(Rtp.Apply(p.gate, begun).gate, Rtp.Checked(now));
  }

  lemma StatsKeepCoherent(p: Peer, progress: Option<Rtp.Progress>, now: nat)
    requires Rtp.Coherent(p.gate)
    ensures Rtp.Coherent(OnStats(p, progress, now).gate)
  {
    Rtp.ApplyKeepsCoherent(p.gate, if progress.Some? then Rtp.Observed(progress.value, now) else Rtp.Missed);
  }

  lemma ReconcileKeepsCoherent(p: Peer, now: nat, reason: Rtp.GateFailure)
    requires Rtp.Coherent(p.gate)
    ensures Rtp.Coherent(Reconcile(p, now, reason).gate)
  {
    Rtp.ApplyKeepsCoherent(p.gate, Rtp.Begun(p.authority.generation));
    Rtp.ApplyKeepsCoherent(p.gate, Rtp.Abandoned(reason));
  }

  lemma GateStaysCoherent(p: Peer, e: Event)
    requires Rtp.Coherent(p.gate) && DrivesGate(e)
    ensures Rtp.Coherent(Step(p, e).gate)
  {
    match e {
      case FrameArrived(now) => FrameKeepsCoherent(p, now);
      case StatsArrived(progress, now) => StatsKeepCoherent(p, progress, now);
      case FrameWaitTimedOut(now) => ReconcileKeepsCoherent(p, now, Rtp.ReproofTimedOut);
      case StatsTimedOut(now) => ReconcileKeepsCoherent(p, now, Rtp.ReproofTimedOut);
      case StreamEnded => ReconcileKeepsCoherent(p, 0, Rtp.StreamEnded);
    }
  }

  /** The route call an event makes, if it makes one, changes the stored permit by that call. */
  lemma RouteStays(p: Peer, e: Event)
    requires Failed(p) && !DrivesGate(e)
    ensures var q := Step(p, e);
      q.route.Some? ==> q.route.value.binding == p.binding && p.binding.mode.Talk? && ValidBinding(p.binding)
  {
  }

  lemma FailedStep(p: Peer, e: Event)
    requires Failed(p)
    ensures Failed(Step(p, e)) && Step(p, e).binding == p.binding
  {
    AuthorityEvolves(p, e);
    if DrivesGate(e) {
      EvolvesOnGateEvent(p, e);
      GateStaysCoherent(p, e);
    } else {
      EvolvesOnOther(p, e);
      RouteStays(p, e);
    }
  }

  // ---- no event raises hope --------------------------------------------------------------------------------

  /** A report never opens a window that one report could not open. */
  lemma ReportOpensOnlyIfItCould(g: Rtp.Gate, r: Rtp.Progress, t: nat, now: nat)
    requires now <= t && Rtp.Coherent(g) && Rtp.AllowsPcm(Rtp.Observe(g, r, t).gate, now)
    ensures Rtp.AllowsPcm(g, now) || OneReportOpens(g, now)
  {
  }

  lemma StatsSpendHope(p: Peer, progress: Option<Rtp.Progress>, t: nat, now: nat)
    requires now <= t && Rtp.Coherent(p.gate) && CanPassGate(Step(p, StatsArrived(progress, t)), now)
    ensures CanPassGate(p, now)
  {
    if p.phase.Polling? && progress.Some? && Rtp.AllowsPcm(Rtp.Observe(p.gate, progress.value, t).gate, now) {
      ReportOpensOnlyIfItCould(p.gate, progress.value, t, now);
    }
  }

  lemma TaskSpendsHope(p: Peer, e: Event, now: nat)
    requires !p.authority.armed && DrivesGate(e) && !e.StatsArrived? && CanPassGate(Step(p, e), now)
    ensures CanPassGate(p, now)
  {
  }

  lemma OthersSpendHope(p: Peer, e: Event, now: nat)
    requires !DrivesGate(e) && Timely(e, now) && CanPassGate(Step(p, e), now)
    ensures CanPassGate(p, now)
  {
  }

  /** After a failure no event makes a frame passable that was not, since no new snapshot is armed. */
  lemma NoEventOpensGate(p: Peer, e: Event, now: nat)
    requires Failed(p) && Timely(e, now) && CanPassGate(Step(p, e), now)
    ensures CanPassGate(p, now)
  {
    if e.StatsArrived? {
      StatsSpendHope(p, e.progress, e.now, now);
    } else if DrivesGate(e) {
      TaskSpendsHope(p, e, now);
    } else {
      OthersSpendHope(p, e, now);
    }
  }

  /** At the last instant no event makes a permit that outlives it. */
  lemma NoEventOpensRoute(p: Peer, e: Event, now: nat)
    requires Failed(p) && Timely(e, now) && CanBeRouted(Step(p, e), now)
    ensures CanBeRouted(p, now)
  {
    if DrivesGate(e) {
      EvolvesOnGateEvent(p, e);
    }
  }

  lemma DeliveryNeedsHope(p: Peer, e: Event, now: nat)
    requires Failed(p) && Timely(e, now) && Step(p, e).deliveries != p.deliveries
    ensures MayStillDeliver(p, now)
  {
    if DrivesGate(e) {
      EvolvesOnGateEvent(p, e);
    } else {
      EvolvesOnOther(p, e);
    }
  }

  /** Nothing can come out of `q` any more, and nothing has since `p`. */
  ghost predicate Spent(p: Peer, q: Peer, now: nat) {
    Failed(q) && !MayStillDeliver(q, now) && q.deliveries == p.deliveries
  }

  lemma SpentStep(p: Peer, q: Peer, e: Event, now: nat)
    requires Spent(p, q, now) && Timely(e, now)
    ensures Spent(p, Step(q, e), now)
  {
    FailedStep(q, e);
    if MayStillDeliver(Step(q, e), now) {
      NoEventOpensGate(q, e, now);
      NoEventOpensRoute(q, e, now);
    }
    if Step(q, e).deliveries != q.deliveries {
      DeliveryNeedsHope(q, e, now);
    }
  }

  lemma {:induction false} SpentStays(p: Peer, more: seq<Event>, now: nat)
    requires Spent(p, p, now) && forall i :: 0 <= i < |more| ==> Timely(more[i], now)
    ensures Spent(p, After(p, more), now)
  {
    if more != [] {
      SpentStays(p, more[..|more| - 1], now);
      SpentStep(p, After(p, more[..|more| - 1]), more[|more| - 1], now);
    }
  }

  // ---- the schedules that let it out ---------------------------------------------------------------------

  lemma {:induction false} AfterCons(p: Peer, e: Event, more: seq<Event>)
    ensures After(p, [e] + more) == After(Step(p, e), more)
  {
    if more == [] {
      assert [e] + more == [e] && [e][..0] == [];
    } else {
      var n := |more| - 1;
      AfterCons(p, e, more[..n]);
      assert ([e] + more)[..n + 1] == [e] + more[..n];
    }
  }

  lemma ContinuationCons(e: Event, t: nat, more: seq<Event>, now: nat)
    requires now <= t && Clock(e) in {None, Some(t)} && Timely(e, t) && Continuation(more, t)
    ensures Continuation([e] + more, now)
  {
    var all := [e] + more;
    forall i | 0 <= i < |all|
      ensures Timely(all[i], now) && (Clock(all[i]).Some? ==> t <= Clock(all[i]).value)
    {
      assert i > 0 ==> all[i] == more[i - 1];
    }
    forall i, j | 0 <= i < j < |all| && Clock(all[i]).Some? && Clock(all[j]).Some?
      ensures Clock(all[i]).value <= Clock(all[j]).value
    {
      assert all[j] == more[j - 1];
      assert i > 0 ==> all[i] == more[i - 1];
    }
  }

  /** `more` continues from `now`, and a frame comes out in it. */
  ghost predicate Delivers(p: Peer, now: nat, more: seq<Event>) {
    Continuation(more, now) && |After(p, more).deliveries| > |p.deliveries|
  }

  lemma DeliversLater(p: Peer, e: Event, t: nat, now: nat, more: seq<Event>)
    requires now <= t && Clock(e) in {None, Some(t)} && Timely(e, t)
    requires Delivers(Step(p, e), t, more) && |Step(p, e).deliveries| == |p.deliveries|
    ensures Delivers(p, now, [e] + more)
  {
    AfterCons(p, e, more);
    ContinuationCons(e, t, more, now);
  }

  /** The route is open at `t`: the frame comes out at once. */
  lemma OpenRouteDelivers(p: Peer, t: nat)
    requires p.phase.Routing? && (p.binding.mode.Talk? ==> Route.Allows(p.route, p.binding, t).outcome)
    ensures Delivers(p, t, [Routed(t, false)])
  {
    AfterCons(p, Routed(t, false), []);
    assert [Routed(t, false)] + [] == [Routed(t, false)];
  }

  lemma RevokedPeer(p: Peer)
    ensures Step(p, CallerRevoked) == p.(route := None, routeTrace := p.routeTrace + [Route.RevokeOp], events := p.events + 1)
  {
  }

  lemma PermittedPeer(p: Peer, t: nat)
    requires p.phase.Routing? && p.route.None? && p.binding.mode.Talk? && ValidBinding(p.binding)
    ensures var q := Step(p, CallerAuthorized(Route.RoutePermit(p.binding, t + 1)));
      && q.phase == p.phase && q.binding == p.binding && q.deliveries == p.deliveries
      && Route.Allows(q.route, q.binding, t).outcome
  {
  }

  /** A frame waiting for its route is let out by the stored permit, or by a fresh one where one can still be made. */
  lemma RoutingIsReleased(p: Peer, now: nat) returns (more: seq<Event>)
    requires Failed(p) && p.phase.Routing? && CanBeRouted(p, now)
    ensures Delivers(p, now, more)
  {
    more := [Routed(now, false)];
    if p.binding.mode.Talk? && !Route.Allows(p.route, p.binding, now).outcome {
      var permit := Route.RoutePermit(p.binding, now + 1);
      var revoked := Step(p, CallerRevoked);
      RevokedPeer(p);
      PermittedPeer(revoked, now);
      OpenRouteDelivers(Step(revoked, CallerAuthorized(permit)), now);
      DeliversLater(revoked, CallerAuthorized(permit), now, now, more);
      more := [CallerAuthorized(permit)] + more;
      DeliversLater(p, CallerRevoked, now, now, more);
      more := [CallerRevoked] + more;
    } else {
      OpenRouteDelivers(p, now);
    }
  }

  lemma DecidedPeer(p: Peer, t: nat)
    requires p.phase.Deciding? && Rtp.AllowsPcm(p.gate, t)
    ensures var q := Step(p, Decided(t));
      q.phase.Routing? && q.binding == p.binding && q.deliveries == p.deliveries && q.route == p.route
  {
  }

  lemma DecidingIsReleased(p: Peer, now: nat) returns (more: seq<Event>)
    requires Failed(p) && p.phase.Deciding? && Rtp.AllowsPcm(p.gate, now) && CanBeRouted(p, now)
    ensures Delivers(p, now, more)
  {
    FailedStep(p, Decided(now));
    DecidedPeer(p, now);
    more := RoutingIsReleased(Step(p, Decided(now)), now);
    DeliversLater(p, Decided(now), now, now, more);
    more := [Decided(now)] + more;
  }

  /** The report that opens the window, or leaves it open, and when. */
  lemma OpeningReport(g: Rtp.Gate, now: nat) returns (r: Rtp.Progress, t: nat)
    requires Rtp.Coherent(g) && (Rtp.AllowsPcm(g, now) || OneReportOpens(g, now))
    ensures now <= t && Rtp.Observe(g, r, t).outcome.Ok? && Rtp.AllowsPcm(Rtp.Observe(g, r, t).gate, t)
  {
    r, t := g.last.value, now;
    if !Rtp.AllowsPcm(g, now) {
      var last := g.last.value;
      r := last.(packets := last.packets + 1, bytes := last.bytes + 1, nonconcealed := last.nonconcealed + 1);
      t := OpensFrom(g, now);
      assert Rtp.Continues(g, r) && Rtp.StrictlyAbove(r, last);
    }
  }

  lemma ReportedPeer(p: Peer, r: Rtp.Progress, t: nat)
    requires p.phase.Polling? && Rtp.Observe(p.gate, r, t).outcome.Ok?
    ensures var q := Step(p, StatsArrived(Some(r), t));
      q.phase.Deciding? && q.binding == p.binding && q.deliveries == p.deliveries && q.gate == Rtp.Observe(p.gate, r, t).gate
  {
  }

  lemma PollingIsReleased(p: Peer, now: nat) returns (more: seq<Event>)
    requires Failed(p) && p.phase.Polling? && MayStillDeliver(p, now)
    ensures Delivers(p, now, more)
  {
    var r, t := OpeningReport(p.gate, now);
    var e := StatsArrived(Some(r), t);
    FailedStep(p, e);
    ReportedPeer(p, r, t);
    assert t < MAX_INSTANT;
    more := DecidingIsReleased(Step(p, e), t);
    DeliversLater(p, e, t, now, more);
    more := [e] + more;
  }

  lemma HopeIsFulfilled(p: Peer, now: nat) returns (more: seq<Event>)
    requires Failed(p) && MayStillDeliver(p, now)
    ensures Delivers(p, now, more)
  {
    match p.phase {
      case Routing(_, _, _) => more := RoutingIsReleased(p, now);
      case Deciding(_, _) => more := DecidingIsReleased(p, now);
      case _ => more := PollingIsReleased(p, now);
    }
  }

  /** `more` continues the history from `now`, and a frame comes out in it. */
  ghost predicate DeliversAfter(b: SessionBinding, h: seq<Event>, now: nat, more: seq<Event>) {
    Continuation(more, now) && |Run(b, h + more).deliveries| > |Run(b, h).deliveries|
  }

  /**
   * Once the authority protocol has failed, a frame can still come out at `now` or later exactly when one is in hand
   * that can still pass the gate: it is waiting for its route; or for its decision with the window open; or for a
   * report with the window open or one strict advance from opening.
   */
  lemma {:induction false} FrameOutlivesFailureIff(b: SessionBinding, h: seq<Event>, now: nat)
    requires Run(b, h).authority.protocolFailed
    ensures (exists more :: DeliversAfter(b, h, now, more)) <==> MayStillDeliver(Run(b, h), now)
  {
    FailedPeer(b, h);
    if MayStillDeliver(Run(b, h), now) {
      var more := HopeIsFulfilled(Run(b, h), now);
      RunAfter(b, h, more);
      assert DeliversAfter(b, h, now, more);
    } else {
      forall more | DeliversAfter(b, h, now, more)
        ensures false
      {
        RunAfter(b, h, more);
        SpentStays(Run(b, h), more, now);
      }
    }
  }

  // ---- such a peer exists -----------------------------------------------------------------------------------

  function StatsReport(n: u64): Rtp.Progress {
    Rtp.Progress("report", 1, "0", n, n, n)
  }

  lemma PolledFrame(p: Peer, r: Rtp.Progress, t: nat)
    requires p.phase.Waiting? && p.authority == Auth.Authority(1, true, false) && t + 1000 <= MAX_INSTANT
    requires t >= p.nextPoll && !p.gate.reproofPending && p.gate.authorityGeneration == 1
    requires Rtp.Observe(p.gate, r, t).outcome.Ok?
    ensures var q := Step(Step(p, FrameArrived(t)), StatsArrived(Some(r), t));
      q == p.(phase := Deciding(p.events, 1), nextPoll := t + STATS_POLL, events := p.events + 2,
              gate := Rtp.Observe(p.gate, r, t).gate, gateTrace := q.gateTrace)
  {
    assert Step(p, FrameArrived(t)).phase == Polling(p.events, 1);
  }

  /** One polled frame at time `t`, and its decision. */
  lemma HistoryOfPolledFrame(b: SessionBinding, h: seq<Event>, r: Rtp.Progress, t: nat) returns (h': seq<Event>)
    requires var p := Run(b, h);
      && p.phase.Waiting? && p.authority == Auth.Authority(1, true, false) && t + 1000 <= MAX_INSTANT
      && t >= p.nextPoll && !p.gate.reproofPending && p.gate.authorityGeneration == 1
      && Rtp.Observe(p.gate, r, t).outcome.Ok?
    ensures var p, q, g := Run(b, h), Run(b, h'), Rtp.Observe(Run(b, h).gate, r, t).gate;
      && q.binding == p.binding && q.authority == p.authority && q.channelSeen == p.channelSeen && q.route == p.route
      && q.gate == g && q.deliveries == p.deliveries && q.nextPoll == t + STATS_POLL
      && (if Rtp.AllowsPcm(g, t) then q.phase.Routing? else q.phase.Waiting?)
  {
    PolledFrame(Run(b, h), r, t);
    h' := RunThree(b, h, FrameArrived(t), StatsArrived(Some(r), t), Decided(t));
  }

  /** A talk peer with its audio task waiting and its authority channel open. */
  lemma HistoryOfOpenPeer(b: SessionBinding) returns (h: seq<Event>)
    requires b.mode.Talk?
    ensures Run(b, h) == NewPeer(b).(phase := Waiting, channelSeen := true, events := 2)
  {
    RunSnoc(b, [], TrackAdded(true, 0));
    RunSnoc(b, [TrackAdded(true, 0)], ChannelOpened(Codec.CHANNEL));
    assert [] + [TrackAdded(true, 0)] == [TrackAdded(true, 0)];
    h := [TrackAdded(true, 0)] + [ChannelOpened(Codec.CHANNEL)];
  }

  lemma ArmedPeer(p: Peer)
    requires p.channelSeen && ValidBinding(p.binding) && p.authority == Auth.INITIAL
    ensures Step(p, AuthorityMessage(true, Codec.Payload(p.binding, Auth.Arm, 1))) ==
            p.(authority := Auth.Authority(1, true, false), events := p.events + 1)
  {
    Codec.PayloadBindsExactly(p.binding, p.binding, Auth.Arm, 1);
  }

  /** A talk peer brought to an armed task that has already begun generation 1. */
  lemma HistoryOfArmedPeer(b: SessionBinding) returns (h: seq<Event>)
    requires ValidBinding(b) && b.mode.Talk?
    ensures var p := Run(b, h);
      && p.binding == b && p.phase.Waiting? && p.authority == Auth.Authority(1, true, false) && p.channelSeen
      && p.route.None? && p.deliveries == [] && p.nextPoll <= 50 && p.gate == Rtp.BeginAuthority(Rtp.INITIAL, 1)
  {
    h := HistoryOfOpenPeer(b);
    ArmedPeer(Run(b, h));
    RunSnoc(b, h, AuthorityMessage(true, Codec.Payload(b, Auth.Arm, 1)));
    h := h + [AuthorityMessage(true, Codec.Payload(b, Auth.Arm, 1))];
    h := BeginsGeneration(b, h);
  }

  lemma MissedFrame(p: Peer)
    requires p.phase.Waiting? && p.authority == Auth.Authority(1, true, false) && p.gate == Rtp.INITIAL
    ensures var q := Step(Step(Step(p, FrameArrived(0)), StatsArrived(None, 0)), Decided(0));
      && q.binding == p.binding && q.authority == p.authority && q.channelSeen == p.channelSeen && q.route == p.route
      && q.phase.Waiting? && q.deliveries == p.deliveries && q.nextPoll == 50
      && q.gate == Rtp.BeginAuthority(Rtp.INITIAL, 1)
  {
    var polled := Step(p, FrameArrived(0));
    assert polled.phase == Polling(p.events, 1) && polled.gate == Rtp.BeginAuthority(Rtp.INITIAL, 1) && polled.nextPoll == 50;
    var missed := Step(polled, StatsArrived(None, 0));
    assert missed.phase == Deciding(p.events, 1) && missed.gate == polled.gate && missed.nextPoll == 50;
  }

  lemma BeginsGeneration(b: SessionBinding, h: seq<Event>) returns (h': seq<Event>)
    requires var p := Run(b, h); p.phase.Waiting? && p.authority == Auth.Authority(1, true, false) && p.gate == Rtp.INITIAL
    ensures var p, q := Run(b, h), Run(b, h');
      && q.binding == p.binding && q.authority == p.authority && q.channelSeen == p.channelSeen && q.route == p.route
      && q.phase.Waiting? && q.deliveries == p.deliveries && q.nextPoll == 50
      && q.gate == Rtp.BeginAuthority(Rtp.INITIAL, 1)
  {
    h' := RunThree(b, h, FrameArrived(0), StatsArrived(None, 0), Decided(0));
    MissedFrame(Run(b, h));
  }

  lemma {:induction false} RunThree(b: SessionBinding, h: seq<Event>, x: Event, y: Event, z: Event) returns (h': seq<Event>)
    ensures h' == h + [x] + [y] + [z] && Run(b, h') == Step(Step(Step(Run(b, h), x), y), z)
  {
    h' := h + [x] + [y] + [z];
    RunSnoc(b, h, x);
    RunSnoc(b, h + [x], y);
    RunSnoc(b, h + [x] + [y], z);
  }

  /**
   * The authority is not read again after the snapshot: on every valid talk peer some schedule delivers a frame to
   * the caller although the authority protocol failed before that frame was routed.
   */
  lemma SnapshotCanOutliveFailure(b: SessionBinding) returns (h: seq<Event>)
    requires ValidBinding(b) && b.mode.Talk?
    ensures h != [] && Run(b, h[..|h| - 1]).authority.protocolFailed
    ensures Run(b, h[..|h| - 1]).deliveries == [] && |Run(b, h).deliveries| == 1
  {
    h := HistoryOfArmedPeer(b);
    h := HistoryOfPolledFrame(b, h, StatsReport(1), 50);
    h := HistoryOfPolledFrame(b, h, StatsReport(2), 100);
    h := HistoryOfPolledFrame(b, h, StatsReport(3), 200);
    h := ClosesThenRoutes(b, h);
  }

  lemma ClosedThenRouted(p: Peer)
    requires ValidBinding(p.binding) && p.binding.mode.Talk? && p.phase.Routing? && p.channelSeen && p.route.None?
    ensures var q := Step(Step(p, CallerAuthorized(Route.RoutePermit(p.binding, 1000))), ChannelClosed);
      && q.authority.protocolFailed && q.deliveries == p.deliveries
      && |Step(q, Routed(200, false)).deliveries| == |p.deliveries| + 1
  {
    var open := Step(p, CallerAuthorized(Route.RoutePermit(p.binding, 1000)));
    assert open.phase == p.phase && open.deliveries == p.deliveries && open.binding == p.binding && open.channelSeen;
    assert Route.Allows(open.route, p.binding, 200).outcome;
  }

  lemma ClosesThenRoutes(b: SessionBinding, h: seq<Event>) returns (h': seq<Event>)
    requires ValidBinding(b) && b.mode.Talk?
    requires var p := Run(b, h); p.binding == b && p.phase.Routing? && p.channelSeen && p.route.None? && p.deliveries == []
    ensures h' != [] && Run(b, h'[..|h'| - 1]).authority.protocolFailed
    ensures Run(b, h'[..|h'| - 1]).deliveries == [] && |Run(b, h').deliveries| == 1
  {
    var permit := CallerAuthorized(Route.RoutePermit(b, 1000));
    var before := h + [permit] + [ChannelClosed];
    RunSnoc(b, h, permit);
    RunSnoc(b, h + [permit], ChannelClosed);
    RunSnoc(b, before, Routed(200, false));
    ClosedThenRouted(Run(b, h));
    h' := before + [Routed(200, false)];
    assert h'[..|h'| - 1] == before;
  }
}
