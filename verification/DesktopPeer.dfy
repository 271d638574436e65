/**
 * The Desktop end of a peer: authority callbacks, caller-route calls and the decoded-audio task, interleaved at every
 * point where the task reads shared state, reads the clock or awaits.
 */
module DesktopPeers {
  import opened Prelude
  import opened SessionBindings
  import Auth = MicrophoneAuthority
  import Codec = AuthorityCodec
  import Rtp = RtpProgress
  import Route = RouteGates

  const STATS_POLL := 50

  /** Where the audio task is with its current frame; a frame remembers the event that took its authority snapshot. */
  datatype Phase =
    | NoTrack
    | Waiting
    | Polling(taken: nat, generation: nat)
    | Deciding(taken: nat, generation: nat)
    | Routing(taken: nat, generation: nat, decided: nat)
    | Stopped

  /** A frame handed to its consumer, with the events of its snapshot, its PCM decision and its routing. */
  datatype Delivery = Delivery(taken: nat, generation: nat, decided: nat, routed: nat)

  datatype Peer = Peer(
    binding: SessionBinding,
    authority: Auth.Authority,
    channelSeen: bool,
    gate: Rtp.Gate,
    route: Option<Route.RoutePermit>,
    phase: Phase,
    nextPoll: nat,
    quarantined: nat,
    events: nat,
    gateTrace: seq<Rtp.GateEvent>,
    routeTrace: seq<Route.RouteOp>,
    deliveries: seq<Delivery>)

  datatype Event =
    | ChannelOpened(labelled: string)
    | AuthorityMessage(binary: bool, data: string)
    | ChannelClosed
    | TrackAdded(audio: bool, now: nat)
    | CallerAuthorized(permit: Route.RoutePermit)
    | CallerRevoked
    | CallerRenewed(lifetime: nat, now: nat)
    | FrameArrived(now: nat)
    | FrameWaitTimedOut(now: nat)
    | StatsArrived(progress: Option<Rtp.Progress>, now: nat)
    | StatsTimedOut(now: nat)
    | Decided(now: nat)
    | Routed(now: nat, queueFull: bool)
    | StreamEnded

  /** The clock reading that came with the event, if one did. */
  function Clock(e: Event): Option<nat> {
    match e
    case TrackAdded(_, now) => Some(now)
    case CallerRenewed(_, now) => Some(now)
    case FrameArrived(now) => Some(now)
    case FrameWaitTimedOut(now) => Some(now)
    case StatsArrived(_, now) => Some(now)
    case StatsTimedOut(now) => Some(now)
    case Decided(now) => Some(now)
    case Routed(now, _) => Some(now)
    case _ => None
  }

  /** The clock never reads earlier than `start`, nor earlier than it did before. */
  predicate InOrder(h: seq<Event>, start: nat) {
    && (forall i :: 0 <= i < |h| && Clock(h[i]).Some? ==> start <= Clock(h[i]).value)
    && (forall i, j :: 0 <= i < j < |h| && Clock(h[i]).Some? && Clock(h[j]).Some? ==> Clock(h[i]).value <= Clock(h[j]).value)
  }

  function NewPeer(b: SessionBinding): Peer {
    Peer(b, Auth.INITIAL, false, Rtp.INITIAL, None, NoTrack, 0, 0, 0, [], [], [])
  }

  // ---- the authority channel ----------------------------------------------------------

  function OnChannel(p: Peer, labelled: string): Peer {
    if !p.binding.mode.NeedsMicrophone() || labelled != Codec.CHANNEL || p.channelSeen then
      p.(authority := p.authority.Fail(), channelSeen := p.channelSeen || (p.binding.mode.NeedsMicrophone() && labelled == Codec.CHANNEL))
    else p.(channelSeen := true)
  }

  function OnMessage(p: Peer, binary: bool, data: string): Peer {
    if !p.channelSeen then p
    else if !binary then p.(authority := p.authority.Fail())
    else match Codec.ParsePayload(data, p.binding)
      case Err(_) => p.(authority := p.authority.Fail())
      case Ok(proof) => p.(authority := Auth.Receive(p.authority, proof))
  }

  // ---- the caller route ------------------------------------------------------------------

  function AuthorizeCallerTransmit(b: SessionBinding, stored: Option<Route.RoutePermit>, permit: Route.RoutePermit)
    : Route.RouteStep<Result<(), Route.RouteError>>
  {
    if !b.mode.Talk? || permit.binding != b then Route.RouteStep(stored, Err(Route.WrongPeer))
    else Route.Authorize(stored, permit)
  }

  /** A call on the route gate, kept in its trace. */
  function RouteCall(p: Peer, op: Route.RouteOp): Peer {
    p.(route := Route.Apply(p.route, op), routeTrace := p.routeTrace + [op])
  }

  function OnCallerRoute(p: Peer, e: Event): Peer {
    match e
    case CallerAuthorized(permit) =>
      if p.binding.mode.Talk? && permit.binding == p.binding then RouteCall(p, Route.AuthorizeOp(permit)) else p
    case CallerRevoked => RouteCall(p, Route.RevokeOp)
    case CallerRenewed(lifetime, now) =>
      if p.binding.mode.Talk? then RouteCall(p, Route.RenewOp(p.binding, lifetime, now)) else p
    case _ => p
  }

  // ---- the audio task ----------------------------------------------------------------------

  function Gated(p: Peer, e: Rtp.GateEvent): Peer {
    p.(gate := Rtp.Apply(p.gate, e).gate, gateTrace := p.gateTrace + [e])
  }

  function OnTrack(p: Peer, audio: bool, now: nat): Peer {
    if !audio || !p.binding.mode.NeedsMicrophone() || !p.phase.NoTrack? then p
    else p.(phase := Waiting, nextPoll := now)
  }

  function OnFrame(p: Peer, now: nat): Peer {
    if !p.phase.Waiting? then p
    else if !p.authority.armed then
      var q := if p.gate.authorityGeneration != p.authority.generation then Gated(p, Rtp.Begun(p.authority.generation)) else p;
      q.(quarantined := q.quarantined + 1)
    else
      var q := if p.gate.authorityGeneration != p.authority.generation
               then Gated(p, Rtp.Begun(p.authority.generation)).(nextPoll := now) else p;
      var checked := Gated(q, Rtp.Checked(now));
      if Rtp.Apply(q.gate, Rtp.Checked(now)).outcome.Err? then checked.(phase := Stopped)
      else if now >= checked.nextPoll then
        var next := CheckedAdd(now, STATS_POLL);
        checked.(phase := Polling(p.events, p.authority.generation), nextPoll := if next.Some? then next.value else now)
      else checked.(phase := Deciding(p.events, p.authority.generation))
  }

  /** `reconcile_reproof_wait`: a pending re-proof that ran out stops the task unless the authority moved on. */
  function Reconcile(p: Peer, now: nat, reason: Rtp.GateFailure): Peer {
    if !p.authority.armed || p.gate.authorityGeneration != p.authority.generation then
      Gated(p, Rtp.Begun(p.authority.generation)).(phase := Waiting, nextPoll := now)
    else Gated(p, Rtp.Abandoned(reason)).(phase := Stopped)
  }

  function OnStats(p: Peer, progress: Option<Rtp.Progress>, now: nat): Peer {
    if !p.phase.Polling? then p
    else
      var e := if progress.Some? then Rtp.Observed(progress.value, now) else Rtp.Missed;
      var q := Gated(p, e);
      if Rtp.Apply(p.gate, e).outcome.Err? then q.(phase := Stopped)
      else q.(phase := Deciding(p.phase.taken, p.phase.generation))
  }

  function OnDecide(p: Peer, now: nat): Peer {
    if !p.phase.Deciding? then p
    else if Rtp.AllowsPcm(p.gate, now) then p.(phase := Routing(p.phase.taken, p.phase.generation, p.events))
    else p.(phase := Waiting, quarantined := p.quarantined + 1)
  }

  function OnRoute(p: Peer, now: nat, queueFull: bool): Peer {
    if !p.phase.Routing? then p
    else
      var asked := Route.Allows(p.route, p.binding, now);
      var q := if p.binding.mode.Talk? then RouteCall(p, Route.AllowsOp(p.binding, now)) else p;
      if (p.binding.mode.Talk? && !asked.outcome) || queueFull then q.(phase := Waiting, quarantined := q.quarantined + 1)
      else
        var d := Delivery(p.phase.taken, p.phase.generation, p.phase.decided, p.events);
        q.(phase := Waiting, deliveries := q.deliveries + [d])
  }

  function Handle(p: Peer, e: Event): Peer {
    match e
    case ChannelOpened(labelled) => OnChannel(p, labelled)
    case AuthorityMessage(binary, data) => OnMessage(p, binary, data)
    case ChannelClosed => if p.channelSeen then p.(authority := p.authority.Fail()) else p
    case TrackAdded(audio, now) => OnTrack(p, audio, now)
    case CallerAuthorized(_) => OnCallerRoute(p, e)
    case CallerRevoked => OnCallerRoute(p, e)
    case CallerRenewed(_, _) => OnCallerRoute(p, e)
    case FrameArrived(now) => OnFrame(p, now)
    case FrameWaitTimedOut(now) =>
      if p.phase.Waiting? && Rtp.PendingDeadline(p.gate).Some? then Reconcile(p, now, Rtp.ReproofTimedOut) else p
    case StatsArrived(progress, now) => OnStats(p, progress, now)
    case StatsTimedOut(now) =>
      if p.phase.Polling? && Rtp.PendingDeadline(p.gate).Some? then Reconcile(p, now, Rtp.ReproofTimedOut) else p
    case Decided(now) => OnDecide(p, now)
    case Routed(now, queueFull) => OnRoute(p, now, queueFull)
    case StreamEnded =>
      if !p.phase.Waiting? then p
      else if Rtp.PendingDeadline(p.gate).Some? then Reconcile(p, 0, Rtp.StreamEnded).(phase := Stopped)
      else p.(phase := Stopped)
  }

  function Step(p: Peer, e: Event): Peer {
    Handle(p, e).(events := p.events + 1)
  }

  function Run(b: SessionBinding, h: seq<Event>): Peer {
    if h == [] then NewPeer(b) else Step(Run(b, h[..|h| - 1]), h[|h| - 1])
  }

  lemma RunStep(b: SessionBinding, h: seq<Event>, n: nat)
    requires n < |h|
    ensures Run(b, h[..n + 1]) == Step(Run(b, h[..n]), h[n])
  {
    assert h[..n + 1][..n] == h[..n];
  }

  // ---- what a delivered frame had ------------------------------------------------------------

  /** The snapshot taken by event `taken` found the authority armed, unfailed, in `generation`. */
  ghost predicate ArmedAt(b: SessionBinding, h: seq<Event>, taken: nat, generation: nat) {
    && taken < |h| && h[taken].FrameArrived?
    && Run(b, h[..taken]).authority == Auth.Authority(generation, true, false)
  }

  /** Event `decided` found the RTP gate in `generation` with its PCM window open. */
  ghost predicate ProvedAt(b: SessionBinding, h: seq<Event>, decided: nat, generation: nat) {
    && decided < |h| && h[decided].Decided?
    && Run(b, h[..decided]).gate.authorityGeneration == generation
    && Rtp.AllowsPcm(Run(b, h[..decided]).gate, h[decided].now)
  }

  /** Event `routed` found, on a talk peer, the caller route open for exactly this binding. */
  ghost predicate RoutedAt(b: SessionBinding, h: seq<Event>, routed: nat) {
    && routed < |h| && h[routed].Routed?
    && (b.mode.Talk? ==> Route.Allows(Run(b, h[..routed]).route, b, h[routed].now).outcome)
  }

  ghost predicate Authorized(b: SessionBinding, h: seq<Event>, d: Delivery) {
    && d.taken < d.decided < d.routed < |h|
    && ArmedAt(b, h, d.taken, d.generation)
    && ProvedAt(b, h, d.decided, d.generation)
    && RoutedAt(b, h, d.routed)
  }

  /** A frame is in hand: its snapshot is taken and its PCM decision is still to come. */
  predicate InHand(p: Peer) {
    p.phase.Polling? || p.phase.Deciding?
  }

  /** What one event may do to the frame in hand and to the frames delivered. */
  ghost predicate FrameEvolves(p: Peer, e: Event, q: Peer) {
    && q.binding == p.binding && q.events == p.events + 1
    && (InHand(q) ==>
          || (&& p.phase.Waiting? && e.FrameArrived? && p.authority.armed
              && q.phase.taken == p.events && q.phase.generation == p.authority.generation
              && q.gate.authorityGeneration == p.authority.generation)
          || (&& InHand(p) && q.phase.taken == p.phase.taken && q.phase.generation == p.phase.generation
              && q.gate.authorityGeneration == p.gate.authorityGeneration))
    && (q.phase.Routing? ==>
          || (&& p.phase.Deciding? && e.Decided? && Rtp.AllowsPcm(p.gate, e.now)
              && q.phase == Routing(p.phase.taken, p.phase.generation, p.events))
          || q.phase == p.phase)
    && (q.deliveries != p.deliveries ==>
          && p.phase.Routing? && e.Routed? && q.phase.Waiting?
          && (p.binding.mode.Talk? ==> Route.Allows(p.route, p.binding, e.now).outcome)
          && q.deliveries == p.deliveries + [Delivery(p.phase.taken, p.phase.generation, p.phase.decided, p.events)])
    && (!q.phase.NoTrack? ==> p.binding.mode.NeedsMicrophone() || !p.phase.NoTrack?)
  }

  lemma GatedKeeps(p: Peer, e: Rtp.GateEvent)
    ensures Gated(p, e).gate.authorityGeneration == if e.Begun? then e.generation else p.gate.authorityGeneration
    ensures p.gate == Rtp.Run(p.gateTrace) ==> Gated(p, e).gate == Rtp.Run(Gated(p, e).gateTrace)
  {
    var t := Gated(p, e).gateTrace;
    assert t[..|t| - 1] == p.gateTrace;
  }

  predicate DrivesGate(e: Event) {
    e.FrameArrived? || e.FrameWaitTimedOut? || e.StatsArrived? || e.StatsTimedOut? || e.StreamEnded?
  }

  lemma BegunThenChecked(p: Peer, now: nat)
    requires p.gate == Rtp.Run(p.gateTrace)
    ensures var q := Gated(Gated(p, Rtp.Begun(p.authority.generation)).(nextPoll := now), Rtp.Checked(now));
      q.gate == Rtp.Run(q.gateTrace)
  {
    GatedKeeps(p, Rtp.Begun(p.authority.generation));
    GatedKeeps(Gated(p, Rtp.Begun(p.authority.generation)).(nextPoll := now), Rtp.Checked(now));
  }

  lemma FrameKeepsTrace(p: Peer, now: nat)
    requires p.gate == Rtp.Run(p.gateTrace)
    ensures OnFrame(p, now).gate == Rtp.Run(OnFrame(p, now).gateTrace)
  {
    GatedKeeps(p, Rtp.Begun(p.authority.generation));
    GatedKeeps(p, Rtp.Checked(now));
    BegunThenChecked(p, now);
  }

  lemma EvolvesOnFrame(p: Peer, now: nat)
    ensures FrameEvolves(p, FrameArrived(now), Step(p, FrameArrived(now)))
    ensures p.gate == Rtp.Run(p.gateTrace) ==> OnFrame(p, now).gate == Rtp.Run(OnFrame(p, now).gateTrace)
  {
    if p.gate == Rtp.Run(p.gateTrace) {
      FrameKeepsTrace(p, now);
    }
    CheckKeepsGeneration(p.gate, now);
    CheckKeepsGeneration(Rtp.BeginAuthority(p.gate, p.authority.generation), now);
  }

  lemma CheckKeepsGeneration(g: Rtp.Gate, now: nat)
    ensures Rtp.Apply(g, Rtp.Checked(now)).gate.authorityGeneration == g.authorityGeneration
  {
  }

  lemma EvolvesOnReconcile(p: Peer, now: nat, reason: Rtp.GateFailure)
    ensures var q := Reconcile(p, now, reason);
      && q.binding == p.binding && q.events == p.events && q.deliveries == p.deliveries
      && q.route == p.route && q.routeTrace == p.routeTrace && q.authority == p.authority && (q.phase.Waiting? || q.phase.Stopped?)
      && (p.gate == Rtp.Run(p.gateTrace) ==> q.gate == Rtp.Run(q.gateTrace))
  {
    GatedKeeps(p, Rtp.Begun(p.authority.generation));
    GatedKeeps(p, Rtp.Abandoned(reason));
  }

  lemma EvolvesOnStats(p: Peer, progress: Option<Rtp.Progress>, now: nat)
    ensures FrameEvolves(p, StatsArrived(progress, now), Step(p, StatsArrived(progress, now)))
    ensures p.gate == Rtp.Run(p.gateTrace) ==> OnStats(p, progress, now).gate == Rtp.Run(OnStats(p, progress, now).gateTrace)
  {
    GatedKeeps(p, if progress.Some? then Rtp.Observed(progress.value, now) else Rtp.Missed);
  }

  lemma EvolvesOnTimeout(p: Peer, e: Event)
    requires e.FrameWaitTimedOut? || e.StatsTimedOut? || e.StreamEnded?
    ensures FrameEvolves(p, e, Step(p, e))
    ensures p.gate == Rtp.Run(p.gateTrace) ==> Step(p, e).gate == Rtp.Run(Step(p, e).gateTrace)
    ensures Step(p, e).authority == p.authority && Step(p, e).route == p.route && Step(p, e).routeTrace == p.routeTrace
  {
    match e {
      case FrameWaitTimedOut(now) => EvolvesOnReconcile(p, now, Rtp.ReproofTimedOut);
      case StatsTimedOut(now) => EvolvesOnReconcile(p, now, Rtp.ReproofTimedOut);
      case StreamEnded => EvolvesOnReconcile(p, 0, Rtp.StreamEnded);
    }
  }

  lemma EvolvesOnGateEvent(p: Peer, e: Event)
    requires DrivesGate(e)
    ensures FrameEvolves(p, e, Step(p, e))
    ensures p.gate == Rtp.Run(p.gateTrace) ==> Step(p, e).gate == Rtp.Run(Step(p, e).gateTrace)
    ensures Step(p, e).authority == p.authority && Step(p, e).route == p.route && Step(p, e).routeTrace == p.routeTrace
  {
    match e {
      case FrameArrived(now) => EvolvesOnFrame(p, now);
      case StatsArrived(progress, now) => EvolvesOnStats(p, progress, now);
      case _ => EvolvesOnTimeout(p, e);
    }
  }

  lemma EvolvesOnOther(p: Peer, e: Event)
    requires !DrivesGate(e)
    ensures FrameEvolves(p, e, Step(p, e))
    ensures Step(p, e).gate == p.gate && Step(p, e).gateTrace == p.gateTrace
  {
  }

  lemma AuthorityEvolves(p: Peer, e: Event)
    requires p.authority.protocolFailed ==> !p.authority.armed
    ensures var a := Step(p, e).authority;
      (a.protocolFailed ==> !a.armed) && (p.authority.protocolFailed ==> a.protocolFailed)
  {
    if DrivesGate(e) {
      EvolvesOnGateEvent(p, e);
    }
  }

  /** A stored permit is always for this talk peer's own binding, and the route is what its trace of calls made it. */
  predicate OwnRoute(p: Peer) {
    && (p.route.Some? ==> p.route.value.binding == p.binding && p.binding.mode.Talk?)
    && p.route == Route.Run(p.routeTrace)
  }

  lemma RouteCallKeeps(p: Peer, op: Route.RouteOp)
    requires OwnRoute(p) && p.binding.mode.Talk?
    requires op.AuthorizeOp? ==> op.permit.binding == p.binding
    ensures OwnRoute(RouteCall(p, op))
  {
    var t := RouteCall(p, op).routeTrace;
    assert t[..|t| - 1] == p.routeTrace;
  }

  lemma RevokeKeeps(p: Peer)
    requires OwnRoute(p)
    ensures OwnRoute(RouteCall(p, Route.RevokeOp))
  {
    var t := RouteCall(p, Route.RevokeOp).routeTrace;
    assert t[..|t| - 1] == p.routeTrace;
  }

  lemma RoutedKeeps(p: Peer, now: nat, queueFull: bool)
    requires OwnRoute(p)
    ensures OwnRoute(OnRoute(p, now, queueFull))
  {
    if p.binding.mode.Talk? {
      RouteCallKeeps(p, Route.AllowsOp(p.binding, now));
    }
  }

  lemma CallerKeeps(p: Peer, e: Event)
    requires OwnRoute(p) && (e.CallerAuthorized? || e.CallerRevoked? || e.CallerRenewed?)
    ensures OwnRoute(OnCallerRoute(p, e))
  {
    if e.CallerRevoked? {
      RevokeKeeps(p);
    } else if p.binding.mode.Talk? {
      if e.CallerRenewed? {
        RouteCallKeeps(p, Route.RenewOp(p.binding, e.lifetime, e.now));
      } else if e.permit.binding == p.binding {
        RouteCallKeeps(p, Route.AuthorizeOp(e.permit));
      }
    }
  }

  /** Channel and track events, and the PCM decision, make no route call. */
  lemma OthersKeepRoute(p: Peer, e: Event)
    requires e.ChannelOpened? || e.AuthorityMessage? || e.ChannelClosed? || e.TrackAdded? || e.Decided?
    ensures Step(p, e).route == p.route && Step(p, e).routeTrace == p.routeTrace && Step(p, e).binding == p.binding
  {
  }

  lemma RouteEvolves(p: Peer, e: Event)
    requires OwnRoute(p)
    ensures OwnRoute(Step(p, e))
  {
    if DrivesGate(e) {
      EvolvesOnGateEvent(p, e);
    } else if e.CallerAuthorized? || e.CallerRevoked? || e.CallerRenewed? {
      CallerKeeps(p, e);
    } else if e.Routed? {
      RoutedKeeps(p, e.now, e.queueFull);
    } else {
      OthersKeepRoute(p, e);
    }
  }

  /** The state after `n` events: the frame in hand has its proofs so far in the history. */
  ghost predicate Sound(b: SessionBinding, h: seq<Event>, n: nat)
    requires n <= |h|
  {
    var p := Run(b, h[..n]);
    && p.binding == b && p.events == n && p.gate == Rtp.Run(p.gateTrace) && OwnRoute(p)
    && (p.authority.protocolFailed ==> !p.authority.armed)
    && (!p.phase.NoTrack? ==> b.mode.NeedsMicrophone())
    && (InHand(p) ==>
          && p.phase.taken < n && ArmedAt(b, h, p.phase.taken, p.phase.generation)
          && p.gate.authorityGeneration == p.phase.generation)
    && (p.phase.Routing? ==>
          && p.phase.taken < p.phase.decided < n && ArmedAt(b, h, p.phase.taken, p.phase.generation)
          && ProvedAt(b, h, p.phase.decided, p.phase.generation))
  }

  lemma StepEvolves(p: Peer, e: Event)
    requires p.gate == Rtp.Run(p.gateTrace)
    ensures FrameEvolves(p, e, Step(p, e)) && Step(p, e).gate == Rtp.Run(Step(p, e).gateTrace)
  {
    if DrivesGate(e) {
      EvolvesOnGateEvent(p, e);
    } else {
      EvolvesOnOther(p, e);
    }
  }

  lemma SoundStep(b: SessionBinding, h: seq<Event>, n: nat, p: Peer, q: Peer)
    requires n < |h| && Sound(b, h, n)
    requires p == Run(b, h[..n]) && q == Run(b, h[..n + 1])
    requires FrameEvolves(p, h[n], q) && q.gate == Rtp.Run(q.gateTrace) && OwnRoute(q)
    requires q.authority.protocolFailed ==> !q.authority.armed
    ensures Sound(b, h, n + 1)
  {
  }

  lemma SoundNext(b: SessionBinding, h: seq<Event>, n: nat)
    requires n < |h| && Sound(b, h, n)
    ensures Sound(b, h, n + 1)
  {
    var p, e := Run(b, h[..n]), h[n];
    StepEvolves(p, e);
    AuthorityEvolves(p, e);
    RouteEvolves(p, e);
    RunStep(b, h, n);
    SoundStep(b, h, n, p, Step(p, e));
  }

  lemma {:induction false} EveryStateIsSound(b: SessionBinding, h: seq<Event>, n: nat)
    requires n <= |h|
    ensures Sound(b, h, n)
  {
    if n > 0 {
      EveryStateIsSound(b, h, n - 1);
      SoundNext(b, h, n - 1);
    }
  }

  /** Every frame delivered by the first `n` events is authorized, and they are delivered one after another. */
  ghost predicate Ordered(b: SessionBinding, h: seq<Event>, n: nat)
    requires n <= |h|
  {
    OrderedLog(b, h, n, Run(b, h[..n]))
  }

  ghost predicate OrderedLog(b: SessionBinding, h: seq<Event>, n: nat, p: Peer) {
    && (forall i | 0 <= i < |p.deliveries| :: Authorized(b, h, p.deliveries[i]) && p.deliveries[i].routed < n)
    && (forall i, j | 0 <= i < j < |p.deliveries| :: p.deliveries[i].routed < p.deliveries[j].taken)
    && (forall i | 0 <= i < |p.deliveries| :: InHand(p) || p.phase.Routing? ==> p.deliveries[i].routed < p.phase.taken)
    && (p.deliveries != [] ==> b.mode.NeedsMicrophone())
  }

  lemma {:induction false} OrderedWhileWaiting(b: SessionBinding, h: seq<Event>, n: nat, p: Peer, q: Peer)
    requires n < |h| && Sound(b, h, n) && OrderedLog(b, h, n, p) && q.deliveries == p.deliveries
    requires p == Run(b, h[..n]) && FrameEvolves(p, h[n], q)
    ensures OrderedLog(b, h, n + 1, q)
  {
  }

  lemma {:induction false} NewDeliveryIsAuthorized(b: SessionBinding, h: seq<Event>, n: nat, p: Peer, q: Peer)
    requires n < |h| && Sound(b, h, n) && q.deliveries != p.deliveries
    requires p == Run(b, h[..n]) && FrameEvolves(p, h[n], q)
    ensures p.phase.Routing? && q.phase.Waiting? && |q.deliveries| == |p.deliveries| + 1 && p.deliveries <= q.deliveries
    ensures var d := q.deliveries[|p.deliveries|]; Authorized(b, h, d) && d.routed == n && d.taken == p.phase.taken
    ensures b.mode.NeedsMicrophone()
  {
  }

  lemma {:induction false} OrderedOnDelivery(b: SessionBinding, h: seq<Event>, n: nat, p: Peer, q: Peer)
    requires n < |h| && Sound(b, h, n) && OrderedLog(b, h, n, p) && q.deliveries != p.deliveries
    requires p == Run(b, h[..n]) && FrameEvolves(p, h[n], q)
    ensures OrderedLog(b, h, n + 1, q)
  {
    NewDeliveryIsAuthorized(b, h, n, p, q);
    var log := q.deliveries;
    forall i | 0 <= i < |log|
      ensures Authorized(b, h, log[i]) && log[i].routed < n + 1
    {
      assert i < |p.deliveries| ==> log[i] == p.deliveries[i];
    }
    forall i, j | 0 <= i < j < |log|
      ensures log[i].routed < log[j].taken
    {
      assert log[i] == p.deliveries[i] && (j < |p.deliveries| ==> log[j] == p.deliveries[j]);
    }
  }

  lemma OrderedNext(b: SessionBinding, h: seq<Event>, n: nat)
    requires n < |h| && Ordered(b, h, n)
    ensures Ordered(b, h, n + 1)
  {
    var p, e := Run(b, h[..n]), h[n];
    EveryStateIsSound(b, h, n);
    StepEvolves(p, e);
    RunStep(b, h, n);
    if Step(p, e).deliveries == p.deliveries {
      OrderedWhileWaiting(b, h, n, p, Step(p, e));
    } else {
      OrderedOnDelivery(b, h, n, p, Step(p, e));
    }
  }

  lemma {:induction false} EveryHistoryIsOrdered(b: SessionBinding, h: seq<Event>, n: nat)
    requires n <= |h|
    ensures Ordered(b, h, n)
  {
    if n > 0 {
      EveryHistoryIsOrdered(b, h, n - 1);
      OrderedNext(b, h, n - 1);
    }
  }

  /**
   * In every interleaving, each delivered frame took its snapshot from an armed, unfailed authority, then found the
   * RTP gate proved in that same generation and open for PCM, then (on a talk peer) found the caller route open for
   * exactly this binding; receive-only peers deliver nothing.
   */
  lemma DeliveredFramesAreAuthorized(b: SessionBinding, h: seq<Event>)
    ensures forall i | 0 <= i < |Run(b, h).deliveries| :: Authorized(b, h, Run(b, h).deliveries[i])
    ensures Run(b, h).deliveries != [] ==> b.mode.NeedsMicrophone()
  {
    assert h[..|h|] == h;
    EveryHistoryIsOrdered(b, h, |h|);
  }

  lemma RunSnoc(b: SessionBinding, h: seq<Event>, e: Event)
    ensures Run(b, h + [e]) == Step(Run(b, h), e)
  {
    assert (h + [e])[..|h|] == h;
  }

  /** On one peer a second authorization never succeeds while a permit is stored, and the stored one stays. */
  lemma SecondAuthorizationIsRefused(b: SessionBinding, h: seq<Event>, permit: Route.RoutePermit)
    requires Run(b, h).route.Some?
    ensures var s := AuthorizeCallerTransmit(b, Run(b, h).route, permit); s.outcome.Err? && s.stored == Run(b, h).route
  {
    assert h[..|h|] == h;
    EveryStateIsSound(b, h, |h|);
  }

  // ---- the peer object ------------------------------------------------------------------------

  /** The peer as the program holds it: three gate objects, the task's own variables, and a loop over what happens. */
  class DesktopPeer {
    const binding: SessionBinding
    const authority: Auth.RemoteMicrophoneAuthority
    const gate: Rtp.RtpProgressGate
    const routeGate: Route.RouteGate
    var channelSeen: bool
    var phase: Phase
    var nextPoll: nat
    var quarantined: nat
    var events: nat
    ghost var gateTrace: seq<Rtp.GateEvent>
    ghost var routeTrace: seq<Route.RouteOp>
    var deliveries: seq<Delivery>

    ghost function View(): Peer
      reads this, authority, gate, routeGate
    {
      Peer(binding, authority.View(), channelSeen, gate.View(), routeGate.inner, phase, nextPoll, quarantined, events,
           gateTrace, routeTrace, deliveries)
    }

    constructor (b: SessionBinding)
      ensures View() == NewPeer(b)
      ensures fresh(authority) && fresh(gate) && fresh(routeGate)
    {
      binding := b;
      authority := new Auth.RemoteMicrophoneAuthority();
      gate := new Rtp.RtpProgressGate();
      routeGate := new Route.RouteGate();
      channelSeen, phase, nextPoll, quarantined, events := false, NoTrack, 0, 0, 0;
      gateTrace, routeTrace, deliveries := [], [], [];
    }

    method ReceiveMessage(binary: bool, data: string)
      modifies authority
      ensures View() == OnMessage(old(View()), binary, data)
    {
      if channelSeen {
        if !binary {
          authority.FailProtocol();
          return;
        }
        var proof := Codec.ParsePayload(data, binding);
        if proof.Err? {
          authority.FailProtocol();
        } else {
          var applied := authority.ApplyProof(proof.value);
          if applied.Err? {
            authority.FailProtocol();
          }
        }
      }
    }

    method BeginGeneration(generation: nat)
      modifies this`gateTrace, gate
      ensures View() == Gated(old(View()), Rtp.Begun(generation))
    {
      gate.Begin(generation);
      gateTrace := gateTrace + [Rtp.Begun(generation)];
    }

    /** The armed half of a frame: refuse an overdue re-proof, then poll or decide. */
    method CheckFrame(now: nat, generation: nat) returns (expired: bool)
      modifies this, gate
      ensures var checked := Gated(old(View()), Rtp.Checked(now));
        && expired == Rtp.Apply(old(View()).gate, Rtp.Checked(now)).outcome.Err?
        && View() == if expired then checked.(phase := Stopped)
                     else if now < checked.nextPoll then checked.(phase := Deciding(events, generation))
                     else checked.(phase := Polling(events, generation),
                                   nextPoll := if CheckedAdd(now, STATS_POLL).Some? then now + STATS_POLL else now)
    {
      var r := gate.FailIfExpired(now);
      gateTrace := gateTrace + [Rtp.Checked(now)];
      expired := r.Err?;
      if expired {
        phase := Stopped;
      } else if now >= nextPoll {
        var next := CheckedAdd(now, STATS_POLL);
        nextPoll := if next.Some? then next.value else now;
        phase := Polling(events, generation);
      } else {
        phase := Deciding(events, generation);
      }
    }

    method TakeFrame(now: nat)
      modifies this, gate
      ensures View() == OnFrame(old(View()), now)
    {
      if !phase.Waiting? {
        return;
      }
      var generation, armed := authority.generation, authority.armed;
      if gate.authorityGeneration != generation {
        BeginGeneration(generation);
        if armed {
          nextPoll := now;
        }
      }
      if armed {
        var _ := CheckFrame(now, generation);
      } else {
        quarantined := quarantined + 1;
      }
    }

    method ReconcileReproofWait(now: nat, reason: Rtp.GateFailure)
      modifies this, gate
      ensures View() == Reconcile(old(View()), now, reason)
    {
      if !authority.armed || gate.authorityGeneration != authority.generation {
        BeginGeneration(authority.generation);
        phase, nextPoll := Waiting, now;
      } else {
        gate.FailClosed();
        gateTrace := gateTrace + [Rtp.Abandoned(reason)];
        phase := Stopped;
      }
    }

    method TakeStats(progress: Option<Rtp.Progress>, now: nat)
      modifies this, gate
      ensures View() == OnStats(old(View()), progress, now)
    {
      if !phase.Polling? {
        return;
      }
      if progress.None? {
        gate.liveUntil := None;
        gateTrace := gateTrace + [Rtp.Missed];
      } else {
        var observed := gate.ObserveProgress(progress.value, now);
        gateTrace := gateTrace + [Rtp.Observed(progress.value, now)];
        if observed.Err? {
          phase := Stopped;
          return;
        }
      }
      phase := Deciding(phase.taken, phase.generation);
    }

    method RouteFrame(now: nat, queueFull: bool)
      modifies this, routeGate
      ensures View() == OnRoute(old(View()), now, queueFull)
    {
      if !phase.Routing? {
        return;
      }
      var open := true;
      if binding.mode.Talk? {
        open := routeGate.AllowsRoute(binding, now);
        routeTrace := routeTrace + [Route.AllowsOp(binding, now)];
      }
      if !open || queueFull {
        quarantined := quarantined + 1;
      } else {
        deliveries := deliveries + [Delivery(phase.taken, phase.generation, phase.decided, events)];
      }
      phase := Waiting;
    }

    method HandleCallerRoute(e: Event)
      requires e.CallerAuthorized? || e.CallerRevoked? || e.CallerRenewed?
      modifies this, routeGate
      ensures View() == Handle(old(View()), e)
    {
      match e {
        case CallerAuthorized(permit) =>
          if binding.mode.Talk? && permit.binding == binding {
            var _ := routeGate.AuthorizeRoute(permit);
            routeTrace := routeTrace + [Route.AuthorizeOp(permit)];
          }
        case CallerRevoked =>
          routeGate.Revoke();
          routeTrace := routeTrace + [Route.RevokeOp];
        case CallerRenewed(lifetime, now) =>
          if binding.mode.Talk? {
            var _ := routeGate.RenewRoute(binding, lifetime, now);
            routeTrace := routeTrace + [Route.RenewOp(binding, lifetime, now)];
          }
      }
    }

    method HandleChannel(e: Event)
      requires e.ChannelOpened? || e.AuthorityMessage? || e.ChannelClosed?
      modifies this, authority
      ensures View() == Handle(old(View()), e)
    {
      match e {
        case ChannelOpened(labelled) =>
          var usable := binding.mode.NeedsMicrophone() && labelled == Codec.CHANNEL;
          if !usable || channelSeen {
            authority.FailProtocol();
          }
          channelSeen := channelSeen || usable;
        case AuthorityMessage(binary, data) =>
          ReceiveMessage(binary, data);
        case ChannelClosed =>
          if channelSeen {
            authority.FailProtocol();
          }
      }
    }

    method HandleTimeout(e: Event)
      requires e.FrameWaitTimedOut? || e.StatsTimedOut? || e.StreamEnded?
      modifies this, gate
      ensures View() == Handle(old(View()), e)
    {
      match e {
        case FrameWaitTimedOut(now) =>
          if phase.Waiting? && Rtp.PendingDeadline(gate.View()).Some? {
            ReconcileReproofWait(now, Rtp.ReproofTimedOut);
          }
        case StatsTimedOut(now) =>
          if phase.Polling? && Rtp.PendingDeadline(gate.View()).Some? {
            ReconcileReproofWait(now, Rtp.ReproofTimedOut);
          }
        case StreamEnded =>
          if phase.Waiting? {
            if Rtp.PendingDeadline(gate.View()).Some? {
              ReconcileReproofWait(0, Rtp.StreamEnded);
            }
            phase := Stopped;
          }
      }
    }

    method HandleAudio(e: Event)
      requires e.FrameArrived? || e.StatsArrived? || e.TrackAdded? || e.Decided? || e.Routed?
      modifies this, gate, routeGate
      ensures View() == Handle(old(View()), e)
    {
      match e {
        case TrackAdded(audio, now) =>
          if audio && binding.mode.NeedsMicrophone() && phase.NoTrack? {
            phase, nextPoll := Waiting, now;
          }
        case FrameArrived(now) => TakeFrame(now);
        case StatsArrived(progress, now) => TakeStats(progress, now);
        case Decided(now) =>
          if phase.Deciding? {
            if Rtp.AllowsPcm(gate.View(), now) {
              phase := Routing(phase.taken, phase.generation, events);
            } else {
              phase, quarantined := Waiting, quarantined + 1;
            }
          }
        case Routed(now, queueFull) => RouteFrame(now, queueFull);
      }
    }

    method Dispatch(e: Event)
      modifies this, authority, gate, routeGate
      ensures View() == Step(old(View()), e)
    {
      if e.CallerAuthorized? || e.CallerRevoked? || e.CallerRenewed? {
        HandleCallerRoute(e);
      } else if e.ChannelOpened? || e.AuthorityMessage? || e.ChannelClosed? {
        HandleChannel(e);
      } else if e.FrameWaitTimedOut? || e.StatsTimedOut? || e.StreamEnded? {
        HandleTimeout(e);
      } else {
        HandleAudio(e);
      }
      events := events + 1;
    }
  }

  /** A new peer driven through any schedule: every frame it hands out is authorized by what really happened before. */
  method DrivePeer(b: SessionBinding, schedule: seq<Event>) returns (delivered: seq<Delivery>)
    ensures delivered == Run(b, schedule).deliveries
    ensures forall i | 0 <= i < |delivered| :: Authorized(b, schedule, delivered[i])
  {
    var peer := new DesktopPeer(b);
    for n := 0 to |schedule|
      invariant fresh(peer) && fresh(peer.authority) && fresh(peer.gate) && fresh(peer.routeGate)
      invariant peer.View() == Run(b, schedule[..n])
    {
      peer.Dispatch(schedule[n]);
      RunStep(b, schedule, n);
    }
    assert schedule[..|schedule|] == schedule;
    delivered := peer.deliveries;
    DeliveredFramesAreAuthorized(b, schedule);
  }
}
