/** What becomes of every microphone frame: exactly when it is delivered, and where the others went. */
module FrameFate {
  import opened Prelude
  import opened SessionBindings
  import opened DesktopPeers
  import Auth = MicrophoneAuthority
  import Rtp = RtpProgress
  import Route = RouteGates

  // ---- one event, told by the facts that decide it ------------------------------------------------

  /** The authority is not the one the gate is proving: disarmed, or armed in another generation. */
  predicate MovedOn(p: Peer) {
    !p.authority.armed || p.gate.authorityGeneration != p.authority.generation
  }

  /** A re-proof of the gate is pending. */
  predicate AwaitsReproof(p: Peer) {
    p.gate.reproofPending && p.gate.reproofDeadline.Some?
  }

  /** A frame that takes its snapshot at `now` finds the re-proof of its own generation overdue. */
  predicate Overdue(p: Peer, now: nat) {
    AwaitsReproof(p) && !MovedOn(p) && now >= p.gate.reproofDeadline.value
  }

  predicate PollDue(p: Peer, now: nat) {
    p.gate.authorityGeneration != p.authority.generation || now >= p.nextPoll
  }

  /** The gate refuses the report. */
  predicate Refuses(p: Peer, progress: Option<Rtp.Progress>, now: nat) {
    progress.Some? && Rtp.Observe(p.gate, progress.value, now).outcome.Err?
  }

  predicate RouteOpen(p: Peer, now: nat) {
    p.binding.mode.Talk? ==> p.route.Some? && p.route.value.binding == p.binding && now < p.route.value.expiresAt
  }

  /** The phase after event `e`, by the phase before it. */
  ghost predicate Moves(p: Peer, e: Event, next: Phase) {
    match p.phase
    case NoTrack =>
      next == if e.TrackAdded? && e.audio && p.binding.mode in {Consult, Talk} then Waiting else NoTrack
    case Waiting =>
      && (next.Polling? <==> e.FrameArrived? && p.authority.armed && !Overdue(p, e.now) && PollDue(p, e.now))
      && (next.Deciding? <==> e.FrameArrived? && p.authority.armed && !Overdue(p, e.now) && !PollDue(p, e.now))
      && (next.Stopped? <==>
            || (e.FrameArrived? && Overdue(p, e.now))
            || (e.FrameWaitTimedOut? && AwaitsReproof(p) && !MovedOn(p))
            || e.StreamEnded?)
      && (next.Polling? || next.Deciding? ==> next.taken == p.events && next.generation == p.authority.generation)
      && !next.NoTrack? && !next.Routing?
    case Polling(taken, generation) =>
      && (next == Deciding(taken, generation) <==> e.StatsArrived? && !Refuses(p, e.progress, e.now))
      && (next == Stopped <==>
            || (e.StatsArrived? && Refuses(p, e.progress, e.now))
            || (e.StatsTimedOut? && AwaitsReproof(p) && !MovedOn(p)))
      && (next == Waiting <==> e.StatsTimedOut? && AwaitsReproof(p) && MovedOn(p))
      && (next == p.phase || next == Deciding(taken, generation) || next == Stopped || next == Waiting)
    case Deciding(taken, generation) =>
      next == if !e.Decided? then p.phase
              else if p.gate.liveUntil.Some? && e.now < p.gate.liveUntil.value then Routing(taken, generation, p.events)
              else Waiting
    case Routing(_, _, _) => next == if e.Routed? then Waiting else p.phase
    case Stopped => next == Stopped
  }

  /** A pending re-proof has its deadline, as in every reachable gate. */
  predicate Dated(p: Peer) {
    p.gate.reproofPending ==> p.gate.reproofDeadline.Some?
  }

  lemma FrameMoves(p: Peer, now: nat)
    requires Dated(p) && p.phase.Waiting?
    ensures Moves(p, FrameArrived(now), Step(p, FrameArrived(now)).phase)
  {
  }

  lemma WaitMoves(p: Peer, e: Event)
    requires p.phase.Waiting? && !e.FrameArrived?
    ensures Moves(p, e, Step(p, e).phase)
  {
  }

  lemma PollMoves(p: Peer, e: Event)
    requires p.phase.Polling?
    ensures Moves(p, e, Step(p, e).phase)
  {
  }

  /** The task's phase moves exactly on these facts. */
  lemma PhaseMovesExactly(p: Peer, e: Event)
    requires Dated(p)
    ensures Moves(p, e, Step(p, e).phase)
  {
    if p.phase.Waiting? {
      if e.FrameArrived? {
        FrameMoves(p, e.now);
      } else {
        WaitMoves(p, e);
      }
    } else if p.phase.Polling? {
      PollMoves(p, e);
    } else {
      OtherMoves(p, e);
    }
  }

  lemma OtherMoves(p: Peer, e: Event)
    requires !p.phase.Waiting? && !p.phase.Polling?
    ensures Moves(p, e, Step(p, e).phase)
  {
  }

  /** Event `e` hands the frame over. */
  predicate Delivers(p: Peer, e: Event) {
    p.phase.Routing? && e.Routed? && RouteOpen(p, e.now) && !e.queueFull
  }

  /** Event `e` counts a frame as quarantined: disarmed, window closed, route closed or queue full. */
  predicate Quarantines(p: Peer, e: Event) {
    || (p.phase.Waiting? && e.FrameArrived? && !p.authority.armed)
    || (p.phase.Deciding? && e.Decided? && !(p.gate.liveUntil.Some? && e.now < p.gate.liveUntil.value))
    || (p.phase.Routing? && e.Routed? && !(RouteOpen(p, e.now) && !e.queueFull))
  }

  /** The frame event `e` hands over, if it does. */
  function Handed(p: Peer, e: Event): seq<Delivery> {
    if Delivers(p, e) then [Delivery(p.phase.taken, p.phase.generation, p.phase.decided, p.events)] else []
  }

  lemma RouteCounts(p: Peer, e: Event)
    requires e.Routed?
    ensures Step(p, e).deliveries == p.deliveries + Handed(p, e)
    ensures Step(p, e).quarantined == p.quarantined + if Quarantines(p, e) then 1 else 0
  {
  }

  /** Exactly these events deliver, and exactly these count a frame as quarantined. */
  lemma CountsExactly(p: Peer, e: Event)
    ensures Step(p, e).deliveries == p.deliveries + Handed(p, e)
    ensures Step(p, e).quarantined == p.quarantined + if Quarantines(p, e) then 1 else 0
  {
    if e.Routed? {
      RouteCounts(p, e);
    } else if e.FrameArrived? {
      FrameCounts(p, e.now);
    } else {
      OthersCount(p, e);
    }
  }

  lemma FrameCounts(p: Peer, now: nat)
    ensures Step(p, FrameArrived(now)).deliveries == p.deliveries
    ensures Step(p, FrameArrived(now)).quarantined == p.quarantined + if p.phase.Waiting? && !p.authority.armed then 1 else 0
  {
  }

  lemma OthersCount(p: Peer, e: Event)
    requires !e.Routed? && !e.FrameArrived?
    ensures Step(p, e).deliveries == p.deliveries
    ensures Step(p, e).quarantined == p.quarantined + if Quarantines(p, e) then 1 else 0
  {
  }

  /** Event `e` makes the task prove another generation. */
  predicate Rebegins(p: Peer, e: Event) {
    || (p.phase.Waiting? && e.FrameArrived? && p.gate.authorityGeneration != p.authority.generation)
    || (p.phase.Waiting? && (e.FrameWaitTimedOut? || e.StreamEnded?) && AwaitsReproof(p) && MovedOn(p))
    || (p.phase.Polling? && e.StatsTimedOut? && AwaitsReproof(p) && MovedOn(p))
  }

  /** What the gate sees of event `e`: a new generation, then a clock check, a report, a miss or the end. */
  function Seen(p: Peer, e: Event): seq<Rtp.GateEvent> {
    (if Rebegins(p, e) then [Rtp.Begun(p.authority.generation)] else []) +
    match e
    case FrameArrived(now) => if p.phase.Waiting? && p.authority.armed then [Rtp.Checked(now)] else []
    case StatsArrived(progress, now) =>
      if !p.phase.Polling? then [] else if progress.Some? then [Rtp.Observed(progress.value, now)] else [Rtp.Missed]
    case FrameWaitTimedOut(_) => if p.phase.Waiting? && AwaitsReproof(p) && !MovedOn(p) then [Rtp.Abandoned(Rtp.ReproofTimedOut)] else []
    case StatsTimedOut(_) => if p.phase.Polling? && AwaitsReproof(p) && !MovedOn(p) then [Rtp.Abandoned(Rtp.ReproofTimedOut)] else []
    case StreamEnded => if p.phase.Waiting? && AwaitsReproof(p) && !MovedOn(p) then [Rtp.Abandoned(Rtp.StreamEnded)] else []
    case _ => []
  }

  lemma FrameIsSeen(p: Peer, now: nat)
    ensures Step(p, FrameArrived(now)).gateTrace == p.gateTrace + Seen(p, FrameArrived(now))
  {
  }

  lemma GateSeesExactly(p: Peer, e: Event)
    ensures Step(p, e).gateTrace == p.gateTrace + Seen(p, e)
  {
    if e.FrameArrived? {
      FrameIsSeen(p, e.now);
    } else if DrivesGate(e) {
      WaitsAreSeen(p, e);
    } else {
      EvolvesOnOther(p, e);
    }
  }

  lemma WaitsAreSeen(p: Peer, e: Event)
    requires DrivesGate(e) && !e.FrameArrived?
    ensures Step(p, e).gateTrace == p.gateTrace + Seen(p, e)
  {
  }

  // ---- a run as its states ---------------------------------------------------------------------------

  /** The peer before each event of `h`, and after the last. */
  ghost function States(b: SessionBinding, h: seq<Event>): seq<Peer> {
    seq(|h| + 1, n requires 0 <= n <= |h| => Run(b, h[..n]))
  }

  /** What the lemmas above say of event `n`, which takes `p` to `q`. */
  ghost predicate Goes(n: nat, p: Peer, e: Event, q: Peer) {
    && p.events == n && (p.authority.armed ==> !p.authority.protocolFailed)
    && Moves(p, e, q.phase)
    && q.deliveries == p.deliveries + Handed(p, e)
    && q.quarantined == p.quarantined + (if Quarantines(p, e) then 1 else 0)
    && Paces(p, e, q)
  }

  ghost predicate Going(h: seq<Event>, ps: seq<Peer>) {
    |ps| == |h| + 1 && forall n: nat, l: nat | n < |h| && l == n + 1 :: Goes(n, ps[n], h[n], ps[l])
  }

  lemma {:induction false} StateIsDated(b: SessionBinding, h: seq<Event>, n: nat)
    requires n <= |h|
    ensures var p := Run(b, h[..n]); Dated(p) && p.events == n && (p.authority.armed ==> !p.authority.protocolFailed)
  {
    EveryStateIsSound(b, h, n);
    Rtp.ReachableGateIsCoherent(Run(b, h[..n]).gateTrace);
  }

  lemma {:induction false} EventGoes(b: SessionBinding, h: seq<Event>, n: nat)
    requires n < |h|
    ensures Goes(n, Run(b, h[..n]), h[n], Run(b, h[..n + 1]))
  {
    StateIsDated(b, h, n);
    RunStep(b, h, n);
    PhaseMovesExactly(Run(b, h[..n]), h[n]);
    CountsExactly(Run(b, h[..n]), h[n]);
    PaceMovesExactly(Run(b, h[..n]), h[n]);
  }

  lemma {:induction false} EveryRunGoes(b: SessionBinding, h: seq<Event>)
    ensures Going(h, States(b, h)) && States(b, h)[0] == NewPeer(b) && States(b, h)[|h|] == Run(b, h)
  {
    assert h[..|h|] == h && h[..0] == [];
    forall n: nat, l: nat | n < |h| && l == n + 1
      ensures Goes(n, States(b, h)[n], h[n], States(b, h)[l])
    {
      EventGoes(b, h, n);
    }
  }

  lemma GoesAt(h: seq<Event>, ps: seq<Peer>, n: nat)
    requires Going(h, ps) && n < |h|
    ensures Goes(n, ps[n], h[n], ps[n + 1])
  {
  }

  // ---- the walk of one frame ------------------------------------------------------------------------

  /** Event `t` took a frame with its snapshot armed in `g` and no re-proof overdue. */
  ghost predicate TakenAt(h: seq<Event>, ps: seq<Peer>, t: nat, g: nat) {
    && t < |h| && t < |ps| && h[t].FrameArrived? && ps[t].phase.Waiting?
    && ps[t].authority == Auth.Authority(g, true, false) && !Overdue(ps[t], h[t].now)
  }

  ghost predicate PolledAt(h: seq<Event>, ps: seq<Peer>, t: nat) {
    t < |h| && t < |ps| && h[t].FrameArrived? && PollDue(ps[t], h[t].now)
  }

  /** Event `k` ends a poll: a reply, or its time-out while a re-proof is pending. */
  ghost predicate EndsPoll(h: seq<Event>, ps: seq<Peer>, k: nat) {
    k < |h| && k < |ps| && (h[k].StatsArrived? || (h[k].StatsTimedOut? && AwaitsReproof(ps[k])))
  }

  ghost predicate NoPollEnd(h: seq<Event>, ps: seq<Peer>, from: nat, end: nat) {
    forall k: nat | from < k < end :: !EndsPoll(h, ps, k)
  }

  /** By event `r` the frame taken at `t` needs no report, or the first thing that ended its poll was an accepted one. */
  ghost predicate ReadyAt(h: seq<Event>, ps: seq<Peer>, t: nat, r: nat) {
    if PolledAt(h, ps, t) then
      && t < r < |h| && r < |ps| && NoPollEnd(h, ps, t, r)
      && h[r].StatsArrived? && !Refuses(ps[r], h[r].progress, h[r].now)
    else r == t
  }

  predicate NoDecision(h: seq<Event>, from: nat, end: nat) {
    forall k: nat | from < k < end && k < |h| :: !h[k].Decided?
  }

  /** Event `d` is the first decision after `r`, and finds the window open. */
  ghost predicate OpenAt(h: seq<Event>, ps: seq<Peer>, r: nat, d: nat) {
    r < d < |h| && d < |ps| && NoDecision(h, r, d) && h[d].Decided? && Rtp.AllowsPcm(ps[d].gate, h[d].now)
  }

  predicate NoRouting(h: seq<Event>, from: nat, end: nat) {
    forall k: nat | from < k < end && k < |h| :: !h[k].Routed?
  }

  /** Event `x` is the first routing after `d`, and finds the route open and room in the queue. */
  ghost predicate HandedAt(h: seq<Event>, ps: seq<Peer>, d: nat, x: nat) {
    d < x < |h| && x < |ps| && NoRouting(h, d, x) && h[x].Routed? && !h[x].queueFull && RouteOpen(ps[x], h[x].now)
  }

  /** The whole walk of a delivered frame, `r` being where it needed no further report. */
  ghost predicate Walk(h: seq<Event>, ps: seq<Peer>, v: Delivery, r: nat) {
    && TakenAt(h, ps, v.taken, v.generation) && ReadyAt(h, ps, v.taken, r)
    && OpenAt(h, ps, r, v.decided) && HandedAt(h, ps, v.decided, v.routed)
  }

  // ---- every phase has been walked to ---------------------------------------------------------------

  /** The frame in `phase` after `n` events has walked there. */
  ghost predicate Walked(h: seq<Event>, ps: seq<Peer>, n: nat, phase: Phase) {
    match phase
    case Polling(t, g) => t < n && TakenAt(h, ps, t, g) && PolledAt(h, ps, t) && NoPollEnd(h, ps, t, n)
    case Deciding(t, g) => TakenAt(h, ps, t, g) && exists r: nat :: r < n && ReadyAt(h, ps, t, r) && NoDecision(h, r, n)
    case Routing(t, g, d) =>
      d < n && TakenAt(h, ps, t, g) && NoRouting(h, d, n) && exists r: nat :: ReadyAt(h, ps, t, r) && OpenAt(h, ps, r, d)
    case _ => true
  }

  lemma {:induction false} WalkFromWaiting(h: seq<Event>, ps: seq<Peer>, n: nat)
    requires Going(h, ps) && n < |h| && ps[n].phase.Waiting?
    ensures Walked(h, ps, n + 1, ps[n + 1].phase)
  {
    GoesAt(h, ps, n);
    var p, next := ps[n], ps[n + 1].phase;
    if next.Polling? || next.Deciding? {
      assert p.authority == Auth.Authority(p.authority.generation, true, false);
      assert TakenAt(h, ps, n, p.authority.generation);
      assert next.Deciding? ==> ReadyAt(h, ps, n, n) && NoDecision(h, n, n + 1);
    }
  }

  lemma {:induction false} WalkFromPolling(h: seq<Event>, ps: seq<Peer>, n: nat)
    requires Going(h, ps) && n < |h| && ps[n].phase.Polling? && Walked(h, ps, n, ps[n].phase)
    ensures Walked(h, ps, n + 1, ps[n + 1].phase)
  {
    GoesAt(h, ps, n);
    if ps[n + 1].phase.Deciding? {
      assert ReadyAt(h, ps, ps[n].phase.taken, n) && NoDecision(h, n, n + 1);
    } else if ps[n + 1].phase.Polling? {
      assert !EndsPoll(h, ps, n);
    }
  }

  lemma {:induction false} WalkFromDeciding(h: seq<Event>, ps: seq<Peer>, n: nat)
    requires Going(h, ps) && n < |h| && ps[n].phase.Deciding? && Walked(h, ps, n, ps[n].phase)
    ensures Walked(h, ps, n + 1, ps[n + 1].phase)
  {
    GoesAt(h, ps, n);
    var r: nat :| r < n && ReadyAt(h, ps, ps[n].phase.taken, r) && NoDecision(h, r, n);
    if ps[n + 1].phase.Routing? {
      assert OpenAt(h, ps, r, n);
    } else if ps[n + 1].phase.Deciding? {
      assert NoDecision(h, r, n + 1);
    }
  }

  lemma {:induction false} WalkFromRouting(h: seq<Event>, ps: seq<Peer>, n: nat)
    requires Going(h, ps) && n < |h| && ps[n].phase.Routing? && Walked(h, ps, n, ps[n].phase)
    ensures Walked(h, ps, n + 1, ps[n + 1].phase)
  {
    GoesAt(h, ps, n);
  }

  lemma {:induction false} WalkStep(h: seq<Event>, ps: seq<Peer>, n: nat)
    requires Going(h, ps) && n < |h| && Walked(h, ps, n, ps[n].phase)
    ensures Walked(h, ps, n + 1, ps[n + 1].phase)
  {
    match ps[n].phase {
      case NoTrack => GoesAt(h, ps, n);
      case Stopped => GoesAt(h, ps, n);
      case Waiting => WalkFromWaiting(h, ps, n);
      case Polling(_, _) => WalkFromPolling(h, ps, n);
      case Deciding(_, _) => WalkFromDeciding(h, ps, n);
      case Routing(_, _, _) => WalkFromRouting(h, ps, n);
    }
  }

  lemma {:induction false} EveryPhaseIsWalked(h: seq<Event>, ps: seq<Peer>, n: nat)
    requires Going(h, ps) && ps[0].phase.NoTrack? && n <= |h|
    ensures Walked(h, ps, n, ps[n].phase)
  {
    if n > 0 {
      EveryPhaseIsWalked(h, ps, n - 1);
      WalkStep(h, ps, n - 1);
    }
  }

  // ---- every walk leads to its phase ------------------------------------------------------------------

  lemma {:induction false} StaysPolling(h: seq<Event>, ps: seq<Peer>, t: nat, g: nat, n: nat)
    requires Going(h, ps) && t < n <= |h| && TakenAt(h, ps, t, g) && PolledAt(h, ps, t) && NoPollEnd(h, ps, t, n)
    ensures ps[n].phase == Polling(t, g)
    decreases n
  {
    GoesAt(h, ps, n - 1);
    if t < n - 1 {
      StaysPolling(h, ps, t, g, n - 1);
      assert !EndsPoll(h, ps, n - 1);
    }
  }

  lemma {:induction false} BecomesDeciding(h: seq<Event>, ps: seq<Peer>, t: nat, g: nat, r: nat)
    requires Going(h, ps) && TakenAt(h, ps, t, g) && ReadyAt(h, ps, t, r)
    ensures r < |h| && ps[r + 1].phase == Deciding(t, g)
  {
    GoesAt(h, ps, r);
    if PolledAt(h, ps, t) {
      StaysPolling(h, ps, t, g, r);
    }
  }

  lemma {:induction false} StaysDeciding(h: seq<Event>, ps: seq<Peer>, r: nat, n: nat)
    requires Going(h, ps) && r < n <= |h| && ps[r + 1].phase.Deciding? && NoDecision(h, r, n)
    ensures ps[n].phase == ps[r + 1].phase
    decreases n
  {
    if r + 1 < n {
      StaysDeciding(h, ps, r, n - 1);
      GoesAt(h, ps, n - 1);
    }
  }

  lemma {:induction false} StaysRouting(h: seq<Event>, ps: seq<Peer>, d: nat, n: nat)
    requires Going(h, ps) && d < n <= |h| && ps[d + 1].phase.Routing? && NoRouting(h, d, n)
    ensures ps[n].phase == ps[d + 1].phase
    decreases n
  {
    if d + 1 < n {
      StaysRouting(h, ps, d, n - 1);
      GoesAt(h, ps, n - 1);
    }
  }

  lemma {:induction false} WalkReachesRouting(h: seq<Event>, ps: seq<Peer>, v: Delivery, r: nat)
    requires Going(h, ps) && Walk(h, ps, v, r)
    ensures ps[v.routed].phase == Routing(v.taken, v.generation, v.decided)
  {
    BecomesDeciding(h, ps, v.taken, v.generation, r);
    StaysDeciding(h, ps, r, v.decided);
    GoesAt(h, ps, v.decided);
    StaysRouting(h, ps, v.decided, v.routed);
  }

  // ---- the deliveries --------------------------------------------------------------------------------

  lemma {:induction false} DeliveredWalked(h: seq<Event>, ps: seq<Peer>, n: nat, v: Delivery) returns (r: nat)
    requires Going(h, ps) && ps[0].phase.NoTrack? && ps[0].deliveries == [] && n <= |h| && v in ps[n].deliveries
    ensures Walk(h, ps, v, r)
  {
    GoesAt(h, ps, n - 1);
    if v in ps[n - 1].deliveries {
      r := DeliveredWalked(h, ps, n - 1, v);
    } else {
      EveryPhaseIsWalked(h, ps, n - 1);
      r :| ReadyAt(h, ps, v.taken, r) && OpenAt(h, ps, r, v.decided);
    }
  }

  lemma {:induction false} DeliveredStays(h: seq<Event>, ps: seq<Peer>, m: nat, n: nat, v: Delivery)
    requires Going(h, ps) && m <= n <= |h| && v in ps[m].deliveries
    ensures v in ps[n].deliveries
    decreases n
  {
    if m < n {
      DeliveredStays(h, ps, m, n - 1, v);
      GoesAt(h, ps, n - 1);
    }
  }

  lemma {:induction false} WalkDelivers(h: seq<Event>, ps: seq<Peer>, v: Delivery, r: nat)
    requires Going(h, ps) && Walk(h, ps, v, r)
    ensures v in ps[|h|].deliveries
  {
    WalkReachesRouting(h, ps, v, r);
    GoesAt(h, ps, v.routed);
    assert Handed(ps[v.routed], h[v.routed]) == [v];
    DeliveredStays(h, ps, v.routed + 1, |h|, v);
  }

  /**
   * A frame is delivered exactly when its snapshot was armed with no re-proof overdue, the poll it needed was ended by
   * a report the gate accepted, the next decision found the window open and the next routing found the caller route
   * open for exactly this binding and room in the queue.
   */
  lemma {:induction false} DeliveredIff(b: SessionBinding, h: seq<Event>, v: Delivery)
    ensures v in Run(b, h).deliveries <==> exists r: nat :: Walk(h, States(b, h), v, r)
  {
    var ps := States(b, h);
    EveryRunGoes(b, h);
    if v in ps[|h|].deliveries {
      var r := DeliveredWalked(h, ps, |h|, v);
    }
    if r: nat :| Walk(h, ps, v, r) {
      WalkDelivers(h, ps, v, r);
    }
  }

  // ---- conservation ------------------------------------------------------------------------------------

  /** Event `e` reads a frame of the track. */
  predicate Reads(p: Peer, e: Event) {
    e.FrameArrived? && p.phase.Waiting?
  }

  /** Event `e` loses the frame it found or read: its re-proof was overdue, its report refused, its poll abandoned. */
  predicate Loses(p: Peer, e: Event) {
    || (p.phase.Waiting? && e.FrameArrived? && Overdue(p, e.now))
    || (p.phase.Polling? && e.StatsArrived? && Refuses(p, e.progress, e.now))
    || (p.phase.Polling? && e.StatsTimedOut? && AwaitsReproof(p))
  }

  ghost function FramesRead(h: seq<Event>, ps: seq<Peer>, n: nat): nat
    requires n <= |h| < |ps|
  {
    if n == 0 then 0 else FramesRead(h, ps, n - 1) + if Reads(ps[n - 1], h[n - 1]) then 1 else 0
  }

  ghost function FramesLost(h: seq<Event>, ps: seq<Peer>, n: nat): nat
    requires n <= |h| < |ps|
  {
    if n == 0 then 0 else FramesLost(h, ps, n - 1) + if Loses(ps[n - 1], h[n - 1]) then 1 else 0
  }

  /** One while a frame is on its way. */
  function OnItsWay(phase: Phase): nat {
    if phase.Polling? || phase.Deciding? || phase.Routing? then 1 else 0
  }

  lemma StepConserves(n: nat, p: Peer, e: Event, q: Peer)
    requires Goes(n, p, e, q)
    ensures |q.deliveries| + q.quarantined + OnItsWay(q.phase) + (if Loses(p, e) then 1 else 0) ==
      |p.deliveries| + p.quarantined + OnItsWay(p.phase) + if Reads(p, e) then 1 else 0
  {
  }

  lemma {:induction false} Conserved(h: seq<Event>, ps: seq<Peer>, n: nat)
    requires Going(h, ps) && n <= |h| && ps[0].phase.NoTrack? && ps[0].deliveries == [] && ps[0].quarantined == 0
    ensures FramesRead(h, ps, n) == |ps[n].deliveries| + ps[n].quarantined + FramesLost(h, ps, n) + OnItsWay(ps[n].phase)
  {
    if n > 0 {
      Conserved(h, ps, n - 1);
      GoesAt(h, ps, n - 1);
      StepConserves(n - 1, ps[n - 1], h[n - 1], ps[n]);
    }
  }

  /** Every frame read is delivered, quarantined, lost to a failed proof or still on its way, in every run. */
  lemma {:induction false} FramesAreConserved(b: SessionBinding, h: seq<Event>)
    ensures var p, ps := Run(b, h), States(b, h);
      FramesRead(h, ps, |h|) == |p.deliveries| + p.quarantined + FramesLost(h, ps, |h|) + OnItsWay(p.phase)
  {
    EveryRunGoes(b, h);
    Conserved(h, States(b, h), |h|);
  }

  // ---- the pace of the polls -----------------------------------------------------------------------------

  predicate StartsPoll(p: Peer, q: Peer) {
    p.phase.Waiting? && q.phase.Polling?
  }

  /** A poll is not started before it is due unless the task turns to another generation, and sets the next 50 ms on. */
  ghost predicate Paces(p: Peer, e: Event, q: Peer) {
    && (StartsPoll(p, q) ==>
          && e.FrameArrived? && (Rebegins(p, e) || e.now >= p.nextPoll)
          && q.nextPoll == if e.now + STATS_POLL <= MAX_INSTANT then e.now + STATS_POLL else e.now)
    && (!p.phase.NoTrack? && !StartsPoll(p, q) && !Rebegins(p, e) ==> q.nextPoll == p.nextPoll)
  }

  lemma PaceMovesExactly(p: Peer, e: Event)
    ensures Paces(p, e, Step(p, e))
  {
    if p.phase.Waiting? && e.FrameArrived? {
      FramePaces(p, e.now);
    }
  }

  lemma FramePaces(p: Peer, now: nat)
    requires p.phase.Waiting?
    ensures Paces(p, FrameArrived(now), Step(p, FrameArrived(now)))
  {
  }

  /** From event `i` on (exclusive) up to `j` (inclusive) the task stays with one generation. */
  ghost predicate OneGeneration(h: seq<Event>, ps: seq<Peer>, i: nat, j: nat) {
    j < |h| < |ps| && forall k: nat | i < k <= j :: !Rebegins(ps[k], h[k])
  }

  lemma {:induction false} PaceHolds(h: seq<Event>, ps: seq<Peer>, i: nat, n: nat, due: nat)
    requires Going(h, ps) && i < n <= |h| && OneGeneration(h, ps, i, n - 1)
    requires due <= ps[i + 1].nextPoll && !ps[i + 1].phase.NoTrack?
    ensures due <= ps[n].nextPoll && !ps[n].phase.NoTrack?
    decreases n
  {
    if i + 1 < n {
      PaceHolds(h, ps, i, n - 1, due);
      GoesAt(h, ps, n - 1);
      assert !Rebegins(ps[n - 1], h[n - 1]);
    }
  }

  /** Two stats polls for one generation are at least 50 ms apart. */
  lemma {:induction false} PollsAreSpaced(b: SessionBinding, h: seq<Event>, i: nat, j: nat)
    requires var ps := States(b, h);
      i < j < |h| && StartsPoll(ps[i], ps[i + 1]) && StartsPoll(ps[j], ps[j + 1]) && OneGeneration(h, ps, i, j)
    ensures h[i].FrameArrived? && h[j].FrameArrived?
    ensures h[i].now + STATS_POLL <= MAX_INSTANT ==> h[j].now >= h[i].now + STATS_POLL
  {
    var ps := States(b, h);
    EveryRunGoes(b, h);
    GoesAt(h, ps, i);
    GoesAt(h, ps, j);
    PaceHolds(h, ps, i, j, ps[i + 1].nextPoll);
    assert !Rebegins(ps[j], h[j]);
  }
}
