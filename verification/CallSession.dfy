/** The call-session tracker: at most one live call, parked calls, and a generation that is never reused. */
module CallSessions {
  import opened Prelude

  datatype Intent =
    | OperatorReject
    | OperatorHangup
    | AgentHangup
    | AgentTerminateAbuse
    | DeviceLost
    | AbandonedOnHold
    | AbandonedInQueue
    | Screened
    | PluginStopped

  /** What the radio learns and decides about a call while it is live. */
  datatype Detail = Detail(
    active: bool,
    callerId: Option<string>,
    callerWithheld: bool,
    handedOver: bool,
    answeredByAokie: bool,
    ownerTook: bool,
    intent: Option<Intent>,
    alerted: bool)

  datatype Session = Session(
    id: string, generation: nat, outbound: bool, agentOwned: bool, started: nat, answered: Option<nat>, detail: Detail)

  datatype Outcome =
    | Completed | Rejected | Missed | NoAnswer | FailedAttempt | TerminatedForAbuse | LostOnHold | LostInQueue

  datatype Reason =
    | ByDeviceLoss | ByPluginStop | ByCancellation | ByRemoteOrNetwork | BySetupFailure | ByOperatorHangup
    | ByAgentHangup | ByAgentAbuse | HungUpOnHold | HungUpInQueue | ByScreening | ByRemoteOrOperator | ByOperatorReject

  datatype Ended = Ended(
    id: string, generation: nat, callerId: Option<string>, durationMs: nat, outcome: Outcome, reason: Reason, outbound: bool)

  datatype Tracker = Tracker(session: Option<Session>, lastGeneration: nat)

  function Generation(t: Tracker): nat {
    if t.session.Some? then t.session.value.generation else 0
  }

  // ---- ending a call ------------------------------------------------------------------

  function OutboundVerdict(s: Session): (Outcome, Reason) {
    var cancelled := s.detail.intent in {Some(OperatorHangup), Some(OperatorReject), Some(AgentHangup)};
    if s.detail.intent == Some(DeviceLost) then (FailedAttempt, ByDeviceLoss)
    else if s.detail.intent == Some(PluginStopped) then (FailedAttempt, ByPluginStop)
    else if s.detail.alerted then (NoAnswer, if cancelled then ByCancellation else ByRemoteOrNetwork)
    else (FailedAttempt, if cancelled then ByCancellation else BySetupFailure)
  }

  function AnsweredVerdict(s: Session): (Outcome, Reason) {
    if s.detail.intent.None? then (Completed, ByRemoteOrOperator)
    else match s.detail.intent.value
      case DeviceLost => (Completed, ByDeviceLoss)
      case OperatorHangup => (Completed, ByOperatorHangup)
      case AgentHangup => (Completed, ByAgentHangup)
      case AgentTerminateAbuse => (TerminatedForAbuse, ByAgentAbuse)
      case AbandonedOnHold => (LostOnHold, HungUpOnHold)
      case AbandonedInQueue => (LostInQueue, HungUpInQueue)
      case Screened => (Completed, ByScreening)
      case PluginStopped => (Completed, ByPluginStop)
      case OperatorReject => (Completed, ByRemoteOrOperator)
  }

  function UnansweredVerdict(s: Session): (Outcome, Reason) {
    if s.detail.intent.None? then (Missed, ByRemoteOrOperator)
    else match s.detail.intent.value
      case DeviceLost => (Missed, ByDeviceLoss)
      case PluginStopped => (Missed, ByPluginStop)
      case OperatorReject => (Rejected, ByOperatorReject)
      case Screened => (Rejected, ByScreening)
      case OperatorHangup => (Rejected, ByOperatorHangup)
      case AgentHangup => (Missed, ByAgentHangup)
      case AgentTerminateAbuse => (Rejected, ByAgentAbuse)
      case AbandonedOnHold => (Missed, HungUpInQueue)
      case AbandonedInQueue => (Missed, HungUpInQueue)
  }

  function Elapsed(since: nat, now: nat): nat {
    if now >= since then now - since else 0
  }

  function EndedFrom(s: Session, now: nat): Ended {
    if s.outbound && s.answered.None? then
      var v := OutboundVerdict(s);
      Ended(s.id, s.generation, s.detail.callerId, 0, v.0, v.1, true)
    else
      var v := if s.answered.Some? then AnsweredVerdict(s) else UnansweredVerdict(s);
      var duration := if s.answered.Some? then Elapsed(s.answered.value, now) else 0;
      Ended(s.id, s.generation, s.detail.callerId, duration, v.0, v.1, s.outbound)
  }

  // ---- the tracker -----------------------------------------------------------------------

  function NewSession(id: string, generation: nat, now: nat, number: Option<string>, outbound: bool, agentOwned: bool)
    : Session
  {
    Session(id, generation, outbound, agentOwned, now, None, Detail(false, number, false, false, false, false, None, false))
  }

  function Ring(t: Tracker, id: string, now: nat): Tracker {
    if t.session.Some? then t
    else Tracker(Some(NewSession(id, t.lastGeneration + 1, now, None, false, false)), t.lastGeneration + 1)
  }

  function Dial(t: Tracker, id: string, number: Option<string>, agentOwned: bool, now: nat): Tracker {
    if t.session.Some? then t
    else Tracker(Some(NewSession(id, t.lastGeneration + 1, now, number, true, agentOwned)), t.lastGeneration + 1)
  }

  function Answer(s: Session, here: bool, now: nat): Session {
    var byAokie := here || s.detail.answeredByAokie;
    var owner := if s.answered.Some? then s.detail.ownerTook else !s.outbound && !byAokie && !s.detail.handedOver;
    s.(answered := if s.answered.Some? then s.answered else Some(now),
       detail := s.detail.(active := true, answeredByAokie := byAokie, ownerTook := owner))
  }

  function Restored(s: Session, generation: nat): Session {
    s.(generation := generation)
  }

  /** The first intent wins. */
  function Intending(d: Detail, intent: Option<Intent>): Detail {
    if d.intent.None? then d.(intent := intent) else d
  }

  datatype Note = Alerted | CallerKnown(number: string) | Withheld | HandedOver | Intends(intent: Intent)

  function NotedDetail(d: Detail, outbound: bool, n: Note): Detail {
    match n
    case Alerted => if outbound then d.(alerted := true) else d
    case CallerKnown(number) => d.(callerId := Some(number))
    case Withheld =>
      if !outbound && !d.active && (d.callerId.None? || Blank(d.callerId.value)) then d.(callerWithheld := true) else d
    case HandedOver => if !d.active then d.(handedOver := true) else d
    case Intends(intent) => Intending(d, Some(intent))
  }

  function Noted(s: Session, n: Note): Session {
    s.(detail := NotedDetail(s.detail, s.outbound, n))
  }

  function WithIntent(s: Session, intent: Option<Intent>): Session {
    s.(detail := Intending(s.detail, intent))
  }

  /** The first intent wins, and a number, once known, is never taken back. */
  predicate FirstWordStands(d: Detail, n: Note, e: Detail) {
    && e.intent == (if d.intent.Some? then d.intent else if n.Intends? then Some(n.intent) else None)
    && (d.callerId.Some? ==> e.callerId.Some?) && (!n.CallerKnown? ==> e.callerId == d.callerId)
  }

  /** Only an outbound call alerts, only an unanswered one changes hands, only an inbound one hides its number. */
  predicate MarksInPlace(d: Detail, outbound: bool, e: Detail) {
    && e.active == d.active && e.ownerTook == d.ownerTook && e.answeredByAokie == d.answeredByAokie
    && (e.alerted != d.alerted ==> outbound && e.alerted) && (e.handedOver != d.handedOver ==> !d.active && e.handedOver)
    && (e.callerWithheld != d.callerWithheld ==> !outbound && e.callerWithheld)
  }

  /** What a note may do to a call: its id, generation, direction, owner, times and answer stay. */
  predicate NoteRespects(s: Session, n: Note, after: Session) {
    && after.id == s.id && after.generation == s.generation && after.outbound == s.outbound
    && after.agentOwned == s.agentOwned && after.started == s.started && after.answered == s.answered
    && FirstWordStands(s.detail, n, after.detail) && MarksInPlace(s.detail, s.outbound, after.detail)
  }

  lemma NotedStands(d: Detail, outbound: bool, n: Note)
    ensures FirstWordStands(d, n, NotedDetail(d, outbound, n))
  {
  }

  lemma NotedInPlace(d: Detail, outbound: bool, n: Note)
    ensures MarksInPlace(d, outbound, NotedDetail(d, outbound, n))
  {
  }

  lemma NotedRespects(s: Session, n: Note)
    ensures NoteRespects(s, n, Noted(s, n))
  {
    NotedStands(s.detail, s.outbound, n);
    NotedInPlace(s.detail, s.outbound, n);
  }

  /** The tracker object the radio loop feeds. */
  class SessionTracker {
    var session: Option<Session>
    var lastGeneration: nat

    function View(): Tracker
      reads this
    {
      Tracker(session, lastGeneration)
    }

    constructor ()
      ensures View() == Tracker(None, 0)
    {
      session, lastGeneration := None, 0;
    }

    method RingCall(id: string, now: nat) returns (started: bool)
      modifies this
      ensures View() == Ring(old(View()), id, now)
      ensures started <==> old(session).None?
    {
      if session.Some? {
        return false;
      }
      lastGeneration := lastGeneration + 1;
      session := Some(NewSession(id, lastGeneration, now, None, false, false));
      started := true;
    }

    method DialCall(id: string, number: Option<string>, agentOwned: bool, now: nat) returns (started: bool)
      modifies this
      ensures View() == Dial(old(View()), id, number, agentOwned, now)
      ensures started <==> old(session).None?
    {
      if session.Some? {
        return false;
      }
      lastGeneration := lastGeneration + 1;
      session := Some(NewSession(id, lastGeneration, now, number, true, agentOwned));
      started := true;
    }

    method CallAnswered(here: bool, now: nat)
      modifies this`session
      ensures session == if old(session).None? then None else Some(Answer(old(session).value, here, now))
    {
      if session.Some? {
        var s := session.value;
        if here {
          s := s.(detail := s.detail.(answeredByAokie := true));
        }
        s := s.(detail := s.detail.(active := true));
        if s.answered.None? {
          var owner := !s.outbound && !s.detail.answeredByAokie && !s.detail.handedOver;
          s := s.(answered := Some(now), detail := s.detail.(ownerTook := owner));
        }
        session := Some(s);
      }
    }

    /** A note tells the live call something; nothing it is identified, numbered or judged by is ever taken back. */
    method NoteLive(n: Note)
      modifies this`session
      ensures session.Some? <==> old(session).Some?
      ensures session.Some? ==> NoteRespects(old(session).value, n, session.value)
      ensures session.Some? ==> session.value == Noted(old(session).value, n)
    {
      if session.None? {
        return;
      }
      var s := session.value;
      var d := s.detail;
      match n {
        case Alerted =>
          if s.outbound {
            d := d.(alerted := true);
          }
        case CallerKnown(number) => d := d.(callerId := Some(number));
        case Withheld =>
          if !s.outbound && !d.active && (d.callerId.None? || Blank(d.callerId.value)) {
            d := d.(callerWithheld := true);
          }
        case HandedOver =>
          if !d.active {
            d := d.(handedOver := true);
          }
        case Intends(intent) =>
          if d.intent.None? {
            d := d.(intent := Some(intent));
          }
      }
      session := Some(s.(detail := d));
      NotedRespects(s, n);
    }

    method Park() returns (parked: Option<Session>)
      modifies this`session
      ensures parked == old(session) && session == None
    {
      parked := session;
      session := None;
    }

    method Restore(s: Session) returns (r: Result<nat, Session>)
      modifies this
      ensures old(session).Some? ==> r == Err(s) && View() == old(View())
      ensures old(session).None? ==>
        r == Ok(lastGeneration) && View() == Tracker(Some(Restored(s, old(lastGeneration) + 1)), old(lastGeneration) + 1)
    {
      if session.Some? {
        return Err(s);
      }
      lastGeneration := lastGeneration + 1;
      session := Some(s.(generation := lastGeneration));
      r := Ok(lastGeneration);
    }

    method Terminate(now: nat) returns (ended: Option<Ended>)
      modifies this`session
      ensures session == None
      ensures ended == if old(session).None? then None else Some(EndedFrom(old(session).value, now))
    {
      if session.None? {
        return None;
      }
      ended := Some(EndedFrom(session.value, now));
      session := None;
    }

    /** One thing that happens to the calls: the tracker's methods, and the callers' list of parked sessions. */
    method Dispatch(e: Event, parked: seq<Session>, ended: seq<Ended>, ghost b: Board)
      returns (parked': seq<Session>, ended': seq<Ended>)
      requires b.tracker == View() && b.parked == parked && b.ended == ended
      modifies this
      ensures View() == Step(b, e).tracker && parked' == Step(b, e).parked && ended' == Step(b, e).ended
    {
      parked', ended' := parked, ended;
      match e {
        case Rang(id, now) => var _ := RingCall(id, now);
        case Dialed(id, number, agentOwned, now) => var _ := DialCall(id, number, agentOwned, now);
        case WasAnswered(here, now) => CallAnswered(here, now);
        case WasNoted(note) => NoteLive(note);
        case WasParked =>
          var taken := Park();
          if taken.Some? {
            parked' := parked + [taken.value];
          }
        case WasRestored(index) =>
          if index < |parked| {
            var r := Restore(parked[index]);
            if r.Ok? {
              parked' := Without(parked, index);
            }
          }
        case WasTerminated(now) =>
          var record := Terminate(now);
          if record.Some? {
            ended' := ended + [record.value];
          }
        case ParkedEnded(index, intent, now) =>
          if index < |parked| {
            parked' := Without(parked, index);
            ended' := ended + [EndedFrom(WithIntent(parked[index], intent), now)];
          }
      }
    }
  }

  // ---- whole runs: the tracker and the calls parked outside it --------------------------------

  /** The tracker, the sessions its callers hold parked, the records written, and a trace of what was started. */
  datatype Board = Board(
    tracker: Tracker,
    parked: seq<Session>,
    ended: seq<Ended>,
    started: seq<string>)

  const EMPTY := Board(Tracker(None, 0), [], [], [])

  datatype Event =
    | Rang(id: string, now: nat)
    | Dialed(id: string, number: Option<string>, agentOwned: bool, now: nat)
    | WasAnswered(here: bool, now: nat)
    | WasNoted(note: Note)
    | WasParked
    | WasRestored(index: nat)
    | WasTerminated(now: nat)
    | ParkedEnded(index: nat, intent: Option<Intent>, now: nat)

  function Without<T>(s: seq<T>, i: nat): seq<T>
    requires i < |s|
  {
    s[..i] + s[i + 1..]
  }

  function Started(b: Board, t: Tracker, id: string): Board {
    if b.tracker.session.Some? then b else b.(tracker := t, started := b.started + [id])
  }

  function Step(b: Board, e: Event): Board {
    var live := b.tracker.session;
    match e
    case Rang(id, now) => Started(b, Ring(b.tracker, id, now), id)
    case Dialed(id, number, agentOwned, now) => Started(b, Dial(b.tracker, id, number, agentOwned, now), id)
    case WasAnswered(here, now) =>
      if live.None? then b
      else b.(tracker := b.tracker.(session := Some(Answer(live.value, here, now))))
    case WasNoted(note) =>
      if live.None? then b else b.(tracker := b.tracker.(session := Some(Noted(live.value, note))))
    case WasParked =>
      if live.None? then b else b.(tracker := b.tracker.(session := None), parked := b.parked + [live.value])
    case WasRestored(index) =>
      if index >= |b.parked| || live.Some? then b
      else
        var g := b.tracker.lastGeneration + 1;
        b.(tracker := Tracker(Some(Restored(b.parked[index], g)), g), parked := Without(b.parked, index))
    case WasTerminated(now) =>
      if live.None? then b
      else b.(tracker := b.tracker.(session := None), ended := b.ended + [EndedFrom(live.value, now)])
    case ParkedEnded(index, intent, now) =>
      if index >= |b.parked| then b
      else b.(parked := Without(b.parked, index),
              ended := b.ended + [EndedFrom(WithIntent(b.parked[index], intent), now)])
  }

  function Run(h: seq<Event>): Board {
    if h == [] then EMPTY else Step(Run(h[..|h| - 1]), h[|h| - 1])
  }

  lemma RunStep(h: seq<Event>, n: nat)
    requires n < |h|
    ensures Run(h[..n + 1]) == Step(Run(h[..n]), h[n])
  {
    assert h[..n + 1][..n] == h[..n];
  }

  // ---- generations ---------------------------------------------------------------------------

  predicate Numbered(b: Board) {
    (b.tracker.session.Some? ==> b.tracker.session.value.generation == b.tracker.lastGeneration >= 1)
  }

  lemma NumberedStep(b: Board, e: Event)
    requires Numbered(b)
    ensures Numbered(Step(b, e))
  {
    match e {
      case Rang(_, _) =>
      case Dialed(_, _, _, _) =>
      case WasAnswered(_, _) =>
      case WasNoted(_) =>
      case WasParked =>
      case WasRestored(_) =>
      case WasTerminated(_) =>
      case ParkedEnded(_, _, _) =>
    }
  }

  lemma {:induction false} EveryBoardIsNumbered(h: seq<Event>)
    ensures Numbered(Run(h))
  {
    if h != [] {
      EveryBoardIsNumbered(h[..|h| - 1]);
      NumberedStep(Run(h[..|h| - 1]), h[|h| - 1]);
    }
  }

  /** The event takes the live call out of focus. */
  predicate Unfocuses(e: Event) {
    e.WasParked? || e.WasTerminated?
  }

  lemma FocusStep(b: Board, e: Event)
    requires Numbered(b)
    ensures b.tracker.lastGeneration <= Step(b, e).tracker.lastGeneration
    ensures b.tracker.session.Some? ==>
      if Unfocuses(e) then Step(b, e).tracker.session.None?
      else Generation(Step(b, e).tracker) == Generation(b.tracker)
    ensures b.tracker.session.None? ==>
      Generation(Step(b, e).tracker) == 0 || Generation(Step(b, e).tracker) > b.tracker.lastGeneration
  {
    match e {
      case Rang(_, _) =>
      case Dialed(_, _, _, _) =>
      case WasAnswered(_, _) =>
      case WasNoted(_) =>
      case WasParked =>
      case WasRestored(_) =>
      case WasTerminated(_) =>
      case ParkedEnded(_, _, _) =>
    }
  }

  /** What one event may do to the focus. */
  predicate FocusNext(t: Tracker, u: Tracker) {
    && t.lastGeneration <= u.lastGeneration
    && (t.session.Some? ==> Generation(t) >= 1 && (Generation(u) == 0 || Generation(u) == Generation(t)))
    && (t.session.None? ==> Generation(u) == 0 || Generation(u) > t.lastGeneration)
  }

  /** The tracker after each number of events. */
  ghost function Trackers(h: seq<Event>): (s: seq<Tracker>)
    ensures |s| == |h| + 1
  {
    seq(|h| + 1, n requires 0 <= n <= |h| => Run(h[..n]).tracker)
  }

  predicate Focused(s: seq<Tracker>) {
    forall k, l :: 0 <= k < |s| && l == k + 1 < |s| ==> FocusNext(s[k], s[l])
  }

  lemma NextFocus(h: seq<Event>, n: nat)
    requires n < |h|
    ensures FocusNext(Run(h[..n]).tracker, Run(h[..n + 1]).tracker)
  {
    EveryBoardIsNumbered(h[..n]);
    RunStep(h, n);
    FocusStep(Run(h[..n]), h[n]);
  }

  lemma TrackersFollow(h: seq<Event>)
    ensures Focused(Trackers(h))
  {
    forall k, l | 0 <= k <= |h| && l == k + 1 <= |h|
      ensures FocusNext(Trackers(h)[k], Trackers(h)[l])
    {
      NextFocus(h, k);
    }
  }

  lemma {:induction false} FocusGrows(s: seq<Tracker>, i: nat, j: nat)
    requires Focused(s) && i <= j < |s|
    ensures s[i].lastGeneration <= s[j].lastGeneration
    ensures s[i].session.None? ==> Generation(s[j]) == 0 || Generation(s[j]) > s[i].lastGeneration
    decreases j
  {
    if i < j {
      FocusGrows(s, i, j - 1);
      assert FocusNext(s[j - 1], s[j]);
    }
  }

  /** Once a focus period has ended, every later generation is newer than any issued by then. */
  lemma LaterFocusIsNewer(h: seq<Event>, i: nat, j: nat)
    requires i <= j <= |h|
    ensures Run(h[..i]).tracker.lastGeneration <= Run(h[..j]).tracker.lastGeneration
    ensures Run(h[..i]).tracker.session.None? ==>
      Generation(Run(h[..j]).tracker) == 0 || Generation(Run(h[..j]).tracker) > Run(h[..i]).tracker.lastGeneration
  {
    TrackersFollow(h);
    FocusGrows(Trackers(h), i, j);
  }

  /** Event `m` puts a call in focus, a ring, a dial or a restore, and so issues a generation. */
  predicate IssuesAt(h: seq<Event>, m: nat) {
    m < |h| && Run(h[..m]).tracker.session.None? && Run(h[..m + 1]).tracker.session.Some?
  }

  /** No generation is issued twice: each one issued, by ring, dial and restore alike, is above all before it. */
  lemma {:induction false} GenerationsAreNeverReused(h: seq<Event>, m: nat, n: nat)
    requires m < n && IssuesAt(h, m) && IssuesAt(h, n)
    ensures 0 < StampAt(h, m + 1) < StampAt(h, n + 1)
  {
    EveryBoardIsNumbered(h[..m + 1]);
    EveryBoardIsNumbered(h[..n + 1]);
    LaterFocusIsNewer(h, m + 1, n);
    LaterFocusIsNewer(h, n, n + 1);
  }

  function StampAt(h: seq<Event>, i: nat): nat
    requires i <= |h|
  {
    Generation(Run(h[..i]).tracker)
  }

  /** Nothing parked or terminated a call from event `i` up to event `j`. */
  predicate Unbroken(h: seq<Event>, i: nat, j: nat)
    requires j <= |h|
  {
    forall m | i <= m < j :: !Unfocuses(h[m])
  }

  lemma {:induction false} FocusHolds(h: seq<Event>, i: nat, j: nat)
    requires i <= j <= |h| && Run(h[..i]).tracker.session.Some? && Unbroken(h, i, j)
    ensures Run(h[..j]).tracker.session.Some? && StampAt(h, j) == StampAt(h, i)
    decreases j - i
  {
    if i < j {
      FocusAfter(h, i);
      FocusHolds(h, i + 1, j);
    }
  }

  lemma FocusLost(h: seq<Event>, i: nat, m: nat, j: nat)
    requires i <= m < j <= |h| && Run(h[..i]).tracker.session.Some? && Unbroken(h, i, m) && Unfocuses(h[m])
    ensures StampAt(h, j) != StampAt(h, i)
  {
    FocusHolds(h, i, m);
    FocusAfter(h, m);
    LaterFocusIsNewer(h, m + 1, j);
  }

  /**
   * Work stamped in a live call still matches the tracker later exactly when nothing parked or terminated a call in
   * between: pre-park work stays stale after a restore.
   */
  lemma StampIsCurrentIffFocusUnbroken(h: seq<Event>, i: nat, j: nat)
    requires i <= j <= |h| && Run(h[..i]).tracker.session.Some?
    ensures StampAt(h, j) == StampAt(h, i) <==> Unbroken(h, i, j)
  {
    if Unbroken(h, i, j) {
      FocusHolds(h, i, j);
    } else {
      var m := FirstBreak(h, i, j);
      FocusLost(h, i, m, j);
    }
  }

  lemma {:induction false} FirstBreak(h: seq<Event>, i: nat, j: nat) returns (m: nat)
    requires i <= j <= |h| && !Unbroken(h, i, j)
    ensures i <= m < j && Unfocuses(h[m]) && Unbroken(h, i, m)
    decreases j - i
  {
    m := i;
    if !Unfocuses(h[i]) {
      m := FirstBreak(h, i + 1, j);
    }
  }

  /** What event `i` does to a live call's focus. */
  lemma FocusAfter(h: seq<Event>, i: nat)
    requires i < |h| && Run(h[..i]).tracker.session.Some?
    ensures Unfocuses(h[i]) ==> Run(h[..i + 1]).tracker.session.None?
    ensures 1 <= Generation(Run(h[..i]).tracker) <= Run(h[..i + 1]).tracker.lastGeneration
    ensures !Unfocuses(h[i]) ==> Run(h[..i + 1]).tracker.session.Some?
    ensures !Unfocuses(h[i]) ==> Generation(Run(h[..i + 1]).tracker) == Generation(Run(h[..i]).tracker)
  {
    EveryBoardIsNumbered(h[..i]);
    EveryBoardIsNumbered(h[..i + 1]);
    FocusStep(Run(h[..i]), h[i]);
    RunStep(h, i);
  }

  // ---- every call accounted for, once -----------------------------------------------------------

  function One(yes: bool): nat {
    if yes then 1 else 0
  }

  function StartedCount(s: seq<string>, id: string): nat {
    if s == [] then 0 else StartedCount(s[..|s| - 1], id) + One(s[|s| - 1] == id)
  }

  function ParkedCount(s: seq<Session>, id: string): nat {
    if s == [] then 0 else ParkedCount(s[..|s| - 1], id) + One(s[|s| - 1].id == id)
  }

  function EndedCount(s: seq<Ended>, id: string): nat {
    if s == [] then 0 else EndedCount(s[..|s| - 1], id) + One(s[|s| - 1].id == id)
  }

  function LiveCount(t: Tracker, id: string): nat {
    One(t.session.Some? && t.session.value.id == id)
  }

  lemma {:induction false} ParkedCountWithout(s: seq<Session>, i: nat, id: string)
    requires i < |s|
    ensures ParkedCount(s, id) == ParkedCount(Without(s, i), id) + One(s[i].id == id)
  {
    var n := |s| - 1;
    if i < n {
      ParkedCountWithout(s[..n], i, id);
      assert Without(s, i)[..n - 1] == Without(s[..n], i);
    } else {
      assert Without(s, i) == s[..n];
    }
  }

  /** The calls started under `id` are, one for one, live, parked or ended. */
  predicate Accounted(b: Board, id: string) {
    StartedCount(b.started, id) == LiveCount(b.tracker, id) + ParkedCount(b.parked, id) + EndedCount(b.ended, id)
  }

  lemma {:induction false} StartedSnoc(s: seq<string>, x: string, id: string)
    ensures StartedCount(s + [x], id) == StartedCount(s, id) + One(x == id)
  {
    assert (s + [x])[..|s|] == s;
  }

  lemma {:induction false} ParkedSnoc(s: seq<Session>, x: Session, id: string)
    ensures ParkedCount(s + [x], id) == ParkedCount(s, id) + One(x.id == id)
  {
    assert (s + [x])[..|s|] == s;
  }

  lemma {:induction false} EndedSnoc(s: seq<Ended>, x: Ended, id: string)
    ensures EndedCount(s + [x], id) == EndedCount(s, id) + One(x.id == id)
  {
    assert (s + [x])[..|s|] == s;
  }

  lemma {:induction false} AccountedAfterLiveEnds(b: Board, r: Ended, id: string)
    requires Accounted(b, id) && b.tracker.session.Some? && r.id == b.tracker.session.value.id
    ensures Accounted(b.(tracker := b.tracker.(session := None), ended := b.ended + [r]), id)
  {
    var after := b.(tracker := b.tracker.(session := None), ended := b.ended + [r]);
    EndedSnoc(b.ended, r, id);
    assert EndedCount(after.ended, id) == EndedCount(b.ended, id) + One(r.id == id);
    assert LiveCount(after.tracker, id) == 0 && LiveCount(b.tracker, id) == One(r.id == id);
  }

  lemma {:induction false} AccountedAfterParkedEnds(b: Board, index: nat, r: Ended, id: string)
    requires Accounted(b, id) && index < |b.parked| && r.id == b.parked[index].id
    ensures Accounted(b.(parked := Without(b.parked, index), ended := b.ended + [r]), id)
  {
    ParkedCountWithout(b.parked, index, id);
    EndedSnoc(b.ended, r, id);
  }

  lemma RecordKeepsId(s: Session, now: nat)
    ensures EndedFrom(s, now).id == s.id
  {
  }

  lemma {:induction false} AccountedTermination(b: Board, now: nat, id: string)
    requires Accounted(b, id)
    ensures Accounted(Step(b, WasTerminated(now)), id)
  {
    if b.tracker.session.Some? {
      RecordKeepsId(b.tracker.session.value, now);
      AccountedAfterLiveEnds(b, EndedFrom(b.tracker.session.value, now), id);
    }
  }

  lemma {:induction false} AccountedParkedEnd(b: Board, index: nat, intent: Option<Intent>, now: nat, id: string)
    requires Accounted(b, id)
    ensures Accounted(Step(b, ParkedEnded(index, intent, now)), id)
  {
    if index < |b.parked| {
      var s := WithIntent(b.parked[index], intent);
      RecordKeepsId(s, now);
      AccountedAfterParkedEnds(b, index, EndedFrom(s, now), id);
    }
  }

  lemma {:induction false} AccountedStart(b: Board, t: Tracker, started: string, id: string)
    requires Accounted(b, id) && (b.tracker.session.None? ==> t.session.Some? && t.session.value.id == started)
    ensures Accounted(Started(b, t, started), id)
  {
    StartedSnoc(b.started, started, id);
  }

  lemma {:induction false} AccountedMove(b: Board, e: Event, id: string)
    requires Accounted(b, id) && (e.WasParked? || e.WasRestored?)
    ensures Accounted(Step(b, e), id)
  {
    if e.WasParked? {
      if b.tracker.session.Some? { ParkedSnoc(b.parked, b.tracker.session.value, id); }
    } else if e.index < |b.parked| {
      ParkedCountWithout(b.parked, e.index, id);
    }
  }

  lemma {:induction false} AccountedTalk(b: Board, e: Event, id: string)
    requires Accounted(b, id) && (e.WasAnswered? || e.WasNoted?)
    ensures Accounted(Step(b, e), id)
  {
  }

  lemma {:induction false} AccountedStep(b: Board, e: Event, id: string)
    requires Accounted(b, id)
    ensures Accounted(Step(b, e), id)
  {
    match e {
      case Rang(started, now) => AccountedStart(b, Ring(b.tracker, started, now), started, id);
      case Dialed(started, number, agentOwned, now) =>
        AccountedStart(b, Dial(b.tracker, started, number, agentOwned, now), started, id);
      case WasAnswered(_, _) => AccountedTalk(b, e, id);
      case WasNoted(_) => AccountedTalk(b, e, id);
      case WasParked => AccountedMove(b, e, id);
      case WasRestored(_) => AccountedMove(b, e, id);
      case WasTerminated(now) => AccountedTermination(b, now, id);
      case ParkedEnded(index, intent, now) => AccountedParkedEnd(b, index, intent, now, id);
    }
  }

  /** Every call ever started is, counted once, the live one, a parked one or an ended one. */
  lemma {:induction false} EveryCallIsAccountedFor(h: seq<Event>, id: string)
    ensures Accounted(Run(h), id)
  {
    if h != [] {
      EveryCallIsAccountedFor(h[..|h| - 1], id);
      AccountedStep(Run(h[..|h| - 1]), h[|h| - 1], id);
    }
  }

  // ---- calls started under fresh ids --------------------------------------------------------------

  predicate Distinct(ids: seq<string>) {
    forall i, j :: 0 <= i < j < |ids| ==> ids[i] != ids[j]
  }

  lemma {:induction false} ParkedMember(s: seq<Session>, i: nat)
    requires i < |s|
    ensures ParkedCount(s, s[i].id) >= 1
  {
    if i < |s| - 1 {
      ParkedMember(s[..|s| - 1], i);
    }
  }

  lemma {:induction false} EndedMember(s: seq<Ended>, i: nat)
    requires i < |s|
    ensures EndedCount(s, s[i].id) >= 1
  {
    if i < |s| - 1 {
      EndedMember(s[..|s| - 1], i);
    }
  }

  lemma {:induction false} DistinctCount(ids: seq<string>, id: string)
    requires Distinct(ids)
    ensures StartedCount(ids, id) == One(id in ids)
  {
    if ids != [] {
      var n := |ids| - 1;
      DistinctCount(ids[..n], id);
      assert ids == ids[..n] + [ids[n]];
    }
  }

  /** With distinct ids a call is in one place only, and only if it was started. */
  lemma {:induction false} OnePlace(b: Board, id: string)
    requires Accounted(b, id) && Distinct(b.started)
    ensures LiveCount(b.tracker, id) + ParkedCount(b.parked, id) + EndedCount(b.ended, id) == One(id in b.started)
    ensures b.tracker.session.Some? && b.tracker.session.value.id == id ==>
      && id in b.started
      && (forall i | 0 <= i < |b.parked| :: b.parked[i].id != id)
      && (forall i | 0 <= i < |b.ended| :: b.ended[i].id != id)
    ensures id !in b.started ==>
      && (forall i | 0 <= i < |b.parked| :: b.parked[i].id != id)
      && (forall i | 0 <= i < |b.ended| :: b.ended[i].id != id)
  {
    DistinctCount(b.started, id);
    forall i | 0 <= i < |b.parked| && b.parked[i].id == id
      ensures ParkedCount(b.parked, id) >= 1
    {
      ParkedMember(b.parked, i);
    }
    forall i | 0 <= i < |b.ended| && b.ended[i].id == id
      ensures EndedCount(b.ended, id) >= 1
    {
      EndedMember(b.ended, i);
    }
  }

  lemma StartedGrows(b: Board, e: Event)
    ensures Step(b, e).started == b.started
            || (b.tracker.session.None? && ((e.Rang? || e.Dialed?) && Step(b, e).started == b.started + [e.id]))
  {
  }

  /** Event `m` started call `id`: a ring or a dial that found the tracker idle. */
  predicate StartedAt(h: seq<Event>, m: nat, id: string) {
    m < |h| && (h[m].Rang? || h[m].Dialed?) && h[m].id == id && Run(h[..m]).tracker.session.None?
  }

  ghost predicate SomeStarted(h: seq<Event>, n: nat, id: string) {
    exists m | 0 <= m < n :: StartedAt(h, m, id)
  }

  lemma {:induction false} OneMoreStarted(h: seq<Event>, n: nat, id: string)
    ensures SomeStarted(h, n + 1, id) <==> SomeStarted(h, n, id) || StartedAt(h, n, id)
  {
  }

  lemma {:induction false} StartsTraced(h: seq<Event>, n: nat, id: string)
    requires n <= |h|
    ensures id in Run(h[..n]).started <==> SomeStarted(h, n, id)
  {
    if n > 0 {
      StartsTraced(h, n - 1, id);
      StartStep(h, n - 1, id);
      OneMoreStarted(h, n - 1, id);
    }
  }

  lemma {:induction false} StartStep(h: seq<Event>, n: nat, id: string)
    requires n < |h|
    ensures id in Run(h[..n + 1]).started <==> id in Run(h[..n]).started || StartedAt(h, n, id)
  {
    RunStep(h, n);
    StartedGrows(Run(h[..n]), h[n]);
  }

  /** Ids are fresh: no two events start a call under one id. */
  ghost predicate FreshIds(h: seq<Event>) {
    forall m, n, id :: m < n && StartedAt(h, m, id) ==> !StartedAt(h, n, id)
  }

  lemma {:induction false} FreshIdsAreDistinct(h: seq<Event>, n: nat)
    requires n <= |h| && FreshIds(h)
    ensures Distinct(Run(h[..n]).started)
  {
    if n > 0 {
      var b, e := Run(h[..n - 1]), h[n - 1];
      FreshIdsAreDistinct(h, n - 1);
      RunStep(h, n - 1);
      StartedGrows(b, e);
      if Step(b, e).started != b.started {
        StartsTraced(h, n - 1, e.id);
        assert StartedAt(h, n - 1, e.id);
      }
    }
  }

  /** How many events of the run started a call under `id`. */
  function StartsOf(h: seq<Event>, id: string): nat {
    if h == [] then 0
    else
      var init, e := h[..|h| - 1], h[|h| - 1];
      StartsOf(init, id) + One((e.Rang? || e.Dialed?) && e.id == id && Run(init).tracker.session.None?)
  }

  lemma {:induction false} StartsAreCounted(h: seq<Event>, id: string)
    ensures StartedCount(Run(h).started, id) == StartsOf(h, id)
  {
    if h != [] {
      var b, e := Run(h[..|h| - 1]), h[|h| - 1];
      StartsAreCounted(h[..|h| - 1], id);
      StartedGrows(b, e);
      if e.Rang? || e.Dialed? {
        StartedSnoc(b.started, e.id, id);
      }
    }
  }

  /** Every event that started a call under `id` is, one for one, a live, a parked or an ended call. */
  lemma EveryStartIsAccountedFor(h: seq<Event>, id: string)
    ensures StartsOf(h, id) ==
      LiveCount(Run(h).tracker, id) + ParkedCount(Run(h).parked, id) + EndedCount(Run(h).ended, id)
  {
    StartsAreCounted(h, id);
    EveryCallIsAccountedFor(h, id);
  }
}
