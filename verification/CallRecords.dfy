/** What the events of a run say about each call, and that sessions and records say exactly that. */
module CallRecords {
  import opened Prelude
  import opened CallSessions

  // ---- the facts of a call, told by the events that concern it ------------------------------------------

  /** What happened to one call: each fact is set by the first event that bears on it, the number by the last. */
  datatype Facts = Facts(
    outbound: bool,
    agentOwned: bool,
    startedAt: nat,
    generation: nat,
    answered: Option<nat>,
    byAokie: bool,
    ownerTook: bool,
    handedOver: bool,
    alerted: bool,
    number: Option<string>,
    withheld: bool,
    intent: Option<Intent>,
    ended: Option<nat>)

  const NOTHING := Facts(false, false, 0, 0, None, false, false, false, false, None, false, None, None)

  predicate IsLive(b: Board, id: string) {
    b.tracker.session.Some? && b.tracker.session.value.id == id
  }

  predicate IsParked(b: Board, index: nat, id: string) {
    index < |b.parked| && b.parked[index].id == id
  }

  /** The event is about call `id`. */
  predicate Concerns(b: Board, e: Event, id: string) {
    match e
    case Rang(started, _) => started == id && b.tracker.session.None?
    case Dialed(started, _, _, _) => started == id && b.tracker.session.None?
    case WasRestored(index) => IsParked(b, index, id) && b.tracker.session.None?
    case ParkedEnded(index, _, _) => IsParked(b, index, id)
    case _ => IsLive(b, id)
  }

  function FirstOf<T>(known: Option<T>, told: Option<T>): Option<T> {
    if known.Some? then known else told
  }

  /** What a note about the live call tells. */
  function Hear(f: Facts, n: Note): Facts {
    match n
    case Alerted => f.(alerted := true)
    case CallerKnown(number) => f.(number := Some(number))
    case Withheld =>
      f.(withheld := f.withheld || (!f.outbound && f.answered.None? && (f.number.None? || Blank(f.number.value))))
    case HandedOver => f.(handedOver := f.handedOver || f.answered.None?)
    case Intends(intent) => f.(intent := FirstOf(f.intent, Some(intent)))
  }

  /** What an event about the call tells; `next` is the generation it would be given. */
  function Learn(f: Facts, e: Event, next: nat): Facts {
    match e
    case Rang(_, now) => f.(startedAt := now, generation := next)
    case Dialed(_, number, agentOwned, now) =>
      f.(outbound := true, agentOwned := agentOwned, number := number, startedAt := now, generation := next)
    case WasAnswered(here, now) =>
      f.(answered := FirstOf(f.answered, Some(now)), byAokie := f.byAokie || here,
         ownerTook := f.ownerTook || (f.answered.None? && !f.outbound && !here && !f.handedOver))
    case WasNoted(note) => Hear(f, note)
    case WasParked => f
    case WasRestored(_) => f.(generation := next)
    case WasTerminated(now) => f.(ended := Some(now))
    case ParkedEnded(_, intent, now) => f.(intent := FirstOf(f.intent, intent), ended := Some(now))
  }

  function LearnOf(f: Facts, b: Board, e: Event, id: string): Facts {
    if Concerns(b, e, id) then Learn(f, e, b.tracker.lastGeneration + 1) else f
  }

  function FactsOf(h: seq<Event>, id: string): Facts {
    if h == [] then NOTHING else LearnOf(FactsOf(h[..|h| - 1], id), Run(h[..|h| - 1]), h[|h| - 1], id)
  }

  // ---- sessions and records that say so --------------------------------------------------------------------

  predicate SessionAgrees(s: Session, f: Facts) {
    && s.outbound == f.outbound && s.agentOwned == f.agentOwned && s.started == f.startedAt
    && s.generation == f.generation && s.answered == f.answered
    && s.detail.active == f.answered.Some? && s.detail.answeredByAokie == f.byAokie && s.detail.ownerTook == f.ownerTook
    && s.detail.handedOver == f.handedOver && s.detail.alerted == (f.outbound && f.alerted)
    && s.detail.callerId == f.number && s.detail.callerWithheld == f.withheld && s.detail.intent == f.intent
    && f.ended.None? && (f.answered.None? ==> !f.byAokie && !f.ownerTook)
  }

  predicate Wanted(f: Facts, intents: set<Intent>) {
    f.intent.Some? && f.intent.value in intents
  }

  /** The outcome: which class, and within each class exactly which. */
  predicate OutcomeAgrees(o: Outcome, f: Facts) {
    if f.answered.Some? then
      && (o.TerminatedForAbuse? <==> f.intent == Some(AgentTerminateAbuse))
      && (o.LostOnHold? <==> f.intent == Some(AbandonedOnHold))
      && (o.LostInQueue? <==> f.intent == Some(AbandonedInQueue))
      && (o.Completed? <==> !Wanted(f, {AgentTerminateAbuse, AbandonedOnHold, AbandonedInQueue}))
    else if f.outbound then
      && (o.NoAnswer? <==> f.alerted && !Wanted(f, {DeviceLost, PluginStopped}))
      && (o.FailedAttempt? <==> !f.alerted || Wanted(f, {DeviceLost, PluginStopped}))
    else
      && (o.Rejected? <==> Wanted(f, {OperatorReject, Screened, OperatorHangup, AgentTerminateAbuse}))
      && (o.Missed? <==> !Wanted(f, {OperatorReject, Screened, OperatorHangup, AgentTerminateAbuse}))
  }

  /** The reason of a dialed call nobody answered. */
  predicate AttemptReasonAgrees(r: Reason, f: Facts) {
    var cancelled := Wanted(f, {OperatorHangup, OperatorReject, AgentHangup});
    && (r.ByDeviceLoss? <==> f.intent == Some(DeviceLost)) && (r.ByPluginStop? <==> f.intent == Some(PluginStopped))
    && (r.ByCancellation? <==> cancelled)
    && (r.ByRemoteOrNetwork? <==> f.alerted && !cancelled && !Wanted(f, {DeviceLost, PluginStopped}))
    && (r.BySetupFailure? <==> !f.alerted && !cancelled && !Wanted(f, {DeviceLost, PluginStopped}))
  }

  /** The reason of any other call. */
  predicate CallReasonAgrees(r: Reason, f: Facts) {
    && (r.ByDeviceLoss? <==> f.intent == Some(DeviceLost)) && (r.ByPluginStop? <==> f.intent == Some(PluginStopped))
    && (r.ByOperatorHangup? <==> f.intent == Some(OperatorHangup)) && (r.ByAgentHangup? <==> f.intent == Some(AgentHangup))
    && (r.ByAgentAbuse? <==> f.intent == Some(AgentTerminateAbuse)) && (r.ByScreening? <==> f.intent == Some(Screened))
    && (r.ByOperatorReject? <==> f.intent == Some(OperatorReject) && f.answered.None?)
    && (r.HungUpOnHold? <==> f.intent == Some(AbandonedOnHold) && f.answered.Some?)
    && (r.HungUpInQueue? <==> f.intent == Some(AbandonedInQueue) || (f.intent == Some(AbandonedOnHold) && f.answered.None?))
    && (r.ByRemoteOrOperator? <==> f.intent.None? || (f.intent == Some(OperatorReject) && f.answered.Some?))
  }

  /** The record of a call that has ended: direction, generation, number, time on the line, outcome and reason. */
  predicate RecordAgrees(e: Ended, f: Facts) {
    && e.outbound == f.outbound && e.generation == f.generation && e.callerId == f.number && f.ended.Some?
    && e.durationMs == (if f.answered.Some? then Elapsed(f.answered.value, f.ended.value) else 0)
    && OutcomeAgrees(e.outcome, f)
    && (if f.outbound && f.answered.None? then AttemptReasonAgrees(e.reason, f) else CallReasonAgrees(e.reason, f))
  }

  lemma AnsweredAgrees(s: Session, f: Facts)
    requires s.answered.Some? && s.detail.intent == f.intent && f.answered.Some?
    ensures OutcomeAgrees(AnsweredVerdict(s).0, f) && CallReasonAgrees(AnsweredVerdict(s).1, f)
  {
  }

  lemma UnansweredAgrees(s: Session, f: Facts)
    requires s.answered.None? && !f.outbound && s.detail.intent == f.intent && f.answered.None?
    ensures OutcomeAgrees(UnansweredVerdict(s).0, f) && CallReasonAgrees(UnansweredVerdict(s).1, f)
  {
  }

  lemma AttemptAgrees(s: Session, f: Facts)
    requires s.answered.None? && f.outbound && s.detail.intent == f.intent && f.answered.None? && s.detail.alerted == f.alerted
    ensures OutcomeAgrees(OutboundVerdict(s).0, f) && AttemptReasonAgrees(OutboundVerdict(s).1, f)
  {
  }

  /** The whole table: the record of a session is what the facts of its call say, for every intent. */
  lemma VerdictAgrees(s: Session, f: Facts, now: nat)
    requires SessionAgrees(s, f)
    ensures RecordAgrees(EndedFrom(s, now), f.(ended := Some(now))) && EndedFrom(s, now).id == s.id
  {
    var g := f.(ended := Some(now));
    if s.answered.Some? {
      AnsweredAgrees(s, g);
    } else if s.outbound {
      AttemptAgrees(s, g);
    } else {
      UnansweredAgrees(s, g);
    }
  }

  // ---- one event --------------------------------------------------------------------------------------------

  /** What each call is known by. */
  type Known = string -> Facts

  /** Sessions and records say of their calls what is known; of a call never started nothing is known. */
  ghost predicate Truthful(b: Board, k: Known) {
    && (b.tracker.session.Some? ==> SessionAgrees(b.tracker.session.value, k(b.tracker.session.value.id)))
    && (forall i | 0 <= i < |b.parked| :: SessionAgrees(b.parked[i], k(b.parked[i].id)))
    && (forall i | 0 <= i < |b.ended| :: RecordAgrees(b.ended[i], k(b.ended[i].id)))
    && (forall id | id !in b.started :: k(id) == NOTHING)
  }

  /** Calls are in different places under different ids. */
  ghost predicate Apart(b: Board) {
    && (b.tracker.session.Some? ==>
          && b.tracker.session.value.id in b.started
          && (forall i | 0 <= i < |b.parked| :: b.parked[i].id != b.tracker.session.value.id)
          && (forall i | 0 <= i < |b.ended| :: b.ended[i].id != b.tracker.session.value.id))
    && (forall i, j | 0 <= i < j < |b.parked| :: b.parked[i].id != b.parked[j].id)
    && (forall i, j | 0 <= i < |b.parked| && 0 <= j < |b.ended| :: b.parked[i].id != b.ended[j].id)
    && (forall i | 0 <= i < |b.parked| :: b.parked[i].id in b.started)
    && (forall i | 0 <= i < |b.ended| :: b.ended[i].id in b.started)
  }

  lemma {:induction false} TwoParked(s: seq<Session>, i: nat, j: nat)
    requires i < j < |s| && s[i].id == s[j].id
    ensures ParkedCount(s, s[i].id) >= 2
  {
    if j < |s| - 1 {
      TwoParked(s[..|s| - 1], i, j);
    } else {
      ParkedMember(s[..|s| - 1], i);
    }
  }

  lemma {:induction false} ParkedApart(b: Board, i: nat)
    requires i < |b.parked| && (forall id :: Accounted(b, id)) && Distinct(b.started)
    ensures b.parked[i].id in b.started
    ensures forall j | 0 <= j < |b.parked| && j != i :: b.parked[j].id != b.parked[i].id
    ensures forall j | 0 <= j < |b.ended| :: b.ended[j].id != b.parked[i].id
  {
    var id := b.parked[i].id;
    OnePlace(b, id);
    ParkedMember(b.parked, i);
    forall j | 0 <= j < |b.parked| && j != i && b.parked[j].id == id
      ensures false
    {
      TwoParked(b.parked, if i < j then i else j, if i < j then j else i);
    }
    forall j | 0 <= j < |b.ended| && b.ended[j].id == id
      ensures false
    {
      EndedMember(b.ended, j);
    }
  }

  lemma {:induction false} EndedStarted(b: Board, i: nat)
    requires i < |b.ended| && (forall id :: Accounted(b, id)) && Distinct(b.started)
    ensures b.ended[i].id in b.started
  {
    OnePlace(b, b.ended[i].id);
    EndedMember(b.ended, i);
  }

  lemma {:induction false} CallsApart(b: Board)
    requires (forall id :: Accounted(b, id)) && Distinct(b.started)
    ensures Apart(b)
  {
    if b.tracker.session.Some? {
      OnePlace(b, b.tracker.session.value.id);
    }
    forall i | 0 <= i < |b.parked|
      ensures b.parked[i].id in b.started
      ensures forall j | 0 <= j < |b.parked| && j != i :: b.parked[j].id != b.parked[i].id
      ensures forall j | 0 <= j < |b.ended| :: b.ended[j].id != b.parked[i].id
    {
      ParkedApart(b, i);
    }
    forall i | 0 <= i < |b.ended|
      ensures b.ended[i].id in b.started
    {
      EndedStarted(b, i);
    }
  }

  lemma AnswerLearns(s: Session, f: Facts, here: bool, now: nat)
    requires SessionAgrees(s, f)
    ensures SessionAgrees(Answer(s, here, now), Learn(f, WasAnswered(here, now), 0)) && Answer(s, here, now).id == s.id
  {
  }

  lemma AlertLearns(s: Session, f: Facts)
    requires SessionAgrees(s, f)
    ensures SessionAgrees(Noted(s, Alerted), Hear(f, Alerted))
  {
  }

  lemma NumberLearns(s: Session, f: Facts, number: string)
    requires SessionAgrees(s, f)
    ensures SessionAgrees(Noted(s, CallerKnown(number)), Hear(f, CallerKnown(number)))
  {
  }

  lemma WithheldLearns(s: Session, f: Facts)
    requires SessionAgrees(s, f)
    ensures SessionAgrees(Noted(s, Withheld), Hear(f, Withheld))
  {
  }

  lemma HandOverLearns(s: Session, f: Facts)
    requires SessionAgrees(s, f)
    ensures SessionAgrees(Noted(s, HandedOver), Hear(f, HandedOver))
  {
  }

  lemma NoteLearns(s: Session, f: Facts, n: Note)
    requires SessionAgrees(s, f)
    ensures SessionAgrees(Noted(s, n), Hear(f, n)) && Noted(s, n).id == s.id
  {
    match n {
      case Alerted => AlertLearns(s, f);
      case CallerKnown(number) => NumberLearns(s, f, number);
      case Withheld => WithheldLearns(s, f);
      case HandedOver => HandOverLearns(s, f);
      case Intends(intent) => IntentLearns(s, f, Some(intent));
    }
  }

  /** After an event about call `id` alone, everything else is known as before. */
  ghost predicate LearntOf(k: Known, k': Known, id: string) {
    forall other | other != id :: k'(other) == k(other)
  }

  lemma {:induction false} LiveLearns(b: Board, k: Known, k': Known, s: Session)
    requires Truthful(b, k) && Apart(b) && b.tracker.session.Some? && s.id == b.tracker.session.value.id
    requires LearntOf(k, k', s.id) && SessionAgrees(s, k'(s.id))
    ensures Truthful(b.(tracker := b.tracker.(session := Some(s))), k')
  {
  }

  lemma {:induction false} ParkTells(b: Board, k: Known, k': Known)
    requires Truthful(b, k) && b.tracker.session.Some? && forall id :: k'(id) == k(id)
    ensures Truthful(Step(b, WasParked), k')
  {
  }

  lemma {:induction false} RestoreTells(b: Board, k: Known, k': Known, index: nat)
    requires Truthful(b, k) && Apart(b) && b.tracker.session.None? && index < |b.parked|
    requires LearntOf(k, k', b.parked[index].id)
    requires k'(b.parked[index].id) == k(b.parked[index].id).(generation := b.tracker.lastGeneration + 1)
    ensures Truthful(Step(b, WasRestored(index)), k')
  {
    var after := Step(b, WasRestored(index));
    forall i | 0 <= i < |after.parked|
      ensures SessionAgrees(after.parked[i], k'(after.parked[i].id))
    {
      assert after.parked[i] == b.parked[if i < index then i else i + 1];
    }
  }

  lemma {:induction false} EndTells(b: Board, k: Known, k': Known, now: nat)
    requires Truthful(b, k) && Apart(b) && b.tracker.session.Some?
    requires var id := b.tracker.session.value.id; LearntOf(k, k', id) && k'(id) == k(id).(ended := Some(now))
    ensures Truthful(Step(b, WasTerminated(now)), k')
  {
    var s := b.tracker.session.value;
    VerdictAgrees(s, k(s.id), now);
  }

  lemma IntentLearns(s: Session, f: Facts, intent: Option<Intent>)
    requires SessionAgrees(s, f)
    ensures SessionAgrees(WithIntent(s, intent), f.(intent := FirstOf(f.intent, intent))) && WithIntent(s, intent).id == s.id
  {
  }

  lemma ParkedRecord(s: Session, f: Facts, intent: Option<Intent>, now: nat)
    requires SessionAgrees(s, f)
    ensures RecordAgrees(EndedFrom(WithIntent(s, intent), now), f.(intent := FirstOf(f.intent, intent), ended := Some(now)))
    ensures EndedFrom(WithIntent(s, intent), now).id == s.id
  {
    IntentLearns(s, f, intent);
    VerdictAgrees(WithIntent(s, intent), f.(intent := FirstOf(f.intent, intent)), now);
  }

  lemma {:induction false} ParkedEndTells(b: Board, k: Known, k': Known, index: nat, intent: Option<Intent>, now: nat)
    requires Truthful(b, k) && Apart(b) && index < |b.parked|
    requires var id := b.parked[index].id;
      LearntOf(k, k', id) && k'(id) == k(id).(intent := FirstOf(k(id).intent, intent), ended := Some(now))
    ensures Truthful(Step(b, ParkedEnded(index, intent, now)), k')
  {
    var after := Step(b, ParkedEnded(index, intent, now));
    ParkedRecord(b.parked[index], k(b.parked[index].id), intent, now);
    forall i | 0 <= i < |after.parked|
      ensures SessionAgrees(after.parked[i], k'(after.parked[i].id))
    {
      assert after.parked[i] == b.parked[if i < index then i else i + 1];
    }
  }

  lemma {:induction false} StartTells(b: Board, k: Known, k': Known, s: Session, last: nat)
    requires Truthful(b, k) && Apart(b) && b.tracker.session.None? && s.id !in b.started
    requires LearntOf(k, k', s.id) && SessionAgrees(s, k'(s.id))
    ensures Truthful(b.(tracker := Tracker(Some(s), last), started := b.started + [s.id]), k')
  {
  }

  lemma NewLearns(id: string, next: nat, now: nat, number: Option<string>, agentOwned: bool)
    ensures SessionAgrees(NewSession(id, next, now, None, false, false), Learn(NOTHING, Rang(id, now), next))
    ensures SessionAgrees(NewSession(id, next, now, number, true, agentOwned),
                          Learn(NOTHING, Dialed(id, number, agentOwned, now), next))
  {
  }

  /** `k'` is `k` and what event `e` tells. */
  ghost predicate Learns(b: Board, e: Event, k: Known, k': Known) {
    forall id :: k'(id) == LearnOf(k(id), b, e, id)
  }

  /** An event that changes nothing concerns no call that anything is told of. */
  lemma {:induction false} IdleTells(b: Board, k: Known, k': Known)
    requires Truthful(b, k) && forall id :: k'(id) == k(id)
    ensures Truthful(b, k')
  {
  }

  lemma {:induction false} LiveEventTells(b: Board, e: Event, k: Known, k': Known)
    requires Truthful(b, k) && Apart(b) && Learns(b, e, k, k')
    requires e.WasAnswered? || e.WasNoted? || e.WasParked? || e.WasTerminated?
    ensures Truthful(Step(b, e), k')
  {
    if b.tracker.session.None? {
      IdleTells(b, k, k');
    } else {
      var s := b.tracker.session.value;
      assert LearntOf(k, k', s.id);
      match e {
        case WasAnswered(here, now) =>
          AnswerLearns(s, k(s.id), here, now);
          LiveLearns(b, k, k', Answer(s, here, now));
        case WasNoted(n) =>
          NoteLearns(s, k(s.id), n);
          LiveLearns(b, k, k', Noted(s, n));
        case WasParked => ParkTells(b, k, k');
        case WasTerminated(now) => EndTells(b, k, k', now);
      }
    }
  }

  lemma {:induction false} ParkedEventTells(b: Board, e: Event, k: Known, k': Known)
    requires Truthful(b, k) && Apart(b) && Learns(b, e, k, k') && (e.WasRestored? || e.ParkedEnded?)
    ensures Truthful(Step(b, e), k')
  {
    if e.index >= |b.parked| || (e.WasRestored? && b.tracker.session.Some?) {
      IdleTells(b, k, k');
    } else {
      assert LearntOf(k, k', b.parked[e.index].id);
      match e {
        case WasRestored(index) => RestoreTells(b, k, k', index);
        case ParkedEnded(index, intent, now) => ParkedEndTells(b, k, k', index, intent, now);
      }
    }
  }

  lemma {:induction false} StartEventTells(b: Board, e: Event, k: Known, k': Known)
    requires Truthful(b, k) && Apart(b) && Learns(b, e, k, k') && (e.Rang? || e.Dialed?)
    requires b.tracker.session.None? ==> e.id !in b.started
    ensures Truthful(Step(b, e), k')
  {
    if b.tracker.session.Some? {
      IdleTells(b, k, k');
    } else {
      var next := b.tracker.lastGeneration + 1;
      assert LearntOf(k, k', e.id) && k(e.id) == NOTHING;
      match e {
        case Rang(id, now) =>
          NewLearns(id, next, now, None, false);
          StartTells(b, k, k', NewSession(id, next, now, None, false, false), next);
        case Dialed(id, number, agentOwned, now) =>
          NewLearns(id, next, now, number, agentOwned);
          StartTells(b, k, k', NewSession(id, next, now, number, true, agentOwned), next);
      }
    }
  }

  lemma {:induction false} EventTells(b: Board, e: Event, k: Known, k': Known)
    requires Truthful(b, k) && Apart(b) && Learns(b, e, k, k')
    requires (e.Rang? || e.Dialed?) && b.tracker.session.None? ==> e.id !in b.started
    ensures Truthful(Step(b, e), k')
  {
    if e.Rang? || e.Dialed? {
      StartEventTells(b, e, k, k');
    } else if e.WasRestored? || e.ParkedEnded? {
      ParkedEventTells(b, e, k, k');
    } else {
      LiveEventTells(b, e, k, k');
    }
  }

  // ---- the whole run -------------------------------------------------------------------------------------------

  function KnownFrom(h: seq<Event>): Known {
    id => FactsOf(h, id)
  }

  lemma FactsStep(h: seq<Event>, n: nat, id: string)
    requires n < |h|
    ensures FactsOf(h[..n + 1], id) == LearnOf(FactsOf(h[..n], id), Run(h[..n]), h[n], id)
  {
    assert h[..n + 1][..n] == h[..n];
  }

  lemma {:induction false} BoardApart(h: seq<Event>, n: nat)
    requires n <= |h| && FreshIds(h)
    ensures Apart(Run(h[..n]))
  {
    FreshIdsAreDistinct(h, n);
    forall id
      ensures Accounted(Run(h[..n]), id)
    {
      EveryCallIsAccountedFor(h[..n], id);
    }
    CallsApart(Run(h[..n]));
  }

  lemma {:induction false} FreshStart(h: seq<Event>, n: nat)
    requires n < |h| && FreshIds(h) && (h[n].Rang? || h[n].Dialed?) && Run(h[..n]).tracker.session.None?
    ensures h[n].id !in Run(h[..n]).started
  {
    StartsTraced(h, n, h[n].id);
    assert StartedAt(h, n, h[n].id);
  }

  lemma {:induction false} KnownStep(h: seq<Event>, n: nat)
    requires n < |h|
    ensures Learns(Run(h[..n]), h[n], KnownFrom(h[..n]), KnownFrom(h[..n + 1]))
  {
    forall id
      ensures KnownFrom(h[..n + 1])(id) == LearnOf(KnownFrom(h[..n])(id), Run(h[..n]), h[n], id)
    {
      FactsStep(h, n, id);
    }
  }

  /** After `n` events sessions and records say what those events told. */
  ghost predicate TruthfulAt(h: seq<Event>, n: nat)
    requires n <= |h|
  {
    Truthful(Run(h[..n]), KnownFrom(h[..n]))
  }

  lemma {:induction false} NextIsTruthful(h: seq<Event>, n: nat)
    requires n < |h| && FreshIds(h) && TruthfulAt(h, n)
    ensures TruthfulAt(h, n + 1)
  {
    BoardApart(h, n);
    KnownStep(h, n);
    if (h[n].Rang? || h[n].Dialed?) && Run(h[..n]).tracker.session.None? {
      FreshStart(h, n);
    }
    EventTells(Run(h[..n]), h[n], KnownFrom(h[..n]), KnownFrom(h[..n + 1]));
    RunStep(h, n);
  }

  lemma {:induction false} BoardIsTruthful(h: seq<Event>, n: nat)
    requires n <= |h| && FreshIds(h)
    ensures TruthfulAt(h, n)
  {
    if n > 0 {
      BoardIsTruthful(h, n - 1);
      NextIsTruthful(h, n - 1);
    }
  }

  /**
   * With fresh ids: every call that some event started is in exactly one place, ended at most once; every session
   * still live or parked carries exactly the facts the events told of it; and every record has the direction,
   * generation, number, time on the line, outcome and reason that those facts call for.
   */
  lemma {:induction false} RecordsAreTruthful(h: seq<Event>, id: string)
    requires FreshIds(h)
    ensures LiveCount(Run(h).tracker, id) + ParkedCount(Run(h).parked, id) + EndedCount(Run(h).ended, id)
            == One(SomeStarted(h, |h|, id))
    ensures var live := Run(h).tracker.session; live.Some? ==> SessionAgrees(live.value, FactsOf(h, live.value.id))
    ensures forall i | 0 <= i < |Run(h).parked| :: SessionAgrees(Run(h).parked[i], FactsOf(h, Run(h).parked[i].id))
    ensures forall i | 0 <= i < |Run(h).ended| :: RecordAgrees(Run(h).ended[i], FactsOf(h, Run(h).ended[i].id))
  {
    assert h[..|h|] == h;
    FreshIdsAreDistinct(h, |h|);
    EveryCallIsAccountedFor(h, id);
    OnePlace(Run(h), id);
    StartsTraced(h, |h|, id);
    BoardIsTruthful(h, |h|);
  }

  /** A new tracker driven through any events: what is live, parked and recorded at the end is the model's. */
  method DriveTracker(h: seq<Event>) returns (live: Option<Session>, parked: seq<Session>, ended: seq<Ended>)
    ensures live == Run(h).tracker.session && parked == Run(h).parked && ended == Run(h).ended
    ensures FreshIds(h) ==> forall i | 0 <= i < |ended| :: RecordAgrees(ended[i], FactsOf(h, ended[i].id))
  {
    var tracker := new SessionTracker();
    parked, ended := [], [];
    for n := 0 to |h|
      invariant fresh(tracker) && tracker.View() == Run(h[..n]).tracker
      invariant parked == Run(h[..n]).parked && ended == Run(h[..n]).ended
    {
      parked, ended := tracker.Dispatch(h[n], parked, ended, Run(h[..n]));
      RunStep(h, n);
    }
    assert h[..|h|] == h;
    live := tracker.session;
    if FreshIds(h) {
      RecordsAreTruthful(h, "");
    }
  }
}
