/** The one-slot assistance mailbox between the live receptionist and the owner's devices. Times are whole seconds. */
module Assistance {
  import opened Prelude

  const MAX_QUESTION_BYTES := 1000
  const MAX_CONTEXT_BYTES := 2000
  const MAX_ANSWER_BYTES := 2000
  const MAX_TTL_SECONDS := 300
  const TRANSFER_SETUP_SECONDS := 45
  const RESOLUTION_GRACE_SECONDS := 10
  const SAFE_TRANSFER_REASON := "Caller requested the owner"

  datatype Fence = Fence(
    callId: string, callEpoch: u64, ownerEpoch: u64, switchboardRevision: u64, remoteRevision: u64)

  datatype Intent = Advice | Transfer

  datatype AssistanceAnswer = AssistanceAnswer(
    requestId: string, answerId: string, deviceId: string, answer: string, voiceConsult: bool)

  datatype Resolution =
    | Answered(given: AssistanceAnswer)
    | Declined(deviceId: string, answerId: string, answer: string)
    | TransferTaken(deviceId: string)
    | TransferUnavailable(fence: Fence)
    | Expired

  datatype Pending = Pending(
    requestId: string,
    fence: Fence,
    question: string,
    context: Option<string>,
    expiresAt: u64,
    intent: Intent,
    acceptedBy: Option<string>,
    acceptedSetupExpiresAt: Option<u64>,
    resolution: Option<Resolution>)

  type Slot = Option<Pending>

  datatype ResponseAction = Answer | Decline

  datatype AnswerFrame = AnswerFrame(
    appId: string, deviceId: string, requestId: string, answerId: string, fence: Fence,
    action: ResponseAction, answer: string)

  datatype Refusal =
    | InvalidInput
    | AlreadyPending
    | NothingPending
    | RequestExpired
    | CrossedFence
    | AcceptanceOwnsRequest
    | NeedsTakeoverClaim
    | AlreadyResolved
    | WrongDevice

  datatype Withdrawal = Withdrawn | Won | ResolvedAlready | Gone

  datatype Outcome = Outcome(slot: Slot, reply: Result<(), Refusal>)

  // ---- deadlines and validation --------------------------------------------------------

  function ActionDeadline(p: Pending): u64 {
    if p.acceptedSetupExpiresAt.Some? then p.acceptedSetupExpiresAt.value else p.expiresAt
  }

  function WaitDeadline(p: Pending): u64 {
    if p.acceptedSetupExpiresAt.Some? then SaturatingAdd(p.acceptedSetupExpiresAt.value, RESOLUTION_GRACE_SECONDS)
    else p.expiresAt
  }

  predicate ValidText(value: string, maximum: nat) {
    !Blank(value) && Utf8Len(value) <= maximum && forall i :: 0 <= i < |value| ==> !IsControl(value[i])
  }

  predicate ValidFence(f: Fence) {
    SafeId(f.callId) && f.callEpoch > 0
  }

  predicate ValidFrame(f: AnswerFrame) {
    && SafeId(f.appId) && SafeId(f.deviceId) && SafeId(f.requestId) && SafeId(f.answerId) && SafeId(f.fence.callId)
    && 1 <= f.fence.callEpoch <= MAX_SAFE_INTEGER && f.fence.ownerEpoch <= MAX_SAFE_INTEGER
    && f.fence.switchboardRevision <= MAX_SAFE_INTEGER && f.fence.remoteRevision <= MAX_SAFE_INTEGER
    && f.answer != [] && Utf8Len(f.answer) <= MAX_ANSWER_BYTES && '\0' !in f.answer
  }

  /** The slot holds an unresolved request whose waiting time has not run out, so no other can be opened. */
  predicate Blocking(slot: Slot, now: u64) {
    slot.Some? && slot.value.resolution.None? && WaitDeadline(slot.value) > now
  }

  predicate SameCall(a: Fence, b: Fence) {
    a.callId == b.callId && a.callEpoch == b.callEpoch && a.switchboardRevision == b.switchboardRevision
  }

  // ---- operations ------------------------------------------------------------------------

  function Open(slot: Slot, id: string, intent: Intent, fence: Fence, question: string, context: Option<string>,
                ttl: u64, now: u64): Outcome
  {
    var asked := if intent.Transfer? then SAFE_TRANSFER_REASON else question;
    if !ValidText(asked, MAX_QUESTION_BYTES) || (context.Some? && !ValidText(context.value, MAX_CONTEXT_BYTES))
       || !(1 <= ttl <= MAX_TTL_SECONDS) || !ValidFence(fence) then Outcome(slot, Err(InvalidInput))
    else if Blocking(slot, now) then Outcome(slot, Err(AlreadyPending))
    else
      var told := if context.Some? then Some(Trim(context.value)) else None;
      Outcome(Some(Pending(id, fence, Trim(asked), told, WrappingAdd(now, ttl), intent, None, None, None)), Ok(()))
  }

  predicate Matches(resolution: Resolution, f: AnswerFrame) {
    match resolution
    case Answered(given) =>
      f.action.Answer? && given.answerId == f.answerId && given.deviceId == f.deviceId && given.answer == f.answer
    case Declined(deviceId, answerId, answer) =>
      f.action.Decline? && deviceId == f.deviceId && answerId == f.answerId && answer == f.answer
    case _ => false
  }

  function AcceptFrame(slot: Slot, f: AnswerFrame, now: u64): Outcome {
    if !ValidFrame(f) then Outcome(slot, Err(InvalidInput))
    else if slot.None? then Outcome(slot, Err(NothingPending))
    else
      var p := slot.value;
      if p.expiresAt <= now then Outcome(slot, Err(RequestExpired))
      else if p.requestId != f.requestId || p.fence != f.fence then Outcome(slot, Err(CrossedFence))
      else if p.acceptedBy.Some? then Outcome(slot, Err(AcceptanceOwnsRequest))
      else if p.intent.Transfer? && f.action.Answer? then Outcome(slot, Err(NeedsTakeoverClaim))
      else if p.resolution.Some? then
        Outcome(slot, if Matches(p.resolution.value, f) then Ok(()) else Err(AlreadyResolved))
      else if !ValidText(f.answer, MAX_ANSWER_BYTES) then Outcome(slot, Err(InvalidInput))
      else
        var resolution := if f.action.Answer?
                          then Answered(AssistanceAnswer(f.requestId, f.answerId, f.deviceId, f.answer, false))
                          else Declined(f.deviceId, f.answerId, f.answer);
        Outcome(Some(p.(resolution := Some(resolution))), Ok(()))
  }

  function BeginVoiceConsult(slot: Slot, previous: Fence, current: Fence, now: u64): Outcome {
    if !ValidFence(current) then Outcome(slot, Err(InvalidInput))
    else if slot.None? then Outcome(slot, Err(NothingPending))
    else
      var p := slot.value;
      if !p.intent.Advice? || p.resolution.Some? || p.acceptedBy.Some? || p.expiresAt <= now || p.fence != previous
      then Outcome(slot, Err(CrossedFence))
      else if !SameCall(current, previous) || current.ownerEpoch <= previous.ownerEpoch
              || current.remoteRevision <= previous.remoteRevision
      then Outcome(slot, Err(CrossedFence))
      else Outcome(Some(p.(fence := current)), Ok(()))
  }

  function AcceptVoice(slot: Slot, id: string, fence: Fence, device: string, answer: string, answerId: string, now: u64)
    : Outcome
  {
    if !ValidText(answer, MAX_ANSWER_BYTES) then Outcome(slot, Err(InvalidInput))
    else if slot.None? then Outcome(slot, Err(NothingPending))
    else
      var p := slot.value;
      if p.requestId != id || p.fence != fence || !p.intent.Advice? || p.expiresAt <= now || p.resolution.Some?
         || p.acceptedBy.Some? then Outcome(slot, Err(CrossedFence))
      else if !SafeId(device) then Outcome(slot, Err(InvalidInput))
      else
        Outcome(Some(p.(resolution := Some(Answered(AssistanceAnswer(id, answerId, device, Trim(answer), true))))), Ok(()))
  }

  /** `update_transfer`'s guard: the exact transfer, still before its action deadline. */
  predicate Actionable(slot: Slot, id: string, fence: Fence, now: u64) {
    && slot.Some? && slot.value.requestId == id && slot.value.fence == fence && slot.value.intent.Transfer?
    && ActionDeadline(slot.value) > now
  }

  function NotActionable(slot: Slot): Outcome {
    Outcome(slot, Err(if slot.None? then NothingPending else CrossedFence))
  }

  /** `sampled` is the clock read that dates the set-up window, `now` the later one under the lock. */
  function AcceptTransfer(slot: Slot, id: string, fence: Fence, device: string, sampled: u64, now: u64): Outcome {
    if !SafeId(device) then Outcome(slot, Err(InvalidInput))
    else if !Actionable(slot, id, fence, now) then NotActionable(slot)
    else
      var p := slot.value;
      if p.resolution.Some? then Outcome(slot, Err(AlreadyResolved))
      else if p.acceptedBy.Some? then Outcome(slot, if p.acceptedBy.value == device then Ok(()) else Err(WrongDevice))
      else
        Outcome(Some(p.(acceptedBy := Some(device),
                        acceptedSetupExpiresAt := Some(SaturatingAdd(sampled, TRANSFER_SETUP_SECONDS)))), Ok(()))
  }

  function ReleaseAcceptance(slot: Slot, id: string, fence: Fence, device: string, now: u64): Outcome {
    if !SafeId(device) then Outcome(slot, Err(InvalidInput))
    else if !Actionable(slot, id, fence, now) then NotActionable(slot)
    else
      var p := slot.value;
      if p.resolution.Some? then Outcome(slot, Err(AlreadyResolved))
      else if p.acceptedBy != Some(device) then Outcome(slot, Err(WrongDevice))
      else Outcome(Some(p.(acceptedBy := None, acceptedSetupExpiresAt := None)), Ok(()))
  }

  function TakeTransfer(slot: Slot, id: string, fence: Fence, device: string, now: u64): Outcome {
    if !SafeId(device) then Outcome(slot, Err(InvalidInput))
    else if !Actionable(slot, id, fence, now) then NotActionable(slot)
    else
      var p := slot.value;
      if p.resolution.Some? then
        Outcome(slot, if p.resolution.value == TransferTaken(device) then Ok(()) else Err(AlreadyResolved))
      else if p.acceptedBy != Some(device) then Outcome(slot, Err(WrongDevice))
      else Outcome(Some(p.(resolution := Some(TransferTaken(device)))), Ok(()))
  }

  /** A returned fence is on the same call and switchboard and never behind the offered one. */
  predicate PreservesFence(offered: Fence, current: Fence) {
    && SameCall(current, offered)
    && current.ownerEpoch >= offered.ownerEpoch && current.remoteRevision >= offered.remoteRevision
  }

  function FailTransfer(slot: Slot, id: string, offered: Fence, current: Fence, device: Option<string>): Outcome {
    if (device.Some? && !SafeId(device.value)) || !ValidFence(current) then Outcome(slot, Err(InvalidInput))
    else if !PreservesFence(offered, current) then Outcome(slot, Err(CrossedFence))
    else if slot.None? then Outcome(slot, Err(NothingPending))
    else
      var p := slot.value;
      if p.requestId != id || p.fence != offered || !p.intent.Transfer? then Outcome(slot, Err(CrossedFence))
      else if p.resolution.Some? then
        Outcome(slot, if p.resolution.value == TransferUnavailable(current) then Ok(()) else Err(AlreadyResolved))
      else if p.acceptedBy.Some? && device != p.acceptedBy then Outcome(slot, Err(WrongDevice))
      else Outcome(Some(p.(resolution := Some(TransferUnavailable(current)))), Ok(()))
  }

  /** The resolution `take_resolution` returns, if it returns one; the slot is then emptied. */
  function Takeable(slot: Slot, id: string, now: u64): Option<Resolution> {
    if slot.None? || slot.value.requestId != id || Blocking(slot, now) then None
    else if slot.value.resolution.Some? then slot.value.resolution
    else Some(Expired)
  }

  function Withdraw(slot: Slot, id: string): Withdrawal {
    if slot.None? || slot.value.requestId != id then Gone
    else if slot.value.acceptedBy.Some? then Won
    else if slot.value.resolution.Some? then ResolvedAlready
    else Withdrawn
  }

  predicate ActivationIsCurrent(slot: Slot, id: string, fence: Fence, device: string, now: u64) {
    Actionable(slot, id, fence, now) && slot.value.acceptedBy == Some(device) && slot.value.resolution.None?
  }

  predicate Holds(slot: Slot, id: string) {
    slot.Some? && slot.value.requestId == id
  }

  /** The mailbox object: one mutex-guarded slot whose fence, acceptance, deadline and resolution change in place. */
  class AssistanceBroker {
    var inner: Slot

    constructor ()
      ensures inner == None
    {
      inner := None;
    }

    method Request(id: string, intent: Intent, fence: Fence, question: string, context: Option<string>, ttl: u64, now: u64)
      returns (r: Result<(), Refusal>)
      modifies this
      ensures Outcome(inner, r) == Open(old(inner), id, intent, fence, question, context, ttl, now)
    {
      var asked := if intent.Transfer? then SAFE_TRANSFER_REASON else question;
      if !ValidText(asked, MAX_QUESTION_BYTES) || (context.Some? && !ValidText(context.value, MAX_CONTEXT_BYTES)) {
        return Err(InvalidInput);
      }
      if !(1 <= ttl <= MAX_TTL_SECONDS) || !ValidFence(fence) {
        return Err(InvalidInput);
      }
      if Blocking(inner, now) {
        return Err(AlreadyPending);
      }
      var told := if context.Some? then Some(Trim(context.value)) else None;
      inner := Some(Pending(id, fence, Trim(asked), told, WrappingAdd(now, ttl), intent, None, None, None));
      r := Ok(());
    }

    method Accept(f: AnswerFrame, now: u64) returns (r: Result<(), Refusal>)
      modifies this
      ensures Outcome(inner, r) == AcceptFrame(old(inner), f, now)
    {
      if !ValidFrame(f) {
        return Err(InvalidInput);
      }
      if inner.None? {
        return Err(NothingPending);
      }
      var p := inner.value;
      if p.expiresAt <= now {
        return Err(RequestExpired);
      }
      if p.requestId != f.requestId || p.fence != f.fence {
        return Err(CrossedFence);
      }
      if p.acceptedBy.Some? {
        return Err(AcceptanceOwnsRequest);
      }
      if p.intent.Transfer? && f.action.Answer? {
        return Err(NeedsTakeoverClaim);
      }
      if p.resolution.Some? {
        return if Matches(p.resolution.value, f) then Ok(()) else Err(AlreadyResolved);
      }
      if !ValidText(f.answer, MAX_ANSWER_BYTES) {
        return Err(InvalidInput);
      }
      if f.action.Answer? {
        inner := Some(p.(resolution := Some(Answered(AssistanceAnswer(f.requestId, f.answerId, f.deviceId, f.answer, false)))));
      } else {
        inner := Some(p.(resolution := Some(Declined(f.deviceId, f.answerId, f.answer))));
      }
      r := Ok(());
    }

    method StartVoiceConsult(previous: Fence, current: Fence, now: u64) returns (r: Result<(), Refusal>)
      modifies this
      ensures Outcome(inner, r) == BeginVoiceConsult(old(inner), previous, current, now)
    {
      if !ValidFence(current) {
        return Err(InvalidInput);
      }
      if inner.None? {
        return Err(NothingPending);
      }
      var p := inner.value;
      if !p.intent.Advice? || p.resolution.Some? || p.acceptedBy.Some? || p.expiresAt <= now || p.fence != previous {
        return Err(CrossedFence);
      }
      if !SameCall(current, previous) || current.ownerEpoch <= previous.ownerEpoch
         || current.remoteRevision <= previous.remoteRevision {
        return Err(CrossedFence);
      }
      inner := Some(p.(fence := current));
      r := Ok(());
    }

    method AcceptVoiceAnswer(id: string, fence: Fence, device: string, answer: string, answerId: string, now: u64)
      returns (r: Result<(), Refusal>)
      modifies this
      ensures Outcome(inner, r) == AcceptVoice(old(inner), id, fence, device, answer, answerId, now)
    {
      if !ValidText(answer, MAX_ANSWER_BYTES) {
        return Err(InvalidInput);
      }
      if inner.None? {
        return Err(NothingPending);
      }
      var p := inner.value;
      if p.requestId != id || p.fence != fence || !p.intent.Advice? || p.expiresAt <= now || p.resolution.Some?
         || p.acceptedBy.Some? {
        return Err(CrossedFence);
      }
      if !SafeId(device) {
        return Err(InvalidInput);
      }
      inner := Some(p.(resolution := Some(Answered(AssistanceAnswer(id, answerId, device, Trim(answer), true)))));
      r := Ok(());
    }

    method AcceptOffer(id: string, fence: Fence, device: string, sampled: u64, now: u64) returns (r: Result<(), Refusal>)
      modifies this
      ensures Outcome(inner, r) == AcceptTransfer(old(inner), id, fence, device, sampled, now)
    {
      if !SafeId(device) {
        return Err(InvalidInput);
      }
      if !Actionable(inner, id, fence, now) {
        return NotActionable(inner).reply;
      }
      if inner.value.resolution.Some? {
        return Err(AlreadyResolved);
      }
      if inner.value.acceptedBy.Some? {
        return if inner.value.acceptedBy.value == device then Ok(()) else Err(WrongDevice);
      }
      inner := Some(inner.value.(acceptedBy := Some(device),
                                 acceptedSetupExpiresAt := Some(SaturatingAdd(sampled, TRANSFER_SETUP_SECONDS))));
      r := Ok(());
    }

    method Release(id: string, fence: Fence, device: string, now: u64) returns (r: Result<(), Refusal>)
      modifies this
      ensures Outcome(inner, r) == ReleaseAcceptance(old(inner), id, fence, device, now)
    {
      if !SafeId(device) {
        return Err(InvalidInput);
      }
      if !Actionable(inner, id, fence, now) {
        return NotActionable(inner).reply;
      }
      if inner.value.resolution.Some? {
        return Err(AlreadyResolved);
      }
      if inner.value.acceptedBy != Some(device) {
        return Err(WrongDevice);
      }
      inner := Some(inner.value.(acceptedBy := None, acceptedSetupExpiresAt := None));
      r := Ok(());
    }

    method CompleteTransfer(id: string, fence: Fence, device: string, now: u64) returns (r: Result<(), Refusal>)
      modifies this
      ensures Outcome(inner, r) == TakeTransfer(old(inner), id, fence, device, now)
    {
      if !SafeId(device) {
        return Err(InvalidInput);
      }
      if !Actionable(inner, id, fence, now) {
        return NotActionable(inner).reply;
      }
      if inner.value.resolution.Some? {
        return if inner.value.resolution.value == TransferTaken(device) then Ok(()) else Err(AlreadyResolved);
      }
      if inner.value.acceptedBy != Some(device) {
        return Err(WrongDevice);
      }
      inner := Some(inner.value.(resolution := Some(TransferTaken(device))));
      r := Ok(());
    }

    method AbandonTransfer(id: string, offered: Fence, current: Fence, device: Option<string>)
      returns (r: Result<(), Refusal>)
      modifies this
      ensures Outcome(inner, r) == FailTransfer(old(inner), id, offered, current, device)
    {
      if (device.Some? && !SafeId(device.value)) || !ValidFence(current) {
        return Err(InvalidInput);
      }
      if !PreservesFence(offered, current) {
        return Err(CrossedFence);
      }
      if inner.None? {
        return Err(NothingPending);
      }
      var p := inner.value;
      if p.requestId != id || p.fence != offered || !p.intent.Transfer? {
        return Err(CrossedFence);
      }
      if p.resolution.Some? {
        return if p.resolution.value == TransferUnavailable(current) then Ok(()) else Err(AlreadyResolved);
      }
      if p.acceptedBy.Some? && device != p.acceptedBy {
        return Err(WrongDevice);
      }
      inner := Some(p.(resolution := Some(TransferUnavailable(current))));
      r := Ok(());
    }

    method TakeResolution(id: string, now: u64) returns (r: Option<Resolution>)
      modifies this
      ensures r == Takeable(old(inner), id, now)
      ensures inner == if r.Some? then None else old(inner)
    {
      if inner.None? || inner.value.requestId != id {
        return None;
      }
      if inner.value.resolution.None? && WaitDeadline(inner.value) > now {
        return None;
      }
      r := if inner.value.resolution.Some? then inner.value.resolution else Some(Expired);
      inner := None;
    }

    method WithdrawIfUnaccepted(id: string) returns (r: Withdrawal)
      modifies this
      ensures r == Withdraw(old(inner), id)
      ensures inner == if r.Withdrawn? then None else old(inner)
    {
      if inner.None? || inner.value.requestId != id {
        return Gone;
      }
      if inner.value.acceptedBy.Some? {
        return Won;
      }
      if inner.value.resolution.Some? {
        return ResolvedAlready;
      }
      inner := None;
      r := Withdrawn;
    }

    method Discard(id: string)
      modifies this
      ensures inner == if Holds(old(inner), id) then None else old(inner)
    {
      if inner.Some? && inner.value.requestId == id {
        inner := None;
      }
    }
  }

  // ---- runs ----------------------------------------------------------------------------------

  datatype Op =
    | OpenOp(id: string, intent: Intent, fence: Fence, question: string, context: Option<string>, ttl: u64, now: u64)
    | AcceptFrameOp(frame: AnswerFrame, now: u64)
    | BeginVoiceOp(previous: Fence, current: Fence, now: u64)
    | AcceptVoiceOp(id: string, fence: Fence, device: string, answer: string, answerId: string, now: u64)
    | AcceptTransferOp(id: string, fence: Fence, device: string, sampled: u64, now: u64)
    | ReleaseOp(id: string, fence: Fence, device: string, now: u64)
    | TakeTransferOp(id: string, fence: Fence, device: string, now: u64)
    | FailTransferOp(id: string, fence: Fence, current: Fence, holder: Option<string>)
    | TakeOp(id: string, now: u64)
    | WithdrawOp(id: string)
    | DiscardOp(id: string)

  function Act(slot: Slot, op: Op): Outcome {
    match op
    case OpenOp(id, intent, fence, question, context, ttl, now) => Open(slot, id, intent, fence, question, context, ttl, now)
    case AcceptFrameOp(frame, now) => AcceptFrame(slot, frame, now)
    case BeginVoiceOp(previous, current, now) => BeginVoiceConsult(slot, previous, current, now)
    case AcceptVoiceOp(id, fence, device, answer, answerId, now) => AcceptVoice(slot, id, fence, device, answer, answerId, now)
    case AcceptTransferOp(id, fence, device, sampled, now) => AcceptTransfer(slot, id, fence, device, sampled, now)
    case ReleaseOp(id, fence, device, now) => ReleaseAcceptance(slot, id, fence, device, now)
    case TakeTransferOp(id, fence, device, now) => TakeTransfer(slot, id, fence, device, now)
    case FailTransferOp(id, fence, current, holder) => FailTransfer(slot, id, fence, current, holder)
    case TakeOp(id, now) => Outcome(if Takeable(slot, id, now).Some? then None else slot, Ok(()))
    case WithdrawOp(id) => Outcome(if Withdraw(slot, id).Withdrawn? then None else slot, Ok(()))
    case DiscardOp(id) => Outcome(if Holds(slot, id) then None else slot, Ok(()))
  }

  function Run(h: seq<Op>): Slot {
    if h == [] then None else Act(Run(h[..|h| - 1]), h[|h| - 1]).slot
  }

  lemma RunStep(h: seq<Op>, n: nat)
    requires n < |h|
    ensures Run(h[..n + 1]) == Act(Run(h[..n]), h[n]).slot
  {
    assert h[..n + 1][..n] == h[..n];
  }

  /** Request ids are never reused. */
  predicate FreshIds(h: seq<Op>) {
    forall i, j :: 0 <= i < j < |h| && h[i].OpenOp? && h[j].OpenOp? ==> h[i].id != h[j].id
  }

  /** The two clock reads of one acceptance are in order. */
  predicate ClockInOrder(op: Op) {
    op.AcceptTransferOp? ==> op.sampled <= op.now
  }

  // ---- what every operation keeps ---------------------------------------------------------------

  /** What a recorded resolution says about the request it resolved. */
  predicate Honest(p: Pending) {
    p.resolution.Some? ==>
      match p.resolution.value
      case Answered(given) => p.intent.Advice? && p.acceptedBy.None? && given.requestId == p.requestId
      case Declined(_, _, _) => p.acceptedBy.None?
      case TransferTaken(device) => p.intent.Transfer? && p.acceptedBy == Some(device)
      case TransferUnavailable(current) => p.intent.Transfer? && PreservesFence(p.fence, current)
      case Expired => false
  }

  /** A transfer's set-up window opened before its offer ran out. */
  predicate Bounded(p: Pending) {
    && (p.acceptedBy.Some? <==> p.acceptedSetupExpiresAt.Some?)
    && (p.acceptedBy.Some? ==> p.intent.Transfer?)
    && (p.acceptedSetupExpiresAt.Some? ==> p.acceptedSetupExpiresAt.value < p.expiresAt + TRANSFER_SETUP_SECONDS)
  }

  /** `q` is the same request as `p`, later: only its fence (forward), its acceptance and an absent resolution may differ. */
  predicate SameRequest(p: Pending, q: Pending) {
    && p.requestId == q.requestId && p.intent == q.intent && p.expiresAt == q.expiresAt && p.question == q.question
    && p.context == q.context
    && PreservesFence(p.fence, q.fence)
    && (p.resolution.Some? ==> q == p)
  }

  lemma ActKeeps(slot: Slot, op: Op)
    requires slot.Some? ==> Honest(slot.value)
    ensures var after := Act(slot, op).slot;
      after.Some? ==>
        && Honest(after.value)
        && (if op.OpenOp? && Act(slot, op).reply.Ok?
            then after.value.requestId == op.id && after.value.resolution.None?
            else slot.Some? && SameRequest(slot.value, after.value))
  {
  }

  lemma ActBounds(slot: Slot, op: Op)
    requires slot.Some? ==> Bounded(slot.value)
    requires ClockInOrder(op)
    ensures Act(slot, op).slot.Some? ==> Bounded(Act(slot, op).slot.value)
  {
  }

  lemma {:induction false} ReachableIsHonest(h: seq<Op>, n: nat)
    requires n <= |h|
    ensures Run(h[..n]).Some? ==> Honest(Run(h[..n]).value)
  {
    if n > 0 {
      ReachableIsHonest(h, n - 1);
      RunStep(h, n - 1);
      ActKeeps(Run(h[..n - 1]), h[n - 1]);
    }
  }

  lemma {:induction false} ReachableIsBounded(h: seq<Op>, n: nat)
    requires n <= |h| && forall i :: 0 <= i < |h| ==> ClockInOrder(h[i])
    ensures Run(h[..n]).Some? ==> Bounded(Run(h[..n]).value)
  {
    if n > 0 {
      ReachableIsBounded(h, n - 1);
      RunStep(h, n - 1);
      ActBounds(Run(h[..n - 1]), h[n - 1]);
    }
  }

  // ---- the life of one request ------------------------------------------------------------------

  ghost predicate OpenedAt(h: seq<Op>, o: nat, id: string) {
    o < |h| && h[o].OpenOp? && h[o].id == id && Act(Run(h[..o]), h[o]).reply.Ok?
  }

  /** The request in the slot after `n` operations was opened by `o` and has been there ever since. */
  ghost predicate HeldSince(h: seq<Op>, o: nat, n: nat)
    requires o < n <= |h| && Run(h[..n]).Some?
  {
    var p := Run(h[..n]).value;
    && OpenedAt(h, o, p.requestId) && p.expiresAt == WrappingAdd(h[o].now, h[o].ttl)
    && forall m | o < m <= n :: Holds(Run(h[..m]), p.requestId)
  }

  lemma HeldSinceStep(h: seq<Op>, n: nat, o: nat) returns (o': nat)
    requires n < |h| && Run(h[..n + 1]).Some?
    requires Run(h[..n]).Some? ==> o < n && HeldSince(h, o, n)
    ensures o' < n + 1 && HeldSince(h, o', n + 1)
  {
    RunStep(h, n);
    ReachableIsHonest(h, n);
    ActKeeps(Run(h[..n]), h[n]);
    o' := if h[n].OpenOp? && Act(Run(h[..n]), h[n]).reply.Ok? then n else o;
  }

  lemma HeldWasOpened(h: seq<Op>, n: nat) returns (o: nat)
    requires n <= |h| && Run(h[..n]).Some?
    ensures o < n && HeldSince(h, o, n)
  {
    o := 0;
    for m := 0 to n
      invariant Run(h[..m]).Some? ==> o < m && HeldSince(h, o, m)
    {
      if Run(h[..m + 1]).Some? {
        o := HeldSinceStep(h, m, o);
      }
    }
  }

  lemma SameRequestIsTransitive(p: Pending, q: Pending, r: Pending)
    requires SameRequest(p, q) && SameRequest(q, r)
    ensures SameRequest(p, r)
  {
  }

  lemma {:induction false} HeldThroughout(h: seq<Op>, o: nat, i: nat, n: nat)
    requires FreshIds(h) && o < i <= n <= |h| && Run(h[..n]).Some? && HeldSince(h, o, n)
    ensures Run(h[..i]).Some? && SameRequest(Run(h[..i]).value, Run(h[..n]).value)
    decreases n - i
  {
    assert Holds(Run(h[..i]), h[o].id);
    if i < n {
      HeldThroughout(h, o, i + 1, n);
      RunStep(h, i);
      ReachableIsHonest(h, i);
      ActKeeps(Run(h[..i]), h[i]);
      SameRequestIsTransitive(Run(h[..i]).value, Run(h[..i + 1]).value, Run(h[..n]).value);
    }
  }

  /**
   * A request's identity, intent, expiry and question never change, its fence only moves forward on its call, and its
   * first recorded resolution is never replaced.
   */
  lemma RequestLivesOneLife(h: seq<Op>, i: nat, j: nat, id: string)
    requires FreshIds(h) && i <= j <= |h| && Holds(Run(h[..i]), id) && Holds(Run(h[..j]), id)
    ensures SameRequest(Run(h[..i]).value, Run(h[..j]).value)
    ensures Run(h[..i]).value.resolution.Some? ==> Run(h[..j]).value.resolution == Run(h[..i]).value.resolution
  {
    var oi := HeldWasOpened(h, i);
    var oj := HeldWasOpened(h, j);
    assert oi == oj;
    HeldThroughout(h, oj, i, j);
  }

  /** Once a request has been opened and has left the slot, it is never in the slot again. */
  lemma DepartedNeverReturns(h: seq<Op>, o: nat, i: nat, j: nat, id: string)
    requires FreshIds(h) && o < i <= j <= |h| && h[o].OpenOp? && h[o].id == id && !Holds(Run(h[..i]), id)
    ensures !Holds(Run(h[..j]), id)
  {
    if Holds(Run(h[..j]), id) {
      var oj := HeldWasOpened(h, j);
      assert false;
    }
  }

  /** The request an operation names, and whether it did anything for it. */
  function Names(op: Op): Option<string> {
    match op
    case AcceptFrameOp(frame, _) => Some(frame.requestId)
    case BeginVoiceOp(_, _, _) => None
    case _ => Some(op.id)
  }

  predicate Succeeds(slot: Slot, op: Op) {
    match op
    case TakeOp(id, now) => Takeable(slot, id, now).Some?
    case WithdrawOp(id) => Withdraw(slot, id).Withdrawn?
    case DiscardOp(id) => Holds(slot, id)
    case _ => Act(slot, op).reply.Ok?
  }

  predicate Removes(op: Op) {
    op.TakeOp? || op.WithdrawOp? || op.DiscardOp?
  }

  lemma SuccessNeedsTheSlot(slot: Slot, op: Op)
    requires Succeeds(slot, op) && !op.OpenOp? && Names(op).Some?
    ensures Holds(slot, Names(op).value)
    ensures Removes(op) ==> Act(slot, op).slot.None?
  {
  }

  /** After a take, withdrawal or discard succeeds, no accept, resolve or removal naming that request succeeds again. */
  lemma RemovalIsFinal(h: seq<Op>, i: nat, j: nat)
    requires FreshIds(h) && i < j < |h| && Removes(h[i]) && Succeeds(Run(h[..i]), h[i])
    requires !h[j].OpenOp? && Names(h[j]) == Names(h[i])
    ensures !Succeeds(Run(h[..j]), h[j])
  {
    var id := Names(h[i]).value;
    SuccessNeedsTheSlot(Run(h[..i]), h[i]);
    var o := HeldWasOpened(h, i);
    RunStep(h, i);
    DepartedNeverReturns(h, o, i + 1, j, id);
    if Succeeds(Run(h[..j]), h[j]) {
      SuccessNeedsTheSlot(Run(h[..j]), h[j]);
    }
  }

  /**
   * What a take returns: the resolution recorded for that request, honestly about who held it; or `Expired`, and then
   * no resolution was ever recorded for it. By `RemovalIsFinal` it returns at most one.
   */
  lemma TakeReturnsTheRecord(h: seq<Op>, i: nat, k: nat)
    requires FreshIds(h) && k <= i < |h| && h[i].TakeOp? && Takeable(Run(h[..i]), h[i].id, h[i].now).Some?
    requires Holds(Run(h[..k]), h[i].id)
    ensures var p, taken := Run(h[..i]), Takeable(Run(h[..i]), h[i].id, h[i].now).value;
      && Holds(p, h[i].id) && Honest(p.value)
      && (taken.Expired? <==> p.value.resolution.None?)
      && (!taken.Expired? ==> p.value.resolution == Some(taken))
    ensures Run(h[..k]).value.resolution.Some? ==>
      Takeable(Run(h[..i]), h[i].id, h[i].now) == Run(h[..k]).value.resolution
  {
    ReachableIsHonest(h, i);
    RequestLivesOneLife(h, k, i, h[i].id);
  }

  // ---- deadlines ------------------------------------------------------------------------------------

  /**
   * No sequence of accepts, re-accepts and releases keeps a request blocking the mailbox at or after its opening
   * time + ttl + 54 s.
   */
  lemma BlockingEnds(h: seq<Op>, o: nat, n: nat, t: u64)
    requires FreshIds(h) && forall i :: 0 <= i < |h| ==> ClockInOrder(h[i])
    requires o < n <= |h| && h[o].OpenOp? && OpenedAt(h, o, h[o].id) && Holds(Run(h[..n]), h[o].id)
    requires t >= h[o].now + h[o].ttl + TRANSFER_SETUP_SECONDS + RESOLUTION_GRACE_SECONDS - 1
    ensures !Blocking(Run(h[..n]), t)
  {
    var o' := HeldWasOpened(h, n);
    assert o' == o;
    ReachableIsBounded(h, n);
  }

  /** The bound is reached: accepted in the last second of its offer, a transfer blocks until just before it. */
  lemma BlockingBoundIsTight(slot: Slot, p: Pending, device: string, fence: Fence)
    requires slot == Some(p) && p.intent.Transfer? && p.acceptedBy.None? && p.acceptedSetupExpiresAt.None?
    requires p.resolution.None? && p.fence == fence && SafeId(device) && 1 <= p.expiresAt && p.expiresAt + 100 <= U64_MAX
    ensures var accepted := AcceptTransfer(slot, p.requestId, fence, device, p.expiresAt - 1, p.expiresAt - 1);
      && accepted.reply.Ok?
      && Blocking(accepted.slot, p.expiresAt + TRANSFER_SETUP_SECONDS + RESOLUTION_GRACE_SECONDS - 2)
      && !Blocking(accepted.slot, p.expiresAt + TRANSFER_SETUP_SECONDS + RESOLUTION_GRACE_SECONDS - 1)
  {
  }

  /** While media activation is current, the radio cannot take the request away as expired, or at all. */
  lemma ActivationExcludesExpiry(slot: Slot, id: string, fence: Fence, device: string, now: u64)
    requires ActivationIsCurrent(slot, id, fence, device, now)
    ensures Takeable(slot, id, now).None? && Blocking(slot, now)
  {
  }

  /**
   * In the grace after the set-up deadline the transfer can no longer be accepted, released or taken, and is not yet
   * taken away; a failure report from exactly the accepting device that preserves the fence is still recorded.
   */
  lemma GraceAdmitsOnlyFailure(h: seq<Op>, n: nat, device: string, now: u64)
    requires n <= |h| && (forall i :: 0 <= i < |h| ==> ClockInOrder(h[i])) && Run(h[..n]).Some?
    requires var p := Run(h[..n]).value;
      && p.acceptedBy == Some(device) && p.resolution.None?
      && p.acceptedSetupExpiresAt.Some? && p.acceptedSetupExpiresAt.value <= now < WaitDeadline(p)
    ensures var slot, id := Run(h[..n]), Run(h[..n]).value.requestId;
      && (forall fence, d, sampled :: AcceptTransfer(slot, id, fence, d, sampled, now).reply.Err?)
      && (forall fence, d :: ReleaseAcceptance(slot, id, fence, d, now).reply.Err?)
      && (forall fence, d :: TakeTransfer(slot, id, fence, d, now).reply.Err?)
      && Takeable(slot, id, now).None?
      && (forall current, d | ValidFence(current) && PreservesFence(slot.value.fence, current) && SafeId(device) ::
            FailTransfer(slot, id, slot.value.fence, current, d).reply.Ok? <==> d == Some(device))
      && (forall current | ValidFence(current) && PreservesFence(slot.value.fence, current) && SafeId(device) ::
            FailTransfer(slot, id, slot.value.fence, current, Some(device)).slot ==
              Some(slot.value.(resolution := Some(TransferUnavailable(current)))))
  {
    ReachableIsBounded(h, n);
  }

  /** One operation on the mailbox object, with what a take returned. */
  method Dispatch(broker: AssistanceBroker, op: Op) returns (reply: Result<(), Refusal>, taken: Option<Resolution>)
    modifies broker
    ensures Outcome(broker.inner, reply) == Act(old(broker.inner), op)
    ensures taken == if op.TakeOp? then Takeable(old(broker.inner), op.id, op.now) else None
  {
    reply, taken := Ok(()), None;
    match op {
      case OpenOp(id, intent, fence, question, context, ttl, now) =>
        reply := broker.Request(id, intent, fence, question, context, ttl, now);
      case AcceptFrameOp(frame, now) => reply := broker.Accept(frame, now);
      case BeginVoiceOp(previous, current, now) => reply := broker.StartVoiceConsult(previous, current, now);
      case AcceptVoiceOp(id, fence, device, answer, answerId, now) =>
        reply := broker.AcceptVoiceAnswer(id, fence, device, answer, answerId, now);
      case AcceptTransferOp(id, fence, device, sampled, now) => reply := broker.AcceptOffer(id, fence, device, sampled, now);
      case ReleaseOp(id, fence, device, now) => reply := broker.Release(id, fence, device, now);
      case TakeTransferOp(id, fence, device, now) => reply := broker.CompleteTransfer(id, fence, device, now);
      case FailTransferOp(id, fence, current, holder) => reply := broker.AbandonTransfer(id, fence, current, holder);
      case TakeOp(id, now) => taken := broker.TakeResolution(id, now);
      case WithdrawOp(id) => var _ := broker.WithdrawIfUnaccepted(id);
      case DiscardOp(id) => broker.Discard(id);
    }
  }

  /** What operation `i` replied and what it took, on the mailbox the operations before it made. */
  ghost predicate Said(h: seq<Op>, i: nat, reply: Result<(), Refusal>, taken: Option<Resolution>)
    requires i < |h|
  {
    && reply == Act(Run(h[..i]), h[i]).reply
    && taken == if h[i].TakeOp? then Takeable(Run(h[..i]), h[i].id, h[i].now) else None
  }

  ghost predicate AllSaid(h: seq<Op>, replies: seq<Result<(), Refusal>>, taken: seq<Option<Resolution>>) {
    |replies| == |taken| <= |h| && forall i | 0 <= i < |replies| :: Said(h, i, replies[i], taken[i])
  }

  lemma SayNext(h: seq<Op>, replies: seq<Result<(), Refusal>>, taken: seq<Option<Resolution>>,
                reply: Result<(), Refusal>, result: Option<Resolution>)
    requires AllSaid(h, replies, taken) && |replies| < |h| && Said(h, |replies|, reply, result)
    ensures AllSaid(h, replies + [reply], taken + [result])
  {
    forall i | 0 <= i < |replies| + 1
      ensures Said(h, i, (replies + [reply])[i], (taken + [result])[i])
    {
      assert i < |replies| ==> Said(h, i, replies[i], taken[i]);
    }
  }

  /**
   * A new mailbox driven through any operations: it replies and yields what the model says, and what it then holds
   * is honest about its intent and its holder.
   */
  method DriveMailbox(h: seq<Op>) returns (slot: Slot, replies: seq<Result<(), Refusal>>, taken: seq<Option<Resolution>>)
    ensures slot == Run(h) && (slot.Some? ==> Honest(slot.value))
    ensures |replies| == |h| && AllSaid(h, replies, taken)
  {
    var broker := new AssistanceBroker();
    replies, taken := [], [];
    for n := 0 to |h|
      invariant fresh(broker) && broker.inner == Run(h[..n]) && |replies| == n && AllSaid(h, replies, taken)
    {
      var reply, result := Dispatch(broker, h[n]);
      RunStep(h, n);
      SayNext(h, replies, taken, reply, result);
      replies, taken := replies + [reply], taken + [result];
    }
    assert h[..|h|] == h;
    ReachableIsHonest(h, |h|);
    slot := broker.inner;
  }
}
