/** What every operation does to the mailbox, said flatly, and where everything in it came from. */
module AssistanceHistory {
  import opened Prelude
  import opened Assistance

  // ---- what an operation may do ------------------------------------------------------------------

  /** The resolution an operation offers. */
  function Says(op: Op): Option<Resolution> {
    match op
    case AcceptFrameOp(f, _) =>
      if f.action.Answer? then Some(Answered(AssistanceAnswer(f.requestId, f.answerId, f.deviceId, f.answer, false)))
      else Some(Declined(f.deviceId, f.answerId, f.answer))
    case AcceptVoiceOp(id, _, device, answer, answerId, _) =>
      Some(Answered(AssistanceAnswer(id, answerId, device, Trim(answer), true)))
    case TakeTransferOp(_, _, device, _) => Some(TransferTaken(device))
    case FailTransferOp(_, _, current, _) => Some(TransferUnavailable(current))
    case _ => None
  }

  /** Fence `to` is on the call and the switchboard revision of `from`, and behind it in nothing. */
  predicate Onward(from: Fence, to: Fence) {
    && to.callId == from.callId && to.callEpoch == from.callEpoch && to.switchboardRevision == from.switchboardRevision
    && to.ownerEpoch >= from.ownerEpoch && to.remoteRevision >= from.remoteRevision
  }

  /** The operation may resolve the unresolved request `p`. */
  predicate MayResolve(p: Pending, op: Op) {
    match op
    case AcceptFrameOp(f, now) =>
      && f.requestId == p.requestId && f.fence == p.fence && now < p.expiresAt && p.acceptedBy.None?
      && (p.intent.Transfer? ==> f.action.Decline?) && ValidFrame(f) && ValidText(f.answer, MAX_ANSWER_BYTES)
    case AcceptVoiceOp(id, fence, device, answer, _, now) =>
      && id == p.requestId && fence == p.fence && now < p.expiresAt && p.acceptedBy.None?
      && p.intent.Advice? && SafeId(device) && ValidText(answer, MAX_ANSWER_BYTES)
    case TakeTransferOp(id, fence, device, now) =>
      && id == p.requestId && fence == p.fence && now < ActionDeadline(p) && p.intent.Transfer?
      && p.acceptedBy == Some(device) && SafeId(device)
    case FailTransferOp(id, fence, current, holder) =>
      && id == p.requestId && fence == p.fence && p.intent.Transfer?
      && ValidFence(current) && Onward(p.fence, current)
      && (p.acceptedBy.Some? ==> holder == p.acceptedBy) && (holder.Some? ==> SafeId(holder.value))
    case _ => false
  }

  /** The operation may move the fence of the unresolved request `p` forward. */
  predicate MayRefence(p: Pending, op: Op) {
    && op.BeginVoiceOp? && p.intent.Advice? && p.acceptedBy.None? && op.now < p.expiresAt && op.previous == p.fence
    && ValidFence(op.current) && Onward(p.fence, op.current)
    && op.current.ownerEpoch > p.fence.ownerEpoch && op.current.remoteRevision > p.fence.remoteRevision
  }

  /** The operation names the unresolved transfer `p` in time and a well-formed device. */
  predicate InTime(p: Pending, id: string, fence: Fence, device: string, now: u64) {
    id == p.requestId && fence == p.fence && p.intent.Transfer? && now < ActionDeadline(p) && SafeId(device)
  }

  predicate MayHold(p: Pending, op: Op) {
    op.AcceptTransferOp? && InTime(p, op.id, op.fence, op.device, op.now) && p.acceptedBy.None?
  }

  predicate MayRelease(p: Pending, op: Op) {
    op.ReleaseOp? && InTime(p, op.id, op.fence, op.device, op.now) && p.acceptedBy == Some(op.device)
  }

  /** What an unresolved request becomes. */
  function Moved(p: Pending, op: Op): Pending {
    if MayResolve(p, op) then p.(resolution := Says(op))
    else if MayRefence(p, op) then p.(fence := op.current)
    else if MayHold(p, op) then
      p.(acceptedBy := Some(op.device), acceptedSetupExpiresAt := Some(SaturatingAdd(op.sampled, TRANSFER_SETUP_SECONDS)))
    else if MayRelease(p, op) then p.(acceptedBy := None, acceptedSetupExpiresAt := None)
    else p
  }

  /** What is asked: a transfer always asks the same safe question. */
  function Asked(op: Op): string
    requires op.OpenOp?
  {
    if op.intent.Transfer? then SAFE_TRANSFER_REASON else op.question
  }

  predicate MayOpen(slot: Slot, op: Op) {
    && op.OpenOp? && ValidText(Asked(op), MAX_QUESTION_BYTES)
    && (op.context.Some? ==> ValidText(op.context.value, MAX_CONTEXT_BYTES))
    && 1 <= op.ttl <= MAX_TTL_SECONDS && ValidFence(op.fence)
    && (slot.None? || slot.value.resolution.Some? || WaitDeadline(slot.value) <= op.now)
  }

  /** The request an opening puts in the slot. */
  function Opened(op: Op): Pending
    requires op.OpenOp?
  {
    Pending(op.id, op.fence, Trim(Asked(op)), if op.context.Some? then Some(Trim(op.context.value)) else None,
            WrappingAdd(op.now, op.ttl), op.intent, None, None, None)
  }

  /** The operation takes the request out of the slot. */
  predicate MayRemove(p: Pending, op: Op) {
    match op
    case TakeOp(id, now) => id == p.requestId && (p.resolution.Some? || WaitDeadline(p) <= now)
    case WithdrawOp(id) => id == p.requestId && p.acceptedBy.None? && p.resolution.None?
    case DiscardOp(id) => id == p.requestId
    case _ => false
  }

  // ---- the mailbox does exactly that ----------------------------------------------------------------

  lemma OpensExactly(slot: Slot, op: Op)
    requires op.OpenOp?
    ensures Act(slot, op).reply.Ok? <==> MayOpen(slot, op)
    ensures Act(slot, op).slot == if MayOpen(slot, op) then Some(Opened(op)) else slot
  {
  }

  lemma RemovesExactly(p: Pending, op: Op)
    requires Removes(op)
    ensures Act(Some(p), op).slot == if MayRemove(p, op) then None else Some(p)
  {
  }

  /** An operation on an unresolved request succeeds exactly when it may move it, or its device holds it already. */
  lemma MovesExactly(p: Pending, op: Op)
    requires p.resolution.None? && !op.OpenOp? && !Removes(op)
    ensures Act(Some(p), op).slot == Some(Moved(p, op))
    ensures Act(Some(p), op).reply.Ok? <==>
      || MayResolve(p, op) || MayRefence(p, op) || MayHold(p, op) || MayRelease(p, op)
      || (op.AcceptTransferOp? && InTime(p, op.id, op.fence, op.device, op.now) && p.acceptedBy == Some(op.device))
  {
    match op {
      case AcceptFrameOp(f, now) =>
      case BeginVoiceOp(previous, current, now) =>
      case AcceptVoiceOp(id, fence, device, answer, answerId, now) =>
      case AcceptTransferOp(id, fence, device, sampled, now) =>
      case ReleaseOp(id, fence, device, now) =>
      case TakeTransferOp(id, fence, device, now) =>
      case FailTransferOp(id, fence, current, holder) =>
    }
  }

  predicate SameAnswer(g: AssistanceAnswer, f: AnswerFrame) {
    g.answerId == f.answerId && g.deviceId == f.deviceId && g.answer == f.answer
  }

  /** The operation repeats the resolution that request `p` was given. */
  predicate Repeats(p: Pending, op: Op) {
    match op
    case AcceptFrameOp(f, now) =>
      && f.requestId == p.requestId && f.fence == p.fence && now < p.expiresAt && p.acceptedBy.None?
      && (p.intent.Transfer? ==> f.action.Decline?) && ValidFrame(f)
      && (if f.action.Decline? then p.resolution == Some(Declined(f.deviceId, f.answerId, f.answer))
          else p.resolution.Some? && p.resolution.value.Answered? && SameAnswer(p.resolution.value.given, f))
    case TakeTransferOp(id, fence, device, now) =>
      InTime(p, id, fence, device, now) && p.resolution == Some(TransferTaken(device))
    case FailTransferOp(id, fence, current, holder) =>
      && id == p.requestId && fence == p.fence && p.intent.Transfer? && p.resolution == Some(TransferUnavailable(current))
      && ValidFence(current) && Onward(p.fence, current) && (holder.Some? ==> SafeId(holder.value))
    case _ => false
  }

  /** A resolved request does not move; only a repeat of what was recorded is told so. */
  lemma ResolvedStays(p: Pending, op: Op)
    requires p.resolution.Some? && !op.OpenOp? && !Removes(op)
    ensures Act(Some(p), op).slot == Some(p)
    ensures Act(Some(p), op).reply.Ok? <==> Repeats(p, op)
  {
  }

  lemma EmptyStaysEmpty(op: Op)
    requires !op.OpenOp?
    ensures Act(None, op).slot == None && (!Removes(op) ==> Act(None, op).reply.Err?)
  {
  }

  /** A refusal names its reason. */
  lemma RefusalIsTrue(slot: Slot, op: Op)
    requires !Removes(op) && Act(slot, op).reply.Err?
    ensures match Act(slot, op).reply.error
      case AlreadyPending => slot.Some? && slot.value.resolution.None? && WaitDeadline(slot.value) > op.now
      case NothingPending => slot.None?
      case RequestExpired => slot.Some? && slot.value.expiresAt <= op.now
      case AcceptanceOwnsRequest => slot.Some? && slot.value.acceptedBy.Some?
      case NeedsTakeoverClaim => slot.Some? && slot.value.intent.Transfer? && op.frame.action.Answer?
      case AlreadyResolved => slot.Some? && slot.value.resolution.Some?
      case WrongDevice => slot.Some? && slot.value.resolution.None?
      case CrossedFence => slot.Some? || op.FailTransferOp?
      case InvalidInput => true
  {
  }

  // ---- where everything in the slot came from ----------------------------------------------------------

  /** The slot after one operation: a new request, the same one moved or not, or none. */
  predicate SlotNext(s: Slot, op: Op, t: Slot) {
    t.Some? ==>
      || (MayOpen(s, op) && t == Some(Opened(op)))
      || (s.Some? && t.value == if s.value.resolution.None? then Moved(s.value, op) else s.value)
  }

  lemma SlotStep(s: Slot, op: Op)
    ensures SlotNext(s, op, Act(s, op).slot)
  {
    if op.OpenOp? {
      OpensExactly(s, op);
      assert s.Some? && s.value.resolution.None? ==> Moved(s.value, op) == s.value;
    } else if s.None? {
      EmptyStaysEmpty(op);
    } else if Removes(op) {
      RemovesExactly(s.value, op);
      assert s.value.resolution.None? ==> Moved(s.value, op) == s.value;
    } else if s.value.resolution.None? {
      MovesExactly(s.value, op);
    } else {
      ResolvedStays(s.value, op);
    }
  }

  /** The slot after each number of operations. */
  ghost function Slots(h: seq<Op>): (s: seq<Slot>)
    ensures |s| == |h| + 1
  {
    seq(|h| + 1, n requires 0 <= n <= |h| => Run(h[..n]))
  }

  predicate Linked(h: seq<Op>, s: seq<Slot>) {
    |s| == |h| + 1 && s[0].None? && forall k, l :: 0 <= k < |h| && l == k + 1 ==> SlotNext(s[k], h[k], s[l])
  }

  lemma SlotsLink(h: seq<Op>)
    ensures Linked(h, Slots(h))
  {
    forall k, l | 0 <= k < |h| && l == k + 1
      ensures SlotNext(Slots(h)[k], h[k], Slots(h)[l])
    {
      RunStep(h, k);
      SlotStep(Run(h[..k]), h[k]);
    }
  }

  /** From operation `m` on, up to state `n`, the slot holds one and the same request. */
  predicate HeldFrom(s: seq<Slot>, m: nat, n: nat, id: string) {
    n < |s| && forall k :: m < k <= n ==> Holds(s[k], id)
  }

  /** Operation `m` resolved the request in the slot as `r`. */
  predicate ResolvedAt(h: seq<Op>, s: seq<Slot>, m: nat, r: Resolution) {
    && m < |h| && m < |s| && s[m].Some? && s[m].value.resolution.None?
    && MayResolve(s[m].value, h[m]) && Says(h[m]) == Some(r)
  }

  lemma {:induction false} ResolverOf(h: seq<Op>, s: seq<Slot>, n: nat) returns (m: nat)
    requires Linked(h, s) && n <= |h| && s[n].Some? && s[n].value.resolution.Some?
    ensures m < n && ResolvedAt(h, s, m, s[n].value.resolution.value)
    ensures s[m].value.requestId == s[n].value.requestId && HeldFrom(s, m, n, s[n].value.requestId)
    decreases n
  {
    assert SlotNext(s[n - 1], h[n - 1], s[n]);
    m := n - 1;
    if s[n - 1].value.resolution.Some? {
      m := ResolverOf(h, s, n - 1);
    }
  }

  /** `p` is the request that `op` opened, its fence moved at most forward on its call. */
  predicate AsOpened(op: Op, p: Pending)
    requires op.OpenOp?
  {
    && p.requestId == op.id && p.intent == op.intent && p.expiresAt == WrappingAdd(op.now, op.ttl)
    && p.question == Trim(Asked(op)) && p.context == (if op.context.Some? then Some(Trim(op.context.value)) else None)
    && Onward(op.fence, p.fence)
  }

  lemma MovedIsAsOpened(o: Op, p: Pending, op: Op)
    requires o.OpenOp? && AsOpened(o, p)
    ensures AsOpened(o, Moved(p, op))
  {
  }

  /** Operation `m` opened the request in the slot. */
  lemma {:induction false} OpenerOf(h: seq<Op>, s: seq<Slot>, n: nat) returns (m: nat)
    requires Linked(h, s) && n <= |h| && s[n].Some?
    ensures m < n && MayOpen(s[m], h[m]) && AsOpened(h[m], s[n].value)
    ensures HeldFrom(s, m, n, s[n].value.requestId)
    decreases n
  {
    assert SlotNext(s[n - 1], h[n - 1], s[n]);
    m := n - 1;
    if !(MayOpen(s[n - 1], h[n - 1]) && s[n] == Some(Opened(h[n - 1]))) {
      m := OpenerOf(h, s, n - 1);
      MovedIsAsOpened(h[m], s[n - 1].value, h[n - 1]);
    }
  }

  /** Operation `m` gave the transfer to the device that holds it, and nothing has taken it back since. */
  lemma {:induction false} HolderOf(h: seq<Op>, s: seq<Slot>, n: nat) returns (m: nat)
    requires Linked(h, s) && n <= |h| && s[n].Some? && s[n].value.acceptedBy.Some?
    ensures m < n && s[m].Some? && s[m].value.resolution.None? && MayHold(s[m].value, h[m])
    ensures s[n].value.acceptedBy == Some(h[m].device)
    ensures s[n].value.acceptedSetupExpiresAt == Some(SaturatingAdd(h[m].sampled, TRANSFER_SETUP_SECONDS))
    ensures HeldFrom(s, m, n, s[n].value.requestId) && s[m].value.requestId == s[n].value.requestId
    ensures forall k :: m < k <= n ==> s[k].value.acceptedBy == Some(h[m].device)
    decreases n
  {
    assert SlotNext(s[n - 1], h[n - 1], s[n]);
    m := n - 1;
    if s[n - 1].value.acceptedBy.Some? {
      m := HolderOf(h, s, n - 1);
    }
  }

  /** The fence in force is the opening one, or the one the last private consultation moved to. */
  lemma {:induction false} FenceOf(h: seq<Op>, s: seq<Slot>, n: nat) returns (m: nat)
    requires Linked(h, s) && n <= |h| && s[n].Some?
    ensures m < n && HeldFrom(s, m, n, s[n].value.requestId)
    ensures || (MayOpen(s[m], h[m]) && s[n].value.fence == h[m].fence)
            || (s[m].Some? && s[m].value.resolution.None? && MayRefence(s[m].value, h[m]) && s[n].value.fence == h[m].current)
    ensures forall k :: m < k <= n ==> s[k].value.fence == s[n].value.fence
    decreases n
  {
    assert SlotNext(s[n - 1], h[n - 1], s[n]);
    m := n - 1;
    if !(MayOpen(s[n - 1], h[n - 1]) && s[n] == Some(Opened(h[n - 1]))) && s[n].value.fence == s[n - 1].value.fence {
      m := FenceOf(h, s, n - 1);
    }
  }

  /**
   * Over every run: whatever a take yields was said by one earlier operation on that request, word for word, that
   * named the request's fence of that moment, came in time and was permitted by who then held it; only a request that
   * nobody resolved yields `Expired`.
   */
  lemma TakenWasSaid(h: seq<Op>, i: nat) returns (m: nat)
    requires i < |h| && h[i].TakeOp? && Takeable(Run(h[..i]), h[i].id, h[i].now).Some?
    ensures Run(h[..i]).Some? && Run(h[..i]).value.requestId == h[i].id
    ensures var taken := Takeable(Run(h[..i]), h[i].id, h[i].now).value;
      if taken.Expired? then Run(h[..i]).value.resolution.None? && WaitDeadline(Run(h[..i]).value) <= h[i].now
      else m < i && ResolvedAt(h, Slots(h), m, taken) && Run(h[..m]).value.requestId == h[i].id
           && HeldFrom(Slots(h), m, i, h[i].id)
  {
    m := 0;
    SlotsLink(h);
    ReachableIsHonest(h, i);
    if Run(h[..i]).value.resolution.Some? {
      m := ResolverOf(h, Slots(h), i);
    }
  }

  /** Over every run: the request in the slot is the one an operation opened, word for word, its fence moved at most forward. */
  lemma HeldAsOpened(h: seq<Op>, n: nat) returns (o: nat)
    requires n <= |h| && Run(h[..n]).Some?
    ensures o < n && h[o].OpenOp? && MayOpen(Run(h[..o]), h[o]) && HeldFrom(Slots(h), o, n, h[o].id)
    ensures AsOpened(h[o], Run(h[..n]).value)
  {
    SlotsLink(h);
    o := OpenerOf(h, Slots(h), n);
  }

  /** Over every run: a device that holds a transfer accepted it in time, and has held it ever since. */
  lemma HolderAccepted(h: seq<Op>, n: nat) returns (m: nat)
    requires n <= |h| && Run(h[..n]).Some? && Run(h[..n]).value.acceptedBy.Some?
    ensures m < n && Run(h[..m]).Some? && Run(h[..m]).value.resolution.None? && MayHold(Run(h[..m]).value, h[m])
    ensures Run(h[..n]).value.acceptedBy == Some(h[m].device)
    ensures Run(h[..n]).value.acceptedSetupExpiresAt == Some(SaturatingAdd(h[m].sampled, TRANSFER_SETUP_SECONDS))
    ensures forall k :: m < k <= n ==> Run(h[..k]).Some? && Run(h[..k]).value.acceptedBy == Some(h[m].device)
  {
    SlotsLink(h);
    m := HolderOf(h, Slots(h), n);
    forall k | m < k <= n
      ensures Run(h[..k]).Some? && Run(h[..k]).value.acceptedBy == Some(h[m].device)
    {
      assert Holds(Slots(h)[k], Run(h[..n]).value.requestId) && Slots(h)[k].value.acceptedBy == Some(h[m].device);
    }
  }

  /** Over every run: the fence in force is the opening one or that of the last consultation begun in time. */
  lemma FenceInForce(h: seq<Op>, n: nat) returns (m: nat)
    requires n <= |h| && Run(h[..n]).Some?
    ensures m < n && HeldFrom(Slots(h), m, n, Run(h[..n]).value.requestId)
    ensures || (MayOpen(Run(h[..m]), h[m]) && Run(h[..n]).value.fence == h[m].fence)
            || (Run(h[..m]).Some? && MayRefence(Run(h[..m]).value, h[m]) && Run(h[..n]).value.fence == h[m].current)
  {
    SlotsLink(h);
    m := FenceOf(h, Slots(h), n);
  }
}
