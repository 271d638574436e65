/** One native peer's identity, and the lease gate that alone lets its microphone reach the caller. */
module SessionBindings {
  import opened Prelude

  datatype MediaMode = Monitor | PreparedConsult | PreparedTalk | Consult | Talk {
    predicate MayTransmitToCaller() { Talk? }
    predicate NeedsMicrophone() { Consult? || Talk? }
  }

  datatype SessionBinding = SessionBinding(
    rtcSessionId: string,
    callId: string,
    callEpoch: u64,
    ownerEpoch: u64,
    deviceId: string,
    mode: MediaMode,
    leaseId: Option<string>,
    fence: u64)

  datatype BindingError = InvalidIdentity | InvalidEpoch | InvalidLease

  function Validate(b: SessionBinding): Result<(), BindingError> {
    if !(SafeId(b.rtcSessionId) && SafeId(b.callId) && SafeId(b.deviceId)) then Err(InvalidIdentity)
    else if b.callEpoch > MAX_SAFE_INTEGER || b.ownerEpoch > MAX_SAFE_INTEGER then Err(InvalidEpoch)
    else if !(b.leaseId.Some? && SafeId(b.leaseId.value)) then Err(InvalidLease)
    else match b.mode {
      case Monitor | PreparedConsult | Consult => if b.fence == 0 then Ok(()) else Err(InvalidLease)
      case PreparedTalk | Talk => if 1 <= b.fence <= MAX_SAFE_INTEGER then Ok(()) else Err(InvalidLease)
    }
  }

  predicate ValidBinding(b: SessionBinding) {
    Validate(b).Ok?
  }

  /** A binding is valid exactly with safe identifiers, safe epochs, a lease, and a fence only for talking. */
  lemma ValidBindingIff(b: SessionBinding)
    ensures ValidBinding(b) <==>
      && SafeId(b.rtcSessionId) && SafeId(b.callId) && SafeId(b.deviceId)
      && b.callEpoch <= MAX_SAFE_INTEGER && b.ownerEpoch <= MAX_SAFE_INTEGER
      && b.leaseId.Some? && SafeId(b.leaseId.value)
      && (if b.mode in {PreparedTalk, Talk} then 1 <= b.fence <= MAX_SAFE_INTEGER else b.fence == 0)
  {
  }
}

module RouteGates {
  import opened Prelude
  import opened SessionBindings

  datatype RoutePermit = RoutePermit(binding: SessionBinding, expiresAt: nat) {
    predicate IsCurrentFor(b: SessionBinding, now: nat) {
      now < expiresAt && binding == b
    }
  }

  datatype RouteError =
    | InvalidPermit
    | ChangesCalls
    | DoesNotAdvance
    | AlreadyExpired
    | ExpiryOverflow
    | NoLiveRoute
    | NotCurrent
    | WrongPeer

  datatype RouteStep<+T> = RouteStep(stored: Option<RoutePermit>, outcome: T)

  /** A replacement stays on the call and raises both owner epoch and fence. */
  predicate Supersedes(prior: SessionBinding, next: SessionBinding) {
    && prior.callId == next.callId && prior.callEpoch == next.callEpoch
    && prior.ownerEpoch < next.ownerEpoch && prior.fence < next.fence
  }

  /** `RoutePermit::new`. */
  function NewPermit(b: SessionBinding, lifetime: nat, now: nat): (r: Result<RoutePermit, RouteError>)
    ensures r.Ok? <==> ValidBinding(b) && b.mode.Talk? && lifetime > 0 && now + lifetime <= MAX_INSTANT
    ensures r.Ok? ==> forall other, t: nat :: r.value.IsCurrentFor(other, t) <==> other == b && t < now + lifetime
  {
    if !ValidBinding(b) then Err(InvalidPermit)
    else if !b.mode.MayTransmitToCaller() then Err(WrongPeer)
    else if lifetime == 0 then Err(AlreadyExpired)
    else match CheckedAdd(now, lifetime)
      case None => Err(ExpiryOverflow)
      case Some(expiry) => Ok(RoutePermit(b, expiry))
  }

  function Authorize(stored: Option<RoutePermit>, permit: RoutePermit): RouteStep<Result<(), RouteError>> {
    if !ValidBinding(permit.binding) then RouteStep(stored, Err(InvalidPermit))
    else match stored {
      case None => RouteStep(Some(permit), Ok(()))
      case Some(existing) =>
        var prior, next := existing.binding, permit.binding;
        if prior.callId != next.callId || prior.callEpoch != next.callEpoch then RouteStep(stored, Err(ChangesCalls))
        else if next.ownerEpoch <= prior.ownerEpoch || next.fence <= prior.fence then RouteStep(stored, Err(DoesNotAdvance))
        else RouteStep(Some(permit), Ok(()))
    }
  }

  function Renew(stored: Option<RoutePermit>, b: SessionBinding, lifetime: nat, now: nat)
    : RouteStep<Result<(), RouteError>>
  {
    if lifetime == 0 then RouteStep(stored, Err(AlreadyExpired))
    else match CheckedAdd(now, lifetime) {
      case None => RouteStep(stored, Err(ExpiryOverflow))
      case Some(expiry) =>
        match stored {
          case None => RouteStep(None, Err(NoLiveRoute))
          case Some(existing) =>
            if !existing.IsCurrentFor(b, now) then RouteStep(None, Err(NotCurrent))
            else if expiry > existing.expiresAt then RouteStep(Some(existing.(expiresAt := expiry)), Ok(()))
            else RouteStep(stored, Ok(()))
        }
    }
  }

  /** Asking is also what sweeps an expired permit out. */
  function Allows(stored: Option<RoutePermit>, b: SessionBinding, now: nat): RouteStep<bool> {
    if stored.Some? && stored.value.IsCurrentFor(b, now) then RouteStep(stored, true)
    else if stored.Some? && now >= stored.value.expiresAt then RouteStep(None, false)
    else RouteStep(stored, false)
  }

  /** The gate itself: one permit slot, updated in place under its mutex. */
  class RouteGate {
    var inner: Option<RoutePermit>

    constructor ()
      ensures inner == None
    {
      inner := None;
    }

    method AuthorizeRoute(permit: RoutePermit) returns (r: Result<(), RouteError>)
      modifies this
      ensures RouteStep(inner, r) == Authorize(old(inner), permit)
      ensures r.Ok? ==> inner == Some(permit) && (old(inner).Some? ==> Supersedes(old(inner).value.binding, permit.binding))
      ensures r.Err? ==> inner == old(inner)
    {
      if !ValidBinding(permit.binding) {
        return Err(InvalidPermit);
      }
      if inner.Some? {
        var previous := inner.value.binding;
        if previous.callId != permit.binding.callId || previous.callEpoch != permit.binding.callEpoch {
          return Err(ChangesCalls);
        }
        if permit.binding.ownerEpoch <= previous.ownerEpoch || permit.binding.fence <= previous.fence {
          return Err(DoesNotAdvance);
        }
      }
      inner := Some(permit);
      r := Ok(());
    }

    method Revoke()
      modifies this
      ensures inner == None
    {
      inner := None;
    }

    method RenewRoute(b: SessionBinding, lifetime: nat, now: nat) returns (r: Result<(), RouteError>)
      modifies this
      ensures RouteStep(inner, r) == Renew(old(inner), b, lifetime, now)
    {
      if lifetime == 0 {
        return Err(AlreadyExpired);
      }
      var expiry := CheckedAdd(now, lifetime);
      if expiry.None? {
        return Err(ExpiryOverflow);
      }
      if inner.None? {
        return Err(NoLiveRoute);
      }
      if !inner.value.IsCurrentFor(b, now) {
        inner := None;
        return Err(NotCurrent);
      }
      if expiry.value > inner.value.expiresAt {
        inner := Some(inner.value.(expiresAt := expiry.value));
      }
      r := Ok(());
    }

    method AllowsRoute(b: SessionBinding, now: nat) returns (open: bool)
      modifies this
      ensures RouteStep(inner, open) == Allows(old(inner), b, now)
    {
      if inner.Some? && inner.value.IsCurrentFor(b, now) {
        return true;
      }
      if inner.Some? && now >= inner.value.expiresAt {
        inner := None;
      }
      open := false;
    }
  }

  // ---- whole runs -----------------------------------------------------------

  datatype RouteOp =
    | AuthorizeOp(permit: RoutePermit)
    | RevokeOp
    | RenewOp(binding: SessionBinding, lifetime: nat, now: nat)
    | AllowsOp(binding: SessionBinding, now: nat)

  function Apply(stored: Option<RoutePermit>, op: RouteOp): Option<RoutePermit> {
    match op
    case AuthorizeOp(permit) => Authorize(stored, permit).stored
    case RevokeOp => None
    case RenewOp(b, lifetime, now) => Renew(stored, b, lifetime, now).stored
    case AllowsOp(b, now) => Allows(stored, b, now).stored
  }

  /** The stored permit after the calls `h` on a new gate. */
  function Run(h: seq<RouteOp>): Option<RoutePermit> {
    if h == [] then None else Apply(Run(h[..|h| - 1]), h[|h| - 1])
  }

  lemma RunPrefix(h: seq<RouteOp>, n: nat)
    requires n < |h|
    ensures Run(h[..n + 1]) == Apply(Run(h[..n]), h[n])
  {
    assert h[..n + 1][..n] == h[..n];
  }

  /** What call `j` itself granted to `b`: an accepted permit's expiry, or a successful renewal's. */
  function Granted(h: seq<RouteOp>, j: nat, b: SessionBinding): Option<nat>
    requires j < |h|
  {
    match h[j]
    case AuthorizeOp(permit) =>
      if permit.binding == b && Authorize(Run(h[..j]), permit).outcome.Ok? then Some(permit.expiresAt) else None
    case RenewOp(binding, lifetime, now) =>
      if binding == b && Renew(Run(h[..j]), binding, lifetime, now).outcome.Ok? then CheckedAdd(now, lifetime) else None
    case _ => None
  }

  /** Call `j` neither revoked, nor replaced the permit, nor was a renewal that found no current permit. */
  predicate KeepsRoute(h: seq<RouteOp>, j: nat)
    requires j < |h|
  {
    match h[j]
    case AuthorizeOp(permit) => Authorize(Run(h[..j]), permit).outcome.Err?
    case RevokeOp => false
    case RenewOp(b, lifetime, now) =>
      var outcome := Renew(Run(h[..j]), b, lifetime, now).outcome;
      outcome.Ok? || outcome.error.AlreadyExpired? || outcome.error.ExpiryOverflow?
    case AllowsOp(_, _) => true
  }

  /** Permit `p` was authorized by call `k`, kept ever since, and its expiry is the latest one granted to it, by call `m`. */
  ghost predicate Lineage(h: seq<RouteOp>, k: int, m: int, p: RoutePermit) {
    && 0 <= k <= m < |h|
    && h[k].AuthorizeOp? && h[k].permit.binding == p.binding && Granted(h, k, p.binding).Some?
    && KeptAfter(h, k)
    && Granted(h, m, p.binding) == Some(p.expiresAt)
    && GrantedWithin(h, k, p.binding, p.expiresAt)
  }

  /** No call after `k` closed or replaced the route. */
  predicate KeptAfter(h: seq<RouteOp>, k: int)
    requires 0 <= k
  {
    forall j :: k < j < |h| ==> KeepsRoute(h, j)
  }

  /** Nothing granted to `b` from call `k` on reaches past `limit`. */
  ghost predicate GrantedWithin(h: seq<RouteOp>, k: int, b: SessionBinding, limit: nat)
    requires 0 <= k
  {
    forall j :: k <= j < |h| && Granted(h, j, b).Some? ==> Granted(h, j, b).value <= limit
  }

  lemma PrefixGrants(h: seq<RouteOp>, n: nat, j: nat, b: SessionBinding)
    requires j < n <= |h|
    ensures Granted(h[..n], j, b) == Granted(h, j, b)
  {
    assert h[..n][..j] == h[..j];
  }

  lemma PrefixKeeps(h: seq<RouteOp>, n: nat, j: nat)
    requires j < n <= |h|
    ensures KeepsRoute(h[..n], j) == KeepsRoute(h, j)
  {
    assert h[..n][..j] == h[..j];
  }

  /** What a call that leaves a permit stored without authorizing it does to that permit. */
  lemma LastCallKeeps(h: seq<RouteOp>, n: nat)
    requires |h| == n + 1 && Run(h[..n]).Some? && Run(h).Some?
    requires h[n].AuthorizeOp? ==> Authorize(Run(h[..n]), h[n].permit).outcome.Err?
    ensures KeepsRoute(h, n) && Run(h).value.binding == Run(h[..n]).value.binding
    ensures Run(h[..n]).value.expiresAt <= Run(h).value.expiresAt
    ensures var g := Granted(h, n, Run(h).value.binding);
      if Run(h[..n]).value.expiresAt < Run(h).value.expiresAt then g == Some(Run(h).value.expiresAt)
      else g.Some? ==> g.value <= Run(h).value.expiresAt
  {
  }

  lemma KeptExtends(h: seq<RouteOp>, n: nat, k: nat)
    requires k < n && |h| == n + 1 && KeptAfter(h[..n], k) && KeepsRoute(h, n)
    ensures KeptAfter(h, k)
  {
    forall j | k < j < n
      ensures KeepsRoute(h, j)
    {
      PrefixKeeps(h, n, j);
      assert KeepsRoute(h[..n], j);
    }
  }

  lemma GrantsExtend(h: seq<RouteOp>, n: nat, k: nat, b: SessionBinding, limit: nat, limit': nat)
    requires k < n && |h| == n + 1 && GrantedWithin(h[..n], k, b, limit) && limit <= limit'
    requires Granted(h, n, b).Some? ==> Granted(h, n, b).value <= limit'
    ensures GrantedWithin(h, k, b, limit')
  {
    forall j | k <= j < n && Granted(h, j, b).Some?
      ensures Granted(h, j, b).value <= limit'
    {
      PrefixGrants(h, n, j, b);
      assert Granted(h[..n], j, b).value <= limit;
    }
  }

  /** Such a call extends that permit's lineage. */
  lemma LineageExtends(h: seq<RouteOp>, n: nat, k: int, m: int)
    requires |h| == n + 1 && Run(h[..n]).Some? && Lineage(h[..n], k, m, Run(h[..n]).value) && Run(h).Some?
    requires h[n].AuthorizeOp? ==> Authorize(Run(h[..n]), h[n].permit).outcome.Err?
    ensures Lineage(h, k, if Run(h[..n]).value.expiresAt < Run(h).value.expiresAt then n else m, Run(h).value)
  {
    var b := Run(h).value.binding;
    LastCallKeeps(h, n);
    PrefixGrants(h, n, k, b);
    PrefixGrants(h, n, m, b);
    KeptExtends(h, n, k);
    GrantsExtend(h, n, k, b, Run(h[..n]).value.expiresAt, Run(h).value.expiresAt);
  }

  /** Every stored permit has a lineage in the calls made. */
  lemma {:induction false} StoredPermitLineage(h: seq<RouteOp>) returns (k: int, m: int)
    ensures Run(h).Some? ==> Lineage(h, k, m, Run(h).value)
  {
    k, m := 0, 0;
    if h == [] || Run(h).None? {
      return;
    }
    var n := |h| - 1;
    var before, p := Run(h[..n]), Run(h).value;
    if h[n].AuthorizeOp? && Authorize(before, h[n].permit).outcome.Ok? {
      k, m := n, n;
      return;
    }
    k, m := StoredPermitLineage(h[..n]);
    LineageExtends(h, n, k, m);
    m := if before.value.expiresAt < p.expiresAt then n else m;
  }

  /**
   * The gate opens for `b` at `t` only on a permit for exactly `b` that was authorized, never revoked, replaced or
   * hit by a mismatched renewal since, and while `t` precedes the latest expiry granted to it.
   */
  lemma OpenRouteWasGranted(h: seq<RouteOp>, b: SessionBinding, t: nat) returns (k: int, m: int)
    requires Allows(Run(h), b, t).outcome
    ensures Lineage(h, k, m, Run(h).value)
    ensures h[k].permit.binding == b && Granted(h, m, b).Some? && t < Granted(h, m, b).value
  {
    k, m := StoredPermitLineage(h);
  }

  predicate TimesUpTo(h: seq<RouteOp>, t: nat) {
    forall j :: 0 <= j < |h| ==> (h[j].RenewOp? || h[j].AllowsOp?) ==> h[j].now <= t
  }

  /** A grant to `b` by call `m` that reaches past `t`, with nothing since that closes the route. */
  predicate OpenGrant(h: seq<RouteOp>, m: nat, b: SessionBinding, t: nat) {
    && m < |h|
    && Granted(h, m, b).Some? && t < Granted(h, m, b).value
    && KeptAfter(h, m)
  }

  predicate OpenFor(stored: Option<RoutePermit>, b: SessionBinding, t: nat) {
    stored.Some? && stored.value.binding == b && t < stored.value.expiresAt
  }

  lemma GrantOpens(h: seq<RouteOp>, m: nat, b: SessionBinding, t: nat)
    requires m < |h| && Granted(h, m, b).Some? && t < Granted(h, m, b).value
    ensures OpenFor(Apply(Run(h[..m]), h[m]), b, t)
  {
  }

  lemma KeptStaysOpen(h: seq<RouteOp>, j: nat, b: SessionBinding, t: nat)
    requires j < |h| && KeepsRoute(h, j) && OpenFor(Run(h[..j]), b, t) && TimesUpTo(h, t)
    ensures OpenFor(Apply(Run(h[..j]), h[j]), b, t)
  {
  }

  lemma {:induction false} GrantSurvives(h: seq<RouteOp>, m: nat, b: SessionBinding, t: nat, n: nat)
    requires OpenGrant(h, m, b, t) && TimesUpTo(h, t)
    requires m < n <= |h|
    ensures OpenFor(Run(h[..n]), b, t)
    decreases n
  {
    RunPrefix(h, n - 1);
    if n - 1 > m {
      GrantSurvives(h, m, b, t, n - 1);
      KeptStaysOpen(h, n - 1, b, t);
    } else {
      GrantOpens(h, m, b, t);
    }
  }

  /** Exactly when the gate is open, in terms of the calls made and of their outcomes when they were made. */
  lemma OpenRouteIffGranted(h: seq<RouteOp>, b: SessionBinding, t: nat)
    requires TimesUpTo(h, t)
    ensures Allows(Run(h), b, t).outcome <==> exists m :: OpenGrant(h, m, b, t)
  {
    if Allows(Run(h), b, t).outcome {
      var k, m := OpenRouteWasGranted(h, b, t);
      assert OpenGrant(h, m, b, t);
    }
    if exists m :: OpenGrant(h, m, b, t) {
      var m: nat :| OpenGrant(h, m, b, t);
      GrantSurvives(h, m, b, t, |h|);
      assert h[..|h|] == h;
    }
  }

  /** A permit is stored exactly when its binding is valid and supersedes whatever is stored; else nothing changes. */
  lemma AuthorizedIff(stored: Option<RoutePermit>, permit: RoutePermit)
    ensures var s := Authorize(stored, permit);
      && (s.outcome.Ok? <==> ValidBinding(permit.binding) && (stored.Some? ==> Supersedes(stored.value.binding, permit.binding)))
      && s.stored == if s.outcome.Ok? then Some(permit) else stored
  {
  }

  /** Asking after the expiry frees the slot for any valid permit; asking before it changes nothing. */
  lemma QueryFreesExpired(stored: RoutePermit, b: SessionBinding, now: nat, permit: RoutePermit)
    ensures var left := Allows(Some(stored), b, now).stored;
      if now < stored.expiresAt then left == Some(stored)
      else Authorize(left, permit).outcome.Ok? <==> ValidBinding(permit.binding)
  {
  }

  /** A refused authorization names its reason. */
  lemma RefusalIsTrue(stored: Option<RoutePermit>, permit: RoutePermit)
    requires Authorize(stored, permit).outcome.Err?
    ensures match Authorize(stored, permit).outcome.error
      case InvalidPermit => !ValidBinding(permit.binding)
      case ChangesCalls =>
        stored.Some? && (stored.value.binding.callId, stored.value.binding.callEpoch) != (permit.binding.callId, permit.binding.callEpoch)
      case DoesNotAdvance =>
        && stored.Some? && stored.value.binding.callId == permit.binding.callId
        && (permit.binding.ownerEpoch <= stored.value.binding.ownerEpoch || permit.binding.fence <= stored.value.binding.fence)
      case _ => false
  {
  }

  /** A renewal never revives what has expired and never shortens what is live. */
  lemma RenewalNeverRevivesNorShortens(stored: Option<RoutePermit>, b: SessionBinding, lifetime: nat, now: nat)
    ensures var s := Renew(stored, b, lifetime, now);
      && (s.outcome.Ok? <==> lifetime > 0 && now + lifetime <= MAX_INSTANT && Allows(stored, b, now).outcome)
      && (s.stored.Some? ==> stored.Some? && s.stored.value.binding == stored.value.binding
                             && stored.value.expiresAt <= s.stored.value.expiresAt)
      && (s.outcome.Ok? ==> s.stored.value.expiresAt >= now + lifetime
                            && s.stored.value.expiresAt in {stored.value.expiresAt, now + lifetime})
  {
  }

  predicate ClimbsTo(prior: SessionBinding, next: SessionBinding) {
    next == prior || Supersedes(prior, next)
  }

  /** A call that leaves a permit stored keeps its binding or replaces it by a superseding one. */
  lemma BindingKeptOrClimbs(stored: RoutePermit, op: RouteOp)
    requires Apply(Some(stored), op).Some?
    ensures ClimbsTo(stored.binding, Apply(Some(stored), op).value.binding)
  {
  }

  /** Bindings that climb step by step climb all the way. */
  lemma {:induction false} ClimbsAllTheWay(bindings: seq<SessionBinding>, n: nat)
    requires n < |bindings| && forall k, l :: 0 <= k < n && l == k + 1 ==> ClimbsTo(bindings[k], bindings[l])
    ensures ClimbsTo(bindings[0], bindings[n])
  {
    if n > 0 {
      ClimbsAllTheWay(bindings, n - 1);
      assert ClimbsTo(bindings[n - 1], bindings[n]);
    }
  }

  lemma StoredBindingClimbs(h: seq<RouteOp>, n: nat)
    requires n < |h| && Run(h[..n]).Some? && Run(h[..n + 1]).Some?
    ensures ClimbsTo(Run(h[..n]).value.binding, Run(h[..n + 1]).value.binding)
  {
    RunPrefix(h, n);
    BindingKeptOrClimbs(Run(h[..n]).value, h[n]);
  }

  /** The binding stored after each call from `i` up to call `j`. */
  ghost function StoredBindings(h: seq<RouteOp>, i: nat, j: nat): (bindings: seq<SessionBinding>)
    requires i < j <= |h| && forall n :: i < n <= j ==> Run(h[..n]).Some?
    ensures |bindings| == j - i
  {
    seq(j - i, k requires 0 <= k < j - i => StoredBinding(h, i + 1 + k))
  }

  ghost function StoredBinding(h: seq<RouteOp>, n: nat): SessionBinding
    requires n <= |h| && Run(h[..n]).Some?
  {
    Run(h[..n]).value.binding
  }

  lemma {:induction false} StoredBindingsClimb(h: seq<RouteOp>, i: nat, j: nat)
    requires i < j <= |h| && forall n :: i < n <= j ==> Run(h[..n]).Some?
    ensures ClimbsTo(StoredBinding(h, i + 1), StoredBinding(h, j))
  {
    var bindings := StoredBindings(h, i, j);
    forall k, l | 0 <= k < j - i - 1 && l == k + 1
      ensures ClimbsTo(bindings[k], bindings[l])
    {
      StoredBindingClimbs(h, i + 1 + k);
      assert bindings[k] == StoredBinding(h, i + 1 + k) && bindings[l] == StoredBinding(h, i + 1 + k + 1);
    }
    ClimbsAllTheWay(bindings, j - i - 1);
  }

  lemma AcceptedIsStored(h: seq<RouteOp>, i: nat)
    requires i < |h| && h[i].AuthorizeOp? && Authorize(Run(h[..i]), h[i].permit).outcome.Ok?
    ensures Run(h[..i + 1]) == Some(h[i].permit)
  {
    RunPrefix(h, i);
  }

  lemma AcceptedSupersedes(stored: RoutePermit, permit: RoutePermit)
    requires Authorize(Some(stored), permit).outcome.Ok?
    ensures Supersedes(stored.binding, permit.binding)
  {
  }

  /** Accepted authorizations with a permit stored all the way between them climb strictly on one call. */
  lemma {:induction false} ReplacementsClimb(h: seq<RouteOp>, i: nat, j: nat)
    requires i < j < |h|
    requires h[i].AuthorizeOp? && Authorize(Run(h[..i]), h[i].permit).outcome.Ok?
    requires h[j].AuthorizeOp? && Authorize(Run(h[..j]), h[j].permit).outcome.Ok?
    requires forall n :: i < n <= j ==> Run(h[..n]).Some?
    ensures Supersedes(h[i].permit.binding, h[j].permit.binding)
  {
    StoredBindingsClimb(h, i, j);
    AcceptedIsStored(h, i);
    AcceptedSupersedes(Run(h[..j]).value, h[j].permit);
  }
}
