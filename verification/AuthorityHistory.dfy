/**
 * The microphone authority of a peer, told from the events of its history alone: which messages came over the open
 * channel, what they said, and what went wrong.
 */
module AuthorityHistory {
  import opened Prelude
  import opened SessionBindings
  import opened DesktopPeers
  import opened MicrophoneAuthority
  import Codec = AuthorityCodec

  // ---- what the events say ----------------------------------------------------------------------

  /** What the events so far come to: the channel, whether anything was amiss, and the proofs that arrived, in order. */
  datatype Reading = Reading(open: bool, failed: bool, proofs: seq<AuthorityProof>)

  const SILENCE := Reading(false, false, [])

  /** The one channel a peer with a microphone may open. */
  predicate OpensChannel(b: SessionBinding, e: Event) {
    b.mode.NeedsMicrophone() && e == ChannelOpened(Codec.CHANNEL)
  }

  /** The proof that event `e` carries over the open channel. */
  function ProofIn(b: SessionBinding, open: bool, e: Event): Option<AuthorityProof> {
    if open && e.AuthorityMessage? && e.binary && Codec.ParsePayload(e.data, b).Ok? then
      Some(Codec.ParsePayload(e.data, b).value)
    else None
  }

  /** A wrong or second channel, a closed one, or a message that is not a proof for this binding. */
  predicate Breach(b: SessionBinding, open: bool, e: Event) {
    || (e.ChannelOpened? && (open || !OpensChannel(b, e)))
    || (e.ChannelClosed? && open)
    || (e.AuthorityMessage? && open && ProofIn(b, open, e).None?)
  }

  /** The proof repeats the highest generation so far with the other action. */
  predicate Refused(proofs: seq<AuthorityProof>, p: AuthorityProof) {
    && (exists i :: 0 <= i < |proofs| && proofs[i].generation == p.generation && proofs[i].action != p.action)
    && (forall i :: 0 <= i < |proofs| ==> proofs[i].generation <= p.generation)
  }

  predicate Fault(b: SessionBinding, r: Reading, e: Event) {
    Breach(b, r.open, e) || (ProofIn(b, r.open, e).Some? && Refused(r.proofs, ProofIn(b, r.open, e).value))
  }

  function Hear(b: SessionBinding, r: Reading, e: Event): Reading {
    Reading(r.open || OpensChannel(b, e), r.failed || Fault(b, r, e),
            if ProofIn(b, r.open, e).Some? then r.proofs + [ProofIn(b, r.open, e).value] else r.proofs)
  }

  function Read(b: SessionBinding, h: seq<Event>): Reading {
    if h == [] then SILENCE else Hear(b, Read(b, h[..|h| - 1]), h[|h| - 1])
  }

  lemma ReadStep(b: SessionBinding, h: seq<Event>, n: nat)
    requires n < |h|
    ensures Read(b, h[..n + 1]) == Hear(b, Read(b, h[..n]), h[n])
  {
    assert h[..n + 1][..n] == h[..n];
  }

  // ---- the peer's authority is what they say -------------------------------------------------------

  /** The authority that the events call for. */
  ghost predicate Tells(r: Reading, a: Authority) {
    if r.failed then a.protocolFailed && !a.armed
    else
      && !a.protocolFailed && Highest(r.proofs, a.generation) && AgreesAtHighest(r.proofs, a)
      && (r.proofs == [] ==> a == INITIAL)
  }

  ghost predicate Matches(p: Peer, r: Reading) {
    && p.channelSeen == r.open && Tells(r, p.authority)
    && forall i :: 0 <= i < |r.proofs| ==> r.proofs[i].generation >= 1
  }

  lemma ParsedIsNumbered(data: string, b: SessionBinding)
    requires Codec.ParsePayload(data, b).Ok?
    ensures Codec.ParsePayload(data, b).value.generation >= 1
  {
  }

  /** One proof more: the receiver follows the highest generation, or fails exactly on a refusal. */
  lemma ReceiveTells(r: Reading, a: Authority, p: AuthorityProof)
    requires Tells(r, a) && p.generation >= 1 && forall i :: 0 <= i < |r.proofs| ==> r.proofs[i].generation >= 1
    ensures Tells(Reading(true, r.failed || Refused(r.proofs, p), r.proofs + [p]), Receive(a, p))
  {
    var more := r.proofs + [p];
    assert more[|r.proofs|] == p;
    if !r.failed && r.proofs != [] {
      var i :| 0 <= i < |r.proofs| && r.proofs[i].generation == a.generation;
      assert more[i].generation == a.generation;
      assert a.armed <==> r.proofs[i].action.Arm?;
    }
  }

  /** An event with no fault and no proof leaves the authority alone; a breach fails it. */
  lemma ChannelStep(p: Peer, r: Reading, e: Event)
    requires Matches(p, r) && !DrivesGate(e)
    ensures Step(p, e).channelSeen == (r.open || OpensChannel(p.binding, e))
    ensures Step(p, e).authority ==
      if Breach(p.binding, r.open, e) then p.authority.Fail()
      else if ProofIn(p.binding, r.open, e).Some? then Receive(p.authority, ProofIn(p.binding, r.open, e).value)
      else p.authority
  {
  }

  lemma TaskStep(p: Peer, e: Event)
    requires DrivesGate(e)
    ensures Step(p, e).channelSeen == p.channelSeen && Step(p, e).authority == p.authority
  {
    EvolvesOnGateEvent(p, e);
  }

  /** The audio task's own events say nothing about the authority. */
  lemma TaskIsSilent(b: SessionBinding, r: Reading, e: Event)
    requires DrivesGate(e)
    ensures Hear(b, r, e) == r
  {
  }

  lemma MatchesStep(p: Peer, r: Reading, e: Event)
    requires Matches(p, r)
    ensures Matches(Step(p, e), Hear(p.binding, r, e))
  {
    if DrivesGate(e) {
      TaskStep(p, e);
      TaskIsSilent(p.binding, r, e);
    } else {
      ChannelStep(p, r, e);
      var proof := ProofIn(p.binding, r.open, e);
      if proof.Some? {
        ParsedIsNumbered(e.data, p.binding);
        ReceiveTells(r, p.authority, proof.value);
      }
    }
  }

  lemma {:induction false} PeerMatches(b: SessionBinding, h: seq<Event>, n: nat)
    requires n <= |h|
    ensures Matches(Run(b, h[..n]), Read(b, h[..n])) && Run(b, h[..n]).binding == b
  {
    EveryStateIsSound(b, h, n);
    if n > 0 {
      PeerMatches(b, h, n - 1);
      EveryStateIsSound(b, h, n - 1);
      MatchesStep(Run(b, h[..n - 1]), Read(b, h[..n - 1]), h[n - 1]);
      RunStep(b, h, n - 1);
      ReadStep(b, h, n - 1);
    }
  }

  // ---- event by event -------------------------------------------------------------------------------

  /** The proof that event `m` carried over the open channel. */
  function ProofAt(b: SessionBinding, h: seq<Event>, m: nat): Option<AuthorityProof>
    requires m < |h|
  {
    ProofIn(b, Read(b, h[..m]).open, h[m])
  }

  /** Event `m` broke the protocol: a breach of the channel, or a refused proof. */
  predicate FaultAt(b: SessionBinding, h: seq<Event>, m: nat)
    requires m < |h|
  {
    Fault(b, Read(b, h[..m]), h[m])
  }

  /** The channel is open from the event that opened it on. */
  lemma {:induction false} OpenIff(b: SessionBinding, h: seq<Event>, n: nat)
    requires n <= |h|
    ensures Read(b, h[..n]).open <==> exists m :: 0 <= m < n && OpensChannel(b, h[m])
  {
    if n > 0 {
      OpenIff(b, h, n - 1);
      ReadStep(b, h, n - 1);
    }
  }

  lemma {:induction false} FailedReadingIff(b: SessionBinding, h: seq<Event>, n: nat)
    requires n <= |h|
    ensures Read(b, h[..n]).failed <==> exists m | 0 <= m < n :: FaultAt(b, h, m)
  {
    if n > 0 {
      FailedReadingIff(b, h, n - 1);
      ReadStep(b, h, n - 1);
      assert Read(b, h[..n]).failed <==> Read(b, h[..n - 1]).failed || FaultAt(b, h, n - 1);
    }
  }

  /** One event adds its proof to those read, if it carries one. */
  lemma {:induction false} ProofsGrow(b: SessionBinding, h: seq<Event>, n: nat)
    requires n < |h|
    ensures Read(b, h[..n + 1]).proofs ==
      Read(b, h[..n]).proofs + if ProofAt(b, h, n).Some? then [ProofAt(b, h, n).value] else []
  {
    ReadStep(b, h, n);
  }

  /** The proofs among the first `n` events, one by one. */
  ghost function ProofsAt(b: SessionBinding, h: seq<Event>): (s: seq<Option<AuthorityProof>>)
    ensures |s| == |h|
  {
    seq(|h|, m requires 0 <= m < |h| => ProofAt(b, h, m))
  }

  function Present(s: seq<Option<AuthorityProof>>): seq<AuthorityProof> {
    if s == [] then [] else Present(s[..|s| - 1]) + if s[|s| - 1].Some? then [s[|s| - 1].value] else []
  }

  lemma {:induction false} PresentIff(s: seq<Option<AuthorityProof>>, p: AuthorityProof)
    ensures p in Present(s) <==> Some(p) in s
  {
    if s != [] {
      PresentIff(s[..|s| - 1], p);
      assert s == s[..|s| - 1] + [s[|s| - 1]];
    }
  }

  lemma {:induction false} ReadIsPresent(b: SessionBinding, h: seq<Event>, n: nat)
    requires n <= |h|
    ensures Read(b, h[..n]).proofs == Present(ProofsAt(b, h)[..n])
  {
    if n > 0 {
      ReadIsPresent(b, h, n - 1);
      ProofsGrow(b, h, n - 1);
      assert ProofsAt(b, h)[..n][..n - 1] == ProofsAt(b, h)[..n - 1];
    }
  }

  lemma {:induction false} ProofIsRead(b: SessionBinding, h: seq<Event>, m: nat, n: nat)
    requires m < n <= |h| && ProofAt(b, h, m).Some?
    ensures ProofAt(b, h, m).value in Read(b, h[..n]).proofs
  {
    ReadIsPresent(b, h, n);
    PresentIff(ProofsAt(b, h)[..n], ProofAt(b, h, m).value);
    assert ProofsAt(b, h)[..n][m] == ProofAt(b, h, m);
  }

  lemma {:induction false} ReadWasProof(b: SessionBinding, h: seq<Event>, n: nat, p: AuthorityProof) returns (m: nat)
    requires n <= |h| && p in Read(b, h[..n]).proofs
    ensures m < n && ProofAt(b, h, m) == Some(p)
  {
    ReadIsPresent(b, h, n);
    PresentIff(ProofsAt(b, h)[..n], p);
    m :| 0 <= m < n && ProofsAt(b, h)[..n][m] == Some(p);
  }

  /**
   * A peer's authority protocol has failed exactly when some event of its history broke it: a wrong, second or closed
   * channel, a message that is no proof for this binding, or a proof that contradicts the highest generation so far.
   */
  lemma FailedIffFault(b: SessionBinding, h: seq<Event>, n: nat)
    requires n <= |h|
    ensures Run(b, h[..n]).authority.protocolFailed <==> exists m | 0 <= m < n :: FaultAt(b, h, m)
  {
    PeerMatches(b, h, n);
    FailedReadingIff(b, h, n);
  }

  /** No event before `n` broke the protocol, and none carried anything above generation `g`, or at it but its arm. */
  ghost predicate ArmStands(b: SessionBinding, h: seq<Event>, n: nat, g: nat)
    requires n <= |h|
  {
    forall m | 0 <= m < n ::
      && !FaultAt(b, h, m)
      && (ProofAt(b, h, m).Some? ==>
            ProofAt(b, h, m).value.generation < g || ProofAt(b, h, m).value == AuthorityProof(Arm, g))
  }

  ghost predicate ArmArrived(b: SessionBinding, h: seq<Event>, n: nat, g: nat)
    requires n <= |h|
  {
    exists m | 0 <= m < n :: ProofAt(b, h, m) == Some(AuthorityProof(Arm, g))
  }

  lemma {:induction false} ArmedStands(b: SessionBinding, h: seq<Event>, n: nat, g: nat)
    requires n <= |h| && Run(b, h[..n]).authority == Authority(g, true, false)
    ensures ArmStands(b, h, n, g) && ArmArrived(b, h, n, g)
  {
    var r := Read(b, h[..n]);
    PeerMatches(b, h, n);
    FailedReadingIff(b, h, n);
    forall m | 0 <= m < n && ProofAt(b, h, m).Some?
      ensures ProofAt(b, h, m).value.generation < g || ProofAt(b, h, m).value == AuthorityProof(Arm, g)
    {
      ProofIsRead(b, h, m, n);
      var i :| 0 <= i < |r.proofs| && r.proofs[i] == ProofAt(b, h, m).value;
    }
    var i :| 0 <= i < |r.proofs| && r.proofs[i].generation == g;
    var m := ReadWasProof(b, h, n, r.proofs[i]);
  }

  lemma {:induction false} StandingArms(b: SessionBinding, h: seq<Event>, n: nat, g: nat)
    requires n <= |h| && ArmStands(b, h, n, g) && ArmArrived(b, h, n, g)
    ensures Run(b, h[..n]).authority == Authority(g, true, false)
  {
    var r := Read(b, h[..n]);
    PeerMatches(b, h, n);
    FailedReadingIff(b, h, n);
    var m :| 0 <= m < n && ProofAt(b, h, m) == Some(AuthorityProof(Arm, g));
    ProofIsRead(b, h, m, n);
    forall i | 0 <= i < |r.proofs|
      ensures r.proofs[i].generation < g || r.proofs[i] == AuthorityProof(Arm, g)
    {
      var k := ReadWasProof(b, h, n, r.proofs[i]);
    }
  }

  /**
   * A peer is armed in generation `g` exactly when an arm of that generation came over its open channel, nothing that
   * came carried a higher generation or a disarm of the same one, and nothing broke the protocol.
   */
  lemma {:induction false} ArmedIff(b: SessionBinding, h: seq<Event>, n: nat, g: nat)
    requires n <= |h|
    ensures Run(b, h[..n]).authority == Authority(g, true, false) <==> ArmStands(b, h, n, g) && ArmArrived(b, h, n, g)
  {
    if Run(b, h[..n]).authority == Authority(g, true, false) {
      ArmedStands(b, h, n, g);
    }
    if ArmStands(b, h, n, g) && ArmArrived(b, h, n, g) {
      StandingArms(b, h, n, g);
    }
  }

  // ---- the receiver over the channel ----------------------------------------------------------------

  /** No event breached the channel. */
  ghost predicate Unbreached(b: SessionBinding, h: seq<Event>, n: nat)
    requires n <= |h|
  {
    forall m | 0 <= m < n :: !Breach(b, Read(b, h[..m]).open, h[m])
  }

  lemma DeliverSnoc(delivered: seq<AuthorityProof>, p: AuthorityProof)
    ensures Deliver(delivered + [p]) == Receive(Deliver(delivered), p)
  {
    assert (delivered + [p])[..|delivered|] == delivered;
  }

  lemma DeliveredStep(p: Peer, r: Reading, e: Event)
    requires Matches(p, r) && p.authority == Deliver(r.proofs) && !Breach(p.binding, r.open, e)
    ensures Step(p, e).authority == Deliver(Hear(p.binding, r, e).proofs)
  {
    if DrivesGate(e) {
      TaskStep(p, e);
      TaskIsSilent(p.binding, r, e);
    } else {
      ChannelStep(p, r, e);
      if ProofIn(p.binding, r.open, e).Some? {
        DeliverSnoc(r.proofs, ProofIn(p.binding, r.open, e).value);
      }
    }
  }

  /**
   * While the channel is unbreached the peer is the receiver of the proofs that came over it, so all that is proved of
   * lost, repeated and reordered messages holds of it.
   */
  lemma {:induction false} PeerIsReceiver(b: SessionBinding, h: seq<Event>, n: nat)
    requires n <= |h| && Unbreached(b, h, n)
    ensures Run(b, h[..n]).authority == Deliver(Read(b, h[..n]).proofs)
  {
    if n > 0 {
      PeerIsReceiver(b, h, n - 1);
      PeerMatches(b, h, n - 1);
      DeliveredStep(Run(b, h[..n - 1]), Read(b, h[..n - 1]), h[n - 1]);
      RunStep(b, h, n - 1);
      ReadStep(b, h, n - 1);
    }
  }
}
