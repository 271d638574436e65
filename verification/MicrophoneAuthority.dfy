/** The generation-numbered arm/disarm authority a Companion sends over its exact-peer DTLS channel. */
module MicrophoneAuthority {
  import opened Prelude

  datatype AuthorityAction = Arm | Disarm

  datatype AuthorityProof = AuthorityProof(action: AuthorityAction, generation: nat)

  datatype Violation = PermanentlyFailed | ConflictingReplay

  datatype Authority = Authority(generation: nat, armed: bool, protocolFailed: bool) {
    function Fail(): Authority { this.(armed := false, protocolFailed := true) }
  }

  const INITIAL := Authority(0, false, false)

  datatype AuthorityStep = AuthorityStep(state: Authority, outcome: Result<(), Violation>)

  function Apply(a: Authority, proof: AuthorityProof): AuthorityStep {
    if a.protocolFailed then AuthorityStep(a.(armed := false), Err(PermanentlyFailed))
    else if proof.generation < a.generation then AuthorityStep(a, Ok(()))
    else if proof.generation == a.generation then
      if a.armed == proof.action.Arm? then AuthorityStep(a, Ok(()))
      else AuthorityStep(a.Fail(), Err(ConflictingReplay))
    else AuthorityStep(Authority(proof.generation, proof.action.Arm?, false), Ok(()))
  }

  /** The receiving side, updated in place by the data-channel callback. */
  class RemoteMicrophoneAuthority {
    var generation: nat
    var armed: bool
    var protocolFailed: bool

    function View(): Authority
      reads this
    {
      Authority(generation, armed, protocolFailed)
    }

    constructor ()
      ensures View() == INITIAL
    {
      generation, armed, protocolFailed := 0, false, false;
    }

    method ApplyProof(proof: AuthorityProof) returns (r: Result<(), Violation>)
      modifies this
      ensures AuthorityStep(View(), r) == Apply(old(View()), proof)
    {
      if protocolFailed {
        armed := false;
        return Err(PermanentlyFailed);
      }
      if proof.generation < generation {
        return Ok(());
      }
      var arms := proof.action == Arm;
      if proof.generation == generation {
        if armed == arms {
          return Ok(());
        }
        FailProtocol();
        return Err(ConflictingReplay);
      }
      generation := proof.generation;
      armed := arms;
      r := Ok(());
    }

    method FailProtocol()
      modifies this
      ensures View() == old(View()).Fail()
    {
      armed := false;
      protocolFailed := true;
    }
  }

  /** The generation of send `n`, counted from 0: the 64-bit counter wraps, the number sent saturates. */
  function GenerationOf(n: nat): u64 {
    SaturatingAdd(n % (U64_MAX + 1), 1)
  }

  /** The sending side: every send takes the next generation. */
  class AuthoritySender {
    var counter: u64
    ghost var sent: seq<AuthorityAction>

    ghost predicate Valid()
      reads this
    {
      counter == |sent| % (U64_MAX + 1)
    }

    constructor ()
      ensures Valid() && sent == []
    {
      counter, sent := 0, [];
    }

    method Mint(action: AuthorityAction) returns (proof: AuthorityProof)
      requires Valid()
      modifies this
      ensures Valid() && sent == old(sent) + [action]
      ensures proof == AuthorityProof(action, GenerationOf(|old(sent)|))
      ensures |sent| <= U64_MAX ==> Minted(sent, proof) && proof.generation == |sent|
    {
      proof := AuthorityProof(action, SaturatingAdd(counter, 1));
      counter := WrappingAdd(counter, 1);
      sent := sent + [action];
    }
  }

  /** One generation belongs to one send exactly as long as no more than 2^64 - 1 messages are sent. */
  lemma GenerationsAreOneToOneIff(sends: nat)
    ensures (forall i, j | 0 <= i < j < sends :: GenerationOf(i) != GenerationOf(j)) <==> sends <= U64_MAX
  {
    if sends > U64_MAX {
      assert GenerationOf(U64_MAX - 1) == GenerationOf(U64_MAX);
    }
  }

  /** `proof` is the message the sender minted for its generation. */
  predicate Minted(sent: seq<AuthorityAction>, proof: AuthorityProof) {
    1 <= proof.generation <= |sent| && proof.action == sent[proof.generation - 1]
  }

  /** The message callback: a refused proof fails the protocol for good. */
  function Receive(a: Authority, proof: AuthorityProof): Authority {
    var step := Apply(a, proof);
    if step.outcome.Err? then step.state.Fail() else step.state
  }

  function Deliver(delivered: seq<AuthorityProof>): Authority {
    if delivered == [] then INITIAL
    else Receive(Deliver(delivered[..|delivered| - 1]), delivered[|delivered| - 1])
  }

  /** `g` is the highest generation delivered, 0 if nothing was. */
  ghost predicate Highest(delivered: seq<AuthorityProof>, g: nat) {
    && (forall i :: 0 <= i < |delivered| ==> delivered[i].generation <= g)
    && (if delivered == [] then g == 0 else exists i :: 0 <= i < |delivered| && delivered[i].generation == g)
  }

  /**
   * Whatever is lost, duplicated or reordered, the receiver ends at the highest delivered generation with that
   * message's action and sees no violation.
   */
  lemma {:induction false} DeliveryConverges(sent: seq<AuthorityAction>, delivered: seq<AuthorityProof>)
    requires forall i :: 0 <= i < |delivered| ==> Minted(sent, delivered[i])
    ensures var a := Deliver(delivered);
      && !a.protocolFailed && Highest(delivered, a.generation)
      && (a.armed <==> 1 <= a.generation <= |sent| && sent[a.generation - 1].Arm?)
  {
    if delivered != [] {
      var n := |delivered| - 1;
      DeliveryConverges(sent, delivered[..n]);
      var a, last := Deliver(delivered[..n]), delivered[n];
      assert Minted(sent, last);
      if n > 0 && last.generation <= a.generation {
        var i :| 0 <= i < n && delivered[..n][i].generation == a.generation;
        assert delivered[i].generation == a.generation;
      }
    }
  }

  /** Two deliveries of the same messages end alike, however often and in whatever order each arrived. */
  lemma DeliveryOrderIsIrrelevant(sent: seq<AuthorityAction>, d1: seq<AuthorityProof>, d2: seq<AuthorityProof>)
    requires forall i :: 0 <= i < |d1| ==> Minted(sent, d1[i])
    requires forall proof :: proof in d1 <==> proof in d2
    ensures Deliver(d1) == Deliver(d2)
  {
    forall i | 0 <= i < |d2|
      ensures Minted(sent, d2[i])
    {
      assert d2[i] in d1;
    }
    DeliveryConverges(sent, d1);
    DeliveryConverges(sent, d2);
    SameHighest(d1, d2, Deliver(d1).generation, Deliver(d2).generation);
  }

  lemma SameHighest(d1: seq<AuthorityProof>, d2: seq<AuthorityProof>, g1: nat, g2: nat)
    requires forall proof :: proof in d1 <==> proof in d2
    requires Highest(d1, g1) && Highest(d2, g2)
    ensures g1 == g2 && (d1 == [] <==> d2 == [])
  {
    if d1 != [] {
      assert d1[0] in d2;
      var i :| 0 <= i < |d1| && d1[i].generation == g1;
      assert d1[i] in d2;
    }
    if d2 != [] {
      assert d2[0] in d1;
      var j :| 0 <= j < |d2| && d2[j].generation == g2;
      assert d2[j] in d1;
    }
  }

  /** Message `j` repeats the highest generation so far with the other action. */
  ghost predicate Contradicts(delivered: seq<AuthorityProof>, i: int, j: int) {
    && 0 <= i < j < |delivered|
    && delivered[i].generation == delivered[j].generation && delivered[i].action != delivered[j].action
    && forall l :: 0 <= l < j ==> delivered[l].generation <= delivered[j].generation
  }

  ghost predicate AgreesAtHighest(delivered: seq<AuthorityProof>, a: Authority) {
    forall i | 0 <= i < |delivered| && delivered[i].generation == a.generation :: a.armed <==> delivered[i].action.Arm?
  }

  /** For arbitrary, even forged, deliveries: the protocol fails exactly on a contradiction at the highest generation. */
  lemma {:induction false} FailsExactlyOnContradiction(delivered: seq<AuthorityProof>)
    requires forall i :: 0 <= i < |delivered| ==> delivered[i].generation >= 1
    ensures Deliver(delivered).protocolFailed <==> exists i, j :: Contradicts(delivered, i, j)
    ensures !Deliver(delivered).protocolFailed ==> Highest(delivered, Deliver(delivered).generation)
    ensures !Deliver(delivered).protocolFailed ==> AgreesAtHighest(delivered, Deliver(delivered))
    ensures delivered == [] ==> Deliver(delivered) == INITIAL
  {
    if delivered == [] {
      return;
    }
    var n := |delivered| - 1;
    var before := delivered[..n];
    FailsExactlyOnContradiction(before);
    var a, last := Deliver(before), delivered[n];
    forall i, j | 0 <= i < j < n
      ensures Contradicts(before, i, j) <==> Contradicts(delivered, i, j)
    {
    }
    if a.protocolFailed {
      var i, j :| Contradicts(before, i, j);
      assert Contradicts(delivered, i, j);
    } else {
      ContradictionByLast(delivered, a);
    }
  }

  lemma ContradictionByLast(delivered: seq<AuthorityProof>, a: Authority)
    requires delivered != []
    requires var before := delivered[..|delivered| - 1];
      && a == Deliver(before) && !a.protocolFailed && Highest(before, a.generation)
      && AgreesAtHighest(before, a)
      && (before == [] ==> a == INITIAL)
      && !(exists i, j :: Contradicts(before, i, j))
    requires forall i :: 0 <= i < |delivered| ==> delivered[i].generation >= 1
    ensures Deliver(delivered).protocolFailed <==> exists i, j :: Contradicts(delivered, i, j)
    ensures !Deliver(delivered).protocolFailed ==>
      Highest(delivered, Deliver(delivered).generation) && AgreesAtHighest(delivered, Deliver(delivered))
  {
    var n := |delivered| - 1;
    var before, last := delivered[..n], delivered[n];
    if n > 0 {
      var w :| 0 <= w < n && before[w].generation == a.generation;
      assert delivered[w].generation == a.generation;
      if Deliver(delivered).protocolFailed {
        assert Contradicts(delivered, w, n);
      }
    }
    if exists i, j :: Contradicts(delivered, i, j) {
      var i, j :| Contradicts(delivered, i, j);
      if j < n {
        assert Contradicts(before, i, j);
      } else {
        assert before[i].generation == last.generation;
      }
    }
  }

  /** Once failed, no later message arms it, whatever it says. */
  lemma {:induction false} FailureIsForever(delivered: seq<AuthorityProof>, i: nat)
    requires i <= |delivered| && Deliver(delivered[..i]).protocolFailed
    ensures Deliver(delivered).protocolFailed && (i < |delivered| ==> !Deliver(delivered).armed)
    decreases |delivered|
  {
    if i < |delivered| {
      var n := |delivered| - 1;
      assert delivered[..n][..i] == delivered[..i];
      FailureIsForever(delivered[..n], i);
    } else {
      assert delivered[..i] == delivered;
    }
  }
}
