/** The text codec of the arm/disarm message: eleven fields joined by bars. A `char` stands for one byte. */
module AuthorityCodec {
  import opened Prelude
  import opened SessionBindings
  import opened MicrophoneAuthority

  const CHANNEL := "aokie-microphone-authority-v1"
  const MAX_PAYLOAD_BYTES := 2048

  function ActionLabel(action: AuthorityAction): string {
    match action
    case Arm => "arm"
    case Disarm => "disarm"
  }

  function ModeLabel(mode: MediaMode): string {
    match mode
    case Monitor => "monitor"
    case PreparedConsult => "prepared_consult"
    case PreparedTalk => "prepared_talk"
    case Consult => "consult"
    case Talk => "talk"
  }

  // ---- numerals ---------------------------------------------------------------

  function Digit(d: nat): char
    requires d < 10
  {
    '0' + d as char
  }

  function Decimal(n: nat): string {
    if n < 10 then [Digit(n)] else Decimal(n / 10) + [Digit(n % 10)]
  }

  predicate IsDigits(s: string) {
    forall i :: 0 <= i < |s| ==> '0' <= s[i] <= '9'
  }

  function DigitsValue(s: string): nat
    requires IsDigits(s)
  {
    if s == [] then 0 else DigitsValue(s[..|s| - 1]) * 10 + (s[|s| - 1] - '0') as int
  }

  /** `str::parse::<u64>`: an optional plus sign, then digits whose value fits; leading zeros are accepted. */
  function ParseU64(s: string): Option<u64> {
    var digits := if s != [] && s[0] == '+' then s[1..] else s;
    if digits == [] || !IsDigits(digits) || DigitsValue(digits) > U64_MAX then None else Some(DigitsValue(digits))
  }

  function Pow10(k: nat): nat {
    if k == 0 then 1 else 10 * Pow10(k - 1)
  }

  lemma {:induction false} DecimalReadsBack(n: nat)
    ensures Decimal(n) != [] && IsDigits(Decimal(n)) && DigitsValue(Decimal(n)) == n
  {
    if n >= 10 {
      DecimalReadsBack(n / 10);
      assert Decimal(n)[..|Decimal(n)| - 1] == Decimal(n / 10);
    } else {
      assert Decimal(n)[..0] == [];
    }
  }

  lemma {:induction false} DecimalLength(n: nat, k: nat)
    requires 1 <= k && n < Pow10(k)
    ensures |Decimal(n)| <= k
  {
    if n >= 10 {
      DecimalLength(n / 10, k - 1);
    }
  }

  lemma ParseU64OfDecimal(n: u64)
    ensures ParseU64(Decimal(n)) == Some(n) && |Decimal(n)| <= 20 && '|' !in Decimal(n)
  {
    DecimalReadsBack(n);
    assert Pow10(10) == 10_000_000_000;
    assert Pow10(15) == 1_000_000_000_000_000;
    assert Pow10(20) == 100_000_000_000_000_000_000;
    DecimalLength(n, 20);
  }

  // ---- fields -------------------------------------------------------------------

  /** Where the first bar is, or the length when there is none. */
  function FirstBar(s: string): (i: nat)
    ensures i <= |s| && '|' !in s[..i] && (i < |s| ==> s[i] == '|')
  {
    if s == [] || s[0] == '|' then 0 else 1 + FirstBar(s[1..])
  }

  /** `splitn(n, '|')`: at most `n` pieces, the last one keeping any further bars. */
  function SplitN(s: string, n: nat): (fields: seq<string>)
    requires n >= 1
    ensures 1 <= |fields| <= n
  {
    var i := FirstBar(s);
    if n == 1 || i == |s| then [s] else [s[..i]] + SplitN(s[i + 1..], n - 1)
  }

  function Join(fields: seq<string>): string
    requires fields != []
  {
    if |fields| == 1 then fields[0] else fields[0] + "|" + Join(fields[1..])
  }

  lemma {:induction false} FirstBarIs(s: string, i: nat)
    requires i <= |s| && '|' !in s[..i] && (i < |s| ==> s[i] == '|')
    ensures FirstBar(s) == i
  {
    if i > 0 {
      assert s[0] == s[..i][0] && s[1..][..i - 1] == s[..i][1..];
      FirstBarIs(s[1..], i - 1);
    }
  }

  lemma JoinUnfolds(fields: seq<string>)
    requires |fields| > 1
    ensures var s, i := Join(fields), |fields[0]|;
      i < |s| && s[..i] == fields[0] && s[i] == '|' && s[i + 1..] == Join(fields[1..])
  {
  }

  lemma SplitLast(s: string, n: nat)
    requires n >= 1 && '|' !in s
    ensures SplitN(s, n) == [s]
  {
    assert s[..|s|] == s;
    FirstBarIs(s, |s|);
  }

  lemma SplitStep(s: string, i: nat, n: nat)
    requires n > 1 && i < |s| && s[i] == '|' && '|' !in s[..i]
    ensures SplitN(s, n) == [s[..i]] + SplitN(s[i + 1..], n - 1)
  {
    FirstBarIs(s, i);
  }

  lemma {:induction false} SplitOfCons(fields: seq<string>, n: nat)
    requires 1 < |fields| <= n && '|' !in fields[0] && SplitN(Join(fields[1..]), n - 1) == fields[1..]
    ensures SplitN(Join(fields), n) == fields
  {
    JoinUnfolds(fields);
    SplitStep(Join(fields), |fields[0]|, n);
    assert fields == [fields[0]] + fields[1..];
  }

  predicate BarFree(fields: seq<string>) {
    forall k :: 0 <= k < |fields| ==> '|' !in fields[k]
  }

  lemma BarFreeSplits(fields: seq<string>)
    requires BarFree(fields) && fields != []
    ensures '|' !in fields[0] && BarFree(fields[1..])
  {
  }

  lemma {:induction false} SplitOfJoin(fields: seq<string>, n: nat)
    requires 1 <= |fields| <= n && BarFree(fields)
    ensures SplitN(Join(fields), n) == fields
  {
    BarFreeSplits(fields);
    if |fields| == 1 {
      SplitLast(fields[0], n);
    } else {
      SplitOfJoin(fields[1..], n - 1);
      SplitOfCons(fields, n);
    }
  }

  lemma {:induction false} JoinOfSplit(s: string, n: nat)
    requires n >= 1
    ensures Join(SplitN(s, n)) == s
  {
    var i := FirstBar(s);
    if n > 1 && i < |s| {
      JoinOfSplit(s[i + 1..], n - 1);
      assert SplitN(s, n)[1..] == SplitN(s[i + 1..], n - 1);
      assert s == s[..i] + "|" + s[i + 1..];
    }
  }

  // ---- the message ----------------------------------------------------------------

  function LeaseField(b: SessionBinding): string {
    if b.leaseId.Some? then b.leaseId.value else ""
  }

  function Fields(b: SessionBinding, action: AuthorityAction, generation: u64): seq<string> {
    [CHANNEL, ActionLabel(action), Decimal(generation), b.rtcSessionId, b.callId, Decimal(b.callEpoch),
     Decimal(b.ownerEpoch), b.deviceId, ModeLabel(b.mode), LeaseField(b), Decimal(b.fence)]
  }

  function Payload(b: SessionBinding, action: AuthorityAction, generation: u64): string {
    Join(Fields(b, action, generation))
  }

  predicate Continuation(c: char) {
    0x80 <= c as int <= 0xBF
  }

  /** Well-formed UTF-8 over byte values, as table 3-7 of the Unicode standard lists it. */
  predicate ValidUtf8(d: string) {
    if d == [] then true else
    var b := d[0] as int;
    if b < 0x80 then ValidUtf8(d[1..])
    else if 0xC2 <= b <= 0xDF then |d| >= 2 && Continuation(d[1]) && ValidUtf8(d[2..])
    else if 0xE0 <= b <= 0xEF then
      && |d| >= 3 && Continuation(d[1]) && Continuation(d[2])
      && (b == 0xE0 ==> d[1] as int >= 0xA0) && (b == 0xED ==> d[1] as int <= 0x9F)
      && ValidUtf8(d[3..])
    else if 0xF0 <= b <= 0xF4 then
      && |d| >= 4 && Continuation(d[1]) && Continuation(d[2]) && Continuation(d[3])
      && (b == 0xF0 ==> d[1] as int >= 0x90) && (b == 0xF4 ==> d[1] as int <= 0x8F)
      && ValidUtf8(d[4..])
    else false
  }

  datatype ParseError =
    | TooLarge
    | NotUtf8
    | MissingField(position: nat)
    | InvalidNumber(position: nat)
    | WrongBinding
    | UnknownAction
    | InvalidGeneration

  /** The fields an accepted message must carry for `b`, besides the action and the generation. */
  predicate FieldsMatch(f: seq<string>, b: SessionBinding)
    requires |f| == 11
  {
    && f[0] == CHANNEL && f[3] == b.rtcSessionId && f[4] == b.callId && ParseU64(f[5]) == Some(b.callEpoch)
    && ParseU64(f[6]) == Some(b.ownerEpoch) && f[7] == b.deviceId && f[8] == ModeLabel(b.mode)
    && f[9] == LeaseField(b) && ParseU64(f[10]) == Some(b.fence)
  }

  function DecodeFields(f: seq<string>, b: SessionBinding): Result<AuthorityProof, ParseError> {
    if |f| < 5 then Err(MissingField(|f|))
    else if |f| < 6 || ParseU64(f[5]).None? then Err(InvalidNumber(5))
    else if |f| < 7 || ParseU64(f[6]).None? then Err(InvalidNumber(6))
    else if |f| < 10 then Err(MissingField(|f|))
    else if |f| < 11 || ParseU64(f[10]).None? then Err(InvalidNumber(10))
    else if |f| != 11 || !FieldsMatch(f, b) then Err(WrongBinding)
    else if f[1] != "arm" && f[1] != "disarm" then Err(UnknownAction)
    else
      var generation := ParseU64(f[2]);
      if generation.None? || generation.value == 0 then Err(InvalidGeneration)
      else Ok(AuthorityProof(if f[1] == "arm" then Arm else Disarm, generation.value))
  }

  function ParsePayload(data: string, b: SessionBinding): Result<AuthorityProof, ParseError> {
    if |data| > MAX_PAYLOAD_BYTES then Err(TooLarge)
    else if !ValidUtf8(data) then Err(NotUtf8)
    else DecodeFields(SplitN(data, 12), b)
  }

  // ---- round trip -------------------------------------------------------------------

  predicate Plain(s: string) {
    forall i :: 0 <= i < |s| ==> s[i] as int < 0x80
  }

  lemma {:induction false} PlainIsUtf8(s: string)
    requires Plain(s)
    ensures ValidUtf8(s)
  {
    if s != [] {
      PlainIsUtf8(s[1..]);
    }
  }

  /** A field that survives joining, splitting and UTF-8 decoding. */
  predicate Clean(f: string) {
    Plain(f) && '|' !in f
  }

  lemma {:induction false} JoinIsPlain(fields: seq<string>)
    requires fields != []
    requires forall k :: 0 <= k < |fields| ==> Plain(fields[k])
    ensures Plain(Join(fields))
  {
    if |fields| > 1 {
      JoinIsPlain(fields[1..]);
    }
  }

  function TotalLength(fields: seq<string>): nat {
    if fields == [] then 0 else |fields[0]| + TotalLength(fields[1..])
  }

  lemma {:induction false} JoinLength(fields: seq<string>)
    requires fields != []
    ensures |Join(fields)| == TotalLength(fields) + |fields| - 1
  {
    if |fields| > 1 {
      JoinLength(fields[1..]);
    }
  }

  lemma {:induction false} TotalLengthBound(fields: seq<string>, names: nat)
    requires names <= |fields|
    requires forall k :: 0 <= k < |fields| ==> |fields[k]| <= if k < names then 200 else 30
    ensures TotalLength(fields) <= 200 * names + 30 * (|fields| - names)
  {
    if fields != [] {
      TotalLengthBound(fields[1..], if names == 0 then 0 else names - 1);
    }
  }

  lemma TotalLengthSplits(a: seq<string>, b: seq<string>)
    ensures TotalLength(a + b) == TotalLength(a) + TotalLength(b)
  {
    if a == [] {
      assert a + b == b;
    } else {
      TotalLengthSplits(a[1..], b);
      assert (a + b)[1..] == a[1..] + b;
    }
  }

  lemma NumeralIsClean(n: u64)
    ensures Clean(Decimal(n)) && |Decimal(n)| <= 20 && ParseU64(Decimal(n)) == Some(n)
  {
    DecimalReadsBack(n);
    ParseU64OfDecimal(n);
  }

  lemma ChannelIsClean()
    ensures Clean(CHANNEL) && |CHANNEL| <= 30
  {
  }

  lemma ActionIsClean(action: AuthorityAction)
    ensures Clean(ActionLabel(action)) && |ActionLabel(action)| <= 30
  {
  }

  lemma ModeIsClean(mode: MediaMode)
    ensures Clean(ModeLabel(mode)) && |ModeLabel(mode)| <= 30
  {
  }

  lemma LabelsAreClean(action: AuthorityAction, mode: MediaMode)
    ensures Clean(CHANNEL) && |CHANNEL| <= 30
    ensures Clean(ActionLabel(action)) && |ActionLabel(action)| <= 30
    ensures Clean(ModeLabel(mode)) && |ModeLabel(mode)| <= 30
  {
    ChannelIsClean();
    ActionIsClean(action);
    ModeIsClean(mode);
  }

  lemma IdIsClean(id: string)
    requires SafeId(id)
    ensures Clean(id) && |id| <= 200
  {
  }

  /** Fields that may be joined: three short ones and eight of at most 200 bytes. */
  predicate Joinable(f: seq<string>) {
    |f| == 11 && forall k :: 0 <= k < 11 ==> Clean(f[k]) && |f[k]| <= if k < 3 then 30 else 200
  }

  predicate Within(f: seq<string>, limit: nat) {
    forall k :: 0 <= k < |f| ==> Clean(f[k]) && |f[k]| <= limit
  }

  lemma TwoPartsAreJoinable(short: seq<string>, long: seq<string>)
    requires |short| == 3 && Within(short, 30) && |long| == 8 && Within(long, 200)
    ensures Joinable(short + long)
  {
  }

  lemma ShortFieldsFit(action: AuthorityAction, generation: u64)
    ensures Within([CHANNEL, ActionLabel(action), Decimal(generation)], 30)
  {
    NumeralIsClean(generation);
    LabelsAreClean(action, Monitor);
  }

  lemma CallFieldsFit(b: SessionBinding)
    requires ValidBinding(b)
    ensures Within([b.rtcSessionId, b.callId, Decimal(b.callEpoch), Decimal(b.ownerEpoch)], 200)
  {
    NumeralIsClean(b.callEpoch);
    NumeralIsClean(b.ownerEpoch);
    IdIsClean(b.rtcSessionId);
    IdIsClean(b.callId);
  }

  lemma DeviceFieldsFit(b: SessionBinding)
    requires ValidBinding(b)
    ensures Within([b.deviceId, ModeLabel(b.mode), LeaseField(b), Decimal(b.fence)], 200)
  {
    NumeralIsClean(b.fence);
    LabelsAreClean(Arm, b.mode);
    IdIsClean(b.deviceId);
    IdIsClean(LeaseField(b));
  }

  lemma FieldsAreJoinable(b: SessionBinding, action: AuthorityAction, generation: u64)
    requires ValidBinding(b)
    ensures Joinable(Fields(b, action, generation))
  {
    ShortFieldsFit(action, generation);
    CallFieldsFit(b);
    DeviceFieldsFit(b);
    var short := [CHANNEL, ActionLabel(action), Decimal(generation)];
    var call := [b.rtcSessionId, b.callId, Decimal(b.callEpoch), Decimal(b.ownerEpoch)];
    var device := [b.deviceId, ModeLabel(b.mode), LeaseField(b), Decimal(b.fence)];
    assert Within(call + device, 200);
    TwoPartsAreJoinable(short, call + device);
    assert Fields(b, action, generation) == short + (call + device);
  }

  lemma JoinedFieldsAreWellFormed(f: seq<string>)
    requires Joinable(f)
    ensures |Join(f)| < MAX_PAYLOAD_BYTES && ValidUtf8(Join(f)) && SplitN(Join(f), 12) == f
  {
    TotalLengthSplits(f[..3], f[3..]);
    TotalLengthBound(f[..3], 0);
    TotalLengthBound(f[3..], 8);
    assert f[..3] + f[3..] == f;
    JoinLength(f);
    SplitOfJoin(f, 12);
    JoinIsPlain(f);
    PlainIsUtf8(Join(f));
  }

  /** Printed messages stay under the receiver's limit, are UTF-8, and split back into their eleven fields. */
  lemma PayloadIsWellFormed(b: SessionBinding, action: AuthorityAction, generation: u64)
    requires ValidBinding(b)
    ensures |Payload(b, action, generation)| < MAX_PAYLOAD_BYTES
    ensures ValidUtf8(Payload(b, action, generation))
    ensures SplitN(Payload(b, action, generation), 12) == Fields(b, action, generation)
  {
    FieldsAreJoinable(b, action, generation);
    JoinedFieldsAreWellFormed(Fields(b, action, generation));
  }

  lemma ModeLabelsDiffer(m1: MediaMode, m2: MediaMode)
    ensures ModeLabel(m1) == ModeLabel(m2) <==> m1 == m2
  {
    assert ModeLabel(Monitor)[0] != ModeLabel(Consult)[0];
  }

  lemma FieldsMatchExactly(b1: SessionBinding, b2: SessionBinding, action: AuthorityAction, generation: u64)
    requires ValidBinding(b1) && ValidBinding(b2)
    ensures FieldsMatch(Fields(b1, action, generation), b2) <==> b1 == b2
  {
    NumeralIsClean(b1.callEpoch);
    NumeralIsClean(b1.ownerEpoch);
    NumeralIsClean(b1.fence);
    ModeLabelsDiffer(b1.mode, b2.mode);
  }

  lemma DecodeOfNumericFields(f: seq<string>, b: SessionBinding, action: AuthorityAction, generation: u64)
    requires |f| == 11 && f[1] == ActionLabel(action) && ParseU64(f[2]) == Some(generation) && generation >= 1
    requires ParseU64(f[5]).Some? && ParseU64(f[6]).Some? && ParseU64(f[10]).Some?
    ensures DecodeFields(f, b) ==
            if FieldsMatch(f, b) then Ok(AuthorityProof(action, generation)) else Err(WrongBinding)
  {
    assert ActionLabel(Arm)[0] != ActionLabel(Disarm)[0];
  }

  /**
   * A message printed for one valid binding is accepted under another exactly when the two are equal, and then it
   * carries the action and generation that were printed.
   */
  lemma PayloadBindsExactly(b1: SessionBinding, b2: SessionBinding, action: AuthorityAction, generation: u64)
    requires ValidBinding(b1) && ValidBinding(b2) && generation >= 1
    ensures ParsePayload(Payload(b1, action, generation), b2) ==
            if b1 == b2 then Ok(AuthorityProof(action, generation)) else Err(WrongBinding)
  {
    PayloadIsWellFormed(b1, action, generation);
    PrintedFieldsDecode(b1, b2, action, generation);
  }

  lemma PrintedFieldsDecode(b1: SessionBinding, b2: SessionBinding, action: AuthorityAction, generation: u64)
    requires ValidBinding(b1) && ValidBinding(b2) && generation >= 1
    ensures DecodeFields(Fields(b1, action, generation), b2) ==
            if b1 == b2 then Ok(AuthorityProof(action, generation)) else Err(WrongBinding)
  {
    FieldsMatchExactly(b1, b2, action, generation);
    NumeralIsClean(generation);
    NumeralIsClean(b1.callEpoch);
    NumeralIsClean(b1.ownerEpoch);
    NumeralIsClean(b1.fence);
    DecodeOfNumericFields(Fields(b1, action, generation), b2, action, generation);
  }

  // ---- everything that is accepted ------------------------------------------------------------------

  /** Eleven fields without bars that say `proof` for `b`, their numerals in any accepted spelling. */
  predicate Spells(f: seq<string>, b: SessionBinding, proof: AuthorityProof) {
    && |f| == 11 && BarFree(f) && FieldsMatch(f, b)
    && f[1] == ActionLabel(proof.action) && ParseU64(f[2]) == Some(proof.generation) && proof.generation >= 1
  }

  lemma {:induction false} SplitIsBarFree(s: string, n: nat)
    requires n >= 1 && |SplitN(s, n)| < n
    ensures BarFree(SplitN(s, n))
  {
    var i := FirstBar(s);
    if i < |s| {
      SplitIsBarFree(s[i + 1..], n - 1);
    } else {
      assert s[..i] == s;
    }
  }

  lemma NumeralIsPlain(s: string)
    requires ParseU64(s).Some?
    ensures Plain(s)
  {
    if s[0] == '+' {
      assert s == ['+'] + s[1..];
    }
  }

  lemma SpelledIsPlain(f: seq<string>, b: SessionBinding, proof: AuthorityProof)
    requires ValidBinding(b) && Spells(f, b, proof)
    ensures forall k :: 0 <= k < |f| ==> Plain(f[k])
  {
    LabelsAreClean(proof.action, b.mode);
    NumeralIsPlain(f[2]);
    NumeralIsPlain(f[5]);
    NumeralIsPlain(f[6]);
    NumeralIsPlain(f[10]);
    IdIsClean(b.rtcSessionId);
    IdIsClean(b.callId);
    IdIsClean(b.deviceId);
    IdIsClean(LeaseField(b));
    forall k | 0 <= k < 11
      ensures Plain(f[k])
    {
      assert k in {0, 1, 2, 3, 4, 5, 6, 7, 8, 9, 10};
    }
  }

  lemma SpelledIsAccepted(f: seq<string>, b: SessionBinding, proof: AuthorityProof)
    requires ValidBinding(b) && Spells(f, b, proof) && |Join(f)| <= MAX_PAYLOAD_BYTES
    ensures ParsePayload(Join(f), b) == Ok(proof)
  {
    SpelledIsPlain(f, b, proof);
    JoinIsPlain(f);
    PlainIsUtf8(Join(f));
    SplitOfJoin(f, 12);
    DecodeOfNumericFields(f, b, proof.action, proof.generation);
  }

  lemma DecodedIsSpelled(f: seq<string>, b: SessionBinding)
    requires DecodeFields(f, b).Ok? && (|f| < 12 ==> BarFree(f))
    ensures Spells(f, b, DecodeFields(f, b).value)
  {
  }

  lemma AcceptedIsSpelled(data: string, b: SessionBinding)
    requires ParsePayload(data, b).Ok?
    ensures Spells(SplitN(data, 12), b, ParsePayload(data, b).value) && Join(SplitN(data, 12)) == data
  {
    var f := SplitN(data, 12);
    JoinOfSplit(data, 12);
    if |f| < 12 {
      SplitIsBarFree(data, 12);
    }
    DecodedIsSpelled(f, b);
  }

  /**
   * Exactly what is accepted for a valid binding: a message of at most 2048 bytes whose bar-free fields are the
   * printed ones, up to the spelling of the four numerals.
   */
  lemma AcceptedIffSpelled(data: string, b: SessionBinding, proof: AuthorityProof)
    requires ValidBinding(b)
    ensures ParsePayload(data, b) == Ok(proof) <==>
      |data| <= MAX_PAYLOAD_BYTES && exists f :: Spells(f, b, proof) && Join(f) == data
  {
    if ParsePayload(data, b) == Ok(proof) {
      AcceptedIsSpelled(data, b);
    }
    if |data| <= MAX_PAYLOAD_BYTES && exists f :: Spells(f, b, proof) && Join(f) == data {
      var f :| Spells(f, b, proof) && Join(f) == data;
      SpelledIsAccepted(f, b, proof);
    }
  }

  // ---- which of it is printed -------------------------------------------------------------------------

  /** No sign and no leading zero. */
  predicate Shortest(s: string) {
    s != [] && s[0] != '+' && (|s| > 1 ==> s[0] != '0')
  }

  lemma {:induction false} DecimalIsShortest(n: nat)
    ensures Shortest(Decimal(n)) && (n >= 1 ==> Decimal(n)[0] != '0')
  {
    if n >= 10 {
      DecimalIsShortest(n / 10);
    }
  }

  lemma {:induction false} LeadingDigitCounts(s: string)
    requires s != [] && IsDigits(s) && s[0] != '0'
    ensures DigitsValue(s) >= 1
  {
    if |s| > 1 {
      LeadingDigitCounts(s[..|s| - 1]);
    }
  }

  lemma DecimalOfTens(v: nat, d: nat)
    requires v >= 1 && d < 10
    ensures Decimal(v * 10 + d) == Decimal(v) + [Digit(d)]
  {
    assert (v * 10 + d) / 10 == v && (v * 10 + d) % 10 == d;
  }

  lemma {:induction false} ShortestIsDecimal(s: string)
    requires IsDigits(s) && Shortest(s)
    ensures Decimal(DigitsValue(s)) == s
  {
    var init, c := s[..|s| - 1], s[|s| - 1];
    var d := (c - '0') as int;
    assert s == init + [c] && Digit(d) == c;
    if init == [] {
      assert DigitsValue(s) == d;
    } else {
      assert init[0] == s[0];
      ShortestIsDecimal(init);
      LeadingDigitCounts(init);
      DecimalOfTens(DigitsValue(init), d);
    }
  }

  lemma SpellingIff(s: string)
    requires ParseU64(s).Some?
    ensures s == Decimal(ParseU64(s).value) <==> Shortest(s)
  {
    DecimalIsShortest(ParseU64(s).value);
    if Shortest(s) {
      ShortestIsDecimal(s);
    }
  }

  predicate ShortestNumerals(f: seq<string>) {
    |f| == 11 && Shortest(f[2]) && Shortest(f[5]) && Shortest(f[6]) && Shortest(f[10])
  }

  lemma SpelledAs(s: string, n: u64)
    requires ParseU64(s) == Some(n)
    ensures s == Decimal(n) <==> Shortest(s)
  {
    SpellingIff(s);
  }

  /** Among messages that say the same, the printed one is told by its numerals. */
  lemma {:induction false} FieldsByNumerals(f: seq<string>, b: SessionBinding, proof: AuthorityProof)
    requires Spells(f, b, proof) && proof.generation <= U64_MAX
    ensures f == Fields(b, proof.action, proof.generation) <==>
      f[2] == Decimal(proof.generation) && f[5] == Decimal(b.callEpoch) && f[6] == Decimal(b.ownerEpoch) && f[10] == Decimal(b.fence)
  {
  }

  lemma {:induction false} FieldsIff(f: seq<string>, b: SessionBinding, proof: AuthorityProof)
    requires Spells(f, b, proof) && proof.generation <= U64_MAX
    ensures f == Fields(b, proof.action, proof.generation) <==> ShortestNumerals(f)
  {
    FieldsByNumerals(f, b, proof);
    SpelledAs(f[2], proof.generation);
    SpelledAs(f[5], b.callEpoch);
    SpelledAs(f[6], b.ownerEpoch);
    SpelledAs(f[10], b.fence);
  }

  /** An accepted message is the printed one exactly when its four numerals have no sign and no leading zero. */
  lemma PrintedIffShortest(data: string, b: SessionBinding)
    requires ValidBinding(b) && ParsePayload(data, b).Ok?
    ensures var proof := ParsePayload(data, b).value;
      && proof.generation <= U64_MAX
      && (data == Payload(b, proof.action, proof.generation) <==> ShortestNumerals(SplitN(data, 12)))
  {
    var f, proof := SplitN(data, 12), ParsePayload(data, b).value;
    AcceptedIsSpelled(data, b);
    FieldsIff(f, b, proof);
    if data == Payload(b, proof.action, proof.generation) {
      PayloadIsWellFormed(b, proof.action, proof.generation);
    }
  }

  lemma SignedOne()
    ensures ParseU64("+1") == Some(1) && Clean("+1") && !Shortest("+1")
  {
    var one := "+1"[1..];
    assert one == "1" && one[..0] == [] && DigitsValue(one) == 1;
  }

  lemma Respelled(f: seq<string>, b: SessionBinding, proof: AuthorityProof, numeral: string)
    requires Joinable(f) && Spells(f, b, proof)
    requires Clean(numeral) && |numeral| <= 30 && ParseU64(numeral) == Some(proof.generation)
    ensures Joinable(f[2 := numeral]) && Spells(f[2 := numeral], b, proof)
  {
  }

  lemma PrintedIsSpelled(b: SessionBinding, action: AuthorityAction, generation: u64)
    requires ValidBinding(b) && generation >= 1
    ensures Joinable(Fields(b, action, generation)) && Spells(Fields(b, action, generation), b, AuthorityProof(action, generation))
  {
    FieldsAreJoinable(b, action, generation);
    FieldsMatchExactly(b, b, action, generation);
    NumeralIsClean(generation);
    JoinableIsBarFree(Fields(b, action, generation));
  }

  lemma JoinableIsBarFree(f: seq<string>)
    requires Joinable(f)
    ensures BarFree(f)
  {
    forall k | 0 <= k < 11
      ensures '|' !in f[k]
    {
      assert Clean(f[k]);
    }
  }

  /** Such a message exists for every valid binding: an arm whose generation is spelled with a sign. */
  lemma SignedGenerationIsAccepted(b: SessionBinding) returns (data: string)
    requires ValidBinding(b)
    ensures ParsePayload(data, b) == Ok(AuthorityProof(Arm, 1)) && data != Payload(b, Arm, 1)
  {
    var f, proof := Fields(b, Arm, 1)[2 := "+1"], AuthorityProof(Arm, 1);
    data := Join(f);
    SignedOne();
    PrintedIsSpelled(b, Arm, 1);
    Respelled(Fields(b, Arm, 1), b, proof, "+1");
    JoinedFieldsAreWellFormed(f);
    SpelledIsAccepted(f, b, proof);
    PrintedIffShortest(data, b);
  }
}
