/** The std-only base64 codec sealed values are stored in: standard alphabet, padded. */
module Base64 {
  import opened Prelude

  type Byte = n: int | 0 <= n < 256

  /** The table of section 4 of RFC 4648: upper-case letters, lower-case letters, digits, plus and slash. */
  function Symbol(v: nat): char
    requires v < 64
  {
    if v < 26 then 'A' + v as char
    else if v < 52 then 'a' + (v - 26) as char
    else if v < 62 then '0' + (v - 52) as char
    else if v == 62 then '+' else '/'
  }

  /** Position of `c` in the table from `k` on. */
  function ValueFrom(c: char, k: nat): (r: Option<nat>)
    ensures r.Some? ==> k <= r.value < 64 && Symbol(r.value) == c
    ensures r.None? ==> forall i :: k <= i < 64 ==> Symbol(i) != c
    decreases 64 - k
  {
    if k >= 64 then None else if Symbol(k) == c then Some(k) else ValueFrom(c, k + 1)
  }

  function Value(c: char): Option<nat> {
    ValueFrom(c, 0)
  }

  predicate IsAsciiWhitespace(c: char) {
    c == ' ' || c == '\t' || c == '\n' || c == '\r' || c as int == 12
  }

  function StripWhitespace(s: string): string {
    if s == [] then []
    else StripWhitespace(s[..|s| - 1]) + if IsAsciiWhitespace(s[|s| - 1]) then [] else [s[|s| - 1]]
  }

  // ---- encoding -------------------------------------------------------------------------

  /** Up to three bytes in one 24-bit word, missing ones zero. */
  function Packed(b: seq<Byte>): (n: nat)
    requires 1 <= |b| <= 3
    ensures n < 0x100_0000
  {
    var b0: nat, b1: nat, b2: nat := b[0], if |b| > 1 then b[1] else 0, if |b| > 2 then b[2] else 0;
    b0 * 65536 + b1 * 256 + b2
  }

  /** The four six-bit values of a group. */
  datatype Sextets = Sextets(a: nat, b: nat, c: nat, d: nat) {
    predicate Valid() { a < 64 && b < 64 && c < 64 && d < 64 }
    function Word(): nat { a * 262144 + b * 4096 + c * 64 + d }
  }

  function SextetsOf(n: nat): (v: Sextets)
    ensures v.Valid()
  {
    Sextets(n / 262144 % 64, n / 4096 % 64, n / 64 % 64, n % 64)
  }

  /** The symbols that stand for `bytes` bytes. */
  function Written(v: Sextets, bytes: nat): (q: string)
    requires v.Valid()
    ensures |q| == 4
  {
    [Symbol(v.a), Symbol(v.b), if bytes > 1 then Symbol(v.c) else '=', if bytes > 2 then Symbol(v.d) else '=']
  }

  /** Four symbols for one, two or three bytes. */
  function EncodeChunk(b: seq<Byte>): (q: string)
    requires 1 <= |b| <= 3
    ensures |q| == 4
  {
    Written(SextetsOf(Packed(b)), |b|)
  }

  /** How many chunks of three the data begins, the last one maybe short. */
  function ChunkCount(data: seq<Byte>): nat {
    (|data| + 2) / 3
  }

  function ChunkAt(data: seq<Byte>, k: nat): (b: seq<Byte>)
    requires k < ChunkCount(data)
    ensures 1 <= |b| <= 3
  {
    data[3 * k..if 3 * k + 3 <= |data| then 3 * k + 3 else |data|]
  }

  /** Every chunk encoded by itself. */
  function EncodedGroups(data: seq<Byte>): (groups: seq<string>)
    ensures |groups| == ChunkCount(data) && forall k :: 0 <= k < |groups| ==> |groups[k]| == 4
  {
    seq(ChunkCount(data), k requires 0 <= k < ChunkCount(data) => EncodeChunk(ChunkAt(data, k)))
  }

  /** The groups in order. */
  function Glue(groups: seq<string>): string {
    if groups == [] then "" else Glue(groups[..|groups| - 1]) + groups[|groups| - 1]
  }

  function Encode(data: seq<Byte>): (text: string)
    ensures |text| == 4 * ChunkCount(data)
  {
    GlueLength(EncodedGroups(data));
    Glue(EncodedGroups(data))
  }

  // ---- decoding ----------------------------------------------------------------------------

  /** How many padding marks end the chunk. */
  function Padding(q: string): (p: nat)
    requires |q| == 4
    ensures p <= 4
  {
    if q[3] != '=' then 0 else if q[2] != '=' then 1 else if q[1] != '=' then 2 else if q[0] != '=' then 3 else 4
  }

  function SymbolValue(c: char, i: nat): Option<nat> {
    if c == '=' then if i < 2 then None else Some(0) else Value(c)
  }

  /** The first `bytes` bytes of a 24-bit word. */
  function Unpacked(n: nat, bytes: nat): seq<Byte> {
    [n / 65536 % 256] + (if bytes > 1 then [n / 256 % 256] else []) + if bytes > 2 then [n % 256] else []
  }

  function DecodeChunk(q: string): Option<seq<Byte>>
    requires |q| == 4
  {
    if Padding(q) > 2 then None
    else
      var v0, v1, v2, v3 := SymbolValue(q[0], 0), SymbolValue(q[1], 1), SymbolValue(q[2], 2), SymbolValue(q[3], 3);
      if v0.None? || v1.None? || v2.None? || v3.None? then None
      else Some(Unpacked(Sextets(v0.value, v1.value, v2.value, v3.value).Word(), 3 - Padding(q)))
  }

  function GroupAt(s: string, k: nat): (q: string)
    requires 4 * k + 4 <= |s|
    ensures |q| == 4
  {
    s[4 * k..4 * k + 4]
  }

  /** Every group of four decoded by itself. */
  function Groups(s: string, n: nat): (parts: seq<Option<seq<Byte>>>)
    requires 4 * n <= |s|
    ensures |parts| == n
  {
    seq(n, k requires 0 <= k < n => DecodeChunk(GroupAt(s, k)))
  }

  /** The parts in order, if all of them are there. */
  function Collect(parts: seq<Option<seq<Byte>>>): Option<seq<Byte>> {
    if parts == [] then Some([])
    else
      var before, last := Collect(parts[..|parts| - 1]), parts[|parts| - 1];
      if before.None? || last.None? then None else Some(before.value + last.value)
  }

  function DecodeSolid(s: string): Option<seq<Byte>> {
    if |s| % 4 != 0 then None else Collect(Groups(s, |s| / 4))
  }

  function Decode(text: string): Option<seq<Byte>> {
    DecodeSolid(StripWhitespace(text))
  }

  // ---- the alphabet ------------------------------------------------------------------------

  lemma SymbolsDiffer(v: nat, w: nat)
    requires v < 64 && w < 64 && Symbol(v) == Symbol(w)
    ensures v == w
  {
  }

  lemma SymbolReadsBack(v: nat)
    requires v < 64
    ensures Value(Symbol(v)) == Some(v) && Symbol(v) != '=' && !IsAsciiWhitespace(Symbol(v))
  {
    var r := Value(Symbol(v));
    SymbolsDiffer(v, r.value);
  }

  // ---- round trip ----------------------------------------------------------------------------

  /** A last digit to base 64 comes off by division. */
  lemma LastSextet(high: nat, low: nat)
    requires low < 64
    ensures (high * 64 + low) / 64 == high && (high * 64 + low) % 64 == low
  {
  }

  lemma ShiftsCompose(n: nat)
    ensures n / 4096 == n / 64 / 64 && n / 262144 == n / 64 / 64 / 64
  {
  }

  lemma SextetsOfWord(v: Sextets)
    requires v.Valid()
    ensures SextetsOf(v.Word()) == v
  {
    var n := v.Word();
    assert n == ((v.a * 64 + v.b) * 64 + v.c) * 64 + v.d;
    LastSextet((v.a * 64 + v.b) * 64 + v.c, v.d);
    LastSextet(v.a * 64 + v.b, v.c);
    LastSextet(v.a, v.b);
    ShiftsCompose(n);
  }

  /** The sextets of three bytes, cut where the bytes are. */
  function Recut(x: Byte, y: Byte, z: Byte): (v: Sextets)
    ensures v.Valid()
  {
    Sextets(x / 4, x % 4 * 16 + y / 16, y % 16 * 4 + z / 64, z % 64)
  }

  lemma RecutWord(x: Byte, y: Byte, z: Byte)
    ensures Recut(x, y, z).Word() == x * 65536 + y * 256 + z
    ensures SextetsOf(x * 65536 + y * 256 + z) == Recut(x, y, z)
  {
    SextetsOfWord(Recut(x, y, z));
  }

  lemma BytesReassemble(a: nat, b: nat, c: nat)
    requires a < 256 && b < 256 && c < 256
    ensures var n := a * 65536 + b * 256 + c; n / 65536 % 256 == a && n / 256 % 256 == b && n % 256 == c
  {
    var n := a * 65536 + b * 256 + c;
    assert n / 256 == a * 256 + b;
  }

  /** Missing bytes leave zero bits. */
  lemma ShortRecut(x: Byte, y: Byte)
    ensures Recut(x, y, 0).d == 0 && Recut(x, y, 0).c % 4 == 0
    ensures Recut(x, 0, 0).c == 0 && Recut(x, 0, 0).b % 16 == 0
  {
  }

  /** The sextets of a chunk: they make up its word, and are zero where its missing bytes would be. */
  lemma ChunkSextets(b: seq<Byte>) returns (v: Sextets)
    requires 1 <= |b| <= 3
    ensures v.Valid() && SextetsOf(Packed(b)) == v && v.Word() == Packed(b)
    ensures |b| < 3 ==> v.d == 0 && v.c % 4 == 0
    ensures |b| < 2 ==> v.c == 0 && v.b % 16 == 0
  {
    if |b| == 3 {
      v := Recut(b[0], b[1], b[2]);
      RecutWord(b[0], b[1], b[2]);
    } else if |b| == 2 {
      v := Recut(b[0], b[1], 0);
      RecutWord(b[0], b[1], 0);
      ShortRecut(b[0], b[1]);
    } else {
      v := Recut(b[0], 0, 0);
      RecutWord(b[0], 0, 0);
      ShortRecut(b[0], 0);
    }
  }

  lemma UnpackedReadsBack(b: seq<Byte>)
    requires 1 <= |b| <= 3
    ensures Unpacked(Packed(b), |b|) == b
  {
    BytesReassemble(b[0], if |b| > 1 then b[1] else 0, if |b| > 2 then b[2] else 0);
  }

  lemma WrittenIsSolid(v: Sextets, bytes: nat)
    requires v.Valid()
    ensures forall i :: 0 <= i < 4 ==> !IsAsciiWhitespace(Written(v, bytes)[i])
  {
    SymbolReadsBack(v.a);
    SymbolReadsBack(v.b);
    SymbolReadsBack(v.c);
    SymbolReadsBack(v.d);
  }

  lemma WrittenReadsBack(v: Sextets, bytes: nat)
    requires v.Valid() && 1 <= bytes <= 3 && (bytes < 3 ==> v.d == 0) && (bytes < 2 ==> v.c == 0)
    ensures Padding(Written(v, bytes)) == 3 - bytes
    ensures DecodeChunk(Written(v, bytes)) == Some(Unpacked(v.Word(), bytes))
  {
    SymbolReadsBack(v.a);
    SymbolReadsBack(v.b);
    SymbolReadsBack(v.c);
    SymbolReadsBack(v.d);
    GroupDecodes(Written(v, bytes), v);
  }

  lemma GroupDecodes(q: string, v: Sextets)
    requires |q| == 4 && Padding(q) <= 2
    requires SymbolValue(q[0], 0) == Some(v.a) && SymbolValue(q[1], 1) == Some(v.b)
    requires SymbolValue(q[2], 2) == Some(v.c) && SymbolValue(q[3], 3) == Some(v.d)
    ensures DecodeChunk(q) == Some(Unpacked(v.Word(), 3 - Padding(q)))
  {
  }

  lemma ChunkReadsBack(b: seq<Byte>)
    requires 1 <= |b| <= 3
    ensures DecodeChunk(EncodeChunk(b)) == Some(b)
  {
    var v := ChunkSextets(b);
    WrittenReadsBack(v, |b|);
    UnpackedReadsBack(b);
  }

  lemma ChunkIsSolid(b: seq<Byte>)
    requires 1 <= |b| <= 3
    ensures forall i :: 0 <= i < 4 ==> !IsAsciiWhitespace(EncodeChunk(b)[i])
  {
    WrittenIsSolid(SextetsOf(Packed(b)), |b|);
  }

  lemma GroupAhead(front: string, rest: string, k: nat)
    requires 4 * k + 4 <= |front|
    ensures GroupAt(front + rest, k) == GroupAt(front, k)
  {
  }

  lemma GroupAtEnd(front: string, q: string, k: nat)
    requires |front| == 4 * k && |q| == 4
    ensures GroupAt(front + q, k) == q
  {
  }

  predicate Fours(groups: seq<string>) {
    forall k :: 0 <= k < |groups| ==> |groups[k]| == 4
  }

  lemma {:induction false} GlueLength(groups: seq<string>)
    requires Fours(groups)
    ensures |Glue(groups)| == 4 * |groups|
  {
    if groups != [] {
      GlueLength(groups[..|groups| - 1]);
    }
  }

  /** Group `k` of the text is where the decoder looks for it. */
  lemma {:induction false} GlueAt(groups: seq<string>, k: nat)
    requires Fours(groups) && k < |groups|
    ensures 4 * k + 4 <= |Glue(groups)| && GroupAt(Glue(groups), k) == groups[k]
    decreases |groups|
  {
    var n := |groups| - 1;
    var front, last := Glue(groups[..n]), groups[n];
    GlueLength(groups[..n]);
    if k < n {
      GlueAt(groups[..n], k);
      GroupAhead(front, last, k);
    } else {
      GroupAtEnd(front, last, k);
    }
  }

  lemma GlueSnoc(groups: seq<string>, k: nat)
    requires k < |groups|
    ensures Glue(groups[..k + 1]) == Glue(groups[..k]) + groups[k]
  {
    assert groups[..k + 1][..k] == groups[..k];
  }

  lemma NextPrefix(text: string, k: nat)
    requires 4 * k + 4 <= |text|
    ensures text[..4 * (k + 1)] == text[..4 * k] + GroupAt(text, k)
  {
  }

  /** A text is its own groups in order. */
  lemma {:induction false} GlueOfGroups(text: string, groups: seq<string>, k: nat)
    requires |text| == 4 * |groups| && k <= |groups| && forall j :: 0 <= j < |groups| ==> groups[j] == GroupAt(text, j)
    ensures Glue(groups[..k]) == text[..4 * k]
  {
    if k > 0 {
      GlueOfGroups(text, groups, k - 1);
      GlueSnoc(groups, k - 1);
      NextPrefix(text, k - 1);
    }
  }

  // ---- chunks in a row ------------------------------------------------------------------------

  function Flatten(chunks: seq<seq<Byte>>): seq<Byte> {
    if chunks == [] then [] else Flatten(chunks[..|chunks| - 1]) + chunks[|chunks| - 1]
  }

  lemma {:induction false} CollectIsFlatten(parts: seq<Option<seq<Byte>>>, chunks: seq<seq<Byte>>)
    requires |parts| == |chunks| && forall k :: 0 <= k < |parts| ==> parts[k] == Some(chunks[k])
    ensures Collect(parts) == Some(Flatten(chunks))
  {
    if parts != [] {
      CollectIsFlatten(parts[..|parts| - 1], chunks[..|chunks| - 1]);
    }
  }

  lemma {:induction false} CollectNeedsAll(parts: seq<Option<seq<Byte>>>, k: nat)
    requires k < |parts| && parts[k].None?
    ensures Collect(parts).None?
  {
    if k < |parts| - 1 {
      CollectNeedsAll(parts[..|parts| - 1], k);
    }
  }

  /** All chunks have three bytes but the last, which has one to three. */
  predicate Chunked(chunks: seq<seq<Byte>>) {
    forall k :: 0 <= k < |chunks| ==> if k < |chunks| - 1 then |chunks[k]| == 3 else 1 <= |chunks[k]| <= 3
  }

  lemma {:induction false} ThreesFlatten(chunks: seq<seq<Byte>>)
    requires forall k :: 0 <= k < |chunks| ==> |chunks[k]| == 3
    ensures |Flatten(chunks)| == 3 * |chunks|
  {
    if chunks != [] {
      ThreesFlatten(chunks[..|chunks| - 1]);
    }
  }

  lemma {:induction false} FlattenAt(chunks: seq<seq<Byte>>, k: nat)
    requires k < |chunks| && forall j :: 0 <= j < |chunks| ==> |chunks[j]| == 3
    ensures 3 * k + 3 <= |Flatten(chunks)| && Flatten(chunks)[3 * k..3 * k + 3] == chunks[k]
  {
    var n := |chunks| - 1;
    ThreesFlatten(chunks);
    ThreesFlatten(chunks[..n]);
    if k < n {
      FlattenAt(chunks[..n], k);
    }
  }

  /** A whole chunk ahead of the last one is where `ChunkAt` looks for it. */
  lemma ChunkAhead(front: seq<Byte>, last: seq<Byte>, n: nat, k: nat)
    requires |front| == 3 * n && 1 <= |last| <= 3 && k <= n
    ensures ChunkCount(front + last) == n + 1
    ensures ChunkAt(front + last, k) == if k < n then front[3 * k..3 * k + 3] else last
  {
    assert |front + last| + 2 >= 3 * (n + 1) && |front + last| + 2 < 3 * (n + 2);
  }

  /** The chunks of the flattened bytes are the chunks themselves. */
  lemma ChunkOfFlatten(chunks: seq<seq<Byte>>, k: nat)
    requires Chunked(chunks) && k < |chunks|
    ensures ChunkCount(Flatten(chunks)) == |chunks| && ChunkAt(Flatten(chunks), k) == chunks[k]
  {
    var n := |chunks| - 1;
    ThreesFlatten(chunks[..n]);
    ChunkAhead(Flatten(chunks[..n]), chunks[n], n, k);
    if k < n {
      FlattenAt(chunks[..n], k);
    }
  }

  function ChunksOf(data: seq<Byte>): (chunks: seq<seq<Byte>>)
    ensures |chunks| == ChunkCount(data) && Chunked(chunks)
  {
    seq(ChunkCount(data), k requires 0 <= k < ChunkCount(data) => ChunkAt(data, k))
  }

  /** One more chunk of the data joined to those before it. */
  lemma ChunkJoins(data: seq<Byte>, k: nat)
    requires k < ChunkCount(data)
    ensures 3 * k <= |data|
    ensures data[..3 * k] + ChunkAt(data, k) == if 3 * k + 3 <= |data| then data[..3 * k + 3] else data
  {
    if 3 * k + 3 <= |data| {
      assert data[..3 * k] + data[3 * k..3 * k + 3] == data[..3 * k + 3];
    } else {
      assert data[..3 * k] + data[3 * k..] == data;
    }
  }

  lemma FlattenSnoc(chunks: seq<seq<Byte>>, k: nat)
    requires k < |chunks|
    ensures Flatten(chunks[..k + 1]) == Flatten(chunks[..k]) + chunks[k]
  {
    assert chunks[..k + 1][..k] == chunks[..k];
  }

  lemma {:induction false} FlattenFirst(data: seq<Byte>, k: nat)
    requires k <= ChunkCount(data)
    ensures Flatten(ChunksOf(data)[..k]) == if 3 * k <= |data| then data[..3 * k] else data
  {
    if k > 0 {
      FlattenFirst(data, k - 1);
      FlattenSnoc(ChunksOf(data), k - 1);
      ChunkJoins(data, k - 1);
    }
  }

  lemma FlattenOfChunks(data: seq<Byte>)
    ensures Flatten(ChunksOf(data)) == data
  {
    FlattenFirst(data, ChunkCount(data));
    assert ChunksOf(data)[..ChunkCount(data)] == ChunksOf(data);
  }

  // ---- the whole text -----------------------------------------------------------------------------

  lemma EncodedGroup(data: seq<Byte>, k: nat)
    requires k < ChunkCount(data)
    ensures 4 * k + 4 <= |Encode(data)| && GroupAt(Encode(data), k) == EncodeChunk(ChunkAt(data, k))
  {
    GlueAt(EncodedGroups(data), k);
  }

  lemma GroupReadsBack(data: seq<Byte>, k: nat)
    requires k < ChunkCount(data)
    ensures Groups(Encode(data), ChunkCount(data))[k] == Some(ChunksOf(data)[k])
  {
    EncodedGroup(data, k);
    ChunkReadsBack(ChunkAt(data, k));
  }

  lemma GroupsReadBack(data: seq<Byte>)
    ensures Collect(Groups(Encode(data), ChunkCount(data))) == Some(data)
  {
    var parts, chunks := Groups(Encode(data), ChunkCount(data)), ChunksOf(data);
    forall k | 0 <= k < |parts|
      ensures parts[k] == Some(chunks[k])
    {
      GroupReadsBack(data, k);
    }
    CollectIsFlatten(parts, chunks);
    FlattenOfChunks(data);
  }

  lemma WholeGroups(s: string, n: nat)
    requires |s| == 4 * n
    ensures DecodeSolid(s) == Collect(Groups(s, n))
  {
    assert |s| / 4 == n && |s| % 4 == 0;
  }

  lemma EncodedReadsBack(data: seq<Byte>)
    ensures |Encode(data)| == 4 * ChunkCount(data)
    ensures DecodeSolid(Encode(data)) == Some(data)
  {
    GroupsReadBack(data);
    WholeGroups(Encode(data), ChunkCount(data));
  }

  lemma EncodedIsSolid(data: seq<Byte>)
    ensures forall i :: 0 <= i < |Encode(data)| ==> !IsAsciiWhitespace(Encode(data)[i])
  {
    forall i | 0 <= i < |Encode(data)|
      ensures !IsAsciiWhitespace(Encode(data)[i])
    {
      var k := i / 4;
      EncodedGroup(data, k);
      ChunkIsSolid(ChunkAt(data, k));
      assert Encode(data)[i] == GroupAt(Encode(data), k)[i - 4 * k];
    }
  }

  lemma {:induction false} StripKeepsSolid(s: string)
    requires forall i :: 0 <= i < |s| ==> !IsAsciiWhitespace(s[i])
    ensures StripWhitespace(s) == s
  {
    if s != [] {
      StripKeepsSolid(s[..|s| - 1]);
    }
  }

  /**
   * Every byte string reads back from its encoding, however much ASCII whitespace is strewn through it, and the
   * encoding has four characters for every three bytes begun.
   */
  lemma DecodeOfEncode(data: seq<Byte>, text: string)
    requires StripWhitespace(text) == Encode(data)
    ensures Decode(text) == Some(data) && Decode(Encode(data)) == Some(data)
    ensures |Encode(data)| == 4 * ((|data| + 2) / 3)
  {
    EncodedReadsBack(data);
    EncodedIsSolid(data);
    StripKeepsSolid(Encode(data));
  }

  // ---- which texts are encodings ---------------------------------------------------------------

  /** Padding only at the end of the group, and zero bits under it. */
  predicate Tidy(q: string)
    requires |q| == 4
  {
    && q[0] != '=' && q[1] != '=' && (q[2] == '=' ==> q[3] == '=')
    && (q[2] == '=' ==> Value(q[1]).Some? && Value(q[1]).value % 16 == 0)
    && (q[3] == '=' && q[2] != '=' ==> Value(q[2]).Some? && Value(q[2]).value % 4 == 0)
  }

  /** No whitespace, padding in the last group only, and every group tidy. */
  predicate Canonical(text: string) {
    && |text| % 4 == 0 && (forall i :: 0 <= i < |text| ==> !IsAsciiWhitespace(text[i]))
    && (forall k :: 0 <= k < |text| / 4 ==> Tidy(GroupAt(text, k)))
    && (forall k :: 0 <= k < |text| / 4 - 1 ==> GroupAt(text, k)[3] != '=')
  }

  lemma BytesOfSextets(v: Sextets)
    requires v.Valid()
    ensures v.Word() / 65536 % 256 == v.a * 4 + v.b / 16
    ensures v.Word() / 256 % 256 == v.b % 16 * 16 + v.c / 4
    ensures v.Word() % 256 == v.c % 4 * 64 + v.d
  {
    var b0, b1, b2 := v.a * 4 + v.b / 16, v.b % 16 * 16 + v.c / 4, v.c % 4 * 64 + v.d;
    assert v.Word() == b0 * 65536 + b1 * 256 + b2;
    BytesReassemble(b0, b1, b2);
  }

  /** With zero bits where the missing bytes would be, the bytes pack back into the same word. */
  lemma PacksBack(v: Sextets, bytes: nat)
    requires v.Valid() && 1 <= bytes <= 3
    requires bytes < 3 ==> v.d == 0 && v.c % 4 == 0
    requires bytes < 2 ==> v.c == 0 && v.b % 16 == 0
    ensures |Unpacked(v.Word(), bytes)| == bytes && Packed(Unpacked(v.Word(), bytes)) == v.Word()
  {
    BytesOfSextets(v);
  }

  /** A decodable group and its sextets. */
  lemma GroupReads(q: string) returns (v: Sextets)
    requires |q| == 4 && DecodeChunk(q).Some?
    ensures v.Valid() && Padding(q) <= 2 && DecodeChunk(q) == Some(Unpacked(v.Word(), 3 - Padding(q)))
    ensures Value(q[0]) == Some(v.a) && Value(q[1]) == Some(v.b)
    ensures if q[2] == '=' then v.c == 0 else Value(q[2]) == Some(v.c)
    ensures if q[3] == '=' then v.d == 0 else Value(q[3]) == Some(v.d)
  {
    v := Sextets(SymbolValue(q[0], 0).value, SymbolValue(q[1], 1).value, SymbolValue(q[2], 2).value, SymbolValue(q[3], 3).value);
  }

  /** A tidy group is what its bytes are written as. */
  lemma TidyWritesBack(q: string)
    requires |q| == 4 && Tidy(q) && DecodeChunk(q).Some?
    ensures |DecodeChunk(q).value| == 3 - Padding(q) && EncodeChunk(DecodeChunk(q).value) == q
  {
    var v := GroupReads(q);
    PacksBack(v, 3 - Padding(q));
    SextetsOfWord(v);
    TidyIsWritten(q, v);
  }

  lemma TidyIsWritten(q: string, v: Sextets)
    requires |q| == 4 && Tidy(q) && v.Valid() && Symbol(v.a) == q[0] && Symbol(v.b) == q[1]
    requires (q[2] == '=' || Symbol(v.c) == q[2]) && (q[3] == '=' || Symbol(v.d) == q[3])
    ensures Written(v, 3 - Padding(q)) == q
  {
  }

  lemma WrittenIsTidy(v: Sextets, bytes: nat)
    requires v.Valid() && (bytes == 2 ==> v.c % 4 == 0) && (bytes < 2 ==> v.b % 16 == 0)
    ensures Tidy(Written(v, bytes)) && (Written(v, bytes)[3] != '=' <==> bytes > 2)
  {
    SymbolReadsBack(v.a);
    SymbolReadsBack(v.b);
    SymbolReadsBack(v.c);
    SymbolReadsBack(v.d);
  }

  /** What is written for a chunk is tidy, and padded only if the chunk is short. */
  lemma ChunkIsTidy(b: seq<Byte>)
    requires 1 <= |b| <= 3
    ensures Tidy(EncodeChunk(b)) && (EncodeChunk(b)[3] != '=' <==> |b| == 3)
  {
    var v := ChunkSextets(b);
    WrittenIsTidy(v, |b|);
  }

  lemma EncodedIsCanonical(data: seq<Byte>)
    ensures Canonical(Encode(data))
  {
    EncodedIsSolid(data);
    forall k | 0 <= k < ChunkCount(data)
      ensures Tidy(GroupAt(Encode(data), k)) && (k < ChunkCount(data) - 1 ==> GroupAt(Encode(data), k)[3] != '=')
    {
      EncodedGroup(data, k);
      ChunkIsTidy(ChunkAt(data, k));
    }
  }

  /** The decoded groups of a canonical text, each the chunk that is written as it. */
  lemma CanonicalChunks(text: string) returns (chunks: seq<seq<Byte>>)
    requires Canonical(text) && DecodeSolid(text).Some?
    ensures |chunks| == |text| / 4 && Chunked(chunks) && DecodeSolid(text) == Some(Flatten(chunks))
    ensures forall k :: 0 <= k < |chunks| ==> 1 <= |chunks[k]| <= 3 && EncodeChunk(chunks[k]) == GroupAt(text, k)
  {
    var parts := Groups(text, |text| / 4);
    forall k | 0 <= k < |parts|
      ensures parts[k].Some? && |parts[k].value| == 3 - Padding(GroupAt(text, k)) && EncodeChunk(parts[k].value) == GroupAt(text, k)
    {
      if parts[k].None? {
        CollectNeedsAll(parts, k);
      }
      TidyWritesBack(GroupAt(text, k));
    }
    chunks := seq(|parts|, k requires 0 <= k < |parts| => parts[k].value);
    CollectIsFlatten(parts, chunks);
  }

  lemma CanonicalWritesBack(text: string)
    requires Canonical(text) && DecodeSolid(text).Some?
    ensures Encode(DecodeSolid(text).value) == text
  {
    var chunks := CanonicalChunks(text);
    var data := Flatten(chunks);
    if chunks != [] {
      ChunkOfFlatten(chunks, 0);
    }
    var groups := EncodedGroups(data);
    forall j | 0 <= j < |groups|
      ensures groups[j] == GroupAt(text, j)
    {
      ChunkOfFlatten(chunks, j);
    }
    GlueOfGroups(text, groups, |groups|);
    assert groups[..|groups|] == groups && text[..|text|] == text;
  }

  /**
   * Encoding after decoding gives the text back exactly when the text is canonical: no whitespace, padding only at
   * the very end, and zero bits under it. The decoder accepts all the others too.
   */
  lemma EncodeOfDecodeIff(text: string)
    requires Decode(text).Some?
    ensures Encode(Decode(text).value) == text <==> Canonical(text)
  {
    if Canonical(text) {
      StripKeepsSolid(text);
      CanonicalWritesBack(text);
    }
    if Encode(Decode(text).value) == text {
      EncodedIsCanonical(Decode(text).value);
    }
  }

  lemma {:induction false} StripSkips(s: string, c: char, t: string)
    requires IsAsciiWhitespace(c)
    ensures StripWhitespace(s + [c] + t) == StripWhitespace(s + t)
    decreases |t|
  {
    if t == [] {
      assert (s + [c] + t)[..|s|] == s && s + t == s;
    } else {
      var n := |t| - 1;
      StripSkips(s, c, t[..n]);
      assert (s + [c] + t)[..|s| + 1 + n] == s + [c] + t[..n] && (s + t)[..|s| + n] == s + t[..n];
    }
  }

  lemma WitnessGroups()
    ensures DecodeChunk("QQ==") == Some([65]) && DecodeChunk("QR==") == Some([65]) && DecodeChunk("QQ=Q") == Some([65, 0, 16])
  {
    SymbolReadsBack(16);
    SymbolReadsBack(17);
    assert Symbol(16) == 'Q' && Symbol(17) == 'R';
    GroupDecodes("QQ==", Sextets(16, 16, 0, 0));
    GroupDecodes("QR==", Sextets(16, 17, 0, 0));
    GroupDecodes("QQ=Q", Sextets(16, 16, 0, 16));
    assert Sextets(16, 16, 0, 0).Word() == 0x41_0000 && Unpacked(0x41_0000, 1) == [65];
    assert Sextets(16, 17, 0, 0).Word() == 0x41_1000 && Unpacked(0x41_1000, 1) == [65];
    assert Sextets(16, 16, 0, 16).Word() == 0x41_0010 && Unpacked(0x41_0010, 3) == [65, 0, 16];
  }

  lemma WhitespaceAround(s: string, c: char, t: string)
    requires IsAsciiWhitespace(c)
    ensures Decode(s + [c] + t) == Decode(s + t)
  {
    StripSkips(s, c, t);
  }

  lemma EarlyPadding()
    ensures Decode("QQ==" + "QQ==") == Some([65, 65])
  {
    WitnessGroups();
    TwoGroups("QQ==", "QQ==");
    assert [65] + [65] == [65, 65];
  }

  lemma SpacedGroup()
    ensures Decode("Q" + " " + "Q==") == Some([65])
  {
    WitnessGroups();
    WhitespaceAround("Q", ' ', "Q==");
    OneGroup("QQ==");
    assert "Q" + "Q==" == "QQ==";
  }

  /** Accepted texts that are no encoding: stray low bits, an inner pad, padding before the end, whitespace. */
  lemma AcceptedButNotCanonical()
    ensures Decode("QR==") == Some([65]) && Decode("QQ=Q") == Some([65, 0, 16])
    ensures Decode("QQ==" + "QQ==") == Some([65, 65]) && Decode("Q" + " " + "Q==") == Some([65])
  {
    WitnessGroups();
    OneGroup("QR==");
    OneGroup("QQ=Q");
    EarlyPadding();
    SpacedGroup();
  }

  lemma OneGroup(q: string)
    requires |q| == 4 && forall i :: 0 <= i < 4 ==> !IsAsciiWhitespace(q[i])
    ensures DecodeChunk(q).Some? ==> Decode(q) == DecodeChunk(q)
  {
    StripKeepsSolid(q);
    assert GroupAt(q, 0) == q;
    if DecodeChunk(q).Some? {
      var chunks := [DecodeChunk(q).value];
      CollectIsFlatten(Groups(q, 1), chunks);
      assert chunks[..0] == [] && Flatten(chunks) == chunks[0];
    }
  }

  lemma TwoGroups(p: string, q: string)
    requires |p| == 4 && |q| == 4 && DecodeChunk(p).Some? && DecodeChunk(q).Some?
    requires forall i :: 0 <= i < 8 ==> !IsAsciiWhitespace((p + q)[i])
    ensures Decode(p + q) == Some(DecodeChunk(p).value + DecodeChunk(q).value)
  {
    StripKeepsSolid(p + q);
    assert GroupAt(p + q, 0) == p && GroupAt(p + q, 1) == q;
    var first, chunks := [DecodeChunk(p).value], [DecodeChunk(p).value, DecodeChunk(q).value];
    CollectIsFlatten(Groups(p + q, 2), chunks);
    assert chunks[..1] == first && first[..0] == [] && Flatten(first) == first[0];
  }

  // ---- the loops -----------------------------------------------------------------------------------

  method EncodeLoop(data: seq<Byte>) returns (out: string)
    ensures out == Encode(data)
  {
    out := "";
    for k := 0 to ChunkCount(data)
      invariant out == Glue(EncodedGroups(data)[..k])
    {
      out := out + EncodeChunk(ChunkAt(data, k));
      GlueSnoc(EncodedGroups(data), k);
    }
    assert EncodedGroups(data)[..ChunkCount(data)] == EncodedGroups(data);
  }

  method DecodeLoop(text: string) returns (out: Option<seq<Byte>>)
    ensures out == Decode(text)
  {
    var s := StripWhitespace(text);
    if |s| % 4 != 0 {
      return None;
    }
    out := DecodeGroups(s, |s| / 4);
  }

  /** The groups one after another; the first bad one ends it. */
  method DecodeGroups(s: string, n: nat) returns (out: Option<seq<Byte>>)
    requires 4 * n <= |s|
    ensures out == Collect(Groups(s, n))
  {
    var bytes: seq<Byte> := [];
    for k := 0 to n
      invariant Collect(Groups(s, k)) == Some(bytes)
    {
      var chunk := DecodeChunk(GroupAt(s, k));
      if chunk.None? {
        assert Groups(s, n)[k] == chunk;
        CollectNeedsAll(Groups(s, n), k);
        return None;
      }
      NextGroup(s, k);
      bytes := bytes + chunk.value;
    }
    out := Some(bytes);
  }

  lemma NextGroup(s: string, k: nat)
    requires 4 * k + 4 <= |s|
    ensures Groups(s, k + 1) == Groups(s, k) + [DecodeChunk(GroupAt(s, k))]
    ensures Collect(Groups(s, k)).Some? && DecodeChunk(GroupAt(s, k)).Some? ==>
      Collect(Groups(s, k + 1)) == Some(Collect(Groups(s, k)).value + DecodeChunk(GroupAt(s, k)).value)
  {
    assert Groups(s, k + 1)[..k] == Groups(s, k);
  }
}
