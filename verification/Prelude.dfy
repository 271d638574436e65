/** Result types, machine integers, clock arithmetic and text primitives shared by every component. */
module Prelude {

  datatype Option<+T> = None | Some(value: T)

  datatype Result<+T, +E> = Ok(value: T) | Err(error: E)

  const U64_MAX := 0xFFFF_FFFF_FFFF_FFFF

  /** Largest integer a JavaScript peer can represent exactly. */
  const MAX_SAFE_INTEGER := 9_007_199_254_740_991

  type u64 = x: int | 0 <= x <= U64_MAX

  function SaturatingAdd(a: u64, b: u64): u64 {
    if a + b > U64_MAX then U64_MAX else a + b
  }

  function WrappingAdd(a: u64, b: u64): u64 {
    if a + b > U64_MAX then a + b - U64_MAX - 1 else a + b
  }

  /** The monotonic clock, in milliseconds; the platform's largest instant is 2^63 - 1 seconds. */
  const MAX_INSTANT := 9_223_372_036_854_775_807_000

  /** `Instant::checked_add`: no instant past the platform's last one. */
  function CheckedAdd(now: nat, d: nat): Option<nat> {
    if now + d <= MAX_INSTANT then Some(now + d) else None
  }

  // ---- text ---------------------------------------------------------------

  /** Bytes one character takes in UTF-8. */
  function Utf8Width(c: char): (w: nat)
    ensures 1 <= w <= 4
  {
    if c as int < 0x80 then 1 else if c as int < 0x800 then 2 else if c as int < 0x1_0000 then 3 else 4
  }

  /** Bytes a string takes in UTF-8. */
  function Utf8Len(s: string): nat {
    if s == [] then 0 else Utf8Len(s[..|s| - 1]) + Utf8Width(s[|s| - 1])
  }

  /** The Unicode White_Space property. */
  predicate IsWhitespace(c: char) {
    var n := c as int;
    0x09 <= n <= 0x0D || n == 0x20 || n == 0x85 || n == 0xA0 || n == 0x1680 || 0x2000 <= n <= 0x200A
    || n == 0x2028 || n == 0x2029 || n == 0x202F || n == 0x205F || n == 0x3000
  }

  /** The Unicode general category Cc. */
  predicate IsControl(c: char) {
    var n := c as int;
    n <= 0x1F || 0x7F <= n <= 0x9F
  }

  predicate Blank(s: string) {
    forall i :: 0 <= i < |s| ==> IsWhitespace(s[i])
  }

  function TrimStart(s: string): string {
    if s != [] && IsWhitespace(s[0]) then TrimStart(s[1..]) else s
  }

  function TrimEnd(s: string): string {
    if s != [] && IsWhitespace(s[|s| - 1]) then TrimEnd(s[..|s| - 1]) else s
  }

  function Trim(s: string): string {
    TrimEnd(TrimStart(s))
  }

  lemma BlankJoins(s: string, n: nat)
    requires n < |s| && Blank(s[..n]) && IsWhitespace(s[n])
    ensures Blank(s[..n + 1])
  {
  }

  /** Where the text starts after its leading white space. */
  lemma {:induction false} TrimStartAt(s: string, k: nat) returns (n: nat)
    requires k <= |s| && Blank(s[..k])
    ensures k <= n <= |s| && TrimStart(s[k..]) == s[n..] && Blank(s[..n]) && (n < |s| ==> !IsWhitespace(s[n]))
    decreases |s| - k
  {
    n := k;
    if k < |s| && IsWhitespace(s[k]) {
      BlankJoins(s, k);
      assert s[k..][1..] == s[k + 1..];
      n := TrimStartAt(s, k + 1);
    }
  }

  lemma BlankPrepends(s: string, n: nat)
    requires 0 < n <= |s| && Blank(s[n..]) && IsWhitespace(s[n - 1])
    ensures Blank(s[n - 1..])
  {
  }

  /** Where the text ends before its trailing white space. */
  lemma {:induction false} TrimEndAt(s: string, k: nat) returns (n: nat)
    requires k <= |s| && Blank(s[k..])
    ensures n <= k && TrimEnd(s[..k]) == s[..n] && Blank(s[n..]) && (n > 0 ==> !IsWhitespace(s[n - 1]))
    decreases k
  {
    n := k;
    if k > 0 && IsWhitespace(s[k - 1]) {
      BlankPrepends(s, k);
      assert s[..k][..k - 1] == s[..k - 1];
      n := TrimEndAt(s, k - 1);
    }
  }

  /** What trimming leaves: the text less white space at both ends, with none left there. */
  lemma {:induction false} TrimIs(s: string) returns (m: nat, n: nat)
    ensures m <= n <= |s| && Trim(s) == s[m..n] && Blank(s[..m]) && Blank(s[n..])
    ensures m < n ==> !IsWhitespace(s[m]) && !IsWhitespace(s[n - 1])
  {
    assert s[0..] == s && Blank(s[..0]);
    m := TrimStartAt(s, 0);
    var rest := s[m..];
    assert rest[..|rest|] == rest && Blank(rest[|rest|..]);
    var k := TrimEndAt(rest, |rest|);
    n := m + k;
    assert rest[..k] == s[m..n] && rest[k..] == s[n..];
  }

  /** A letter, digit or one of `-`, `_`, `.`, `:`, the alphabet of every protocol identity. */
  predicate IdChar(c: char) {
    'a' <= c <= 'z' || 'A' <= c <= 'Z' || '0' <= c <= '9' || c == '-' || c == '_' || c == '.' || c == ':'
  }

  /** Identities are pure ASCII, so their character count is their byte count. */
  predicate SafeId(value: string) {
    0 < |value| <= 200 && forall i :: 0 <= i < |value| ==> IdChar(value[i])
  }
}
