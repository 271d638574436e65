/** Where a streamed reply may be cut: sentence and clause boundaries outside bracketed control tokens. */
module ReplyBoundaries {
  import opened Prelude

  function FindClose(s: string, k: nat): (r: Option<nat>)
    ensures r.Some? ==> k <= r.value < |s| && s[r.value] == ']'
    decreases |s| - k
  {
    if k >= |s| then None else if s[k] == ']' then Some(k) else FindClose(s, k + 1)
  }

  function FindDoubleClose(s: string, k: nat): (r: Option<nat>)
    ensures r.Some? ==> k <= r.value && r.value + 1 < |s|
    decreases |s| - k
  {
    if k + 1 >= |s| then None
    else if s[k] == ']' && s[k + 1] == ']' then Some(k)
    else FindDoubleClose(s, k + 1)
  }

  /** One past the bracket token that opens at `start`; none while its closing bracket has not arrived. */
  function TokenEnd(s: string, start: nat): (r: Option<nat>)
    ensures r.Some? ==> start + 1 < r.value <= |s|
  {
    if start >= |s| || s[start] != '[' then None
    else if start + 1 < |s| && s[start + 1] == '[' then
      var close := FindDoubleClose(s, start + 2);
      if close.Some? then Some(close.value + 2) else None
    else
      var close := FindClose(s, start + 1);
      if close.Some? then Some(close.value + 1) else None
  }

  lemma {:induction false} FindCloseIs(s: string, k: nat)
    ensures var r := FindClose(s, k);
      forall i: nat | k <= i < (if r.Some? then r.value else |s|) :: s[i] != ']'
    decreases |s| - k
  {
    if k < |s| && s[k] != ']' {
      FindCloseIs(s, k + 1);
    }
  }

  predicate DoubleCloseAt(s: string, i: nat) {
    i + 1 < |s| && s[i] == ']' && s[i + 1] == ']'
  }

  lemma {:induction false} FindDoubleCloseIs(s: string, k: nat)
    ensures var r := FindDoubleClose(s, k);
      && (r.Some? ==> DoubleCloseAt(s, r.value))
      && forall i: nat | k <= i < (if r.Some? then r.value else |s|) :: !DoubleCloseAt(s, i)
    decreases |s| - k
  {
    if k + 1 < |s| && !DoubleCloseAt(s, k) {
      FindDoubleCloseIs(s, k + 1);
    }
  }

  /** A token `[[` runs to the first `]]` after it, any other token to the first `]`; without one it is open. */
  lemma TokenEndIs(s: string, start: nat)
    requires start < |s| && s[start] == '['
    ensures var r := TokenEnd(s, start);
      if start + 1 < |s| && s[start + 1] == '[' then
        && (r.Some? ==> r.value >= start + 4 && DoubleCloseAt(s, r.value - 2))
        && forall i: nat | start + 2 <= i < (if r.Some? then r.value - 2 else |s|) :: !DoubleCloseAt(s, i)
      else
        && (r.Some? ==> r.value >= start + 2 && s[r.value - 1] == ']')
        && forall i: nat | start + 1 <= i < (if r.Some? then r.value - 1 else |s|) :: s[i] != ']'
  {
    FindCloseIs(s, start + 1);
    FindDoubleCloseIs(s, start + 2);
  }

  /** `Sentence` is `sentence_end`, `Clause` the eager `first_clause_end`. */
  datatype Rule = Sentence | Clause

  function MinBytes(rule: Rule): nat {
    if rule.Sentence? then 8 else 24
  }

  /** The mark at `i` ends a chunk; all but a newline need the following whitespace to have arrived. */
  predicate Breaks(rule: Rule, s: string, i: nat)
    requires i < |s|
  {
    if rule.Sentence? then
      s[i] == '\n' || ((s[i] == '.' || s[i] == '!' || s[i] == '?') && i + 1 < |s| && IsWhitespace(s[i + 1]))
    else
      (s[i] == ',' || s[i] == ';' || s[i] == ':') && i + 1 < |s| && IsWhitespace(s[i + 1])
  }

  /** A boundary at `i`: far enough in, counted in UTF-8 bytes as the source counts. */
  predicate BoundaryAt(rule: Rule, s: string, i: nat)
    requires i < |s|
  {
    Utf8Len(s[..i]) >= MinBytes(rule) && Breaks(rule, s, i)
  }

  function BoundaryFrom(rule: Rule, s: string, i: nat): Option<nat>
    decreases |s| - i
  {
    if i >= |s| then None
    else if s[i] == '[' then
      var end := TokenEnd(s, i);
      if end.Some? then BoundaryFrom(rule, s, end.value) else None
    else if BoundaryAt(rule, s, i) then Some(i)
    else BoundaryFrom(rule, s, i + 1)
  }

  function Boundary(rule: Rule, s: string): Option<nat> {
    BoundaryFrom(rule, s, 0)
  }

  // ---- positions outside tokens --------------------------------------------------------

  /** Reading left to right from position `j`, a whole bracket token at a time, position `i` is reached. */
  predicate Reaches(s: string, j: nat, i: nat)
    decreases |s| - j
  {
    if j >= i || j >= |s| then j == i
    else if s[j] == '[' then
      var end := TokenEnd(s, j);
      end.Some? && Reaches(s, end.value, i)
    else Reaches(s, j + 1, i)
  }

  /** Position `i` of `s` is outside every bracket token, open or closed. */
  predicate TopLevel(s: string, i: nat) {
    i <= |s| && Reaches(s, 0, i)
  }

  lemma {:induction false} ReachesCompose(s: string, j: nat, k: nat, i: nat)
    requires Reaches(s, j, k) && k <= i
    ensures Reaches(s, j, i) <==> Reaches(s, k, i)
    decreases |s| - j
  {
    if j < k && j < |s| {
      if s[j] == '[' {
        ReachesCompose(s, TokenEnd(s, j).value, k, i);
      } else {
        ReachesCompose(s, j + 1, k, i);
      }
    }
  }

  lemma ReachesForward(s: string, j: nat, i: nat)
    requires Reaches(s, j, i)
    ensures j <= i
  {
  }

  /** A top-level position is never strictly inside a token: each token ends by it or opens at or after it. */
  lemma TopLevelIsOutsideTokens(s: string, open: nat, i: nat)
    requires TopLevel(s, open) && open < |s| && s[open] == '[' && TopLevel(s, i)
    ensures i <= open || (TokenEnd(s, open).Some? && TokenEnd(s, open).value <= i)
  {
    if open < i {
      ReachesCompose(s, 0, open, i);
      ReachesForward(s, TokenEnd(s, open).value, i);
    }
  }

  // ---- nothing found ever moves -------------------------------------------------------------

  lemma {:induction false} FindCloseStable(s: string, t: string, k: nat)
    requires FindClose(s, k).Some?
    ensures FindClose(s + t, k) == FindClose(s, k)
    decreases |s| - k
  {
    if k < |s| && s[k] != ']' {
      FindCloseStable(s, t, k + 1);
    }
  }

  lemma {:induction false} FindDoubleCloseStable(s: string, t: string, k: nat)
    requires FindDoubleClose(s, k).Some?
    ensures FindDoubleClose(s + t, k) == FindDoubleClose(s, k)
    decreases |s| - k
  {
    if !(s[k] == ']' && s[k + 1] == ']') {
      FindDoubleCloseStable(s, t, k + 1);
    }
  }

  lemma TokenEndStable(s: string, t: string, start: nat)
    requires TokenEnd(s, start).Some?
    ensures TokenEnd(s + t, start) == TokenEnd(s, start)
  {
    if s[start + 1] == '[' {
      FindDoubleCloseStable(s, t, start + 2);
    } else {
      FindCloseStable(s, t, start + 1);
    }
  }

  lemma {:induction false} ReachesStable(s: string, t: string, j: nat, i: nat)
    requires Reaches(s, j, i) && i <= |s|
    ensures Reaches(s + t, j, i)
    decreases |s| - j
  {
    if j < i {
      if s[j] == '[' {
        TokenEndStable(s, t, j);
        ReachesStable(s, t, TokenEnd(s, j).value, i);
      } else {
        ReachesStable(s, t, j + 1, i);
      }
    }
  }

  lemma BoundaryAtStable(rule: Rule, s: string, t: string, i: nat)
    requires i < |s|
    ensures BoundaryAt(rule, s, i) ==> BoundaryAt(rule, s + t, i)
    ensures i + 1 < |s| ==> (BoundaryAt(rule, s + t, i) <==> BoundaryAt(rule, s, i))
  {
    assert (s + t)[..i] == s[..i];
  }

  /** A found boundary never moves when more text arrives. */
  lemma {:induction false} BoundaryStable(rule: Rule, s: string, t: string, j: nat)
    requires BoundaryFrom(rule, s, j).Some?
    ensures BoundaryFrom(rule, s + t, j) == BoundaryFrom(rule, s, j)
    decreases |s| - j
  {
    if s[j] == '[' {
      TokenEndStable(s, t, j);
      BoundaryStable(rule, s, t, TokenEnd(s, j).value);
    } else {
      BoundaryAtStable(rule, s, t, j);
      if !BoundaryAt(rule, s, j) {
        BoundaryStable(rule, s, t, j + 1);
      }
    }
  }

  // ---- a boundary is the first break outside tokens ------------------------------------------

  ghost predicate FirstBoundary(rule: Rule, s: string, j: nat, i: nat) {
    && i < |s| && Reaches(s, j, i) && s[i] != '[' && BoundaryAt(rule, s, i)
    && forall k | j <= k < i && Reaches(s, j, k) && s[k] != '[' :: !BoundaryAt(rule, s, k)
  }

  lemma {:induction false} BoundaryFromIsFirst(rule: Rule, s: string, j: nat)
    ensures forall i :: BoundaryFrom(rule, s, j) == Some(i) ==> FirstBoundary(rule, s, j, i)
    ensures BoundaryFrom(rule, s, j).None? ==>
      forall k | j <= k < |s| && Reaches(s, j, k) && s[k] != '[' :: !BoundaryAt(rule, s, k)
    decreases |s| - j
  {
    if j < |s| {
      if s[j] == '[' {
        if TokenEnd(s, j).Some? {
          BoundaryFromIsFirst(rule, s, TokenEnd(s, j).value);
          forall k | j < k <= |s| && Reaches(s, j, k)
            ensures TokenEnd(s, j).value <= k
          {
            ReachesForward(s, TokenEnd(s, j).value, k);
          }
        }
      } else if !BoundaryAt(rule, s, j) {
        BoundaryFromIsFirst(rule, s, j + 1);
      }
    }
  }

  /** `Boundary` finds exactly the first break outside bracket tokens, and nothing past a token still open. */
  lemma BoundaryIsFirstBreak(rule: Rule, s: string)
    ensures forall i :: Boundary(rule, s) == Some(i) ==> FirstBoundary(rule, s, 0, i) && TopLevel(s, i) && TopLevel(s, i + 1)
    ensures forall i | 0 <= i < |s| && TopLevel(s, i) && s[i] != '[' && BoundaryAt(rule, s, i) ::
      Boundary(rule, s).Some? && Boundary(rule, s).value <= i
  {
    BoundaryFromIsFirst(rule, s, 0);
    forall i | Boundary(rule, s) == Some(i)
      ensures TopLevel(s, i + 1)
    {
      ReachesCompose(s, 0, i, i + 1);
    }
  }

  // ---- cutting off a top-level prefix ----------------------------------------------------------

  lemma {:induction false} FindCloseShift(s: string, c: nat, k: nat)
    requires c <= |s|
    ensures FindClose(s[c..], k) == (if FindClose(s, c + k).Some? then Some(FindClose(s, c + k).value - c) else None)
    decreases |s| - k
  {
    if c + k < |s| && s[c + k] != ']' {
      FindCloseShift(s, c, k + 1);
    }
  }

  lemma {:induction false} FindDoubleCloseShift(s: string, c: nat, k: nat)
    requires c <= |s|
    ensures FindDoubleClose(s[c..], k) ==
            (if FindDoubleClose(s, c + k).Some? then Some(FindDoubleClose(s, c + k).value - c) else None)
    decreases |s| - k
  {
    if c + k + 1 < |s| && !(s[c + k] == ']' && s[c + k + 1] == ']') {
      FindDoubleCloseShift(s, c, k + 1);
    }
  }

  lemma TokenEndShift(s: string, c: nat, j: nat)
    requires c <= |s|
    ensures TokenEnd(s[c..], j) == (if TokenEnd(s, c + j).Some? then Some(TokenEnd(s, c + j).value - c) else None)
  {
    FindDoubleCloseShift(s, c, j + 2);
    FindCloseShift(s, c, j + 1);
  }

  lemma {:induction false} ReachesShift(s: string, c: nat, j: nat, i: nat)
    requires c + i <= |s|
    ensures Reaches(s[c..], j, i) <==> Reaches(s, c + j, c + i)
    decreases |s| - j
  {
    if j < i {
      TokenEndShift(s, c, j);
      if s[c + j] == '[' {
        if TokenEnd(s, c + j).Some? {
          ReachesShift(s, c, TokenEnd(s, c + j).value - c, i);
        }
      } else {
        ReachesShift(s, c, j + 1, i);
      }
    }
  }

  lemma TopLevelShift(s: string, c: nat, i: nat)
    requires TopLevel(s, c) && c + i <= |s| && TopLevel(s[c..], i)
    ensures TopLevel(s, c + i)
  {
    ReachesShift(s, c, 0, i);
    ReachesCompose(s, 0, c, c + i);
  }

  lemma {:induction false} Utf8LenSplits(a: string, b: string)
    ensures Utf8Len(a + b) == Utf8Len(a) + Utf8Len(b)
  {
    if b == [] {
      assert a + b == a;
    } else {
      Utf8LenSplits(a, b[..|b| - 1]);
      assert (a + b)[..|a + b| - 1] == a + b[..|b| - 1];
    }
  }

  /** Cutting at a top-level position leaves no boundary that was not there before. */
  lemma TailHasNoNewBoundary(rule: Rule, s: string, c: nat)
    requires TopLevel(s, c) && Boundary(rule, s).None?
    ensures Boundary(rule, s[c..]).None?
  {
    var t := s[c..];
    BoundaryIsFirstBreak(rule, s);
    BoundaryIsFirstBreak(rule, t);
    if Boundary(rule, t).Some? {
      var i := Boundary(rule, t).value;
      assert TopLevel(t, i) && t[i] != '[' && BoundaryAt(rule, t, i);
      TopLevelShift(s, c, i);
      Utf8LenSplits(s[..c], t[..i]);
      assert s[..c] + t[..i] == s[..c + i];
      assert BoundaryAt(rule, s, c + i);
    }
  }

  // ---- the scanning loops ------------------------------------------------------------------------

  /** `sentence_end` and `first_clause_end`: one pass that jumps over whole bracket tokens. */
  method FindBoundary(rule: Rule, s: string) returns (r: Option<nat>)
    ensures r == Boundary(rule, s)
    ensures r.Some? ==> FirstBoundary(rule, s, 0, r.value)
  {
    BoundaryIsFirstBreak(rule, s);
    var i := 0;
    var bytes := 0;
    while i < |s|
      invariant 0 <= i <= |s| && bytes == Utf8Len(s[..i])
      invariant BoundaryFrom(rule, s, i) == Boundary(rule, s)
    {
      if s[i] == '[' {
        var end := TokenEnd(s, i);
        if end.None? {
          return None;
        }
        Utf8LenSplits(s[..i], s[i..end.value]);
        assert s[..i] + s[i..end.value] == s[..end.value];
        bytes := bytes + Utf8Len(s[i..end.value]);
        i := end.value;
      } else {
        if bytes >= MinBytes(rule) && Breaks(rule, s, i) {
          return Some(i);
        }
        assert s[..i + 1][..i] == s[..i];
        bytes := bytes + Utf8Width(s[i]);
        i := i + 1;
      }
    }
    r := None;
  }

  function NextOpen(s: string, k: nat): (r: nat)
    requires k <= |s|
    ensures k <= r <= |s| && (r < |s| ==> s[r] == '[')
    decreases |s| - k
  {
    if k == |s| || s[k] == '[' then k else NextOpen(s, k + 1)
  }

  lemma {:induction false} ReachesNextOpen(s: string, k: nat)
    requires k <= |s|
    ensures Reaches(s, k, NextOpen(s, k))
    decreases |s| - k
  {
    if k < |s| && s[k] != '[' {
      ReachesNextOpen(s, k + 1);
    }
  }

  /** `terminal_speech_remainder`: the text may be spoken exactly when all its bracket tokens are closed. */
  method TerminalRemainder(s: string) returns (speakable: bool)
    ensures speakable <==> TopLevel(s, |s|)
  {
    var from := 0;
    while true
      invariant 0 <= from <= |s| && TopLevel(s, from)
      decreases |s| - from
    {
      var start := NextOpen(s, from);
      ReachesNextOpen(s, from);
      ReachesCompose(s, 0, from, start);
      if start == |s| {
        return true;
      }
      ReachesCompose(s, 0, start, |s|);
      var end := TokenEnd(s, start);
      if end.None? {
        return false;
      }
      ReachesCompose(s, 0, start, end.value);
      from := end.value;
    }
  }
}
