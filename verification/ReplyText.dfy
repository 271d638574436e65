/** The text a reply takes in, told from the lines alone, and exactly which line ends the stream. */
module ReplyText {
  import opened Prelude
  import opened ReplyBoundaries
  import opened ReplyStream

  // ---- what the lines say --------------------------------------------------------------------------

  /** The content of one line. */
  function Content(a: Arrival): string {
    if a.line.Chunk? then a.line.delta else ""
  }

  /** The content of the lines, in order. */
  function TextOf(lines: seq<Arrival>): string {
    if lines == [] then "" else TextOf(lines[..|lines| - 1]) + Content(lines[|lines| - 1])
  }

  /** Some line carried a finish reason. */
  predicate Stopped(lines: seq<Arrival>) {
    exists j :: 0 <= j < |lines| && StopLine(lines[j])
  }

  function GarbageCount(lines: seq<Arrival>): nat {
    if lines == [] then 0 else GarbageCount(lines[..|lines| - 1]) + if lines[|lines| - 1].line.Garbage? then 1 else 0
  }

  /** After the lines `before`, line `a` ends the stream whoever listens. */
  predicate Ends(before: seq<Arrival>, a: Arrival) {
    || a.cancelled || a.line.ReadFailed? || a.line.DoneMark?
    || (a.line.Garbage? && GarbageCount(before) >= MAX_MALFORMED)
    || (a.line.Chunk? &&
          (|| a.line.finish.NonText?
           || (a.line.finish.Reason? && (a.line.finish.text != "stop" || Stopped(before)))
           || (a.line.delta != "" && Stopped(before))))
  }

  /** How it then ends: a read error first, then the caller's cancellation, then what the line says. */
  function EndOf(before: seq<Arrival>, a: Arrival): Halt {
    if a.line.ReadFailed? then Failed
    else if a.cancelled then Aborted
    else if a.line.DoneMark? && Stopped(before) then Finished
    else Failed
  }

  /** The listener let everything spoken so far go on. */
  ghost predicate Approved(keep: Listener, spoken: seq<string>) {
    forall i :: 0 < i <= |spoken| ==> keep(spoken[..i])
  }

  // ---- one line ------------------------------------------------------------------------------------

  lemma StoppedSnoc(lines: seq<Arrival>, a: Arrival)
    ensures Stopped(lines + [a]) <==> Stopped(lines) || StopLine(a)
  {
    if Stopped(lines) {
      var j :| 0 <= j < |lines| && StopLine(lines[j]);
      assert StopLine((lines + [a])[j]);
    }
    if StopLine(a) {
      assert StopLine((lines + [a])[|lines|]);
    }
  }

  lemma Snoc(lines: seq<Arrival>, a: Arrival)
    ensures TextOf(lines + [a]) == TextOf(lines) + Content(a)
    ensures GarbageCount(lines + [a]) == GarbageCount(lines) + if a.line.Garbage? then 1 else 0
  {
    assert (lines + [a])[..|lines|] == lines;
  }

  /** Whether the listener stopped a flush that began approved. */
  ghost predicate Heeded(keep: Listener, r: Stream) {
    if r.halt == Aborted then r.spoken != [] && !keep(r.spoken) else r.halt == Running && Approved(keep, r.spoken)
  }

  lemma {:induction false} CutHeeds(st: Stream, i: nat, keep: Listener)
    requires i < |st.buf| && st.halt == Running && Approved(keep, st.spoken)
    ensures Heeded(keep, Cut(st, i, keep)) && Cut(st, i, keep).full == st.full
    ensures Cut(st, i, keep).sawStop == st.sawStop && Cut(st, i, keep).malformed == st.malformed
  {
    var said := st.spoken + [Trim(st.buf[..i + 1])];
    assert said[..|said|] == said;
    assert forall k :: 0 < k <= |st.spoken| ==> said[..k] == st.spoken[..k];
  }

  lemma {:induction false} FlushHeeds(st: Stream, keep: Listener)
    requires st.halt == Running && Approved(keep, st.spoken)
    ensures Heeded(keep, FlushSentences(st, keep))
    decreases |st.buf|
  {
    BoundaryIsFirstBreak(Sentence, st.buf);
    if Boundary(Sentence, st.buf).Some? {
      var cut := Cut(st, Boundary(Sentence, st.buf).value, keep);
      CutHeeds(st, Boundary(Sentence, st.buf).value, keep);
      if cut.halt == Running {
        FlushHeeds(cut, keep);
      }
    }
  }

  /** A delta is taken in whole, and only the listener can stop its flush. */
  lemma {:induction false} DeltaTakenIn(st: Stream, delta: string, keep: Listener)
    requires st.halt == Running && Approved(keep, st.spoken)
    ensures var r := OnDelta(st, delta, keep);
      r.full == st.full + delta && r.sawStop == st.sawStop && r.malformed == st.malformed && Heeded(keep, r)
  {
    var flushed := FlushSentences(Append(st, delta), keep);
    FlushHeeds(Append(st, delta), keep);
    BoundaryIsFirstBreak(Clause, flushed.buf);
    if flushed.halt == Running && !flushed.flushedAny && Boundary(Clause, flushed.buf).Some? {
      CutHeeds(flushed, Boundary(Clause, flushed.buf).value, keep);
    }
  }

  /** The stream is what the lines `before` made of it. */
  ghost predicate Reads(before: seq<Arrival>, st: Stream, keep: Listener) {
    && st.full == TextOf(before) && st.sawStop == Stopped(before) && st.malformed == GarbageCount(before)
    && Approved(keep, st.spoken) && st.halt == Running
  }

  /** A line that ends the stream is not taken in. */
  lemma {:induction false} EndingLine(before: seq<Arrival>, st: Stream, a: Arrival, keep: Listener)
    requires Reads(before, st, keep) && Ends(before, a)
    ensures var r := OnLine(st, a, keep);
      r.halt == EndOf(before, a) && r.full == st.full && r.buf == st.buf && r.spoken == st.spoken && r.cuts == st.cuts
  {
  }

  /** Any other line is taken in, and only the listener can then stop the stream. */
  lemma {:induction false} TakenLine(before: seq<Arrival>, st: Stream, a: Arrival, keep: Listener)
    requires Reads(before, st, keep) && !Ends(before, a)
    ensures var r := OnLine(st, a, keep);
      && r.full == TextOf(before + [a]) && Heeded(keep, r)
      && (r.halt == Running ==> Reads(before + [a], r, keep))
  {
    StoppedSnoc(before, a);
    Snoc(before, a);
    if a.line.Chunk? {
      DeltaTakenIn(st.(sawStop := st.sawStop || a.line.finish.Reason?), a.line.delta, keep);
    }
  }

  // ---- the whole stream --------------------------------------------------------------------------------

  lemma RunSnoc(lines: seq<Arrival>, n: nat, keep: Listener)
    requires n < |lines|
    ensures Run(lines[..n + 1], keep) == OnLine(Run(lines[..n], keep), lines[n], keep)
    ensures lines[..n + 1] == lines[..n] + [lines[n]]
  {
    assert lines[..n + 1][..n] == lines[..n];
  }

  /** A running stream has taken in every line. */
  lemma {:induction false} RunningReads(lines: seq<Arrival>, n: nat, keep: Listener)
    requires n <= |lines| && Run(lines[..n], keep).halt == Running
    ensures Reads(lines[..n], Run(lines[..n], keep), keep)
    ensures forall k | 0 <= k < n :: !Ends(lines[..k], lines[k])
  {
    if n > 0 {
      RunSnoc(lines, n - 1, keep);
      var st := Run(lines[..n - 1], keep);
      assert st.halt == Running;
      RunningReads(lines, n - 1, keep);
      if Ends(lines[..n - 1], lines[n - 1]) {
        EndingLine(lines[..n - 1], st, lines[n - 1], keep);
      } else {
        TakenLine(lines[..n - 1], st, lines[n - 1], keep);
      }
    }
  }

  /** The stream was running up to line `n` and has ended with it. */
  ghost predicate EndedAt(lines: seq<Arrival>, n: nat, keep: Listener) {
    && n < |lines| && Run(lines[..n], keep).halt == Running && Run(lines[..n + 1], keep).halt != Running
    && Run(lines, keep) == Run(lines[..n + 1], keep)
  }

  lemma {:induction false} EndedSomewhere(lines: seq<Arrival>, keep: Listener) returns (n: nat)
    requires Run(lines, keep).halt != Running
    ensures EndedAt(lines, n, keep)
  {
    n := |lines| - 1;
    assert lines[..n + 1] == lines;
    if Run(lines[..n], keep).halt != Running {
      n := EndedSomewhere(lines[..n], keep);
      assert lines[..|lines| - 1][..n] == lines[..n] && lines[..|lines| - 1][..n + 1] == lines[..n + 1];
    }
  }

  /**
   * What a stream that ended at line `n` took in: everything before that line, and that line too if it was the
   * listener who stopped the stream while it was being spoken.
   */
  lemma {:induction false} EndedText(lines: seq<Arrival>, n: nat, keep: Listener)
    requires EndedAt(lines, n, keep)
    ensures var st := Run(lines, keep);
      if Ends(lines[..n], lines[n]) then st.halt == EndOf(lines[..n], lines[n]) && st.full == TextOf(lines[..n])
      else st.halt == Aborted && st.full == TextOf(lines[..n + 1]) && st.spoken != [] && !keep(st.spoken)
  {
    RunSnoc(lines, n, keep);
    RunningReads(lines, n, keep);
    if Ends(lines[..n], lines[n]) {
      EndingLine(lines[..n], Run(lines[..n], keep), lines[n], keep);
    } else {
      TakenLine(lines[..n], Run(lines[..n], keep), lines[n], keep);
    }
  }

  /**
   * A stream still runs exactly when no line so far ended it and the listener approved all that was spoken; its text
   * is then the content of all the lines.
   */
  lemma {:induction false} RunningIff(lines: seq<Arrival>, keep: Listener)
    ensures Run(lines, keep).halt == Running <==>
      (forall k | 0 <= k < |lines| :: !Ends(lines[..k], lines[k])) && Approved(keep, Run(lines, keep).spoken)
    ensures Run(lines, keep).halt == Running ==> Run(lines, keep).full == TextOf(lines)
  {
    assert lines[..|lines|] == lines;
    if Run(lines, keep).halt == Running {
      RunningReads(lines, |lines|, keep);
    } else {
      var n := EndedSomewhere(lines, keep);
      EndedText(lines, n, keep);
      var spoken := Run(lines, keep).spoken;
      assert spoken[..|spoken|] == spoken;
    }
  }

  /** The text read by a stream that ends at line `n`: that line is taken in unless it is what ends the stream. */
  function TextRead(lines: seq<Arrival>, n: nat): string
    requires n < |lines|
  {
    if Ends(lines[..n], lines[n]) then TextOf(lines[..n]) else TextOf(lines[..n + 1])
  }

  /** The text of a reply: that of the lines read by a stream that finished or was stopped, and none otherwise. */
  lemma {:induction false} ReplyTextIs(lines: seq<Arrival>, n: nat, keep: Listener)
    requires EndedAt(lines, n, keep)
    ensures Conclude(Run(lines, keep)).text ==
      if Ends(lines[..n], lines[n]) && EndOf(lines[..n], lines[n]) == Failed then Err(()) else Ok(TextRead(lines, n))
  {
    EndedText(lines, n, keep);
  }

  // ---- every cut is the first one possible ------------------------------------------------------------------

  /** Cut `k` was made at the first sentence of what was left, or, as the first of all, at the first clause. */
  predicate CutFirst(st: Stream, k: nat)
    requires k < |st.cuts|
  {
    && CutOffset(st.cuts, k) <= |st.full| && st.cuts[k] != []
    && (|| Boundary(Sentence, st.full[CutOffset(st.cuts, k)..]) == Some(|st.cuts[k]| - 1)
        || (k == 0 && Boundary(Clause, st.full) == Some(|st.cuts[0]| - 1)))
  }

  ghost predicate CutsFirst(st: Stream) {
    && (forall k | 0 <= k < |st.cuts| :: CutFirst(st, k))
    && (st.halt == Running && !st.flushedAny ==> st.cuts == [])
  }

  lemma {:induction false} StaysFirst(st: Stream, delta: string, k: nat)
    requires k < |st.cuts| && CutFirst(st, k)
    ensures CutFirst(Append(st, delta), k)
  {
    var c := CutOffset(st.cuts, k);
    assert (st.full + delta)[c..] == st.full[c..] + delta;
    if Boundary(Sentence, st.full[c..]).Some? {
      BoundaryStable(Sentence, st.full[c..], delta, 0);
    }
    if Boundary(Clause, st.full).Some? {
      BoundaryStable(Clause, st.full, delta, 0);
    }
  }

  lemma {:induction false} FirstOnAppend(st: Stream, delta: string)
    requires CutsFirst(st)
    ensures CutsFirst(Append(st, delta))
  {
    forall k | 0 <= k < |st.cuts|
      ensures CutFirst(Append(st, delta), k)
    {
      StaysFirst(st, delta, k);
    }
  }

  /** A cut at the first boundary of the buffer is one of what was left of the text. */
  lemma {:induction false} NewCutFirst(st: Stream, rule: Rule, i: nat, keep: Listener)
    requires Sound(st) && i < |st.buf| && Boundary(rule, st.buf) == Some(i) && (rule.Clause? ==> st.cuts == [])
    ensures CutFirst(Cut(st, i, keep), |st.cuts|)
  {
    var chunk := st.buf[..i + 1];
    OffsetAfterCut(st.cuts, chunk, |st.cuts|);
    assert st.cuts[..|st.cuts|] == st.cuts;
    assert st.full[|Concat(st.cuts)|..] == st.buf;
    if rule.Clause? {
      assert st.full == st.buf;
    }
  }

  lemma {:induction false} OldCutFirst(st: Stream, i: nat, keep: Listener, k: nat)
    requires i < |st.buf| && k < |st.cuts| && CutFirst(st, k)
    ensures CutFirst(Cut(st, i, keep), k)
  {
    OffsetAfterCut(st.cuts, st.buf[..i + 1], k);
  }

  lemma {:induction false} FirstOnCut(st: Stream, rule: Rule, i: nat, keep: Listener)
    requires Sound(st) && CutsFirst(st) && i < |st.buf| && Boundary(rule, st.buf) == Some(i) && (rule.Clause? ==> st.cuts == [])
    ensures CutsFirst(Cut(st, i, keep))
  {
    var cut := Cut(st, i, keep);
    forall k | 0 <= k < |cut.cuts|
      ensures CutFirst(cut, k)
    {
      if k < |st.cuts| {
        OldCutFirst(st, i, keep, k);
      } else {
        NewCutFirst(st, rule, i, keep);
      }
    }
  }

  lemma {:induction false} FirstOnSentence(st: Stream, keep: Listener)
    requires Sound(st) && CutsFirst(st) && st.halt == Running && Boundary(Sentence, st.buf).Some?
    ensures var i := Boundary(Sentence, st.buf).value;
      && i < |st.buf| && Sound(Cut(st, i, keep)) && CutsFirst(Cut(st, i, keep))
      && FlushSentences(st, keep) == FlushSentences(Cut(st, i, keep), keep)
  {
    var i := Boundary(Sentence, st.buf).value;
    FlushUnfolds(st, keep);
    BoundaryIsFirstBreak(Sentence, st.buf);
    assert Boundary(Sentence, st.buf) == Some(i);
    SoundCut(st, i, keep);
    FirstOnCut(st, Sentence, i, keep);
  }

  lemma {:induction false} FirstOnFlush(st: Stream, keep: Listener)
    requires Sound(st) && CutsFirst(st)
    ensures CutsFirst(FlushSentences(st, keep))
    decreases |st.buf|
  {
    if st.halt == Running && Boundary(Sentence, st.buf).Some? {
      FirstOnSentence(st, keep);
      FirstOnFlush(Cut(st, Boundary(Sentence, st.buf).value, keep), keep);
    }
  }

  lemma {:induction false} FirstOnDelta(st: Stream, delta: string, keep: Listener)
    requires Sound(st) && CutsFirst(st)
    ensures CutsFirst(OnDelta(st, delta, keep))
  {
    var flushed := FlushSentences(Append(st, delta), keep);
    SoundAppend(st, delta);
    FirstOnAppend(st, delta);
    SoundFlushSentences(Append(st, delta), keep);
    FirstOnFlush(Append(st, delta), keep);
    BoundaryIsFirstBreak(Clause, flushed.buf);
    if flushed.halt == Running && !flushed.flushedAny && Boundary(Clause, flushed.buf).Some? {
      FirstOnCut(flushed, Clause, Boundary(Clause, flushed.buf).value, keep);
    }
  }

  lemma {:induction false} FirstOnLine(st: Stream, a: Arrival, keep: Listener)
    requires Sound(st) && CutsFirst(st)
    ensures CutsFirst(OnLine(st, a, keep))
  {
    LineFeedsOrNot(st, a, keep);
    if SameText(st, OnLine(st, a, keep)) {
      SameCutsFirst(st, OnLine(st, a, keep));
    } else {
      var told := st.(sawStop := st.sawStop || a.line.finish.Reason?);
      SameCutsFirst(st, told);
      SoundOfText(st, told);
      FirstOnDelta(told, a.line.delta, keep);
    }
  }

  lemma {:induction false} SameCutsFirst(a: Stream, b: Stream)
    requires SameText(a, b) && CutsFirst(a) && (b.halt == Running ==> a.halt == Running)
    ensures CutsFirst(b)
  {
    forall k | 0 <= k < |b.cuts|
      ensures CutFirst(b, k)
    {
      assert CutFirst(a, k);
    }
  }

  /**
   * For every reply, every split and every listener: each cut ends at the first sentence boundary of what was left of
   * the text, or, the first of all, at its first clause boundary.
   */
  lemma {:induction false} EveryCutIsFirst(lines: seq<Arrival>, keep: Listener)
    ensures CutsFirst(Run(lines, keep))
  {
    if lines != [] {
      EveryStreamIsSound(lines[..|lines| - 1], keep);
      EveryCutIsFirst(lines[..|lines| - 1], keep);
      FirstOnLine(Run(lines[..|lines| - 1], keep), lines[|lines| - 1], keep);
    }
  }

  // ---- splits of a whole reply ---------------------------------------------------------------------------

  /** Feeding a stream nothing changes nothing. */
  lemma {:induction false} NothingFed(st: Stream, keep: Listener)
    requires st.halt == Running && Drained(st) && Settled(st)
    ensures OnDelta(st, "", keep) == st
  {
    assert Append(st, "") == st;
  }

  lemma {:induction false} FeedChunk(st: Stream, d: string, keep: Listener)
    requires !st.sawStop && Drained(st) && Settled(st)
    ensures var r := OnLine(st, Arrival(Chunk(NoFinish, d), false), keep);
      !r.sawStop && r == if st.halt == Running then OnDelta(st, d, keep) else st
  {
    if d == "" && st.halt == Running {
      NothingFed(st, keep);
    }
  }

  lemma {:induction false} ChunksAreFed(lines: seq<Arrival>, deltas: seq<string>, keep: Listener)
    requires !Run(lines, keep).sawStop
    ensures Run(lines + Chunks(deltas), keep) == FeedAll(Run(lines, keep), deltas, keep)
    ensures !Run(lines + Chunks(deltas), keep).sawStop
  {
    if deltas == [] {
      assert lines + Chunks(deltas) == lines;
    } else {
      var init, d := deltas[..|deltas| - 1], deltas[|deltas| - 1];
      var h, a := lines + Chunks(init), Arrival(Chunk(NoFinish, d), false);
      ChunksAreFed(lines, init, keep);
      EveryStreamIsDrained(h, keep);
      EveryStreamIsSettled(h, keep);
      FeedChunk(Run(h, keep), d, keep);
      assert lines + Chunks(deltas) == h + [a] && (h + [a])[..|h|] == h;
    }
  }

  lemma {:induction false} OneDelta(st: Stream, text: string, keep: Listener)
    requires st.halt == Running
    ensures FeedAll(st, [text], keep) == OnDelta(st, text, keep)
  {
    assert [text][..0] == [];
  }

  /**
   * In any reply that has flushed nothing yet, content events act like one event with all their text exactly when no
   * clause had ended in the first of them before a sentence that only the later ones complete.
   */
  lemma {:induction false} ReplySplitsAgreeIff(lines: seq<Arrival>, deltas: seq<string>, keep: Listener)
    requires var st := Run(lines, keep); st.halt == Running && !st.sawStop && !st.flushedAny
    ensures var st := Run(lines, keep);
      Agree(Run(lines + Chunks(deltas), keep), Run(lines + Chunks([Concat(deltas)]), keep)) <==>
        forall k | 0 <= k <= |deltas| :: !ClauseJumpedAhead(Early(st, deltas, k), Early(st, deltas, |deltas|))
  {
    EveryStreamIsSettled(lines, keep);
    ChunksAreFed(lines, deltas, keep);
    ChunksAreFed(lines, [Concat(deltas)], keep);
    OneDelta(Run(lines, keep), Concat(deltas), keep);
    UnflushedSplitsAgreeIff(Run(lines, keep), deltas, keep);
  }
}
