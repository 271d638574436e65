/** The streaming reply: SSE lines in, speakable chunks out. */
module ReplyStream {
  import opened Prelude
  import opened ReplyBoundaries

  datatype Finish = NoFinish | NonText | Reason(text: string)

  /** One line of the response body, already classified; `Chunk` is a parsed JSON event. */
  datatype Line =
    | ReadFailed
    | NotData
    | DoneMark
    | Garbage
    | Chunk(finish: Finish, delta: string)

  /** A line together with whether the caller had cancelled by the time it was read. */
  datatype Arrival = Arrival(line: Line, cancelled: bool)

  datatype Halt = Running | Aborted | Finished | Failed

  datatype Stream = Stream(
    full: string,
    buf: string,
    cuts: seq<string>,
    spoken: seq<string>,
    flushedAny: bool,
    sawStop: bool,
    malformed: nat,
    halt: Halt)

  const START := Stream("", "", [], [], false, false, 0, Running)
  const MAX_MALFORMED := 20

  /** `on_sentence`: whether speaking may go on after the chunks spoken so far. */
  type Listener = seq<string> -> bool

  /** Take `buf[..=i]` off as a chunk; a chunk that is only whitespace is not spoken. */
  function Cut(st: Stream, i: nat, keep: Listener): Stream
    requires i < |st.buf|
  {
    var chunk := st.buf[..i + 1];
    var taken := st.(buf := st.buf[i + 1..], cuts := st.cuts + [chunk]);
    if Blank(chunk) then taken.(flushedAny := true)
    else
      var said := taken.(spoken := st.spoken + [Trim(chunk)]);
      if keep(said.spoken) then said.(flushedAny := true) else said.(halt := Aborted)
  }

  function FlushSentences(st: Stream, keep: Listener): (r: Stream)
    ensures r.full == st.full && r.sawStop == st.sawStop && r.malformed == st.malformed
    decreases |st.buf|
  {
    if st.halt != Running then st
    else match Boundary(Sentence, st.buf)
      case None => st
      case Some(i) => if i < |st.buf| then FlushSentences(Cut(st, i, keep), keep) else st
  }

  /** The eager first clause: only while nothing at all has been flushed. */
  function FlushClause(st: Stream, keep: Listener): Stream {
    if st.halt != Running || st.flushedAny then st
    else match Boundary(Clause, st.buf)
      case None => st
      case Some(i) => if i < |st.buf| then Cut(st, i, keep) else st
  }

  function Append(st: Stream, delta: string): Stream {
    st.(full := st.full + delta, buf := st.buf + delta)
  }

  function OnDelta(st: Stream, delta: string, keep: Listener): Stream {
    FlushClause(FlushSentences(Append(st, delta), keep), keep)
  }

  function OnLine(st: Stream, a: Arrival, keep: Listener): Stream {
    if st.halt != Running then st
    else if a.line.ReadFailed? then st.(halt := Failed)
    else if a.cancelled then st.(halt := Aborted)
    else match a.line
      case NotData => st
      case DoneMark => st.(halt := if st.sawStop then Finished else Failed)
      case Garbage =>
        st.(malformed := st.malformed + 1, halt := if st.malformed + 1 > MAX_MALFORMED then Failed else Running)
      case Chunk(finish, delta) =>
        if finish.NonText? || (finish.Reason? && (finish.text != "stop" || st.sawStop)) then st.(halt := Failed)
        else
          var told := st.(sawStop := st.sawStop || finish.Reason?);
          if delta == "" then told
          else if told.sawStop && !finish.Reason? then told.(halt := Failed)
          else OnDelta(told, delta, keep)
  }

  function Run(lines: seq<Arrival>, keep: Listener): Stream {
    if lines == [] then START else OnLine(Run(lines[..|lines| - 1], keep), lines[|lines| - 1], keep)
  }

  function Concat(parts: seq<string>): string {
    if parts == [] then "" else Concat(parts[..|parts| - 1]) + parts[|parts| - 1]
  }

  /** A clause chunk ends in its mark, so it is never blank and the eager flush always speaks what it cuts. */
  lemma {:induction false} ClauseChunkIsSpoken(buf: string)
    requires Boundary(Clause, buf).Some?
    ensures var i := Boundary(Clause, buf).value; i < |buf| && !Blank(buf[..i + 1])
  {
    BoundaryIsFirstBreak(Clause, buf);
    var i := Boundary(Clause, buf).value;
    assert Boundary(Clause, buf) == Some(i) && Breaks(Clause, buf, i);
    assert buf[..i + 1][i] == buf[i] && !IsWhitespace(buf[i]);
  }

  // ---- conservation and tokens ------------------------------------------------------------

  /** Where cut `k` ends in the full text. */
  function CutOffset(cuts: seq<string>, k: nat): nat
    requires k <= |cuts|
  {
    |Concat(cuts[..k])|
  }

  /** What is spoken of the cuts: each trimmed, whitespace dropped. */
  function SpokenOf(cuts: seq<string>): seq<string> {
    if cuts == [] then []
    else
      var last := cuts[|cuts| - 1];
      SpokenOf(cuts[..|cuts| - 1]) + if Blank(last) then [] else [Trim(last)]
  }

  ghost predicate Sound(st: Stream) {
    && Concat(st.cuts) + st.buf == st.full
    && st.spoken == SpokenOf(st.cuts)
    && forall k | 0 <= k <= |st.cuts| :: TopLevel(st.full, CutOffset(st.cuts, k))
  }

  lemma {:induction false} SoundAppend(st: Stream, delta: string)
    requires Sound(st)
    ensures Sound(Append(st, delta))
  {
    assert Concat(st.cuts) + (st.buf + delta) == st.full + delta;
    forall k | 0 <= k <= |st.cuts|
      ensures TopLevel(st.full + delta, CutOffset(st.cuts, k))
    {
      assert TopLevel(st.full, CutOffset(st.cuts, k));
      ReachesStable(st.full, delta, 0, CutOffset(st.cuts, k));
    }
  }

  lemma {:induction false} CutsAppend(cuts: seq<string>, chunk: string)
    ensures Concat(cuts + [chunk]) == Concat(cuts) + chunk
    ensures SpokenOf(cuts + [chunk]) == SpokenOf(cuts) + if Blank(chunk) then [] else [Trim(chunk)]
  {
    assert (cuts + [chunk])[..|cuts|] == cuts;
  }

  /** One more cut leaves the earlier offsets alone and ends after its own chunk. */
  lemma {:induction false} OffsetAfterCut(cuts: seq<string>, chunk: string, k: nat)
    requires k <= |cuts| + 1
    ensures CutOffset(cuts + [chunk], k) ==
            if k <= |cuts| then CutOffset(cuts, k) else |Concat(cuts)| + |chunk|
  {
    var more := cuts + [chunk];
    if k <= |cuts| {
      assert more[..k] == cuts[..k];
    } else {
      assert more[..k] == more;
      CutsAppend(cuts, chunk);
    }
  }

  lemma {:induction false} OffsetsExtend(full: string, cuts: seq<string>, chunk: string)
    requires forall k | 0 <= k <= |cuts| :: TopLevel(full, CutOffset(cuts, k))
    requires TopLevel(full, |Concat(cuts)| + |chunk|)
    ensures forall k | 0 <= k <= |cuts| + 1 :: TopLevel(full, CutOffset(cuts + [chunk], k))
  {
    forall k | 0 <= k <= |cuts| + 1
      ensures TopLevel(full, CutOffset(cuts + [chunk], k))
    {
      OffsetAfterCut(cuts, chunk, k);
    }
  }

  lemma {:induction false} CutIsTopLevel(st: Stream, i: nat)
    requires Sound(st) && i < |st.buf| && TopLevel(st.buf, i + 1)
    ensures TopLevel(st.full, |Concat(st.cuts)| + (i + 1))
  {
    var c := |Concat(st.cuts)|;
    assert st.cuts[..|st.cuts|] == st.cuts;
    assert TopLevel(st.full, CutOffset(st.cuts, |st.cuts|));
    assert st.full[c..] == st.buf;
    TopLevelShift(st.full, c, i + 1);
  }

  lemma {:induction false} CutConserves(a: string, buf: string, i: nat)
    requires i < |buf|
    ensures (a + buf[..i + 1]) + buf[i + 1..] == a + buf
  {
    assert buf[..i + 1] + buf[i + 1..] == buf;
  }

  lemma {:induction false} SoundCut(st: Stream, i: nat, keep: Listener)
    requires Sound(st) && i < |st.buf| && TopLevel(st.buf, i + 1)
    ensures Sound(Cut(st, i, keep))
  {
    CutIsTopLevel(st, i);
    OffsetsExtend(st.full, st.cuts, st.buf[..i + 1]);
    CutsAppend(st.cuts, st.buf[..i + 1]);
    CutConserves(Concat(st.cuts), st.buf, i);
  }

  lemma {:induction false} SoundFlushSentences(st: Stream, keep: Listener)
    requires Sound(st)
    ensures Sound(FlushSentences(st, keep))
    decreases |st.buf|
  {
    BoundaryIsFirstBreak(Sentence, st.buf);
    if st.halt == Running && Boundary(Sentence, st.buf).Some? {
      var i := Boundary(Sentence, st.buf).value;
      SoundCut(st, i, keep);
      SoundFlushSentences(Cut(st, i, keep), keep);
    }
  }

  lemma {:induction false} SoundOnDelta(st: Stream, delta: string, keep: Listener)
    requires Sound(st)
    ensures Sound(OnDelta(st, delta, keep))
  {
    SoundAppend(st, delta);
    SoundFlushSentences(Append(st, delta), keep);
    var flushed := FlushSentences(Append(st, delta), keep);
    BoundaryIsFirstBreak(Clause, flushed.buf);
    if Boundary(Clause, flushed.buf).Some? {
      SoundCut(flushed, Boundary(Clause, flushed.buf).value, keep);
    }
  }

  /** The text, the cuts and what was spoken are the same. */
  predicate SameText(a: Stream, b: Stream) {
    a.full == b.full && a.buf == b.buf && a.cuts == b.cuts && a.spoken == b.spoken && a.flushedAny == b.flushedAny
  }

  /** A line feeds its delta, or leaves the text alone. */
  lemma {:induction false} LineFeedsOrNot(st: Stream, a: Arrival, keep: Listener)
    ensures (SameText(st, OnLine(st, a, keep)) && (OnLine(st, a, keep).halt == Running ==> st.halt == Running))
            || (a.line.Chunk? && OnLine(st, a, keep) == OnDelta(st.(sawStop := st.sawStop || a.line.finish.Reason?), a.line.delta, keep))
  {
  }

  lemma {:induction false} SoundOfText(a: Stream, b: Stream)
    requires SameText(a, b) && Sound(a)
    ensures Sound(b)
  {
  }

  lemma {:induction false} SoundOnLine(st: Stream, a: Arrival, keep: Listener)
    requires Sound(st)
    ensures Sound(OnLine(st, a, keep))
  {
    LineFeedsOrNot(st, a, keep);
    if SameText(st, OnLine(st, a, keep)) {
      SoundOfText(st, OnLine(st, a, keep));
    } else {
      var told := st.(sawStop := st.sawStop || a.line.finish.Reason?);
      SoundOfText(st, told);
      SoundOnDelta(told, a.line.delta, keep);
    }
  }

  /**
   * For every reply, every split into deltas and every listener: the raw cuts and the remainder concatenate to the
   * text received, what is spoken is the cuts trimmed, and no cut falls inside a bracket token of that text.
   */
  lemma {:induction false} EveryStreamIsSound(lines: seq<Arrival>, keep: Listener)
    ensures Sound(Run(lines, keep))
  {
    if lines == [] {
      assert TopLevel("", 0);
    } else {
      EveryStreamIsSound(lines[..|lines| - 1], keep);
      SoundOnLine(Run(lines[..|lines| - 1], keep), lines[|lines| - 1], keep);
    }
  }

  // ---- confluence ---------------------------------------------------------------------------

  predicate Drained(st: Stream) {
    st.halt == Running ==> Boundary(Sentence, st.buf).None?
  }

  lemma {:induction false} FlushDrains(st: Stream, keep: Listener)
    ensures Drained(FlushSentences(st, keep))
    decreases |st.buf|
  {
    BoundaryIsFirstBreak(Sentence, st.buf);
    if st.halt == Running && Boundary(Sentence, st.buf).Some? {
      FlushDrains(Cut(st, Boundary(Sentence, st.buf).value, keep), keep);
    }
  }

  lemma {:induction false} OnDeltaDrains(st: Stream, delta: string, keep: Listener)
    ensures Drained(OnDelta(st, delta, keep))
  {
    var flushed := FlushSentences(Append(st, delta), keep);
    FlushDrains(Append(st, delta), keep);
    BoundaryIsFirstBreak(Clause, flushed.buf);
    if flushed.halt == Running && Boundary(Clause, flushed.buf).Some? {
      TailHasNoNewBoundary(Sentence, flushed.buf, Boundary(Clause, flushed.buf).value + 1);
    }
  }

  lemma {:induction false} OnLineDrains(st: Stream, a: Arrival, keep: Listener)
    requires Drained(st)
    ensures Drained(OnLine(st, a, keep))
  {
    LineFeedsOrNot(st, a, keep);
    if !SameText(st, OnLine(st, a, keep)) {
      OnDeltaDrains(st.(sawStop := st.sawStop || a.line.finish.Reason?), a.line.delta, keep);
    }
  }

  /** Every state the stream passes through has flushed all the sentences it holds. */
  lemma {:induction false} EveryStreamIsDrained(lines: seq<Arrival>, keep: Listener)
    ensures Drained(Run(lines, keep))
  {
    if lines != [] {
      EveryStreamIsDrained(lines[..|lines| - 1], keep);
      OnLineDrains(Run(lines[..|lines| - 1], keep), lines[|lines| - 1], keep);
    }
  }

  lemma {:induction false} CutCommutes(st: Stream, i: nat, t: string, keep: Listener)
    requires i < |st.buf|
    ensures Cut(Append(st, t), i, keep) == Append(Cut(st, i, keep), t)
  {
    assert (st.buf + t)[..i + 1] == st.buf[..i + 1] && (st.buf + t)[i + 1..] == st.buf[i + 1..] + t;
  }

  /** Later text never changes what has already been flushed. */
  lemma {:induction false} FlushThenMore(st: Stream, t: string, keep: Listener)
    ensures var done := FlushSentences(st, keep);
      FlushSentences(Append(st, t), keep) ==
        if done.halt == Running then FlushSentences(Append(done, t), keep) else Append(done, t)
    decreases |st.buf|
  {
    if st.halt == Running && Boundary(Sentence, st.buf).Some? {
      var i := Boundary(Sentence, st.buf).value;
      BoundaryIsFirstBreak(Sentence, st.buf);
      BoundaryStable(Sentence, st.buf, t, 0);
      CutCommutes(st, i, t, keep);
      FlushThenMore(Cut(st, i, keep), t, keep);
    }
  }

  /** The deltas one after another; nothing is read once the stream has halted. */
  function FeedAll(st: Stream, deltas: seq<string>, keep: Listener): Stream {
    if deltas == [] then st
    else
      var before := FeedAll(st, deltas[..|deltas| - 1], keep);
      if before.halt == Running then OnDelta(before, deltas[|deltas| - 1], keep) else before
  }

  /** The same chunks were cut and spoken and the stream is in the same condition; the text is the same if it still runs. */
  predicate Agree(a: Stream, b: Stream) {
    && a.cuts == b.cuts && a.spoken == b.spoken && a.flushedAny == b.flushedAny && a.halt == b.halt
    && (a.halt == Running ==> a == b)
  }

  lemma {:induction false} FlushedStaysFlushed(st: Stream, keep: Listener)
    ensures st.flushedAny ==> FlushSentences(st, keep).flushedAny
    decreases |st.buf|
  {
    BoundaryIsFirstBreak(Sentence, st.buf);
    if st.halt == Running && Boundary(Sentence, st.buf).Some? {
      FlushedStaysFlushed(Cut(st, Boundary(Sentence, st.buf).value, keep), keep);
    }
  }

  lemma {:induction false} OnDeltaOnceFlushed(st: Stream, delta: string, keep: Listener)
    requires st.flushedAny
    ensures OnDelta(st, delta, keep) == FlushSentences(Append(st, delta), keep)
    ensures OnDelta(st, delta, keep).flushedAny
  {
    FlushedStaysFlushed(Append(st, delta), keep);
  }

  /**
   * Once anything has been flushed, feeding the rest in any split into deltas cuts and speaks exactly what feeding it
   * in one piece does, and leaves the same remainder unless the listener stopped the reply.
   */
  lemma {:induction false} SplitsAgree(st: Stream, deltas: seq<string>, keep: Listener)
    requires st.flushedAny && st.halt == Running && Drained(st)
    ensures Agree(FeedAll(st, deltas, keep), OnDelta(st, Concat(deltas), keep))
  {
    OnDeltaOnceFlushed(st, Concat(deltas), keep);
    if deltas == [] {
      assert Append(st, "") == st;
    } else {
      var init, d := deltas[..|deltas| - 1], deltas[|deltas| - 1];
      SplitsAgree(st, init, keep);
      OnDeltaOnceFlushed(st, Concat(init), keep);
      SplitsAgreeStep(st, Concat(init), d, FeedAll(st, init, keep), keep);
    }
  }

  lemma {:induction false} SplitsAgreeStep(st: Stream, text: string, d: string, fed: Stream, keep: Listener)
    requires Agree(fed, FlushSentences(Append(st, text), keep)) && (fed.flushedAny || fed.halt != Running)
    ensures Agree(if fed.halt == Running then OnDelta(fed, d, keep) else fed, FlushSentences(Append(st, text + d), keep))
  {
    assert Append(Append(st, text), d) == Append(st, text + d);
    FlushThenMore(Append(st, text), d, keep);
    if fed.halt == Running {
      OnDeltaOnceFlushed(fed, d, keep);
    }
  }

  /** The lines that carry `deltas`, one content event each. */
  function Chunks(deltas: seq<string>): seq<Arrival> {
    if deltas == [] then []
    else Chunks(deltas[..|deltas| - 1]) + [Arrival(Chunk(NoFinish, deltas[|deltas| - 1]), false)]
  }

  lemma {:induction false} ChunksFeed(lines: seq<Arrival>, deltas: seq<string>, keep: Listener)
    requires var st := Run(lines, keep); st.flushedAny && st.halt == Running && !st.sawStop
    ensures var st := Run(lines + Chunks(deltas), keep);
      st == FeedAll(Run(lines, keep), deltas, keep) && st.flushedAny && !st.sawStop
  {
    if deltas == [] {
      assert lines + Chunks(deltas) == lines;
    } else {
      var init, d := deltas[..|deltas| - 1], deltas[|deltas| - 1];
      var h, a := lines + Chunks(init), Arrival(Chunk(NoFinish, d), false);
      ChunksFeed(lines, init, keep);
      EveryStreamIsDrained(h, keep);
      OnDeltaOnceFlushed(Run(h, keep), d, keep);
      assert lines + Chunks(deltas) == h + [a] && (h + [a])[..|h|] == h;
      FeedOneChunk(Run(h, keep), d, keep);
    }
  }

  lemma {:induction false} FeedOneChunk(st: Stream, d: string, keep: Listener)
    requires st.flushedAny && !st.sawStop && Drained(st)
    ensures OnLine(st, Arrival(Chunk(NoFinish, d), false), keep) ==
            if st.halt == Running then OnDelta(st, d, keep) else st
    ensures OnLine(st, Arrival(Chunk(NoFinish, d), false), keep).flushedAny
    ensures !OnLine(st, Arrival(Chunk(NoFinish, d), false), keep).sawStop
  {
    OnDeltaOnceFlushed(st, d, keep);
    if d == "" {
      assert Append(st, d) == st;
    }
  }

  /**
   * In any reply that has flushed something: two ways of splitting the same further text into content events cut and
   * speak the same chunks.
   */
  lemma {:induction false} ReplyIsConfluent(lines: seq<Arrival>, d1: seq<string>, d2: seq<string>, keep: Listener)
    requires var st := Run(lines, keep); st.flushedAny && st.halt == Running && !st.sawStop
    requires Concat(d1) == Concat(d2)
    ensures Agree(Run(lines + Chunks(d1), keep), Run(lines + Chunks(d2), keep))
  {
    EveryStreamIsDrained(lines, keep);
    ChunksFeed(lines, d1, keep);
    ChunksFeed(lines, d2, keep);
    SplitsAgree(Run(lines, keep), d1, keep);
    SplitsAgree(Run(lines, keep), d2, keep);
  }

  // ---- the eager first clause ------------------------------------------------------------------

  /** While nothing has been flushed, no sentence and no clause is complete. */
  predicate Settled(st: Stream) {
    st.halt == Running && !st.flushedAny ==> Boundary(Sentence, st.buf).None? && Boundary(Clause, st.buf).None?
  }

  lemma {:induction false} OnDeltaSettles(st: Stream, delta: string, keep: Listener)
    ensures Settled(OnDelta(st, delta, keep))
  {
    OnDeltaDrains(st, delta, keep);
    BoundaryIsFirstBreak(Clause, FlushSentences(Append(st, delta), keep).buf);
  }

  lemma {:induction false} OnLineSettles(st: Stream, a: Arrival, keep: Listener)
    requires Settled(st)
    ensures Settled(OnLine(st, a, keep))
  {
    LineFeedsOrNot(st, a, keep);
    if !SameText(st, OnLine(st, a, keep)) {
      OnDeltaSettles(st.(sawStop := st.sawStop || a.line.finish.Reason?), a.line.delta, keep);
    }
  }

  lemma {:induction false} EveryStreamIsSettled(lines: seq<Arrival>, keep: Listener)
    ensures Settled(Run(lines, keep))
  {
    if lines != [] {
      EveryStreamIsSettled(lines[..|lines| - 1], keep);
      OnLineSettles(Run(lines[..|lines| - 1], keep), lines[|lines| - 1], keep);
    }
  }

  /** A clause had ended in the `early` text, and only the `whole` completed a sentence. */
  predicate ClauseJumpedAhead(early: string, whole: string) {
    && Boundary(Sentence, early).None? && Boundary(Clause, early).Some?
    && Boundary(Sentence, whole).Some?
  }

  /** The buffer as it would be after the first `k` deltas, had nothing been cut. */
  function Early(st: Stream, deltas: seq<string>, k: nat): string
    requires k <= |deltas|
  {
    st.buf + Concat(deltas[..k])
  }

  lemma {:induction false} FeedStep(st: Stream, deltas: seq<string>, m: nat, keep: Listener)
    requires m < |deltas|
    ensures Concat(deltas[..m + 1]) == Concat(deltas[..m]) + deltas[m]
    ensures Early(st, deltas, m + 1) == Early(st, deltas, m) + deltas[m]
    ensures var before := FeedAll(st, deltas[..m], keep);
      FeedAll(st, deltas[..m + 1], keep) == if before.halt == Running then OnDelta(before, deltas[m], keep) else before
  {
    assert deltas[..m + 1][..m] == deltas[..m];
  }

  /** A boundary once there stays there. */
  lemma {:induction false} EarlyStable(st: Stream, deltas: seq<string>, k: nat, m: nat)
    requires k <= m <= |deltas|
    ensures Boundary(Sentence, Early(st, deltas, k)).Some? ==> Boundary(Sentence, Early(st, deltas, m)).Some?
    ensures Boundary(Clause, Early(st, deltas, k)).Some? ==> Boundary(Clause, Early(st, deltas, m)).Some?
    decreases m
  {
    if k < m {
      EarlyStable(st, deltas, k, m - 1);
      FeedStep(st, deltas, m - 1, _ => true);
      var e := Early(st, deltas, m - 1);
      if Boundary(Sentence, e).Some? {
        BoundaryStable(Sentence, e, deltas[m - 1], 0);
      }
      if Boundary(Clause, e).Some? {
        BoundaryStable(Clause, e, deltas[m - 1], 0);
      }
    }
  }

  /** Until something can be cut, feeding only fills the buffer. */
  lemma {:induction false} StillWaiting(st: Stream, deltas: seq<string>, m: nat, keep: Listener)
    requires m <= |deltas| && st.halt == Running && !st.flushedAny
    requires Boundary(Sentence, Early(st, deltas, m)).None? && Boundary(Clause, Early(st, deltas, m)).None?
    ensures FeedAll(st, deltas[..m], keep) == Append(st, Concat(deltas[..m]))
    decreases m
  {
    if m == 0 {
      assert Append(st, "") == st;
    } else {
      EarlyStable(st, deltas, m - 1, m);
      StillWaiting(st, deltas, m - 1, keep);
      FeedStep(st, deltas, m - 1, keep);
      AppendTwice(st, Concat(deltas[..m - 1]), deltas[m - 1], keep);
    }
  }

  lemma {:induction false} AppendTwice(st: Stream, text: string, d: string, keep: Listener)
    ensures Append(Append(st, text), d) == Append(st, text + d)
    ensures OnDelta(Append(st, text), d, keep) == OnDelta(st, text + d, keep)
  {
    assert st.full + text + d == st.full + (text + d) && st.buf + text + d == st.buf + (text + d);
  }

  /** With no sentence complete, the eager flush cuts at the clause. */
  lemma {:induction false} EagerCut(st: Stream, delta: string, keep: Listener)
    requires st.halt == Running && !st.flushedAny
    requires Boundary(Sentence, st.buf + delta).None? && Boundary(Clause, st.buf + delta).Some?
    ensures var i := Boundary(Clause, st.buf + delta).value;
      && i < |st.buf + delta| && Breaks(Clause, st.buf + delta, i) && TopLevel(st.buf + delta, i + 1)
      && OnDelta(st, delta, keep) == Cut(Append(st, delta), i, keep)
  {
    BoundaryIsFirstBreak(Clause, st.buf + delta);
    assert Boundary(Clause, st.buf + delta) == Some(Boundary(Clause, st.buf + delta).value);
  }

  // ---- when the splits disagree: the first cut ---------------------------------------------------

  /** The chunk ends in a mark of the rule. */
  predicate EndsIn(rule: Rule, chunk: string) {
    && chunk != []
    && (if rule.Sentence? then chunk[|chunk| - 1] in {'.', '!', '?', '\n'} else chunk[|chunk| - 1] in {',', ';', ':'})
  }

  lemma {:induction false} FlushKeepsCuts(st: Stream, keep: Listener)
    ensures st.cuts <= FlushSentences(st, keep).cuts
    decreases |st.buf|
  {
    BoundaryIsFirstBreak(Sentence, st.buf);
    if st.halt == Running && Boundary(Sentence, st.buf).Some? {
      FlushKeepsCuts(Cut(st, Boundary(Sentence, st.buf).value, keep), keep);
    }
  }

  lemma {:induction false} OnDeltaKeepsCuts(st: Stream, delta: string, keep: Listener)
    ensures st.cuts <= OnDelta(st, delta, keep).cuts
  {
    FlushKeepsCuts(Append(st, delta), keep);
  }

  /** Feeding on never takes a cut back. */
  lemma {:induction false} FeedKeepsCuts(st: Stream, deltas: seq<string>, k: nat, m: nat, keep: Listener)
    requires k <= m <= |deltas|
    ensures FeedAll(st, deltas[..k], keep).cuts <= FeedAll(st, deltas[..m], keep).cuts
    decreases m
  {
    if k < m {
      FeedKeepsCuts(st, deltas, k, m - 1, keep);
      FeedStep(st, deltas, m - 1, keep);
      OnDeltaKeepsCuts(FeedAll(st, deltas[..m - 1], keep), deltas[m - 1], keep);
    }
  }

  lemma {:induction false} EagerChunk(st: Stream, delta: string, keep: Listener)
    requires st.halt == Running && !st.flushedAny
    requires Boundary(Sentence, st.buf + delta).None? && Boundary(Clause, st.buf + delta).Some?
    ensures |OnDelta(st, delta, keep).cuts| == |st.cuts| + 1 && EndsIn(Clause, OnDelta(st, delta, keep).cuts[|st.cuts|])
  {
    EagerCut(st, delta, keep);
  }

  /** With a clause complete and no sentence yet, the first cut was made at a clause. */
  lemma {:induction false} FirstCutIsClause(st: Stream, deltas: seq<string>, m: nat, keep: Listener)
    requires m <= |deltas| && st.halt == Running && !st.flushedAny && Settled(st)
    requires Boundary(Sentence, Early(st, deltas, m)).None? && Boundary(Clause, Early(st, deltas, m)).Some?
    ensures |FeedAll(st, deltas[..m], keep).cuts| > |st.cuts|
    ensures EndsIn(Clause, FeedAll(st, deltas[..m], keep).cuts[|st.cuts|])
    decreases m
  {
    assert Early(st, deltas, 0) == st.buf;
    EarlyStable(st, deltas, m - 1, m);
    if Boundary(Clause, Early(st, deltas, m - 1)).Some? {
      FirstCutIsClause(st, deltas, m - 1, keep);
      FeedKeepsCuts(st, deltas, m - 1, m, keep);
    } else {
      StillWaiting(st, deltas, m - 1, keep);
      FeedStep(st, deltas, m - 1, keep);
      EagerChunk(Append(st, Concat(deltas[..m - 1])), deltas[m - 1], keep);
    }
  }

  lemma {:induction false} SentenceChunk(st: Stream, keep: Listener)
    requires Boundary(Sentence, st.buf).Some?
    ensures var i := Boundary(Sentence, st.buf).value;
      && i < |st.buf| && |Cut(st, i, keep).cuts| == |st.cuts| + 1 && EndsIn(Sentence, Cut(st, i, keep).cuts[|st.cuts|])
  {
    BoundaryIsFirstBreak(Sentence, st.buf);
    var i := Boundary(Sentence, st.buf).value;
    assert Boundary(Sentence, st.buf) == Some(i) && Breaks(Sentence, st.buf, i);
  }

  /** With a sentence complete, the text in one piece is first cut at a sentence. */
  lemma {:induction false} FirstCutIsSentence(st: Stream, text: string, keep: Listener)
    requires st.halt == Running && Boundary(Sentence, st.buf + text).Some?
    ensures |OnDelta(st, text, keep).cuts| > |st.cuts| && EndsIn(Sentence, OnDelta(st, text, keep).cuts[|st.cuts|])
  {
    var all := Append(st, text);
    SentenceFlushes(st, text, keep);
    FlushUnfolds(all, keep);
    SentenceChunk(all, keep);
    FlushKeepsCuts(Cut(all, Boundary(Sentence, all.buf).value, keep), keep);
  }

  lemma {:induction false} SplitsDisagree(st: Stream, deltas: seq<string>, k: nat, keep: Listener)
    requires k <= |deltas| && st.halt == Running && !st.flushedAny && Settled(st)
    requires ClauseJumpedAhead(Early(st, deltas, k), Early(st, deltas, |deltas|))
    ensures FeedAll(st, deltas, keep).cuts != OnDelta(st, Concat(deltas), keep).cuts
  {
    assert deltas[..|deltas|] == deltas;
    FirstCutIsClause(st, deltas, k, keep);
    FeedKeepsCuts(st, deltas, k, |deltas|, keep);
    FirstCutIsSentence(st, Concat(deltas), keep);
  }

  // ---- when they agree -----------------------------------------------------------------------------

  /** Once something has been flushed, text that completes no sentence only waits in the buffer. */
  lemma {:induction false} WaitsForSentence(st: Stream, delta: string, keep: Listener)
    requires st.flushedAny && Boundary(Sentence, st.buf + delta).None?
    ensures OnDelta(st, delta, keep) == Append(st, delta)
  {
    OnDeltaOnceFlushed(st, delta, keep);
  }

  /** After a top-level cut, text that completes no sentence is kept as if it had been there before the cut. */
  lemma {:induction false} CutThenWait(st: Stream, i: nat, delta: string, keep: Listener)
    requires i < |st.buf| && TopLevel(st.buf + delta, i + 1) && Boundary(Sentence, st.buf + delta).None?
    requires Cut(st, i, keep).flushedAny
    ensures OnDelta(Cut(st, i, keep), delta, keep) == Cut(Append(st, delta), i, keep)
  {
    CutCommutes(st, i, delta, keep);
    TailHasNoNewBoundary(Sentence, st.buf + delta, i + 1);
    WaitsForSentence(Cut(st, i, keep), delta, keep);
  }

  lemma {:induction false} ClauseStays(early: string, d: string)
    requires Boundary(Clause, early).Some?
    ensures Boundary(Clause, early + d) == Boundary(Clause, early) && Boundary(Clause, early).value < |early|
  {
    BoundaryIsFirstBreak(Clause, early);
    assert Boundary(Clause, early) == Some(Boundary(Clause, early).value);
    BoundaryStable(Clause, early, d, 0);
  }

  /** The eager cut is where it was after more text that completes no sentence. */
  lemma {:induction false} EagerCutStays(st: Stream, d1: string, d2: string, keep: Listener)
    requires st.halt == Running && !st.flushedAny
    requires Boundary(Clause, st.buf + d1).Some? && Boundary(Sentence, st.buf + d1 + d2).None?
    ensures var i := Boundary(Clause, st.buf + d1).value;
      && i < |st.buf + d1| && TopLevel(st.buf + d1 + d2, i + 1)
      && OnDelta(st, d1 + d2, keep) == Cut(Append(Append(st, d1), d2), i, keep)
  {
    assert st.buf + (d1 + d2) == st.buf + d1 + d2;
    ClauseStays(st.buf + d1, d2);
    AppendTwice(st, d1, d2, keep);
    EagerCut(st, d1 + d2, keep);
  }

  /** What was fed so far agrees with one piece, whose first cut was at a clause: more text without a sentence keeps it so. */
  lemma {:induction false} ClauseStep(st: Stream, text: string, d: string, fed: Stream, keep: Listener)
    requires st.halt == Running && !st.flushedAny
    requires Boundary(Sentence, st.buf + text).None? && Boundary(Clause, st.buf + text).Some?
    requires Boundary(Sentence, st.buf + text + d).None? && Agree(fed, OnDelta(st, text, keep))
    ensures Agree(if fed.halt == Running then OnDelta(fed, d, keep) else fed, OnDelta(st, text + d, keep))
  {
    var i := Boundary(Clause, st.buf + text).value;
    EagerCut(st, text, keep);
    EagerCutStays(st, text, d, keep);
    CutCommutes(Append(st, text), i, d, keep);
    if fed.halt == Running {
      CutThenWait(Append(st, text), i, d, keep);
    }
  }

  lemma {:induction false} SentenceFlushes(st: Stream, text: string, keep: Listener)
    requires st.halt == Running && Boundary(Sentence, st.buf + text).Some?
    ensures OnDelta(st, text, keep) == FlushSentences(Append(st, text), keep)
    ensures OnDelta(st, text, keep).flushedAny || OnDelta(st, text, keep).halt != Running
  {
    FlushUnfolds(Append(st, text), keep);
    var cut := Cut(Append(st, text), Boundary(Sentence, st.buf + text).value, keep);
    FlushedStaysFlushed(cut, keep);
  }

  lemma {:induction false} SentenceStep(st: Stream, text: string, d: string, fed: Stream, keep: Listener)
    requires st.halt == Running && Boundary(Sentence, st.buf + text).Some? && Agree(fed, OnDelta(st, text, keep))
    ensures Agree(if fed.halt == Running then OnDelta(fed, d, keep) else fed, OnDelta(st, text + d, keep))
  {
    assert st.buf + (text + d) == st.buf + text + d;
    BoundaryStable(Sentence, st.buf + text, d, 0);
    SentenceFlushes(st, text, keep);
    SentenceFlushes(st, text + d, keep);
    SplitsAgreeStep(st, text, d, fed, keep);
  }

  lemma {:induction false} SplitsHold(st: Stream, deltas: seq<string>, m: nat, keep: Listener)
    requires m <= |deltas| && st.halt == Running && !st.flushedAny && Settled(st)
    requires forall k | 0 <= k <= m :: !ClauseJumpedAhead(Early(st, deltas, k), Early(st, deltas, m))
    ensures Agree(FeedAll(st, deltas[..m], keep), OnDelta(st, Concat(deltas[..m]), keep))
    decreases m
  {
    if m == 0 {
      assert Append(st, "") == st;
      return;
    }
    var text, d, e := Concat(deltas[..m - 1]), deltas[m - 1], Early(st, deltas, m - 1);
    FeedStep(st, deltas, m - 1, keep);
    EarlyStable(st, deltas, m - 1, m);
    assert !ClauseJumpedAhead(e, Early(st, deltas, m));
    if Boundary(Sentence, e).None? && Boundary(Clause, e).None? {
      StillWaiting(st, deltas, m - 1, keep);
      AppendTwice(st, text, d, keep);
    } else {
      forall k | 0 <= k <= m - 1
        ensures !ClauseJumpedAhead(Early(st, deltas, k), e)
      {
        assert !ClauseJumpedAhead(Early(st, deltas, k), Early(st, deltas, m));
      }
      SplitsHold(st, deltas, m - 1, keep);
      if Boundary(Sentence, e).Some? {
        SentenceStep(st, text, d, FeedAll(st, deltas[..m - 1], keep), keep);
      } else {
        ClauseStep(st, text, d, FeedAll(st, deltas[..m - 1], keep), keep);
      }
    }
  }

  /**
   * Before anything has been flushed the first cut can depend on how the text arrives. For any listener, any deltas
   * act like their concatenation exactly when no clause had ended in some of the first deltas before a sentence that
   * only the later ones complete.
   */
  lemma {:induction false} UnflushedSplitsAgreeIff(st: Stream, deltas: seq<string>, keep: Listener)
    requires st.halt == Running && !st.flushedAny && Settled(st)
    ensures Agree(FeedAll(st, deltas, keep), OnDelta(st, Concat(deltas), keep)) <==>
      forall k | 0 <= k <= |deltas| :: !ClauseJumpedAhead(Early(st, deltas, k), Early(st, deltas, |deltas|))
  {
    assert deltas[..|deltas|] == deltas;
    if k :| 0 <= k <= |deltas| && ClauseJumpedAhead(Early(st, deltas, k), Early(st, deltas, |deltas|)) {
      SplitsDisagree(st, deltas, k, keep);
    } else {
      SplitsHold(st, deltas, |deltas|, keep);
    }
  }

  lemma {:induction false} PlainTextIsTopLevel(s: string, j: nat, i: nat)
    requires j <= i <= |s| && '[' !in s
    ensures Reaches(s, j, i)
    decreases i - j
  {
    if j < i {
      PlainTextIsTopLevel(s, j + 1, i);
    }
  }

  lemma {:induction false} Utf8LenAtLeast(s: string)
    ensures Utf8Len(s) >= |s|
  {
    if s != [] {
      Utf8LenAtLeast(s[..|s| - 1]);
    }
  }

  /** A clause mark at `i` of the first piece, its only marks, and a period at `j` that the second piece completes. */
  lemma {:induction false} JumpsAhead(d1: string, whole: string, i: nat, j: nat)
    requires 24 <= i && i + 1 < |d1| && d1[i] == ',' && d1[i + 1] == ' '
    requires forall k :: 0 <= k < |d1| ==> d1[k] !in {'.', '!', '?', '\n'}
    requires '[' !in d1 && '[' !in whole && 8 <= j && j + 1 < |whole| && whole[j] == '.' && whole[j + 1] == ' '
    ensures ClauseJumpedAhead(d1, whole)
  {
    BoundaryIsFirstBreak(Sentence, d1);
    BoundaryIsFirstBreak(Clause, d1);
    BoundaryIsFirstBreak(Sentence, whole);
    PlainTextIsTopLevel(d1, 0, i);
    PlainTextIsTopLevel(whole, 0, j);
    Utf8LenAtLeast(d1[..i]);
    Utf8LenAtLeast(whole[..j]);
    assert BoundaryAt(Clause, d1, i) && BoundaryAt(Sentence, whole, j);
  }

  /** Such text exists: an opening that arrives in two pieces is first cut at its comma, in one piece at its period. */
  lemma {:induction false} FirstCutDependsOnDeltas(keep: Listener) returns (deltas: seq<string>)
    ensures |deltas| == 2 && ClauseJumpedAhead(deltas[0], Concat(deltas))
    ensures !Agree(FeedAll(START, deltas, keep), OnDelta(START, Concat(deltas), keep))
  {
    var d1, d2 := "Thank you for calling the shop, we", " are open. Do";
    deltas := [d1, d2];
    assert d1[30] == ',' && d1[31] == ' ' && (d1 + d2)[43] == '.' && (d1 + d2)[44] == ' ';
    JumpsAhead(d1, d1 + d2, 30, 43);
    TwoDeltas(d1, d2);
    UnflushedSplitsAgreeIff(START, deltas, keep);
  }

  lemma {:induction false} TwoDeltas(d1: string, d2: string)
    ensures Concat([d1, d2]) == d1 + d2 && Early(START, [d1, d2], 1) == d1 && Early(START, [d1, d2], 2) == d1 + d2
  {
    assert [d1, d2][..1] == [d1] && [d1, d2][..2] == [d1, d2] && [d1][..0] == [];
    assert Concat([d1]) == d1;
  }

  // ---- the terminal proof -------------------------------------------------------------------------

  predicate StopLine(a: Arrival) {
    a.line.Chunk? && a.line.finish.Reason?
  }

  predicate SaysNothing(a: Arrival) {
    a.line.Chunk? ==> a.line.delta == ""
  }

  lemma {:induction false} StopStep(st: Stream, a: Arrival, keep: Listener)
    requires OnLine(st, a, keep).halt == Running
    ensures st.halt == Running && OnLine(st, a, keep).sawStop == (st.sawStop || StopLine(a))
    ensures StopLine(a) ==> !st.sawStop && a.line.finish.text == "stop"
    ensures st.sawStop ==> SaysNothing(a)
  {
  }

  /** At most one stop was seen, at `stop`, and nothing was said after it. */
  ghost predicate OneStop(lines: seq<Arrival>, sawStop: bool, stop: int) {
    if sawStop
    then && 0 <= stop < |lines| && StopLine(lines[stop]) && lines[stop].line.finish.text == "stop"
         && (forall k | 0 <= k < |lines| && k != stop :: !StopLine(lines[k]))
         && (forall k | stop < k < |lines| :: SaysNothing(lines[k]))
    else forall k | 0 <= k < |lines| :: !StopLine(lines[k])
  }

  lemma {:induction false} OneStopExtends(lines: seq<Arrival>, sawStop: bool, stop: int) returns (stop': int)
    requires lines != []
    requires var a := lines[|lines| - 1];
      && (StopLine(a) ==> !sawStop && a.line.finish.text == "stop") && (sawStop ==> SaysNothing(a))
      && OneStop(lines[..|lines| - 1], sawStop, stop)
    ensures OneStop(lines, sawStop || StopLine(lines[|lines| - 1]), stop')
  {
    var n := |lines| - 1;
    stop' := if StopLine(lines[n]) then n else stop;
    forall k | 0 <= k < n
      ensures lines[..n][k] == lines[k]
    {
    }
  }

  /** While the stream runs it has seen at most one stop, and nothing was said after it. */
  lemma {:induction false} StopTrace(lines: seq<Arrival>, keep: Listener) returns (stop: int)
    requires Run(lines, keep).halt == Running
    ensures OneStop(lines, Run(lines, keep).sawStop, stop)
  {
    stop := 0;
    if lines != [] {
      var n := |lines| - 1;
      StopStep(Run(lines[..n], keep), lines[n], keep);
      stop := StopTrace(lines[..n], keep);
      stop := OneStopExtends(lines, Run(lines[..n], keep).sawStop, stop);
    }
  }

  /** What `stream_reply` returns, and everything it has spoken by then. */
  datatype Reply = Reply(text: Result<string, ()>, spoken: seq<string>)

  function Conclude(st: Stream): Reply {
    match st.halt
    case Aborted => Reply(Ok(st.full), st.spoken)
    case Finished =>
      if TopLevel(st.buf, |st.buf|) && !Blank(st.buf) then Reply(Ok(st.full), st.spoken + [Trim(st.buf)])
      else Reply(Ok(st.full), st.spoken)
    case _ => Reply(Err(()), st.spoken)
  }

  lemma {:induction false} FinishedAtDone(lines: seq<Arrival>, keep: Listener) returns (done: nat)
    requires Run(lines, keep).halt == Finished
    ensures done < |lines| && lines[done].line.DoneMark? && !lines[done].cancelled
    ensures Run(lines[..done], keep).halt == Running && Run(lines[..done], keep).sawStop
    ensures Run(lines, keep) == Run(lines[..done], keep).(halt := Finished)
  {
    var n := |lines| - 1;
    if Run(lines[..n], keep).halt == Running {
      done := n;
      NeverFinishesOnDelta(Run(lines[..n], keep), lines[n], keep);
    } else {
      done := FinishedAtDone(lines[..n], keep);
      assert lines[..n][..done] == lines[..done];
    }
  }

  lemma {:induction false} FlushNeverFinishes(st: Stream, keep: Listener)
    requires st.halt == Running
    ensures FlushSentences(st, keep).halt in {Running, Aborted}
    decreases |st.buf|
  {
    BoundaryIsFirstBreak(Sentence, st.buf);
    if Boundary(Sentence, st.buf).Some? {
      var cut := Cut(st, Boundary(Sentence, st.buf).value, keep);
      if cut.halt == Running {
        FlushNeverFinishes(cut, keep);
      }
    }
  }

  lemma {:induction false} NeverFinishesOnDelta(st: Stream, a: Arrival, keep: Listener)
    requires st.halt == Running && OnLine(st, a, keep).halt == Finished
    ensures a.line.DoneMark? && !a.cancelled && st.sawStop
  {
    if a.line.Chunk? {
      FlushNeverFinishes(Append(st.(sawStop := st.sawStop || a.line.finish.Reason?), a.line.delta), keep);
    }
  }

  /**
   * The trailing remainder is spoken only after exactly one `finish_reason=stop`, nothing more said, then `[DONE]`,
   * and only if every bracket token in it is closed.
   */
  lemma {:induction false} RemainderNeedsTerminalProof(lines: seq<Arrival>, keep: Listener) returns (stop: int, done: nat)
    requires Conclude(Run(lines, keep)).spoken != Run(lines, keep).spoken
    ensures 0 <= stop < done < |lines| && lines[done].line.DoneMark?
    ensures StopLine(lines[stop]) && lines[stop].line.finish.text == "stop"
    ensures forall k | 0 <= k < done && k != stop :: !StopLine(lines[k])
    ensures forall k | stop < k < done :: SaysNothing(lines[k])
    ensures var buf := Run(lines, keep).buf;
      TopLevel(buf, |buf|) && !Blank(buf) && Conclude(Run(lines, keep)).spoken == Run(lines, keep).spoken + [Trim(buf)]
  {
    done := FinishedAtDone(lines, keep);
    stop := StopTrace(lines[..done], keep);
    forall k | 0 <= k < done && k != stop
      ensures !StopLine(lines[k]) && (stop < k ==> SaysNothing(lines[k]))
    {
      assert lines[..done][k] == lines[k];
    }
  }

  lemma {:induction false} FlushUnfolds(st: Stream, keep: Listener)
    requires st.halt == Running && Boundary(Sentence, st.buf).Some?
    ensures var i := Boundary(Sentence, st.buf).value;
      i < |st.buf| && FlushSentences(st, keep) == FlushSentences(Cut(st, i, keep), keep)
  {
    BoundaryIsFirstBreak(Sentence, st.buf);
  }

  lemma {:induction false} HaltedReadsNoMore(lines: seq<Arrival>, n: nat, keep: Listener)
    requires n <= |lines| && (n == |lines| || Run(lines[..n], keep).halt != Running)
    ensures Run(lines, keep) == Run(lines[..n], keep)
    decreases |lines|
  {
    if n == |lines| {
      assert lines[..n] == lines;
    } else {
      var m := |lines| - 1;
      assert lines[..m][..n] == lines[..n];
      HaltedReadsNoMore(lines[..m], n, keep);
    }
  }
}
