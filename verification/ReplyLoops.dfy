/** The loops of the streaming reply, over the boundary scan, and the text the whole loop returns. */
module ReplyLoops {
  import opened Prelude
  import opened ReplyBoundaries
  import opened ReplyStream
  import opened ReplyText

  // ---- the loops of stream_reply -------------------------------------------------------------------

  /** One turn of the flush loop: drain a chunk, speak it unless it is blank, and hear whether to go on. */
  method CutChunk(st: Stream, i: nat, keep: Listener) returns (r: Stream)
    requires i < |st.buf|
    ensures r == Cut(st, i, keep)
  {
    var chunk := st.buf[..i + 1];
    r := st.(buf := st.buf[i + 1..], cuts := st.cuts + [chunk]);
    if !Blank(chunk) {
      r := r.(spoken := r.spoken + [Trim(chunk)]);
      if !keep(r.spoken) {
        return r.(halt := Aborted);
      }
    }
    r := r.(flushedAny := true);
  }

  method FlushSentencesLoop(st: Stream, keep: Listener) returns (r: Stream)
    requires st.halt == Running
    ensures r == FlushSentences(st, keep)
  {
    r := st;
    var idx := FindBoundary(Sentence, r.buf);
    while idx.Some? && r.halt == Running
      invariant idx == Boundary(Sentence, r.buf)
      invariant FlushSentences(r, keep) == FlushSentences(st, keep)
      decreases |r.buf|
    {
      FlushUnfolds(r, keep);
      r := CutChunk(r, idx.value, keep);
      idx := FindBoundary(Sentence, r.buf);
    }
  }

  method ReadLine(st: Stream, a: Arrival, keep: Listener) returns (s: Stream)
    requires st.halt == Running
    ensures s == OnLine(st, a, keep)
  {
    if a.line.ReadFailed? {
      return st.(halt := Failed);
    }
    if a.cancelled {
      return st.(halt := Aborted);
    }
    match a.line {
      case NotData => s := st;
      case DoneMark => s := st.(halt := if st.sawStop then Finished else Failed);
      case Garbage =>
        s := st.(malformed := st.malformed + 1);
        if s.malformed > MAX_MALFORMED {
          s := s.(halt := Failed);
        }
      case Chunk(finish, delta) =>
        if finish.NonText? || (finish.Reason? && (finish.text != "stop" || st.sawStop)) {
          return st.(halt := Failed);
        }
        s := st.(sawStop := st.sawStop || finish.Reason?);
        if delta == "" {
          return;
        }
        if s.sawStop && !finish.Reason? {
          return s.(halt := Failed);
        }
        s := FlushSentencesLoop(Append(s, delta), keep);
        s := FlushClause(s, keep);
    }
  }

  method StreamReply(lines: seq<Arrival>, keep: Listener) returns (reply: Reply)
    ensures reply == Conclude(Run(lines, keep))
    ensures reply.text.Ok? ==> exists n: nat :: EndedAt(lines, n, keep) && reply.text.value == TextRead(lines, n)
  {
    var s := START;
    var n := 0;
    while n < |lines| && s.halt == Running
      invariant 0 <= n <= |lines| && s == Run(lines[..n], keep)
    {
      assert lines[..n + 1][..n] == lines[..n];
      s := ReadLine(s, lines[n], keep);
      n := n + 1;
    }
    HaltedReadsNoMore(lines, n, keep);
    if s.halt != Running {
      var end := EndedSomewhere(lines, keep);
      ReplyTextIs(lines, end, keep);
    }
    var speakable := TerminalRemainder(s.buf);
    if s.halt == Aborted {
      reply := Reply(Ok(s.full), s.spoken);
    } else if s.halt != Finished {
      reply := Reply(Err(()), s.spoken);
    } else if speakable && !Blank(s.buf) {
      reply := Reply(Ok(s.full), s.spoken + [Trim(s.buf)]);
    } else {
      reply := Reply(Ok(s.full), s.spoken);
    }
  }
}
