/** Framing around the echo canceller: two FIFOs, whole frames only, and a tail that protects the end of the echo. */
module EchoCancellers {

  const TAIL_FRAMES := 10
  const REFERENCE_CAP_FRAMES := 300

  type Samples = seq<int>

  /** One call of the speex filter: the microphone frame and the reference frame it was given. */
  datatype Pair = Pair(rec: Samples, echo: Samples)

  /**
   * What is not modelled: `cancel` is the filter, a function of every frame pair it has been fed; `quiet` is the
   * residual guard's test of the raw frame.
   */
  datatype Filter = Filter(frame: nat, cancel: seq<Pair> -> Samples, quiet: Samples -> bool) {
    ghost predicate Valid() {
      frame >= 1 && forall fed :: |cancel(fed)| == frame
    }
  }

  /** `fed` is every pair given to the filter, `references` the reference frames used since the last reset. */
  datatype State = State(refBuf: Samples, micAcc: Samples, tail: nat, fed: seq<Pair>, references: seq<Samples>)

  const NEW := State([], [], 0, [], [])

  datatype Output = Output(state: State, samples: Samples)

  function Zeros(n: nat): (z: Samples)
    ensures |z| == n && forall i :: 0 <= i < n ==> z[i] == 0
  {
    seq(n, _ => 0)
  }

  predicate HasReference(echo: Samples) {
    exists i :: 0 <= i < |echo| && echo[i] != 0
  }

  /** The next `n` samples of a FIFO, zeros once it is empty. */
  function Front(buf: Samples, n: nat): (f: Samples)
    ensures |f| == n
  {
    if |buf| >= n then buf[..n] else buf + Zeros(n - |buf|)
  }

  function Rest(buf: Samples, n: nat): Samples {
    if |buf| >= n then buf[n..] else []
  }

  function NextTail(tail: nat, echo: Samples): nat {
    if HasReference(echo) then TAIL_FRAMES else if tail > 0 then tail - 1 else 0
  }

  predicate EchoActive(tail: nat, echo: Samples) {
    HasReference(echo) || tail > 0
  }

  function FrameOut(f: Filter, rec: Samples, active: bool, fed: seq<Pair>): Samples {
    if !active then rec else if f.quiet(rec) then Zeros(f.frame) else f.cancel(fed)
  }

  function ProcessFrame(f: Filter, s: State): Output
    requires |s.micAcc| >= f.frame
  {
    var rec, echo := s.micAcc[..f.frame], Front(s.refBuf, f.frame);
    var fed := s.fed + [Pair(rec, echo)];
    Output(State(Rest(s.refBuf, f.frame), s.micAcc[f.frame..], NextTail(s.tail, echo), fed, s.references + [echo]),
           FrameOut(f, rec, EchoActive(s.tail, echo), fed))
  }

  /** All whole frames in the accumulator. */
  function Drain(f: Filter, s: State): Output
    requires f.frame >= 1
    decreases |s.micAcc|
  {
    if |s.micAcc| < f.frame then Output(s, [])
    else
      var one := ProcessFrame(f, s);
      var rest := Drain(f, one.state);
      Output(rest.state, one.samples + rest.samples)
  }

  function ProcessCapture(f: Filter, s: State, mic: Samples): Output
    requires f.frame >= 1
  {
    Drain(f, s.(micAcc := s.micAcc + mic))
  }

  function FeedReference(f: Filter, s: State, samples: Samples): State {
    var all, cap := s.refBuf + samples, f.frame * REFERENCE_CAP_FRAMES;
    s.(refBuf := if |all| > cap then all[|all| - cap..] else all)
  }

  function Reset(s: State): State {
    State([], [], 0, s.fed, [])
  }

  // ---- chunking ------------------------------------------------------------------------------

  lemma FrameThenMore(f: Filter, s: State, mic: Samples)
    requires |s.micAcc| >= f.frame
    ensures var one := ProcessFrame(f, s);
      ProcessFrame(f, s.(micAcc := s.micAcc + mic)) ==
        Output(one.state.(micAcc := one.state.micAcc + mic), one.samples)
  {
    assert (s.micAcc + mic)[..f.frame] == s.micAcc[..f.frame];
    assert (s.micAcc + mic)[f.frame..] == s.micAcc[f.frame..] + mic;
  }

  lemma {:induction false} DrainThenMore(f: Filter, s: State, mic: Samples)
    requires f.frame >= 1
    ensures var first := Drain(f, s);
      var second := ProcessCapture(f, first.state, mic);
      ProcessCapture(f, s, mic) == Output(second.state, first.samples + second.samples)
    decreases |s.micAcc|
  {
    if |s.micAcc| >= f.frame {
      FrameThenMore(f, s, mic);
      DrainThenMore(f, ProcessFrame(f, s).state, mic);
      ConcatAssociates(f, s, mic);
    }
  }

  lemma ConcatAssociates(f: Filter, s: State, mic: Samples)
    requires f.frame >= 1 && |s.micAcc| >= f.frame
    ensures var one := ProcessFrame(f, s);
      var first := Drain(f, one.state);
      var second := ProcessCapture(f, first.state, mic);
      (one.samples + first.samples) + second.samples == one.samples + (first.samples + second.samples)
  {
  }

  function ProcessAll(f: Filter, s: State, chunks: seq<Samples>): Output
    requires f.frame >= 1
  {
    if chunks == [] then Output(s, [])
    else
      var before := ProcessAll(f, s, chunks[..|chunks| - 1]);
      var last := ProcessCapture(f, before.state, chunks[|chunks| - 1]);
      Output(last.state, before.samples + last.samples)
  }

  function Concat(chunks: seq<Samples>): Samples {
    if chunks == [] then [] else Concat(chunks[..|chunks| - 1]) + chunks[|chunks| - 1]
  }

  /** However the microphone stream is chunked, the samples that come out and the state left behind are the same. */
  lemma {:induction false} ChunkingIsIrrelevant(f: Filter, s: State, chunks: seq<Samples>)
    requires f.frame >= 1 && |s.micAcc| < f.frame
    ensures ProcessAll(f, s, chunks) == ProcessCapture(f, s, Concat(chunks))
  {
    if chunks == [] {
      assert s.micAcc + [] == s.micAcc;
    } else {
      var init, last := chunks[..|chunks| - 1], chunks[|chunks| - 1];
      ChunkingIsIrrelevant(f, s, init);
      DrainThenMore(f, s.(micAcc := s.micAcc + Concat(init)), last);
      assert s.micAcc + Concat(chunks) == (s.micAcc + Concat(init)) + last;
    }
  }

  // ---- which frames pass untouched --------------------------------------------------------------

  /** The tail after the reference frames `references`. */
  function TailAfter(references: seq<Samples>): nat {
    if references == [] then 0 else NextTail(TailAfter(references[..|references| - 1]), references[|references| - 1])
  }

  /** Some reference frame among the last `k` before position `n` carries a sample. */
  ghost predicate HeardWithin(references: seq<Samples>, n: nat, k: nat)
    requires n <= |references|
  {
    exists i :: 0 <= i < n && n - k <= i && HasReference(references[i])
  }

  /** The tail counts down from ten: it exceeds `d` exactly when a reference was heard less than 10 - d frames ago. */
  lemma {:induction false} TailCounts(references: seq<Samples>, d: nat)
    requires d <= TAIL_FRAMES
    ensures TailAfter(references) <= TAIL_FRAMES
    ensures TailAfter(references) > d <==> HeardWithin(references, |references|, TAIL_FRAMES - d)
  {
    if references != [] {
      var n := |references| - 1;
      var before := references[..n];
      if d < TAIL_FRAMES {
        TailCounts(before, d + 1);
        if HeardWithin(before, n, TAIL_FRAMES - d - 1) {
          var i :| 0 <= i < n && n - (TAIL_FRAMES - d - 1) <= i && HasReference(before[i]);
          assert HasReference(references[i]);
        }
        if HeardWithin(references, |references|, TAIL_FRAMES - d) {
          var i :| 0 <= i < |references| && |references| - (TAIL_FRAMES - d) <= i && HasReference(references[i]);
          assert i < n ==> HasReference(before[i]);
        }
      } else {
        TailCounts(before, d);
      }
    }
  }

  datatype Event = Fed(samples: Samples) | Captured(mic: Samples) | WasReset

  function Step(f: Filter, s: State, e: Event): Output
    requires f.frame >= 1
  {
    match e
    case Fed(samples) => Output(FeedReference(f, s, samples), [])
    case Captured(mic) => ProcessCapture(f, s, mic)
    case WasReset => Output(Reset(s), [])
  }

  function Run(f: Filter, h: seq<Event>): State
    requires f.frame >= 1
  {
    if h == [] then NEW else Step(f, Run(f, h[..|h| - 1]), h[|h| - 1]).state
  }

  /** Between calls the tail is what the reference frames since the last reset say, and less than a frame is held back. */
  predicate Aligned(f: Filter, s: State) {
    s.tail == TailAfter(s.references) && |s.micAcc| < f.frame
  }

  lemma {:induction false} DrainAligns(f: Filter, s: State)
    requires f.frame >= 1 && s.tail == TailAfter(s.references)
    ensures Aligned(f, Drain(f, s).state)
    decreases |s.micAcc|
  {
    if |s.micAcc| >= f.frame {
      var one := ProcessFrame(f, s);
      assert one.state.references[..|s.references|] == s.references;
      DrainAligns(f, one.state);
    }
  }

  lemma {:induction false} EveryStateIsAligned(f: Filter, h: seq<Event>)
    requires f.frame >= 1
    ensures Aligned(f, Run(f, h))
  {
    if h != [] {
      var s, e := Run(f, h[..|h| - 1]), h[|h| - 1];
      EveryStateIsAligned(f, h[..|h| - 1]);
      if e.Captured? {
        DrainAligns(f, s.(micAcc := s.micAcc + e.mic));
      }
    }
  }

  /**
   * Frame n since the last reset passes through untouched exactly when none of the reference frames n-10 to n has a
   * non-zero sample; every other frame is what the residual guard and the filter make of it.
   */
  lemma FramePassesIffUnheard(f: Filter, s: State)
    requires |s.micAcc| >= f.frame && s.tail == TailAfter(s.references)
    ensures var one := ProcessFrame(f, s);
      var n := |s.references|;
      var active := HeardWithin(one.state.references, n + 1, TAIL_FRAMES + 1);
      && |one.state.references| == n + 1 && one.state.references[..n] == s.references
      && EchoActive(s.tail, one.state.references[n]) == active
      && one.samples == FrameOut(f, s.micAcc[..f.frame], active, one.state.fed)
  {
    var n := |s.references|;
    var after := ProcessFrame(f, s).state.references;
    TailCounts(s.references, 0);
    if HeardWithin(s.references, n, TAIL_FRAMES) {
      var i :| 0 <= i < n && n - TAIL_FRAMES <= i && HasReference(s.references[i]);
      assert HasReference(after[i]);
    }
    if HeardWithin(after, n + 1, TAIL_FRAMES + 1) {
      var i :| 0 <= i < n + 1 && n + 1 - (TAIL_FRAMES + 1) <= i && HasReference(after[i]);
      assert i < n ==> HasReference(s.references[i]);
    }
  }

  // ---- every frame of a run -------------------------------------------------------------------------

  /** The microphone stream since the last reset. */
  function MicSince(h: seq<Event>): Samples {
    if h == [] || h[|h| - 1].WasReset? then []
    else MicSince(h[..|h| - 1]) + if h[|h| - 1].Captured? then h[|h| - 1].mic else []
  }

  /** Everything handed back since the last reset. */
  function OutSince(f: Filter, h: seq<Event>): Samples
    requires f.frame >= 1
  {
    if h == [] || h[|h| - 1].WasReset? then []
    else OutSince(f, h[..|h| - 1]) + Step(f, Run(f, h[..|h| - 1]), h[|h| - 1]).samples
  }

  /** Frame `k` since the reset went in as `rec[k]`, met reference `k`, and came out as the tail rule says. */
  ghost predicate FrameRuled(f: Filter, s: State, rec: seq<Samples>, out: seq<Samples>, k: nat)
    requires |rec| == |out| == |s.references| <= |s.fed| && k < |rec|
  {
    var fed := s.fed[..|s.fed| - |rec| + k + 1];
    && |rec[k]| == f.frame && s.fed[|s.fed| - |rec| + k] == Pair(rec[k], s.references[k])
    && out[k] == FrameOut(f, rec[k], HeardWithin(s.references, k + 1, TAIL_FRAMES + 1), fed)
  }

  /** The frames since the reset, in and out, each by the rule. */
  ghost predicate AllRuled(f: Filter, s: State, rec: seq<Samples>, out: seq<Samples>) {
    && |rec| == |out| == |s.references| <= |s.fed| && s.tail == TailAfter(s.references)
    && forall k | 0 <= k < |rec| :: FrameRuled(f, s, rec, out, k)
  }

  lemma HeardInPrefix(references: seq<Samples>, echo: Samples, n: nat, k: nat)
    requires n <= |references|
    ensures HeardWithin(references + [echo], n, k) == HeardWithin(references, n, k)
  {
    if HeardWithin(references, n, k) {
      var i :| 0 <= i < n && n - k <= i && HasReference(references[i]);
      assert HasReference((references + [echo])[i]);
    }
    if HeardWithin(references + [echo], n, k) {
      var i :| 0 <= i < n && n - k <= i && HasReference((references + [echo])[i]);
      assert HasReference(references[i]);
    }
  }

  lemma OldFrameRuled(f: Filter, s: State, rec: seq<Samples>, out: seq<Samples>, k: nat)
    requires |s.micAcc| >= f.frame && AllRuled(f, s, rec, out) && k < |rec|
    ensures var one := ProcessFrame(f, s); FrameRuled(f, one.state, rec + [s.micAcc[..f.frame]], out + [one.samples], k)
  {
    var one := ProcessFrame(f, s).state;
    assert FrameRuled(f, s, rec, out, k);
    HeardInPrefix(s.references, one.references[|rec|], k + 1, TAIL_FRAMES + 1);
    assert one.fed[..|one.fed| - (|rec| + 1) + k + 1] == s.fed[..|s.fed| - |rec| + k + 1];
  }

  lemma FrameKeepsRule(f: Filter, s: State, rec: seq<Samples>, out: seq<Samples>)
    requires |s.micAcc| >= f.frame && AllRuled(f, s, rec, out)
    ensures var one := ProcessFrame(f, s); AllRuled(f, one.state, rec + [s.micAcc[..f.frame]], out + [one.samples])
  {
    var one, n := ProcessFrame(f, s), |rec|;
    var rec', out' := rec + [s.micAcc[..f.frame]], out + [one.samples];
    FramePassesIffUnheard(f, s);
    assert one.state.references[..n] == s.references;
    forall k | 0 <= k < n + 1
      ensures FrameRuled(f, one.state, rec', out', k)
    {
      if k < n {
        OldFrameRuled(f, s, rec, out, k);
      } else {
        assert one.state.fed[..|one.state.fed|] == one.state.fed;
      }
    }
  }

  lemma ConcatSnoc(chunks: seq<Samples>, x: Samples, rest: Samples)
    ensures Concat(chunks + [x]) + rest == Concat(chunks) + (x + rest)
  {
    assert (chunks + [x])[..|chunks|] == chunks;
  }

  lemma {:induction false} DrainKeepsRule(f: Filter, s: State, rec: seq<Samples>, out: seq<Samples>)
      returns (rec': seq<Samples>, out': seq<Samples>)
    requires f.frame >= 1 && AllRuled(f, s, rec, out)
    ensures AllRuled(f, Drain(f, s).state, rec', out') && |Drain(f, s).state.micAcc| < f.frame
    ensures Concat(rec') + Drain(f, s).state.micAcc == Concat(rec) + s.micAcc
    ensures Concat(out') == Concat(out) + Drain(f, s).samples
    decreases |s.micAcc|
  {
    rec', out' := rec, out;
    if |s.micAcc| >= f.frame {
      var one, x := ProcessFrame(f, s), s.micAcc[..f.frame];
      FrameKeepsRule(f, s, rec, out);
      rec', out' := DrainKeepsRule(f, one.state, rec + [x], out + [one.samples]);
      ConcatSnoc(rec, x, one.state.micAcc);
      ConcatSnoc(out, one.samples, Drain(f, one.state).samples);
      assert x + one.state.micAcc == s.micAcc;
    }
  }

  lemma {:induction false} FramesOfRun(f: Filter, h: seq<Event>) returns (rec: seq<Samples>, out: seq<Samples>)
    requires f.frame >= 1
    ensures AllRuled(f, Run(f, h), rec, out) && |Run(f, h).micAcc| < f.frame
    ensures Concat(rec) + Run(f, h).micAcc == MicSince(h) && Concat(out) == OutSince(f, h)
  {
    rec, out := [], [];
    if h != [] {
      var s, e := Run(f, h[..|h| - 1]), h[|h| - 1];
      match e {
        case Fed(samples) =>
          rec, out := FramesOfRun(f, h[..|h| - 1]);
          RuleIgnoresQueues(f, s, Run(f, h), rec, out);
        case Captured(mic) =>
          rec, out := FramesOfRun(f, h[..|h| - 1]);
          var fuller := s.(micAcc := s.micAcc + mic);
          RuleIgnoresQueues(f, s, fuller, rec, out);
          assert Concat(rec) + fuller.micAcc == MicSince(h[..|h| - 1]) + mic;
          rec, out := DrainKeepsRule(f, fuller, rec, out);
        case WasReset =>
      }
    }
  }

  lemma RuleIgnoresQueues(f: Filter, s: State, t: State, rec: seq<Samples>, out: seq<Samples>)
    requires AllRuled(f, s, rec, out) && t == s.(refBuf := t.refBuf, micAcc := t.micAcc)
    ensures AllRuled(f, t, rec, out)
  {
    forall k | 0 <= k < |rec|
      ensures FrameRuled(f, t, rec, out, k)
    {
      assert FrameRuled(f, s, rec, out, k);
    }
  }

  /** Samples `k * n` to `k * n + n` of a stream. */
  function Slice(x: Samples, n: nat, k: nat): Samples
    requires k * n + n <= |x|
  {
    x[k * n..k * n + n]
  }

  lemma {:induction false} ConcatLength(chunks: seq<Samples>, n: nat)
    requires forall k :: 0 <= k < |chunks| ==> |chunks[k]| == n
    ensures |Concat(chunks)| == |chunks| * n
  {
    if chunks != [] {
      ConcatLength(chunks[..|chunks| - 1], n);
      assert |chunks| * n == (|chunks| - 1) * n + n;
    }
  }

  /** Chunks of one length are found in their concatenation by position. */
  lemma {:induction false} ConcatSlice(chunks: seq<Samples>, rest: Samples, n: nat, k: nat)
    requires k < |chunks| && forall j :: 0 <= j < |chunks| ==> |chunks[j]| == n
    ensures k * n + n <= |Concat(chunks) + rest| && Slice(Concat(chunks) + rest, n, k) == chunks[k]
    decreases |chunks|
  {
    var m := |chunks| - 1;
    var front, last := Concat(chunks[..m]), chunks[m];
    ConcatLength(chunks[..m], n);
    assert Concat(chunks) + rest == front + (last + rest);
    if k < m {
      ConcatSlice(chunks[..m], last + rest, n, k);
    } else {
      assert (front + (last + rest))[|front|..|front| + n] == last;
    }
  }

  lemma {:induction false} FewerFramesFit(a: nat, b: nat, frame: nat)
    ensures a < b ==> a * frame + frame <= b * frame
    decreases b
  {
    if a + 1 < b {
      FewerFramesFit(a, b - 1, frame);
      assert b * frame == (b - 1) * frame + frame;
    } else if a + 1 == b {
      assert b * frame == a * frame + frame;
    }
  }

  /** How many whole frames a stream holds. */
  lemma WholeFrames(n: nat, frame: nat, left: nat, total: nat)
    requires frame >= 1 && left < frame && total == n * frame + left
    ensures total / frame == n
  {
    FewerFramesFit(total / frame, n, frame);
    FewerFramesFit(n, total / frame, frame);
  }

  lemma {:induction false} FrameRuledInRun(f: Filter, h: seq<Event>, n: nat)
    requires f.Valid() && n < |MicSince(h)| / f.frame
    ensures |Run(f, h).references| == |MicSince(h)| / f.frame <= |Run(f, h).fed|
    ensures n * f.frame + f.frame <= |MicSince(h)| && n * f.frame + f.frame <= |OutSince(f, h)|
    ensures FrameRuledAt(f, Run(f, h), n, Slice(MicSince(h), f.frame, n), Slice(OutSince(f, h), f.frame, n))
  {
    var s := Run(f, h);
    var rec, out := FramesOfRun(f, h);
    forall k | 0 <= k < |rec|
      ensures |rec[k]| == f.frame && |out[k]| == f.frame
    {
      assert FrameRuled(f, s, rec, out, k);
    }
    ConcatLength(rec, f.frame);
    WholeFrames(|rec|, f.frame, |s.micAcc|, |MicSince(h)|);
    ConcatSlice(rec, s.micAcc, f.frame, n);
    ConcatSlice(out, [], f.frame, n);
    assert Concat(out) + [] == OutSince(f, h);
    assert FrameRuled(f, s, rec, out, n);
  }

  ghost predicate FrameRuledAt(f: Filter, s: State, n: nat, rec: Samples, out: Samples)
    requires n < |s.references| <= |s.fed|
  {
    var upTo := |s.fed| - |s.references| + n;
    && s.fed[upTo] == Pair(rec, s.references[n])
    && out == FrameOut(f, rec, HeardWithin(s.references, n + 1, TAIL_FRAMES + 1), s.fed[..upTo + 1])
  }

  /**
   * In any run, frame n since the last reset is what the tail rule makes of samples n * frame to (n + 1) * frame of
   * the microphone stream since that reset: it passes untouched exactly when none of reference frames n - 10 to n
   * has a non-zero sample, and is the residual guard's silence or the filter's answer otherwise. Every whole frame
   * comes out.
   */
  lemma {:induction false} FrameOfRun(f: Filter, h: seq<Event>, n: nat)
    requires f.Valid() && n < |MicSince(h)| / f.frame
    ensures |Run(f, h).references| == |MicSince(h)| / f.frame <= |Run(f, h).fed|
    ensures n * f.frame + f.frame <= |MicSince(h)| && n * f.frame + f.frame <= |OutSince(f, h)|
    ensures var s := Run(f, h);
      var active := HeardWithin(s.references, n + 1, TAIL_FRAMES + 1);
      var upTo := |s.fed| - |s.references| + n;
      var rec, out := Slice(MicSince(h), f.frame, n), Slice(OutSince(f, h), f.frame, n);
      && s.fed[upTo] == Pair(rec, s.references[n])
      && (!active ==> out == rec)
      && (active && f.quiet(rec) ==> forall i :: 0 <= i < |out| ==> out[i] == 0)
      && (active && !f.quiet(rec) ==> out == f.cancel(s.fed[..upTo + 1]))
  {
    FrameRuledInRun(f, h, n);
  }

  // ---- where the reference frames come from -----------------------------------------------------------

  /** The reference stream fed since the last reset. */
  function FedSince(h: seq<Event>): Samples {
    if h == [] || h[|h| - 1].WasReset? then []
    else FedSince(h[..|h| - 1]) + if h[|h| - 1].Fed? then h[|h| - 1].samples else []
  }

  /** How many whole frames `n` samples make: the quotient, by repeated subtraction. */
  function WholeIn(n: nat, frame: nat): nat
    requires frame >= 1
  {
    if n < frame then 0 else 1 + WholeIn(n - frame, frame)
  }

  lemma {:induction false} WholeInCounts(n: nat, frame: nat, left: nat)
    requires frame >= 1 && left < frame
    ensures WholeIn(n * frame + left, frame) == n
  {
    if n > 0 {
      assert n * frame + left - frame == (n - 1) * frame + left;
      FewerFramesFit(0, n, frame);
      WholeInCounts(n - 1, frame, left);
    }
  }

  /** Whole frames captured since the last reset. */
  function Frames(f: Filter, h: seq<Event>): nat
    requires f.frame >= 1
  {
    WholeIn(|MicSince(h)|, f.frame)
  }

  /** How far into a stream of `total` samples `k` frames read from `head`; reading stops at its end. */
  function HeadAfter(head: nat, total: nat, frame: nat, k: nat): nat {
    if k == 0 then head
    else
      var before := HeadAfter(head, total, frame, k - 1);
      if before + frame <= total then before + frame else total
  }

  /**
   * How much of the fed stream is behind the queue: frames read it on, and a feed that overruns the queue drops its
   * oldest samples, leaving the newest 300 frames.
   */
  function Head(f: Filter, h: seq<Event>): nat
    requires f.frame >= 1
  {
    if h == [] || h[|h| - 1].WasReset? then 0
    else
      var init, total, cap := h[..|h| - 1], |FedSince(h)|, f.frame * REFERENCE_CAP_FRAMES;
      var before := Head(f, init);
      match h[|h| - 1]
      case Fed(_) => if total > before + cap then total - cap else before
      case Captured(_) => HeadAfter(before, total, f.frame, if Frames(f, h) < Frames(f, init) then 0 else Frames(f, h) - Frames(f, init))
      case WasReset => 0
  }

  lemma {:induction false} HeadComposes(head: nat, total: nat, frame: nat, k: nat)
    ensures HeadAfter(HeadAfter(head, total, frame, 1), total, frame, k) == HeadAfter(head, total, frame, k + 1)
  {
    if k > 0 {
      HeadComposes(head, total, frame, k - 1);
    }
  }

  /** The reference frame read at `head` of the fed stream, zeros once it runs dry. */
  function ReadAt(fed: Samples, head: nat, frame: nat): Samples {
    if head <= |fed| then Front(fed[head..], frame) else Zeros(frame)
  }

  /** The first `k` reference frames read from `head` on. */
  function Reads(fed: Samples, head: nat, frame: nat, k: nat): (frames: seq<Samples>)
    ensures |frames| == k
  {
    if k == 0 then [] else Reads(fed, head, frame, k - 1) + [ReadAt(fed, HeadAfter(head, |fed|, frame, k - 1), frame)]
  }

  lemma {:induction false} ReadsAt(fed: Samples, head: nat, frame: nat, k: nat, j: nat)
    requires j < k
    ensures Reads(fed, head, frame, k)[j] == ReadAt(fed, HeadAfter(head, |fed|, frame, j), frame)
    decreases k
  {
    if j < k - 1 {
      ReadsAt(fed, head, frame, k - 1, j);
    }
  }

  lemma {:induction false} ReadsOneThenMore(fed: Samples, head: nat, frame: nat, k: nat)
    ensures Reads(fed, head, frame, k + 1) == [ReadAt(fed, head, frame)] + Reads(fed, HeadAfter(head, |fed|, frame, 1), frame, k)
  {
    if k == 0 {
      assert Reads(fed, head, frame, 0) == [];
    } else {
      ReadsOneThenMore(fed, head, frame, k - 1);
      HeadComposes(head, |fed|, frame, k - 1);
      var x, more := ReadAt(fed, head, frame), Reads(fed, HeadAfter(head, |fed|, frame, 1), frame, k - 1);
      var last := ReadAt(fed, HeadAfter(head, |fed|, frame, k), frame);
      assert ([x] + more) + [last] == [x] + (more + [last]);
    }
  }

  /** One frame reads the queue on. */
  lemma FrameReads(f: Filter, s: State, fed: Samples, head: nat)
    requires |s.micAcc| >= f.frame && head <= |fed| && s.refBuf == fed[head..]
    ensures var t := ProcessFrame(f, s).state;
      && t.references == s.references + [ReadAt(fed, head, f.frame)]
      && HeadAfter(head, |fed|, f.frame, 1) <= |fed| && t.refBuf == fed[HeadAfter(head, |fed|, f.frame, 1)..]
  {
    assert HeadAfter(head, |fed|, f.frame, 0) == head;
  }

  /** `t` follows `s` by reading `k` frames of the queue. */
  ghost predicate ReadsOn(f: Filter, s: State, t: State, fed: Samples, head: nat, k: nat) {
    && t.references == s.references + Reads(fed, head, f.frame, k) && HeadAfter(head, |fed|, f.frame, k) <= |fed|
    && t.refBuf == fed[HeadAfter(head, |fed|, f.frame, k)..]
  }

  lemma {:induction false} DrainReads(f: Filter, s: State, fed: Samples, head: nat) returns (k: nat)
    requires f.frame >= 1 && head <= |fed| && s.refBuf == fed[head..]
    ensures ReadsOn(f, s, Drain(f, s).state, fed, head, k)
    decreases |s.micAcc|
  {
    k := 0;
    if |s.micAcc| >= f.frame {
      var next := HeadAfter(head, |fed|, f.frame, 1);
      FrameReads(f, s, fed, head);
      k := DrainReads(f, ProcessFrame(f, s).state, fed, next);
      ReadsOneThenMore(fed, head, f.frame, k);
      HeadComposes(head, |fed|, f.frame, k);
      k := k + 1;
    }
  }

  lemma {:induction false} FramesCounted(f: Filter, h: seq<Event>)
    requires f.frame >= 1
    ensures |Run(f, h).references| == Frames(f, h)
  {
    var rec, out := FramesOfRun(f, h);
    forall k | 0 <= k < |rec|
      ensures |rec[k]| == f.frame
    {
      assert FrameRuled(f, Run(f, h), rec, out, k);
    }
    ConcatLength(rec, f.frame);
    WholeInCounts(|rec|, f.frame, |Run(f, h).micAcc|);
  }

  lemma FeedQueues(f: Filter, s: State, samples: Samples, fed: Samples, head: nat)
    requires head <= |fed| && s.refBuf == fed[head..]
    ensures var all, cap := fed + samples, f.frame * REFERENCE_CAP_FRAMES;
      var after := if |all| > head + cap then |all| - cap else head;
      after <= |all| && FeedReference(f, s, samples).refBuf == all[after..]
  {
    assert s.refBuf + samples == (fed + samples)[head..];
  }

  /** The queue is the fed stream from its head on. */
  lemma {:induction false} QueueOfRun(f: Filter, h: seq<Event>)
    requires f.frame >= 1
    ensures Head(f, h) <= |FedSince(h)| && Run(f, h).refBuf == FedSince(h)[Head(f, h)..]
  {
    if h != [] {
      var init, e := h[..|h| - 1], h[|h| - 1];
      QueueOfRun(f, init);
      match e {
        case Fed(samples) => FeedQueues(f, Run(f, init), samples, FedSince(init), Head(f, init));
        case Captured(mic) => CaptureReads(f, h);
        case WasReset =>
      }
    }
  }

  lemma CaptureFeedsNothing(h: seq<Event>)
    requires h != [] && h[|h| - 1].Captured?
    ensures FedSince(h) == FedSince(h[..|h| - 1])
  {
  }

  /** A capture reads as many frames on as it completes. */
  lemma {:induction false} CaptureReads(f: Filter, h: seq<Event>)
    requires f.frame >= 1 && h != [] && h[|h| - 1].Captured?
    requires var init := h[..|h| - 1]; Head(f, init) <= |FedSince(init)| && Run(f, init).refBuf == FedSince(init)[Head(f, init)..]
    ensures var init := h[..|h| - 1];
      && Frames(f, init) <= Frames(f, h)
      && ReadsOn(f, Run(f, init), Run(f, h), FedSince(init), Head(f, init), Frames(f, h) - Frames(f, init))
    ensures Head(f, h) <= |FedSince(h)| && Run(f, h).refBuf == FedSince(h)[Head(f, h)..]
  {
    var init := h[..|h| - 1];
    CaptureFeedsNothing(h);
    FramesCounted(f, init);
    FramesCounted(f, h);
    var k := CaptureDrains(f, Run(f, init), h[|h| - 1].mic, FedSince(init), Head(f, init));
    assert k == |Run(f, h).references| - |Run(f, init).references|;
  }

  lemma {:induction false} CaptureDrains(f: Filter, s: State, mic: Samples, fed: Samples, head: nat) returns (k: nat)
    requires f.frame >= 1 && head <= |fed| && s.refBuf == fed[head..]
    ensures ReadsOn(f, s, ProcessCapture(f, s, mic).state, fed, head, k)
    ensures k == |ProcessCapture(f, s, mic).state.references| - |s.references|
  {
    k := DrainReads(f, s.(micAcc := s.micAcc + mic), fed, head);
  }

  /** Reference frames are kept until a reset. */
  lemma {:induction false} ReferencesStay(f: Filter, h: seq<Event>, i: nat)
    requires f.frame >= 1 && i <= |h| && forall j :: i <= j < |h| ==> !h[j].WasReset?
    ensures Run(f, h[..i]).references <= Run(f, h).references
    decreases |h|
  {
    if i < |h| {
      var init := h[..|h| - 1];
      assert init[..i] == h[..i];
      ReferencesStay(f, init, i);
      if h[|h| - 1].Captured? {
        QueueOfRun(f, init);
        CaptureReads(f, h);
      }
    } else {
      assert h[..i] == h;
    }
  }

  lemma ReadFrameIs(f: Filter, s: State, t: State, fed: Samples, head: nat, n: nat)
    requires |s.references| <= n < |t.references| && ReadsOn(f, s, t, fed, head, |t.references| - |s.references|)
    ensures t.references[n] == ReadAt(fed, HeadAfter(head, |fed|, f.frame, n - |s.references|), f.frame)
  {
    ReadsAt(fed, head, f.frame, |t.references| - |s.references|, n - |s.references|);
  }

  /** The reference frame that a capture after the events `before` reads for frame `n`. */
  ghost function ReferenceRead(f: Filter, before: seq<Event>, n: nat): Samples
    requires f.frame >= 1 && Frames(f, before) <= n
  {
    var fed := FedSince(before);
    ReadAt(fed, HeadAfter(Head(f, before), |fed|, f.frame, n - Frames(f, before)), f.frame)
  }

  /** From `s` to `t` a capture after the events `before` read on from the head of the queue. */
  ghost predicate CapturedOn(f: Filter, before: seq<Event>, s: State, t: State)
    requires f.frame >= 1
  {
    && |s.references| == Frames(f, before) <= |t.references|
    && ReadsOn(f, s, t, FedSince(before), Head(f, before), |t.references| - |s.references|)
  }

  lemma {:induction false} CapturedReference(f: Filter, before: seq<Event>, s: State, t: State, n: nat)
    requires f.frame >= 1 && CapturedOn(f, before, s, t) && Frames(f, before) <= n < |t.references|
    ensures t.references[n] == ReferenceRead(f, before, n)
  {
    ReadFrameIs(f, s, t, FedSince(before), Head(f, before), n);
  }

  /** Capture `i` of the run reads on from the head of the queue. */
  lemma {:induction false} CaptureReadsAt(f: Filter, h: seq<Event>, i: nat)
    requires f.frame >= 1 && i < |h| && h[i].Captured?
    ensures CapturedOn(f, h[..i], Run(f, h[..i]), Run(f, h[..i + 1]))
    ensures |Run(f, h[..i + 1]).references| == Frames(f, h[..i + 1])
  {
    var upTo := h[..i + 1];
    assert upTo[..i] == h[..i];
    QueueOfRun(f, h[..i]);
    FramesCounted(f, h[..i]);
    FramesCounted(f, upTo);
    CaptureReads(f, upTo);
  }

  lemma {:induction false} CaptureOfReference(f: Filter, h: seq<Event>, n: nat) returns (i: nat)
    requires f.frame >= 1 && n < |Run(f, h).references|
    ensures i < |h| && h[i].Captured? && Frames(f, h[..i]) <= n < Frames(f, h[..i + 1])
    ensures forall j :: i < j < |h| ==> !h[j].WasReset?
    ensures Run(f, h).references[n] == ReferenceRead(f, h[..i], n)
  {
    FramesCounted(f, h);
    i := CompletedBy(f, h, n);
    CaptureReadsAt(f, h, i);
    CapturedReference(f, h[..i], Run(f, h[..i]), Run(f, h[..i + 1]), n);
    ReferencesStay(f, h, i + 1);
  }

  /** `frame` is what `fed` holds from `from` on, zeros past its end. */
  ghost predicate HoldsFrom(frame: Samples, fed: Samples, from: nat) {
    forall k :: 0 <= k < |frame| ==> frame[k] == if from + k < |fed| then fed[from + k] else 0
  }

  lemma ReadHoldsFrom(fed: Samples, head: nat, frame: nat)
    ensures |ReadAt(fed, head, frame)| == frame && HoldsFrom(ReadAt(fed, head, frame), fed, head)
  {
  }

  /**
   * Which fed samples reference frame n holds: it is read from the fed stream as it stood at the capture that
   * completed frame n, from the head of the queue plus the frames that capture completed before it.
   */
  lemma {:induction false} ReferenceOfRun(f: Filter, h: seq<Event>, n: nat) returns (i: nat)
    requires f.frame >= 1 && n < |Run(f, h).references|
    ensures i < |h| && h[i].Captured? && Frames(f, h[..i]) <= n < Frames(f, h[..i + 1])
    ensures forall j :: i < j < |h| ==> !h[j].WasReset?
    ensures var fed := FedSince(h[..i]);
      var from := HeadAfter(Head(f, h[..i]), |fed|, f.frame, n - Frames(f, h[..i]));
      |Run(f, h).references[n]| == f.frame && HoldsFrom(Run(f, h).references[n], fed, from)
  {
    i := CaptureOfReference(f, h, n);
    var fed := FedSince(h[..i]);
    ReadHoldsFrom(fed, HeadAfter(Head(f, h[..i]), |fed|, f.frame, n - Frames(f, h[..i])), f.frame);
  }

  /** Only a capture completes frames. */
  lemma QuietEvent(f: Filter, h: seq<Event>)
    requires f.frame >= 1 && h != [] && !h[|h| - 1].Captured?
    ensures if h[|h| - 1].WasReset? then Frames(f, h) == 0 else Frames(f, h) == Frames(f, h[..|h| - 1])
  {
    if !h[|h| - 1].WasReset? {
      assert MicSince(h) == MicSince(h[..|h| - 1]);
    }
  }

  /** Every frame since the last reset was completed by one capture since then. */
  lemma {:induction false} CompletedBy(f: Filter, h: seq<Event>, n: nat) returns (i: nat)
    requires f.frame >= 1 && n < Frames(f, h)
    ensures i < |h| && h[i].Captured? && Frames(f, h[..i]) <= n < Frames(f, h[..i + 1])
    ensures forall j :: i < j < |h| ==> !h[j].WasReset?
    decreases |h|
  {
    var init := h[..|h| - 1];
    i := |h| - 1;
    assert h[..|h|] == h;
    if !h[i].Captured? {
      QuietEvent(f, h);
    }
    if n < Frames(f, init) {
      i := CompletedBy(f, init, n);
      assert h[..i] == init[..i] && h[..i + 1] == init[..i + 1];
    }
  }

  lemma SilentFrame(f: Filter, s: State)
    requires |s.micAcc| >= f.frame && s.refBuf == [] && s.tail == 0
    ensures var one := ProcessFrame(f, s);
      && one.samples == s.micAcc[..f.frame] && one.state.micAcc == s.micAcc[f.frame..]
      && one.state.refBuf == [] && one.state.tail == 0
  {
    assert !HasReference(Front(s.refBuf, f.frame));
  }

  lemma Reassembles(mic: Samples, n: nat, out: Samples, left: Samples)
    requires n <= |mic| && out + left == mic[n..]
    ensures (mic[..n] + out) + left == mic
  {
    assert (mic[..n] + out) + left == mic[..n] + (out + left);
  }

  /** With no reference queued and the tail over, what comes out is what went in, less a sub-frame held back. */
  lemma {:induction false} SilenceIsTransparent(f: Filter, s: State)
    requires f.frame >= 1 && s.refBuf == [] && s.tail == 0
    ensures var r := Drain(f, s);
      r.samples + r.state.micAcc == s.micAcc && |r.state.micAcc| < f.frame && r.state.refBuf == [] && r.state.tail == 0
    decreases |s.micAcc|
  {
    if |s.micAcc| >= f.frame {
      var one := ProcessFrame(f, s);
      SilentFrame(f, s);
      SilenceIsTransparent(f, one.state);
      DrainStep(f, s, one, [], Drain(f, s));
      Reassembles(s.micAcc, f.frame, Drain(f, one.state).samples, Drain(f, one.state).state.micAcc);
    }
  }

  /** With no reference ever fed since the last reset, a chunked stream comes out as it went in, less a sub-frame tail. */
  lemma UnreferencedStreamIsUntouched(f: Filter, s: State, chunks: seq<Samples>)
    requires f.frame >= 1
    ensures var r := ProcessAll(f, Reset(s), chunks);
      r.samples + r.state.micAcc == Concat(chunks) && |r.state.micAcc| < f.frame
  {
    var start := Reset(s);
    ChunkingIsIrrelevant(f, start, chunks);
    assert start.micAcc + Concat(chunks) == Concat(chunks);
    SilenceIsTransparent(f, start.(micAcc := Concat(chunks)));
  }

  /** Whatever the filter does, samples are neither lost nor invented. */
  lemma {:induction false} DrainConserves(f: Filter, s: State)
    requires f.Valid()
    ensures var r := Drain(f, s); |r.samples| + |r.state.micAcc| == |s.micAcc|
    decreases |s.micAcc|
  {
    if |s.micAcc| >= f.frame {
      DrainConserves(f, ProcessFrame(f, s).state);
    }
  }

  /** One frame of a drain under way: what is out so far and what the rest will give still make up the whole. */
  lemma DrainStep(f: Filter, before: State, one: Output, out: Samples, whole: Output)
    requires f.frame >= 1 && |before.micAcc| >= f.frame && one == ProcessFrame(f, before)
    requires whole.state == Drain(f, before).state && whole.samples == out + Drain(f, before).samples
    ensures whole.state == Drain(f, one.state).state && whole.samples == (out + one.samples) + Drain(f, one.state).samples
    ensures |one.state.micAcc| < |before.micAcc|
  {
    var left := Drain(f, one.state).samples;
    assert Drain(f, before).samples == one.samples + left;
    assert out + (one.samples + left) == (out + one.samples) + left;
  }

  // ---- the canceller object -------------------------------------------------------------------------

  class EchoCanceller {
    const filter: Filter
    var refBuf: Samples
    var micAcc: Samples
    var tail: nat
    var fed: seq<Pair>
    ghost var references: seq<Samples>

    ghost function View(): State
      reads this
    {
      State(refBuf, micAcc, tail, fed, references)
    }

    constructor (f: Filter)
      ensures filter == f && View() == NEW
    {
      filter := f;
      refBuf, micAcc, tail, fed, references := [], [], 0, [], [];
    }

    method Feed(samples: Samples)
      modifies this`refBuf
      ensures View() == FeedReference(filter, old(View()), samples)
    {
      refBuf := refBuf + samples;
      ghost var all := refBuf;
      var cap := filter.frame * REFERENCE_CAP_FRAMES;
      while |refBuf| > cap
        invariant |refBuf| <= |all| && refBuf == all[|all| - |refBuf|..]
        invariant |all| > cap ==> |refBuf| >= cap
        invariant |all| <= cap ==> refBuf == all
        decreases |refBuf|
      {
        refBuf := refBuf[1..];
      }
    }

    /** Pop one frame off a FIFO, sample by sample, zeros once it runs dry. */
    method PopFrame(buf: Samples) returns (frame: Samples, rest: Samples)
      ensures frame == Front(buf, filter.frame) && rest == Rest(buf, filter.frame)
    {
      frame, rest := [], buf;
      for i := 0 to filter.frame
        invariant |frame| == i && frame == Front(buf, i) && rest == Rest(buf, i)
      {
        if rest == [] {
          frame := frame + [0];
        } else {
          frame, rest := frame + [rest[0]], rest[1..];
        }
      }
    }

    method ProcessOne() returns (samples: Samples)
      requires |micAcc| >= filter.frame
      modifies this
      ensures Output(View(), samples) == ProcessFrame(filter, old(View()))
    {
      var rec, echo;
      rec, micAcc := PopFrame(micAcc);
      echo, refBuf := PopFrame(refBuf);
      fed := fed + [Pair(rec, echo)];
      references := references + [echo];
      var hasReference := exists i :: 0 <= i < |echo| && echo[i] != 0;
      var active := hasReference || tail > 0;
      if hasReference {
        tail := TAIL_FRAMES;
      } else if tail > 0 {
        tail := tail - 1;
      }
      samples := if !active then rec else if filter.quiet(rec) then Zeros(filter.frame) else filter.cancel(fed);
    }

    method Process(mic: Samples) returns (out: Samples)
      requires filter.frame >= 1
      modifies this
      ensures Output(View(), out) == ProcessCapture(filter, old(View()), mic)
    {
      micAcc := micAcc + mic;
      ghost var whole := Drain(filter, View());
      out := [];
      while |micAcc| >= filter.frame
        invariant whole.state == Drain(filter, View()).state
        invariant whole.samples == out + Drain(filter, View()).samples
        decreases |micAcc|
      {
        ghost var before := View();
        var samples := ProcessOne();
        DrainStep(filter, before, Output(View(), samples), out, whole);
        out := out + samples;
      }
    }

    method Clear()
      modifies this
      ensures View() == Reset(old(View()))
    {
      refBuf, micAcc, tail, references := [], [], 0, [];
    }
  }

  /** A new canceller driven through any events: what it hands back since the last reset is the modelled output. */
  method DriveCanceller(f: Filter, h: seq<Event>) returns (out: Samples)
    requires f.frame >= 1
    ensures out == OutSince(f, h)
  {
    var canceller := new EchoCanceller(f);
    out := [];
    for n := 0 to |h|
      invariant fresh(canceller) && canceller.filter == f
      invariant canceller.View() == Run(f, h[..n]) && out == OutSince(f, h[..n])
    {
      assert h[..n + 1][..n] == h[..n];
      match h[n] {
        case Fed(samples) => canceller.Feed(samples);
        case Captured(mic) =>
          var samples := canceller.Process(mic);
          out := out + samples;
        case WasReset =>
          canceller.Clear();
          out := [];
      }
    }
    assert h[..|h|] == h;
  }
}
