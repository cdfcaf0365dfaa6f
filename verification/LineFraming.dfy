/** The line protocol: a writer that passes on whole lines only, and the splitter that reads them back
    (internal/transport/line_writer.go, internal/transport/server.go). */
module LineFraming {
  import opened Options
  import opened Utf8
  import opened TextLines

  const MAX_LINE: nat := 1_048_576

  datatype Failure = NoFailure | TooLong | OutputFailed

  /** How the connection answers a write: all taken, some taken, or all taken and an error reported. */
  datatype Reply = Accepted | Cut(count: nat) | TakenButFailed

  /** `replies` are the connection's coming answers; after them it accepts everything. */
  datatype Writer = Writer(out: seq<Byte>, pending: seq<Byte>, err: Failure, replies: seq<Reply>)

  function Emit(w: Writer, frame: seq<Byte>): (r: (Writer, bool)) {
    if w.replies == [] then (w.(out := w.out + frame), true)
    else
      var n := w.(replies := w.replies[1..]);
      match w.replies[0]
      case Accepted => (n.(out := w.out + frame), true)
      case Cut(count) => (n.(out := w.out + if count < |frame| then frame[..count] else frame), count >= |frame|)
      case TakenButFailed => (n.(out := w.out + frame), false)
  }

  /** What one round of the loop does: the writer after it, the input left, and the bytes taken. */
  datatype Round = Round(writer: Writer, rest: seq<Byte>, taken: nat)

  /** One segment of p: up to the next newline, or all of it. */
  function Segment(w: Writer, p: seq<Byte>): (r: Round)
    requires p != []
    ensures |r.rest| < |p|
  {
    var n := LineEnd(p);
    if |w.pending| + n > MAX_LINE then Round(w.(err := TooLong), [], 0)
    else if n == |p| then Round(w.(pending := w.pending + p), [], n)
    else
      var line := w.pending + p[..n];
      var (sent, ok) := Emit(w, line + [NEWLINE]);
      if !ok then Round(sent.(pending := line, err := OutputFailed), [], n)
      else Round(sent.(pending := []), p[n + 1..], n + 1)
  }

  /** Consumes p; also says how many bytes were taken. */
  function Feed(w: Writer, p: seq<Byte>): (r: (Writer, nat))
    decreases |p|, 0
  {
    if p == [] then (w, 0) else Onward(Segment(w, p))
  }

  /** What is left to do after a round. */
  function Onward(r: Round): (Writer, nat)
    decreases |r.rest|, 1
  {
    if r.writer.err != NoFailure then (r.writer, r.taken)
    else (Feed(r.writer, r.rest).0, r.taken + Feed(r.writer, r.rest).1)
  }

  function Written(w: Writer, p: seq<Byte>): (r: (Writer, nat)) {
    if w.err != NoFailure then (w, 0) else Feed(w, p)
  }

  // ---- what a whole stream comes to ----

  /** The complete lines of s before the first that is too long. */
  function Whole(s: seq<Byte>): seq<Byte>
    decreases |s|
  {
    var n := LineEnd(s);
    if n == |s| || n > MAX_LINE then [] else s[..n + 1] + Whole(s[n + 1..])
  }

  /** Some line, finished or not, is too long. */
  predicate Overlong(s: seq<Byte>)
    decreases |s|
  {
    var n := LineEnd(s);
    n > MAX_LINE || (n < |s| && Overlong(s[n + 1..]))
  }

  /** The unfinished last line. */
  function Rest(s: seq<Byte>): seq<Byte>
    decreases |s|
  {
    var n := LineEnd(s);
    if n == |s| then s else Rest(s[n + 1..])
  }

  predicate Prefix(a: seq<Byte>, b: seq<Byte>) {
    |a| <= |b| && b[..|a|] == a
  }

  /** What a writer may look like after the stream s. */
  ghost predicate Reached(w: Writer, s: seq<Byte>) {
    && (w.err == NoFailure ==> !Overlong(s) && w.out == Whole(s) && w.pending == Rest(s))
    && (w.err == TooLong ==> Overlong(s) && w.out == Whole(s))
    && Prefix(w.out, Whole(s))
  }

  predicate Reliable(w: Writer) {
    forall i :: 0 <= i < |w.replies| ==> w.replies[i] == Accepted
  }

  // ---- taking a stream apart ----

  lemma LineEndJoin(a: seq<Byte>, p: seq<Byte>)
    requires Unbroken(a)
    ensures LineEnd(a + p) == |a| + LineEnd(p)
  {
    LineEndUnique(a + p, |a| + LineEnd(p));
  }

  function Line(line: seq<Byte>, t: seq<Byte>): seq<Byte> {
    line + [NEWLINE] + t
  }

  lemma FirstLine(line: seq<Byte>, t: seq<Byte>)
    requires Unbroken(line)
    ensures LineEnd(Line(line, t)) == |line| && Line(line, t)[..|line|] == line && Line(line, t)[|line| + 1..] == t
    ensures Line(line, t)[..|line| + 1] == line + [NEWLINE]
  {
    LineEndUnique(Line(line, t), |line|);
  }

  lemma StreamLine(line: seq<Byte>, t: seq<Byte>)
    requires Unbroken(line)
    ensures Rest(Line(line, t)) == Rest(t)
    ensures |line| <= MAX_LINE ==>
              Whole(Line(line, t)) == Line(line, Whole(t)) && (Overlong(Line(line, t)) <==> Overlong(t))
    ensures |line| > MAX_LINE ==> Whole(Line(line, t)) == [] && Overlong(Line(line, t))
  {
    FirstLine(line, t);
  }

  lemma StreamUnbroken(s: seq<Byte>)
    requires Unbroken(s)
    ensures Rest(s) == s && Whole(s) == [] && (Overlong(s) <==> |s| > MAX_LINE)
  {
    LineEndUnique(s, |s|);
  }

  lemma TakeLine(s: seq<Byte>) returns (line: seq<Byte>, t: seq<Byte>)
    requires !Unbroken(s)
    ensures Unbroken(line) && s == Line(line, t) && |t| < |s|
  {
    var n := LineEnd(s);
    line, t := s[..n], s[n + 1..];
  }

  /** One write, started with an unfinished line: relative to what was out before. */
  ghost predicate Fed(w: Writer, p: seq<Byte>, r: (Writer, nat)) {
    var s := w.pending + p;
    && Prefix(w.out, r.0.out) && Prefix(r.0.out[|w.out|..], Whole(s))
    && (r.0.err != OutputFailed ==> r.0.out == w.out + Whole(s))
    && (r.0.err == TooLong ==> Overlong(s))
    && (r.0.err == NoFailure ==> !Overlong(s) && r.0.pending == Rest(s) && r.1 == |p|)
    && (Reliable(w) ==> r.0.err != OutputFailed && Reliable(r.0))
  }

  /** One round keeps the books: a frame went out, or nothing did, and the rest is the rest. */
  ghost predicate RoundOk(w: Writer, p: seq<Byte>, r: Round, frame: seq<Byte>) {
    var s, t := w.pending + p, r.writer.pending + r.rest;
    && (r.writer.err == NoFailure ==>
          && r.writer.out == w.out + frame && Whole(s) == frame + Whole(t) && (Overlong(s) <==> Overlong(t))
              && Rest(s) == Rest(t)
          && r.taken == |p| - |r.rest| && Unbroken(r.writer.pending) && |r.writer.pending| <= MAX_LINE)
    && (r.writer.err == TooLong ==> Overlong(s) && Whole(s) == [] && r.writer.out == w.out)
    && (r.writer.err == OutputFailed ==> Prefix(w.out, r.writer.out) && Prefix(r.writer.out[|w.out|..], Whole(s)))
    && (Reliable(w) ==> r.writer.err != OutputFailed && Reliable(r.writer))
  }

  lemma RoundTooLong(w: Writer, p: seq<Byte>)
    requires w.err == NoFailure && Unbroken(w.pending) && p != [] && |w.pending| + LineEnd(p) > MAX_LINE
    ensures RoundOk(w, p, Segment(w, p), [])
  {
    LineEndJoin(w.pending, p);
  }

  lemma RoundPart(w: Writer, p: seq<Byte>)
    requires w.err == NoFailure && Unbroken(w.pending) && p != [] && |w.pending| + LineEnd(p) <= MAX_LINE
    requires LineEnd(p) == |p|
    ensures RoundOk(w, p, Segment(w, p), [])
  {
    var s := w.pending + p;
    assert Unbroken(s) && s + [] == s;
    StreamUnbroken(s);
    assert w.out + [] == w.out;
  }

  lemma SegmentOfLine(w: Writer, p: seq<Byte>, frame: seq<Byte>)
    requires LineEnd(p) < |p| && |w.pending| + LineEnd(p) <= MAX_LINE
    requires frame == w.pending + p[..LineEnd(p)] + [NEWLINE]
    ensures var (sent, ok) := Emit(w, frame);
            var rest := p[LineEnd(p) + 1..];
            Segment(w, p) == if ok then Round(sent.(pending := []), rest, |p| - |rest|)
                             else Round(sent.(pending := frame[..|frame| - 1], err := OutputFailed), [],
                                   |p| - |rest| - 1)
  {
    assert frame[..|frame| - 1] == w.pending + p[..LineEnd(p)];
  }

  lemma RoundLine(w: Writer, p: seq<Byte>, frame: seq<Byte>)
    requires w.err == NoFailure && Unbroken(w.pending) && LineEnd(p) < |p| && |w.pending| + LineEnd(p) <= MAX_LINE
    requires frame == w.pending + p[..LineEnd(p)] + [NEWLINE]
    ensures RoundOk(w, p, Segment(w, p), frame)
  {
    var (sent, ok) := Emit(w, frame);
    PendingLine(w.pending, p);
    EmitEffect(w, frame);
    SegmentOfLine(w, p, frame);
    RoundPastLine(w, p, frame, p[LineEnd(p) + 1..], sent, ok);
  }

  lemma RoundWorks(w: Writer, p: seq<Byte>) returns (frame: seq<Byte>)
    requires w.err == NoFailure && Unbroken(w.pending) && p != []
    ensures RoundOk(w, p, Segment(w, p), frame)
  {
    frame := [];
    if |w.pending| + LineEnd(p) > MAX_LINE {
      RoundTooLong(w, p);
    } else if LineEnd(p) == |p| {
      RoundPart(w, p);
    } else {
      frame := w.pending + p[..LineEnd(p)] + [NEWLINE];
      RoundLine(w, p, frame);
    }
  }

  lemma RoundPastLine(w: Writer, p: seq<Byte>, frame: seq<Byte>, rest: seq<Byte>, sent: Writer, ok: bool)
    requires frame != [] && |rest| < |p|
    requires Whole(w.pending + p) == frame + Whole(rest) && Rest(w.pending + p) == Rest(rest)
    requires (Overlong(w.pending + p) <==> Overlong(rest))
    requires Prefix(w.out, sent.out) && Prefix(sent.out[|w.out|..], frame) && (ok ==> sent.out == w.out + frame)
    requires sent.err == NoFailure && (Reliable(w) ==> ok && Reliable(sent))
    ensures ok ==> RoundOk(w, p, Round(sent.(pending := []), rest, |p| - |rest|), frame)
    ensures !ok ==>
              RoundOk(w, p,
                    Round(sent.(pending := frame[..|frame| - 1], err := OutputFailed), [], |p| - |rest| - 1), frame)
  {
    assert [] + rest == rest;
    InsideFrame(w.out, frame, Whole(rest), sent.out);
  }

  lemma EmitEffect(w: Writer, frame: seq<Byte>)
    ensures var (sent, ok) := Emit(w, frame);
            && Prefix(w.out, sent.out) && Prefix(sent.out[|w.out|..], frame) && (ok ==> sent.out == w.out + frame)
            && sent.err == w.err && (Reliable(w) ==> ok && Reliable(sent))
  {
  }

  lemma InsideFrame(out: seq<Byte>, frame: seq<Byte>, more: seq<Byte>, last: seq<Byte>)
    requires Prefix(out, last) && Prefix(last[|out|..], frame)
    ensures Prefix(last[|out|..], frame + more)
  {
    var gained := last[|out|..];
    assert (frame + more)[..|gained|] == frame[..|gained|];
  }

  /** The unfinished line and the input up to its first newline. */
  lemma PendingLine(pending: seq<Byte>, p: seq<Byte>)
    requires Unbroken(pending) && LineEnd(p) < |p| && |pending| + LineEnd(p) <= MAX_LINE
    ensures Whole(pending + p) == pending + p[..LineEnd(p)] + [NEWLINE] + Whole(p[LineEnd(p) + 1..])
    ensures Overlong(pending + p) <==> Overlong(p[LineEnd(p) + 1..])
    ensures Rest(pending + p) == Rest(p[LineEnd(p) + 1..])
  {
    var line, rest := pending + p[..LineEnd(p)], p[LineEnd(p) + 1..];
    assert pending + p == Line(line, rest);
    StreamLine(line, rest);
  }

  /** A frame that got through, and then some of what follows. */
  lemma PastFrame(out: seq<Byte>, frame: seq<Byte>, more: seq<Byte>, last: seq<Byte>)
    requires Prefix(out + frame, last) && Prefix(last[|out + frame|..], more)
    ensures Prefix(out, last) && Prefix(last[|out|..], frame + more)
    ensures last == out + frame + more ==> last == out + (frame + more)
  {
    var gained := last[|out + frame|..];
    assert last == out + (frame + gained);
    assert last[|out|..] == frame + gained;
    assert (frame + more)[..|frame + gained|] == frame + more[..|gained|];
  }

  lemma RoundThenRest(w: Writer, p: seq<Byte>, s: Round, frame: seq<Byte>, r: (Writer, nat))
    requires RoundOk(w, p, s, frame) && s.writer.err == NoFailure && |s.rest| <= |p| && Fed(s.writer, s.rest, r)
    ensures Fed(w, p, (r.0, s.taken + r.1))
  {
    PastFrame(w.out, frame, Whole(s.writer.pending + s.rest), r.0.out);
  }

  lemma RoundEnds(w: Writer, p: seq<Byte>, s: Round, frame: seq<Byte>)
    requires RoundOk(w, p, s, frame) && s.writer.err != NoFailure
    ensures Fed(w, p, (s.writer, s.taken))
  {
    assert w.out + [] == w.out;
    assert s.writer.err == TooLong || s.writer.err == OutputFailed;
  }

  lemma NothingFed(w: Writer)
    requires w.err == NoFailure && Unbroken(w.pending) && |w.pending| <= MAX_LINE
    ensures Fed(w, [], (w, 0))
  {
    assert w.pending + [] == w.pending && w.out + [] == w.out;
    StreamUnbroken(w.pending);
  }

  lemma {:induction false} FeedWorks(w: Writer, p: seq<Byte>)
    requires w.err == NoFailure && Unbroken(w.pending) && |w.pending| <= MAX_LINE
    ensures Fed(w, p, Feed(w, p))
    decreases |p|
  {
    if p == [] {
      NothingFed(w);
    } else {
      var s := Segment(w, p);
      var frame := RoundWorks(w, p);
      assert Feed(w, p) == Onward(s);
      if s.writer.err == NoFailure {
        FeedWorks(s.writer, s.rest);
        RoundThenRest(w, p, s, frame, Feed(s.writer, s.rest));
      } else {
        RoundEnds(w, p, s, frame);
      }
    }
  }

  // ---- where the bytes taken have gone ----

  /** Of the bytes reported as taken, whole frames went out and the rest is pending; after a failed output
      a part of the pending line's frame may have gone out as well. */
  ghost predicate Accounts(w: Writer, p: seq<Byte>, n: Writer, taken: nat, frames: seq<Byte>) {
    && taken <= |p| && w.pending + p[..taken] == frames + n.pending
    && Prefix(w.out + frames, n.out)
    && (n.err != OutputFailed ==> n.out == w.out + frames)
    && (n.err == OutputFailed ==> Prefix(n.out[|w.out + frames|..], n.pending + [NEWLINE]))
  }

  lemma LineAccounts(w: Writer, p: seq<Byte>, n: nat, whole: seq<Byte>, sent: Writer, ok: bool)
    requires n < |p| && p[n] == NEWLINE && whole == w.pending + p[..n] + [NEWLINE] && sent.err == NoFailure
    requires Prefix(w.out, sent.out) && Prefix(sent.out[|w.out|..], whole) && (ok ==> sent.out == w.out + whole)
    ensures ok ==> Accounts(w, p, sent.(pending := []), n + 1, whole)
    ensures !ok ==> Accounts(w, p, sent.(pending := whole[..|whole| - 1], err := OutputFailed), n, [])
  {
    assert p[..n + 1] == p[..n] + [NEWLINE];
    assert w.pending + p[..n + 1] == whole + [];
    assert whole[..|whole| - 1] == w.pending + p[..n] && [] + (w.pending + p[..n]) == w.pending + p[..n];
    assert whole[..|whole| - 1] + [NEWLINE] == whole && w.out + [] == w.out;
  }

  lemma PartAccounts(w: Writer, p: seq<Byte>)
    requires w.err == NoFailure
    ensures Accounts(w, p, w.(err := TooLong), 0, []) && Accounts(w, p, w.(pending := w.pending + p), |p|, [])
  {
    assert w.out + [] == w.out && w.pending + p[..0] == [] + w.pending;
    assert p[..|p|] == p && [] + (w.pending + p) == w.pending + p;
  }

  lemma SegmentAccounts(w: Writer, p: seq<Byte>) returns (frame: seq<Byte>)
    requires w.err == NoFailure && p != []
    ensures var r := Segment(w, p);
            Accounts(w, p, r.writer, r.taken, frame) && (r.writer.err == NoFailure ==> r.rest == p[r.taken..])
  {
    var n := LineEnd(p);
    frame := [];
    if |w.pending| + n > MAX_LINE || n == |p| {
      PartAccounts(w, p);
      assert p[|p|..] == [];
    } else {
      var whole := w.pending + p[..n] + [NEWLINE];
      EmitEffect(w, whole);
      SegmentOfLine(w, p, whole);
      LineAccounts(w, p, n, whole, Emit(w, whole).0, Emit(w, whole).1);
      if Emit(w, whole).1 {
        frame := whole;
      }
    }
  }

  lemma AccountsJoin(w: Writer, p: seq<Byte>, mid: Writer, taken: nat, frame: seq<Byte>, n: Writer, more: nat,
                     frames: seq<Byte>)
    requires Accounts(w, p, mid, taken, frame) && mid.err == NoFailure
    requires Accounts(mid, p[taken..], n, more, frames)
    ensures Accounts(w, p, n, taken + more, frame + frames)
  {
    var a, b := p[..taken], p[taken..][..more];
    assert p[..taken + more] == a + b;
    assert w.pending + (a + b) == (w.pending + a) + b;
    assert (frame + mid.pending) + b == frame + (mid.pending + b);
    assert frame + (frames + n.pending) == frame + frames + n.pending;
    assert w.out + (frame + frames) == w.out + frame + frames;
  }

  /** What a write reports as taken is accounted for, whatever went wrong. */
  lemma {:induction false} FeedAccounts(w: Writer, p: seq<Byte>) returns (frames: seq<Byte>)
    requires w.err == NoFailure
    ensures Accounts(w, p, Feed(w, p).0, Feed(w, p).1, frames)
    decreases |p|
  {
    if p == [] {
      frames := [];
      assert w.out + [] == w.out && w.pending + [] == [] + w.pending;
    } else {
      var s := Segment(w, p);
      frames := SegmentAccounts(w, p);
      assert Feed(w, p) == Onward(s);
      if s.writer.err == NoFailure {
        var more := FeedAccounts(s.writer, s.rest);
        AccountsJoin(w, p, s.writer, s.taken, frames, Feed(w, p).0, Feed(s.writer, s.rest).1, more);
        frames := frames + more;
      }
    }
  }

  // ---- any split into writes ----

  lemma Regroup(a: seq<Byte>, b: seq<Byte>, c: seq<Byte>)
    ensures a + (b + c) == a + b + c
  {
  }

  lemma LineExtends(s: seq<Byte>, line: seq<Byte>, t: seq<Byte>, p: seq<Byte>)
    requires s == Line(line, t)
    ensures s + p == Line(line, t + p)
  {
  }

  lemma FirstLineApart(s: seq<Byte>, p: seq<Byte>) returns (line: seq<Byte>, t: seq<Byte>)
    requires !Unbroken(s)
    ensures |t| < |s| && Rest(s) == Rest(t) && Rest(s + p) == Rest(t + p)
    ensures |line| > MAX_LINE ==> Overlong(s) && Overlong(s + p) && Whole(s) == [] && Whole(s + p) == []
    ensures |line| <= MAX_LINE ==> (Overlong(s) <==> Overlong(t)) && (Overlong(s + p) <==> Overlong(t + p))
    ensures |line| <= MAX_LINE ==>
              Whole(s) == line + [NEWLINE] + Whole(t) && Whole(s + p) == line + [NEWLINE] + Whole(t + p)
  {
    line, t := TakeLine(s);
    LineExtends(s, line, t, p);
    StreamLine(line, t);
    StreamLine(line, t + p);
  }

  lemma {:induction false} RestGrows(s: seq<Byte>, p: seq<Byte>)
    ensures Rest(s + p) == Rest(Rest(s) + p) && Unbroken(Rest(s))
    decreases |s|
  {
    if Unbroken(s) {
      StreamUnbroken(s);
    } else {
      var line, t := FirstLineApart(s, p);
      RestGrows(t, p);
    }
  }

  lemma {:induction false} OverlongGrows(s: seq<Byte>, p: seq<Byte>)
    ensures Overlong(s) ==> Overlong(s + p)
    ensures !Overlong(s) ==> (Overlong(s + p) <==> Overlong(Rest(s) + p)) && |Rest(s)| <= MAX_LINE
    decreases |s|
  {
    if Unbroken(s) {
      StreamUnbroken(s);
      LineEndJoin(s, p);
    } else {
      var line, t := FirstLineApart(s, p);
      OverlongGrows(t, p);
    }
  }

  lemma {:induction false} WholeGrows(s: seq<Byte>, p: seq<Byte>)
    ensures Whole(s + p) == if Overlong(s) then Whole(s) else Whole(s) + Whole(Rest(s) + p)
    decreases |s|
  {
    if Unbroken(s) {
      StreamUnbroken(s);
      LineEndJoin(s, p);
      assert [] + Whole(s + p) == Whole(s + p);
    } else {
      var line, t := FirstLineApart(s, p);
      WholeGrows(t, p);
      Regroup(line + [NEWLINE], Whole(t), Whole(Rest(t) + p));
    }
  }

  lemma PrefixAfter(before: seq<Byte>, after: seq<Byte>, more: seq<Byte>)
    requires Prefix(before, after) && Prefix(after[|before|..], more)
    ensures Prefix(after, before + more)
  {
    assert after == before + after[|before|..];
    assert (before + more)[..|after|] == before + more[..|after| - |before|];
  }

  /** A write on a writer in good order. */
  lemma FeedReaches(w: Writer, s: seq<Byte>, p: seq<Byte>, r: (Writer, nat))
    requires Reached(w, s) && w.err == NoFailure && Fed(w, p, r)
    ensures Reached(r.0, s + p)
  {
    RestGrows(s, p);
    OverlongGrows(s, p);
    WholeGrows(s, p);
    PrefixAfter(w.out, r.0.out, Whole(w.pending + p));
  }

  lemma PrefixLonger(a: seq<Byte>, b: seq<Byte>, more: seq<Byte>)
    requires Prefix(a, b)
    ensures Prefix(a, b + more)
  {
    assert (b + more)[..|a|] == b[..|a|];
  }

  /** And on one that has failed. */
  lemma FailedReaches(w: Writer, s: seq<Byte>, p: seq<Byte>)
    requires Reached(w, s) && w.err != NoFailure
    ensures Reached(w, s + p)
  {
    OverlongGrows(s, p);
    WholeGrows(s, p);
    PrefixLonger(w.out, Whole(s), Whole(Rest(s) + p));
  }

  lemma WriteReaches(w: Writer, s: seq<Byte>, p: seq<Byte>)
    requires Reached(w, s)
    ensures Reached(Written(w, p).0, s + p)
    ensures Reliable(w) ==> Reliable(Written(w, p).0)
    ensures Reliable(w) && w.err != OutputFailed ==> Written(w, p).0.err != OutputFailed
  {
    if w.err == NoFailure {
      RestGrows(s, p);
      OverlongGrows(s, p);
      FeedWorks(w, p);
      FeedReaches(w, s, p, Feed(w, p));
    } else {
      FailedReaches(w, s, p);
    }
  }

  function WriteAll(w: Writer, ps: seq<seq<Byte>>): Writer
    decreases |ps|
  {
    if ps == [] then w else WriteAll(Written(w, ps[0]).0, ps[1..])
  }

  function Joined(ps: seq<seq<Byte>>): seq<Byte> {
    if ps == [] then [] else ps[0] + Joined(ps[1..])
  }

  lemma {:induction false} WriteAllReaches(w: Writer, s: seq<Byte>, ps: seq<seq<Byte>>)
    requires Reached(w, s)
    ensures Reached(WriteAll(w, ps), s + Joined(ps))
    ensures Reliable(w) && w.err != OutputFailed ==> WriteAll(w, ps).err != OutputFailed
    decreases |ps|
  {
    if ps == [] {
      assert s + Joined(ps) == s;
    } else {
      WriteReaches(w, s, ps[0]);
      WriteAllReaches(Written(w, ps[0]).0, s + ps[0], ps[1..]);
      assert s + ps[0] + Joined(ps[1..]) == s + Joined(ps);
    }
  }

  /** After an error nothing is ever written again. */
  lemma {:induction false} ErrorSticks(w: Writer, ps: seq<seq<Byte>>)
    requires w.err != NoFailure
    ensures WriteAll(w, ps) == w
    decreases |ps|
  {
    if ps != [] {
      ErrorSticks(w, ps[1..]);
    }
  }

  // ---- reading back ----

  datatype Split = Split(advance: nat, token: Option<seq<Byte>>, unterminated: bool)

  method JsonLineSplit(data: seq<Byte>, atEOF: bool) returns (r: Split)
    ensures r == SplitOf(data, atEOF)
  {
    for index := 0 to |data|
      invariant forall j :: 0 <= j < index ==> data[j] != NEWLINE
    {
      if data[index] == NEWLINE {
        LineEndUnique(data, index);
        return Split(index + 1, Some(data[..index]), false);
      }
    }
    LineEndUnique(data, |data|);
    r := Split(0, None, atEOF && |data| > 0);
  }

  function SplitOf(data: seq<Byte>, atEOF: bool): Split {
    var n := LineEnd(data);
    if n < |data| then Split(n + 1, Some(data[..n]), false) else Split(0, None, atEOF && n > 0)
  }

  /** More data never changes a token already found. */
  lemma SplitStable(data: seq<Byte>, more: seq<Byte>, atEOF: bool)
    requires SplitOf(data, atEOF).token.Some?
    ensures SplitOf(data + more, atEOF) == SplitOf(data, atEOF)
  {
    var n := LineEnd(data);
    LineEndUnique(data + more, n);
    assert (data + more)[..n] == data[..n];
  }

  /** All tokens of a stream, and whether it breaks off inside a line. */
  function Tokens(data: seq<Byte>): (r: (seq<seq<Byte>>, bool))
    decreases |data|
  {
    var s := SplitOf(data, true);
    if s.token.None? then ([], s.unterminated)
    else
      var (tokens, unterminated) := Tokens(data[s.advance..]);
      ([s.token.value] + tokens, unterminated)
  }

  lemma {:induction false} TokensOfWhole(s: seq<Byte>)
    requires !Overlong(s)
    ensures Lines(s) != [] && Tokens(Whole(s)) == (Lines(s)[..|Lines(s)| - 1], false)
    ensures Lines(s)[|Lines(s)| - 1] == Rest(s)
    decreases |s|
  {
    if Unbroken(s) {
      StreamUnbroken(s);
      LinesUnbroken(s);
      assert LineEnd([]) == 0;
    } else {
      var line, t := TakeLine(s);
      StreamLine(line, t);
      TokensOfWhole(t);
      LinesLine(line, t);
      TokensLine(line, Whole(t));
      DropLast(line, Lines(t));
    }
  }

  /** Index of the first line longer than a mebibyte, or the number of lines. */
  function FirstLong(lines: seq<seq<Byte>>): (k: nat)
    ensures k <= |lines| && (forall i :: 0 <= i < k ==> |lines[i]| <= 1_048_576)
    ensures k < |lines| ==> |lines[k]| > 1_048_576
  {
    if lines == [] || |lines[0]| > 1_048_576 then 0 else 1 + FirstLong(lines[1..])
  }

  /** The first k lines, all but the unfinished one at most. */
  function LinesBefore(lines: seq<seq<Byte>>, k: nat): seq<seq<Byte>>
    requires lines != []
  {
    if k < |lines| - 1 then lines[..k] else lines[..|lines| - 1]
  }

  /** A stream is refused exactly if one of its lines, the unfinished one included, is longer than a mebibyte; and
      what is passed on reads back as the complete lines before the first such line. */
  ghost predicate PassedOn(s: seq<Byte>) {
    && Lines(s) != [] && (Overlong(s) <==> FirstLong(Lines(s)) < |Lines(s)|)
    && Tokens(Whole(s)) == (LinesBefore(Lines(s), FirstLong(Lines(s))), false)
  }

  lemma {:induction false} WholeExact(s: seq<Byte>)
    ensures PassedOn(s)
    decreases |s|
  {
    if Unbroken(s) {
      PassedUnbroken(s);
    } else {
      var line, t := TakeLine(s);
      if |line| <= MAX_LINE {
        WholeExact(t);
        PassedShort(line, t);
      } else {
        PassedLong(line, t);
      }
    }
  }

  lemma NoTokens()
    ensures Tokens([]) == ([], false)
  {
    assert LineEnd([]) == 0;
  }

  lemma PassedUnbroken(s: seq<Byte>)
    requires Unbroken(s)
    ensures PassedOn(s)
  {
    StreamUnbroken(s);
    LinesUnbroken(s);
    NoTokens();
    assert [s][1..] == [];
  }

  lemma PassedShort(line: seq<Byte>, t: seq<Byte>)
    requires Unbroken(line) && |line| <= MAX_LINE && PassedOn(t)
    ensures PassedOn(Line(line, t))
  {
    StreamLine(line, t);
    LinesLine(line, t);
    FirstLongLater(line, Lines(t));
    TokensLine(line, Whole(t));
  }

  lemma PassedLong(line: seq<Byte>, t: seq<Byte>)
    requires Unbroken(line) && |line| > MAX_LINE
    ensures PassedOn(Line(line, t))
  {
    StreamLine(line, t);
    LinesLine(line, t);
    FirstLongLater(line, Lines(t));
    NoTokens();
    assert Lines(t) != [];
  }

  lemma FirstLongLater(line: seq<Byte>, lines: seq<seq<Byte>>)
    ensures |line| > MAX_LINE ==> FirstLong([line] + lines) == 0
    ensures |line| <= MAX_LINE ==> FirstLong([line] + lines) == 1 + FirstLong(lines)
    ensures |line| <= MAX_LINE && lines != [] ==>
              LinesBefore([line] + lines, 1 + FirstLong(lines)) == [line] + LinesBefore(lines, FirstLong(lines))
  {
    assert ([line] + lines)[1..] == lines;
  }

  lemma LinesLine(line: seq<Byte>, t: seq<Byte>)
    requires Unbroken(line)
    ensures Lines(Line(line, t)) == [line] + Lines(t)
  {
    LinesSplit(line, t);
    LinesUnbroken(line);
  }

  lemma TokensLine(line: seq<Byte>, t: seq<Byte>)
    requires Unbroken(line)
    ensures Tokens(Line(line, t)) == ([line] + Tokens(t).0, Tokens(t).1)
  {
    FirstLine(line, t);
  }

  lemma DropLast(line: seq<Byte>, lines: seq<seq<Byte>>)
    requires lines != []
    ensures ([line] + lines)[..|lines|] == [line] + lines[..|lines| - 1]
  {
  }

  /** The round trip: however the input is cut into writes, if no line of it is too long and the
      connection takes everything, the reader gets exactly the input's complete lines, and the writer
      keeps exactly its unfinished last one. If a line is too long, the reader gets the lines before it. */
  lemma RoundTrip(ps: seq<seq<Byte>>, replies: seq<Reply>)
    requires Reliable(Writer([], [], NoFailure, replies))
    ensures var s := Joined(ps);
            var w := WriteAll(Writer([], [], NoFailure, replies), ps);
            && (Overlong(s) <==> w.err == TooLong) && w.err != OutputFailed
            && w.out == Whole(s)
            && (!Overlong(s) ==> Tokens(w.out).0 + [w.pending] == Lines(s) && !Tokens(w.out).1)
  {
    var s := Joined(ps);
    EveryStreamReaches(ps, replies);
    if !Overlong(s) {
      TokensOfWhole(s);
      LastApart(Lines(s));
    }
  }

  lemma EveryStreamReaches(ps: seq<seq<Byte>>, replies: seq<Reply>)
    ensures Reached(WriteAll(Writer([], [], NoFailure, replies), ps), Joined(ps))
    ensures Reliable(Writer([], [], NoFailure, replies)) ==>
              WriteAll(Writer([], [], NoFailure, replies), ps).err != OutputFailed
  {
    EmptyReached(replies);
    WriteAllReaches(Writer([], [], NoFailure, replies), [], ps);
    assert [] + Joined(ps) == Joined(ps);
  }

  lemma EmptyReached(replies: seq<Reply>)
    ensures Reached(Writer([], [], NoFailure, replies), [])
  {
    StreamUnbroken([]);
  }

  lemma LastApart(lines: seq<seq<Byte>>)
    requires lines != []
    ensures lines[..|lines| - 1] + [lines[|lines| - 1]] == lines
  {
  }

  /** With an unreliable connection: what got out is always a prefix of the right output. */
  lemma NothingWrongGetsOut(ps: seq<seq<Byte>>, replies: seq<Reply>)
    ensures Prefix(WriteAll(Writer([], [], NoFailure, replies), ps).out, Whole(Joined(ps)))
  {
    EveryStreamReaches(ps, replies);
  }

  // ---- the object ----

  class ProtocolLineWriter {
    var out: seq<Byte>
    var pending: seq<Byte>
    var err: Failure
    var replies: seq<Reply>

    ghost function View(): Writer
      reads this
    {
      Writer(out, pending, err, replies)
    }

    constructor (replies: seq<Reply>)
      ensures View() == Writer([], [], NoFailure, replies)
    {
      out, pending, err, this.replies := [], [], NoFailure, replies;
    }

    method WriteFrame(frame: seq<Byte>) returns (ok: bool)
      modifies this
      ensures (View(), ok) == Emit(old(View()), frame)
    {
      var reply := Accepted;
      if replies != [] {
        reply, replies := replies[0], replies[1..];
      }
      var written := if reply.Cut? && reply.count < |frame| then reply.count else |frame|;
      out := out + frame[..written];
      assert frame[..|frame|] == frame;
      ok := written == |frame| && !reply.TakenButFailed?;
    }

    /** One segment: up to the next newline, or all that is left. */
    method WriteSegment(p: seq<Byte>) returns (rest: seq<Byte>, taken: nat)
      requires p != []
      modifies this
      ensures Round(View(), rest, taken) == Segment(old(View()), p)
    {
      var n := LineEnd(p);
      if |pending| + n > MAX_LINE {
        err := TooLong;
        return [], 0;
      }
      pending := pending + p[..n];
      if n == |p| {
        assert p[..n] == p;
        return [], n;
      }
      var ok := WriteFrame(pending + [NEWLINE]);
      if !ok {
        err := OutputFailed;
        return [], n;
      }
      pending := [];
      return p[n + 1..], n + 1;
    }

    method Write(input: seq<Byte>) returns (written: nat)
      modifies this
      ensures (View(), written) == Written(old(View()), input)
    {
      if err != NoFailure {
        return 0;
      }
      var p := input;
      written := 0;
      ghost var start := View();
      while |p| > 0
        invariant err == NoFailure
        invariant Feed(start, input) == (Feed(View(), p).0, written + Feed(View(), p).1)
        decreases |p|
      {
        var taken;
        p, taken := WriteSegment(p);
        written := written + taken;
        if err != NoFailure {
          return;
        }
      }
    }
  }
}
