/** Chunk invariance: how a byte stream is cut into writes never shows
    (internal/supervisor/vterm.go, lines 90-128). */
module TermChunks {
  import opened Utf8
  import opened TermModel

  /** No operation reads or sets the bytes held back for the next write. */
  lemma ConsumeKeepsPending(t: Term, data: seq<Byte>)
    requires TermShape(t) && |data| > 0
    ensures Consume(t, data).utf8Pending == t.utf8Pending
  {
    if t.state != Ground {
      ConsumeEscapeKeepsPending(t, data[0]);
    }
  }

  lemma ConsumeEscapeKeepsPending(t: Term, b: Byte)
    requires TermShape(t)
    ensures ConsumeEscape(t, b).utf8Pending == t.utf8Pending
  {
    if t.state == StringEscape {
      if b as char != '\\' && b != 0x1b {
        CountedByteKeepsPending(t.(state := Escape), b);
      }
    } else if Discards(t.state) {
      DispatchKeepsPending(t, b);
    } else {
      CountedByteKeepsPending(t, b);
    }
  }

  lemma CountedByteKeepsPending(t: Term, b: Byte)
    requires TermShape(t)
    ensures CountedByte(t, b).utf8Pending == t.utf8Pending
  {
    DispatchKeepsPending(Counted(t), b);
  }

  lemma DispatchKeepsPending(t: Term, b: Byte)
    requires TermShape(t)
    ensures Dispatch(t, b).utf8Pending == t.utf8Pending
  {
    if t.state == Csi && 0x40 <= b <= 0x7e {
      ExecuteCsiKeepsPending(t, b as char, t.sequence);
    }
  }

  lemma ExecuteCsiKeepsPending(t: Term, final: char, raw: seq<Byte>)
    requires TermShape(t)
    ensures ExecuteCsi(t, final, raw).utf8Pending == t.utf8Pending
  {
    if |raw| > 0 && PrivatePrefix(raw[0]) && (final == 'h' || final == 'l') {
      SwitchKeepsPending(t, final == 'h', CsiParams.Params(raw[1..]));
    }
  }

  lemma {:induction false} SwitchKeepsPending(t: Term, enable: bool, params: seq<nat>)
    requires TermShape(t)
    ensures SwitchScreens(t, enable, params).utf8Pending == t.utf8Pending
    decreases |params|
  {
    if params != [] {
      SwitchKeepsPending(SwitchScreen(t, enable, params[0]), enable, params[1..]);
    }
  }

  /** What follows a decided unit changes neither the unit nor its effect. */
  lemma UnitStable(t: Term, x: seq<Byte>, y: seq<Byte>)
    requires TermShape(t) && |x| > 0 && !MustWait(t, x)
    ensures !MustWait(t, x + y)
    ensures UnitSize(t, x + y) == UnitSize(t, x)
    ensures Consume(t, x + y) == Consume(t, x)
  {
    assert (x + y)[0] == x[0];
    if t.state == Ground && x[0] >= RUNE_SELF {
      DecodeStable(x, y);
    }
  }

  lemma RunStep(t: Term, data: seq<Byte>)
    requires TermShape(t) && |data| > 0 && !MustWait(t, data)
    ensures Run(t, data) == Run(Consume(t, data), data[UnitSize(t, data)..])
  {
  }

  /** Running over a concatenation is running over the first part, then writing the second. */
  lemma {:induction false} RunSplit(t: Term, x: seq<Byte>, y: seq<Byte>)
    requires TermShape(t) && t.utf8Pending == []
    ensures Run(t, x + y) == Write(Run(t, x), y)
    decreases |x|
  {
    if x == [] {
      assert x + y == y && [] + y == y;
      assert t.(utf8Pending := []) == t;
    } else if MustWait(t, x) {
      assert t.(utf8Pending := x).(utf8Pending := []) == t;
    } else {
      UnitStable(t, x, y);
      ConsumeKeepsPending(t, x);
      var n := UnitSize(t, x);
      assert (x + y)[n..] == x[n..] + y;
      RunSplit(Consume(t, x), x[n..], y);
    }
  }

  /** Chunk invariance: two writes leave the terminal one write of both would, in every field,
      from every state and wherever the cut falls. */
  lemma ChunkInvariance(t: Term, a: seq<Byte>, b: seq<Byte>)
    requires TermShape(t)
    ensures Write(Write(t, a), b) == Write(t, a + b)
  {
    var x := t.utf8Pending + a;
    assert x + b == t.utf8Pending + (a + b);
    RunSplit(t.(utf8Pending := []), x, b);
  }

  function Concat(chunks: seq<seq<Byte>>): seq<Byte> {
    if chunks == [] then [] else chunks[0] + Concat(chunks[1..])
  }

  function WriteAll(t: Term, chunks: seq<seq<Byte>>): (t': Term)
    requires TermShape(t)
    ensures TermShape(t') && t'.cols == t.cols && t'.rows == t.rows
    decreases |chunks|
  {
    if chunks == [] then t else WriteAll(Write(t, chunks[0]), chunks[1..])
  }

  /** A stable terminal holds back only bytes that still wait for more. */
  predicate PendingWaits(t: Term) {
    t.utf8Pending != [] ==> MustWait(t, t.utf8Pending)
  }

  lemma {:induction false} RunPendingWaits(t: Term, data: seq<Byte>)
    requires TermShape(t) && t.utf8Pending == []
    ensures PendingWaits(Run(t, data)) && |Run(t, data).utf8Pending| <= 3
    decreases |data|
  {
    if data != [] {
      if MustWait(t, data) {
        IncompleteIsShort(data);
      } else {
        ConsumeKeepsPending(t, data);
        RunPendingWaits(Consume(t, data), data[UnitSize(t, data)..]);
      }
    }
  }

  /** Every way of cutting a stream into any number of chunks, down to single bytes, gives the
      terminal of one write. */
  lemma {:induction false} AnyChunking(t: Term, chunks: seq<seq<Byte>>)
    requires TermShape(t) && PendingWaits(t)
    ensures WriteAll(t, chunks) == Write(t, Concat(chunks))
    decreases |chunks|
  {
    if chunks == [] {
      assert t.utf8Pending + [] == t.utf8Pending;
      assert t.(utf8Pending := []).(utf8Pending := t.utf8Pending) == t;
    } else {
      RunPendingWaits(t.(utf8Pending := []), t.utf8Pending + chunks[0]);
      AnyChunking(Write(t, chunks[0]), chunks[1..]);
      ChunkInvariance(t, chunks[0], Concat(chunks[1..]));
    }
  }
}
