/** Recovering the last sequence number of an event log: the backward scan in chunks
    (internal/supervisor/store/event_store.go). Decoding a line is left abstract. */
module LogScan {
  import opened Options
  import opened Utf8
  import opened TextLines

  type Decoder = seq<Byte> -> Option<nat>

  // ---- the plain forward reading ----

  /** The sequence number of the last line that is not empty and decodes. */
  function Latest(lines: seq<seq<Byte>>, decode: Decoder): Option<nat> {
    if lines == [] then None
    else
      var last := lines[|lines| - 1];
      if last != [] && decode(last).Some? then decode(last) else Latest(lines[..|lines| - 1], decode)
  }

  function LastSequenceOf(s: seq<Byte>, decode: Decoder): nat {
    var r := Latest(Lines(s), decode);
    if r.Some? then r.value else 0
  }

  // ---- looking at it from the end ----

  /** The last line decides, or drops out. */
  lemma LatestAfterNewline(s: seq<Byte>, t: seq<Byte>, decode: Decoder)
    requires Unbroken(t)
    ensures Latest(Lines(s + [NEWLINE] + t), decode) ==
            if t != [] && decode(t).Some? then decode(t) else Latest(Lines(s), decode)
  {
    LinesSplit(s, t);
    LinesUnbroken(t);
    var lines := Lines(s) + [t];
    assert lines[..|lines| - 1] == Lines(s);
  }

  lemma LatestOnly(t: seq<Byte>, decode: Decoder)
    requires Unbroken(t)
    ensures Latest(Lines(t), decode) == if t != [] && decode(t).Some? then decode(t) else None
  {
    LinesUnbroken(t);
    assert [t][..0] == [];
  }

  // ---- the scan ----

  function Reversed(s: seq<Byte>): (r: seq<Byte>)
    ensures |r| == |s| && forall i :: 0 <= i < |s| ==> r[i] == s[|s| - 1 - i]
  {
    seq(|s|, i requires 0 <= i < |s| => s[|s| - 1 - i])
  }

  method ReverseBytes(data: array<Byte>)
    modifies data
    ensures data[..] == Reversed(old(data[..]))
  {
    var left, right := 0, data.Length - 1;
    while left < right
      invariant 0 <= left && left + right == data.Length - 1
      invariant left <= right + 1
      invariant forall k :: 0 <= k < left || right < k < data.Length ==> data[k] == old(data[data.Length - 1 - k])
      invariant forall k :: left <= k <= right ==> data[k] == old(data[k])
    {
      data[left], data[right] := data[right], data[left];
      left, right := left + 1, right - 1;
    }
  }

  /** Decodes a line collected back to front. */
  method DecodeCollected(line: seq<Byte>, decode: Decoder) returns (r: Option<nat>)
    ensures r == decode(Reversed(line))
  {
    var data := new Byte[|line|](i requires 0 <= i < |line| => line[i]);
    assert data[..] == line;
    ReverseBytes(data);
    r := decode(data[..]);
  }

  /** The bytes in `tail` are read: whatever precedes them, what is left to find is what the unfinished
      line, collected back to front in `line`, leaves to find. */
  ghost predicate TailRead(tail: seq<Byte>, line: seq<Byte>, decode: Decoder) {
    forall before: seq<Byte> :: Latest(Lines(before + tail), decode) == Latest(Lines(before + Reversed(line)), decode)
  }

  /** The tail decides, whatever precedes it. */
  ghost predicate TailDecides(tail: seq<Byte>, decode: Decoder, found: Option<nat>) {
    forall before: seq<Byte> :: Latest(Lines(before + tail), decode) == found
  }

  lemma ReadByte(tail: seq<Byte>, line: seq<Byte>, b: Byte, decode: Decoder)
    requires TailRead(tail, line, decode) && Unbroken(line)
    ensures b != NEWLINE ==> TailRead([b] + tail, line + [b], decode)
    ensures b == NEWLINE && (line == [] || decode(Reversed(line)).None?) ==> TailRead([b] + tail, [], decode)
    ensures b == NEWLINE && line != [] && decode(Reversed(line)).Some? ==>
              TailDecides([b] + tail, decode, decode(Reversed(line)))
  {
    forall before: seq<Byte>
      ensures b != NEWLINE ==>
                Latest(Lines(before + ([b] + tail)), decode) == Latest(Lines(before + Reversed(line + [b])), decode)
      ensures b == NEWLINE && !(line != [] && decode(Reversed(line)).Some?) ==>
                Latest(Lines(before + ([b] + tail)), decode) == Latest(Lines(before + Reversed([])), decode)
      ensures b == NEWLINE && line != [] && decode(Reversed(line)).Some? ==>
                Latest(Lines(before + ([b] + tail)), decode) == decode(Reversed(line))
    {
      assert before + ([b] + tail) == (before + [b]) + tail;
      if b != NEWLINE {
        assert Reversed(line + [b]) == [b] + Reversed(line);
        assert before + Reversed(line + [b]) == (before + [b]) + Reversed(line);
      } else {
        LatestAfterNewline(before, Reversed(line), decode);
        assert before + Reversed([]) == before;
      }
    }
  }

  /** One byte, from the end: the unfinished line after it, or the answer. */
  method TakeByte(line: seq<Byte>, b: Byte, decode: Decoder, ghost tail: seq<Byte>)
    returns (rest: seq<Byte>, found: Option<nat>)
    requires Unbroken(line) && TailRead(tail, line, decode)
    ensures Unbroken(rest)
    ensures found.None? ==> TailRead([b] + tail, rest, decode)
    ensures found.Some? ==> TailDecides([b] + tail, decode, found)
  {
    ReadByte(tail, line, b, decode);
    rest, found := line, None;
    if b == NEWLINE && |line| > 0 {
      found := DecodeCollected(line, decode);
      rest := [];
    } else if b != NEWLINE {
      rest := line + [b];
    }
  }

  lemma NextByte(bytes: seq<Byte>, index: nat, tail: seq<Byte>)
    requires index < |bytes|
    ensures [bytes[index]] + (bytes[index + 1..] + tail) == bytes[index..] + tail
  {
  }

  /** One chunk, from its end; `tail` is what was read before. */
  method ScanChunk(chunk: array<Byte>, count: nat, before: seq<Byte>, decode: Decoder, ghost tail: seq<Byte>)
    returns (line: seq<Byte>, found: Option<nat>, ghost at: nat)
    requires count <= chunk.Length && Unbroken(before) && TailRead(tail, before, decode)
    ensures Unbroken(line)
    ensures found.None? ==> TailRead(chunk[..count] + tail, line, decode)
    ensures found.Some? ==> at < count && TailDecides(chunk[..count][at..] + tail, decode, found)
  {
    line, found, at := before, None, 0;
    var index := count;
    ghost var bytes := chunk[..count];
    assert bytes[count..] + tail == tail;
    while index > 0
      invariant 0 <= index <= count && Unbroken(line) && found.None?
      invariant TailRead(bytes[index..] + tail, line, decode)
    {
      index := index - 1;
      NextByte(bytes, index, tail);
      line, found := TakeByte(line, chunk[index], decode, bytes[index + 1..] + tail);
      if found.Some? {
        at := index;
        return;
      }
    }
    assert bytes[0..] == bytes;
  }

  /** A read delivers all it was asked for, or is cut short by the end of a file that has shrunk since its
      size was taken, which is not an error, or fails. */
  datatype Read = Whole | Short(count: nat) | Fails

  function Delivered(r: Read, count: nat): (n: nat)
    ensures n <= count
  {
    if r.Short? && r.count < count then r.count else count
  }

  /** Bytes that did not arrive are those the buffer held before. */
  method ReadAt(content: seq<Byte>, start: nat, count: nat, r: Read, chunk: array<Byte>) returns (ok: bool)
    requires start + count <= |content| && count <= chunk.Length
    modifies chunk
    ensures ok <==> !r.Fails?
    ensures ok ==> chunk[..Delivered(r, count)] == content[start..start + Delivered(r, count)]
  {
    if r.Fails? {
      return false;
    }
    var n := Delivered(r, count);
    for i := 0 to n
      invariant forall k :: 0 <= k < i ==> chunk[k] == content[start + k]
    {
      chunk[i] := content[start + i];
    }
    ok := true;
  }

  /** The file as the scan saw it: as it was, but where a read was cut short. */
  ghost predicate SeenAs(seen: seq<Byte>, content: seq<Byte>, replies: nat -> Read) {
    && |seen| == |content|
    && ((forall k :: 0 <= k < |content| ==> replies(k) == Whole) ==> seen == content)
  }

  /** One round of the outer loop: the chunk from `start` to `position`. */
  method ScanRound(content: seq<Byte>, start: nat, position: nat, chunk: array<Byte>, before: seq<Byte>,
                   decode: Decoder,
                   replies: nat -> Read, ghost known: seq<Byte>)
    returns (ok: bool, line: seq<Byte>, found: Option<nat>, ghost seen: seq<Byte>)
    requires start < position <= |content| && position - start <= chunk.Length && Unbroken(before)
    requires SeenAs(known, content, replies) && TailRead(known[position..], before, decode)
    modifies chunk
    ensures ok <==> !replies(start).Fails?
    ensures SeenAs(seen, content, replies) && Unbroken(line)
    ensures ok && found.None? ==> TailRead(seen[start..], line, decode)
    ensures ok && found.Some? ==> Latest(Lines(seen), decode) == found
  {
    line, found, seen := before, None, known;
    var count := position - start;
    ok := ReadAt(content, start, count, replies(start), chunk);
    if ok {
      ghost var tail := known[position..];
      seen := Overlaid(content, known, start, position, chunk[..count], replies);
      ghost var at;
      line, found, at := ScanChunk(chunk, count, before, decode, tail);
      if found.Some? {
        Decided(seen, start, chunk[..count], tail, at, decode, found);
      }
    }
  }

  lemma Decided(seen: seq<Byte>, start: nat, bytes: seq<Byte>, tail: seq<Byte>, at: nat, decode: Decoder,
                found: Option<nat>)
    requires start <= |seen| && seen[start..] == bytes + tail && at < |bytes|
    requires TailDecides(bytes[at..] + tail, decode, found)
    ensures Latest(Lines(seen), decode) == found
  {
    Rejoined(seen, start, bytes, tail, at);
    assert Latest(Lines((seen[..start] + bytes[..at]) + (bytes[at..] + tail)), decode) == found;
  }

  lemma Rejoined(seen: seq<Byte>, start: nat, bytes: seq<Byte>, tail: seq<Byte>, at: nat)
    requires start <= |seen| && seen[start..] == bytes + tail && at < |bytes|
    ensures (seen[..start] + bytes[..at]) + (bytes[at..] + tail) == seen
  {
    assert seen == seen[..start] + seen[start..];
  }

  /** The backward scan finds what a forward reading finds of the bytes seen, whatever the chunk size; with
      no read cut short or failed those are the file. */
  method LastSequence(content: seq<Byte>, size: nat, decode: Decoder, replies: nat -> Read)
    returns (r: Option<nat>, ghost seen: seq<Byte>)
    requires size > 0
    ensures SeenAs(seen, content, replies)
    ensures r.Some? ==> r.value == LastSequenceOf(seen, decode)
    ensures r.None? ==> exists k: nat :: k < |content| && replies(k) == Fails
  {
    seen := content;
    var position, line := |content|, [];
    var chunk := new Byte[size](_ => 0);
    NothingRead(decode);
    assert seen[position..] == [];
    while position > 0
      invariant 0 <= position <= |content| && Unbroken(line)
      invariant SeenAs(seen, content, replies) && TailRead(seen[position..], line, decode)
    {
      var start := if position < size then 0 else position - size;
      var ok, found;
      ok, line, found, seen := ScanRound(content, start, position, chunk, line, decode, replies, seen);
      if !ok {
        return None, seen;
      }
      if found.Some? {
        return found, seen;
      }
      position := start;
    }
    assert seen[0..] == seen;
    Finished(seen, line, decode);
    if |line| > 0 {
      var last := DecodeCollected(line, decode);
      if last.Some? {
        return last, seen;
      }
    }
    return Some(0), seen;
  }

  lemma NothingRead(decode: Decoder)
    ensures TailRead([], [], decode)
  {
    assert Reversed([]) == [];
  }

  lemma Finished(seen: seq<Byte>, line: seq<Byte>, decode: Decoder)
    requires TailRead(seen, line, decode) && Unbroken(line)
    ensures Latest(Lines(seen), decode) ==
              if line != [] && decode(Reversed(line)).Some? then decode(Reversed(line)) else None
  {
    assert [] + seen == seen && [] + Reversed(line) == Reversed(line);
    assert Latest(Lines([] + seen), decode) == Latest(Lines([] + Reversed(line)), decode);
    LatestOnly(Reversed(line), decode);
  }

  /** The bytes seen, once a chunk of them is known. */
  ghost function Overlaid(content: seq<Byte>, seen: seq<Byte>, start: nat, position: nat, bytes: seq<Byte>,
                          replies: nat -> Read)
    : (r: seq<Byte>)
    requires start < position <= |content| && |bytes| == position - start && SeenAs(seen, content, replies)
    requires !replies(start).Fails?
    requires bytes[..Delivered(replies(start), |bytes|)] == content[start..start + Delivered(replies(start), |bytes|)]
    ensures SeenAs(r, content, replies) && r[..start] == seen[..start] && r[start..] == bytes + seen[position..]
  {
    if forall k :: 0 <= k < |content| ==> replies(k) == Whole then
      assert bytes == content[start..position] by {
        assert bytes[..|bytes|] == bytes;
      }
      assert seen == seen[..start] + seen[start..position] + seen[position..];
      seen[..start] + bytes + seen[position..]
    else seen[..start] + bytes + seen[position..]
  }
}
