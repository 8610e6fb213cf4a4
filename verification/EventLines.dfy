/** The bounded line reader over a log file, whatever sizes the reads come back in. */
module EventLines {

  newtype Byte = x: int | 0 <= x < 256

  const LF: Byte := 10

  /** `events.jsonl` lines are at most the largest admitted event plus its envelope. */
  const MAX_EVENT_LINE_BYTES: nat := 1024 * 1024 + 256
  const READ_CHUNK_BYTES: nat := 65536

  /** Lines in order, and whether the reader then refuses instead of ending. */
  datatype Read = Read(lines: seq<seq<Byte>>, refused: bool)

  function LineEnd(s: seq<Byte>): (i: nat)
    ensures i <= |s| && LF !in s[..i] && (i < |s| ==> s[i] == LF)
  {
    if s == [] then 0 else if s[0] == LF then 0
    else
      var i := 1 + LineEnd(s[1..]);
      assert s[..i] == [s[0]] + s[1..][..i - 1];
      i
  }

  /** The plain log: what lies between line feeds, and a last unterminated line if it is not empty. */
  function Lines(data: seq<Byte>, max: nat): Read
    decreases |data|
  {
    var i := LineEnd(data);
    if i > max then Read([], true)
    else if i == |data| then Read(if data == [] then [] else [data], false)
    else
      var rest := Lines(data[i + 1..], max);
      Read([data[..i]] + rest.lines, rest.refused)
  }

  lemma LineEndOf(a: seq<Byte>, b: seq<Byte>)
    requires LF !in a
    ensures LineEnd(a + b) >= |a| && (b != [] && b[0] == LF ==> LineEnd(a + b) == |a|)
        && (b == [] ==> LineEnd(a + b) == |a|)
  {
    var s := a + b;
    assert forall k :: 0 <= k < |a| ==> s[k] == a[k];
    assert b != [] ==> s[|a|] == b[0];
    assert forall k :: 0 <= k < LineEnd(s) ==> s[..LineEnd(s)][k] == s[k];
  }

  /** A line feed already buffered ends the first line of the whole rest of the file. */
  lemma BufferedLine(buf: seq<Byte>, rest: seq<Byte>)
    requires LineEnd(buf) < |buf|
    ensures LineEnd(buf + rest) == LineEnd(buf)
  {
    var i := LineEnd(buf);
    assert buf + rest == buf[..i] + (buf[i..] + rest);
    LineEndOf(buf[..i], buf[i..] + rest);
  }

  lemma Prepend(out: seq<seq<Byte>>, line: seq<Byte>, rest: seq<seq<Byte>>)
    ensures out + ([line] + rest) == (out + [line]) + rest
  {
  }

  /** One line off the front of the buffer leaves the same lines to come. */
  lemma TakeLine(out: seq<seq<Byte>>, buf: seq<Byte>, rest: seq<Byte>, max: nat)
    requires LineEnd(buf) < |buf| && LineEnd(buf) <= max
    ensures var i := LineEnd(buf);
      && out + Lines(buf + rest, max).lines == (out + [buf[..i]]) + Lines(buf[i + 1..] + rest, max).lines
      && Lines(buf + rest, max).refused == Lines(buf[i + 1..] + rest, max).refused
  {
    var i := LineEnd(buf);
    BufferedLine(buf, rest);
    assert (buf + rest)[..i] == buf[..i] && (buf + rest)[i + 1..] == buf[i + 1..] + rest;
    Prepend(out, buf[..i], Lines(buf[i + 1..] + rest, max).lines);
  }

  /** How much a read returns: at least a byte, at most what was asked for and what is left. */
  function Got(size: nat, asked: nat, left: nat): (n: nat)
    requires asked > 0 && left > 0
    ensures 1 <= n <= asked && n <= left
  {
    var most := if asked < left then asked else left;
    if size < 1 then 1 else if size > most then most else size
  }

  /** What is still to come, after the lines already out, makes up the whole. */
  ghost predicate ToCome(data: seq<Byte>, max: nat, out: seq<seq<Byte>>, buf: seq<Byte>, pos: nat) {
    && pos <= |data|
    && out + Lines(buf + data[pos..], max).lines == Lines(data, max).lines
    && Lines(buf + data[pos..], max).refused == Lines(data, max).refused
  }

  lemma AtStart(data: seq<Byte>, max: nat)
    ensures ToCome(data, max, [], [], 0)
  {
    assert [] + data[0..] == data;
    assert [] + Lines(data, max).lines == Lines(data, max).lines;
  }

  lemma AfterLine(data: seq<Byte>, max: nat, out: seq<seq<Byte>>, buf: seq<Byte>, pos: nat)
    requires ToCome(data, max, out, buf, pos) && LineEnd(buf) < |buf| && LineEnd(buf) <= max
    ensures ToCome(data, max, out + [buf[..LineEnd(buf)]], buf[LineEnd(buf) + 1..], pos)
  {
    hide Lines;
    TakeLine(out, buf, data[pos..], max);
  }

  lemma AfterRead(data: seq<Byte>, max: nat, out: seq<seq<Byte>>, buf: seq<Byte>, pos: nat, n: nat)
    requires ToCome(data, max, out, buf, pos) && pos + n <= |data|
    ensures ToCome(data, max, out, buf + data[pos..pos + n], pos + n)
  {
    assert buf + data[pos..] == (buf + data[pos..pos + n]) + data[pos + n..];
  }

  lemma AtRefusal(data: seq<Byte>, max: nat, out: seq<seq<Byte>>, buf: seq<Byte>, pos: nat)
    requires ToCome(data, max, out, buf, pos) && LineEnd(buf) > max
    ensures Lines(data, max) == Read(out, true)
  {
    Oversize(buf, data[pos..], max);
    assert out + [] == out;
  }

  lemma AtEnd(data: seq<Byte>, max: nat, out: seq<seq<Byte>>, buf: seq<Byte>)
    requires ToCome(data, max, out, buf, |data|) && LineEnd(buf) == |buf| <= max
    ensures Lines(data, max) == Read(if buf == [] then out else out + [buf], false)
  {
    assert buf + data[|data|..] == buf;
    Unterminated(buf, max);
    assert out + [] == out;
  }

  /**
   * The reader. `sizes` decides how much each read returns, between one byte and what was asked for. The lines and the
   * refusal do not depend on it, and the buffer never exceeds the bound by more than one byte.
   */
  method ReadLines(data: seq<Byte>, max: nat, chunk: nat, sizes: nat -> nat) returns (r: Read, peak: nat)
    requires chunk > 0
    ensures r == Lines(data, max)
    ensures peak <= max + 1
  {
    hide Lines, LineEnd, ToCome, Got;
    var buf: seq<Byte>, pos: nat, count: nat := [], 0, 0;
    var out: seq<seq<Byte>> := [];
    peak := 0;
    AtStart(data, max);
    while true
      invariant pos <= |data| && |buf| <= max + 1 && peak <= max + 1
      invariant ToCome(data, max, out, buf, pos)
      decreases 2 * (|data| - pos) + |buf|
    {
      var newline := LineEnd(buf);
      if newline < |buf| {
        if newline > max {
          AtRefusal(data, max, out, buf, pos);
          return Read(out, true), peak;
        }
        AfterLine(data, max, out, buf, pos);
        out, buf := out + [buf[..newline]], buf[newline + 1..];
        continue;
      }
      if |buf| > max {
        AtRefusal(data, max, out, buf, pos);
        return Read(out, true), peak;
      }
      if pos == |data| {
        AtEnd(data, max, out, buf);
        return Read(if buf == [] then out else out + [buf], false), peak;
      }
      var asked := if chunk < max - |buf| + 1 then chunk else max - |buf| + 1;
      var n := Got(sizes(count), asked, |data| - pos);
      AfterRead(data, max, out, buf, pos, n);
      buf, pos, count := buf + data[pos..pos + n], pos + n, count + 1;
      peak := if |buf| > peak then |buf| else peak;
    }
  }

  /** More than the bound with no line feed in it: no continuation of the file can save the line. */
  lemma Oversize(buf: seq<Byte>, rest: seq<Byte>, max: nat)
    requires LineEnd(buf) > max
    ensures Lines(buf + rest, max) == Read([], true)
  {
    var i := LineEnd(buf);
    assert buf + rest == buf[..i] + (buf[i..] + rest);
    LineEndOf(buf[..i], buf[i..] + rest);
  }

  lemma Unterminated(buf: seq<Byte>, max: nat)
    requires LineEnd(buf) == |buf| <= max
    ensures Lines(buf, max) == Read(if buf == [] then [] else [buf], false)
  {
  }

  /** The reader with the program's own bounds. */
  method ReadEventLog(data: seq<Byte>, sizes: nat -> nat) returns (r: Read, peak: nat)
    ensures r == Lines(data, MAX_EVENT_LINE_BYTES)
    ensures peak <= MAX_EVENT_LINE_BYTES + 1
  {
    r, peak := ReadLines(data, MAX_EVENT_LINE_BYTES, READ_CHUNK_BYTES, sizes);
  }
}
