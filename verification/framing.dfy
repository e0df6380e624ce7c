/**
 * Chunk framing in `data_saver`: a received chunk is split into lines,
 * its first and last line are dropped, and each remaining line whose
 * six-character prefix is whitelisted is parsed and handed to
 * `handle_data`.
 */
module Framing {
  import opened Values
  import opened Nmea
  import opened Snapshot

  /** The line boundaries recognised by Python's `str.splitlines`. */
  predicate IsLineBreak(c: char) {
    || c == '\n' || c == '\r' || c == '\U{0B}' || c == '\U{0C}'
    || c == '\U{1C}' || c == '\U{1D}' || c == '\U{1E}'
    || c == '\U{85}' || c == '\U{2028}' || c == '\U{2029}'
  }

  predicate NoBreak(s: string) {
    forall j :: 0 <= j < |s| ==> !IsLineBreak(s[j])
  }

  /** Position of the first line break in `s`, or `|s|` when there is none. */
  function FirstBreak(s: string): (i: nat)
    ensures i <= |s|
    ensures i < |s| ==> IsLineBreak(s[i])
    ensures NoBreak(s[..i])
  {
    if s == [] then 0
    else if IsLineBreak(s[0]) then 0
    else 1 + FirstBreak(s[1..])
  }

  /** Characters taken by the break at `i`: "\r\n" is one boundary. */
  function BreakWidth(s: string, i: nat): nat
    requires i < |s|
  {
    if s[i] == '\r' && i + 1 < |s| && s[i + 1] == '\n' then 2 else 1
  }

  /**
   * `s.splitlines()`: the text between boundaries; a trailing boundary
   * does not start a further, empty line.
   */
  function SplitLines(s: string): (lines: seq<string>)
    ensures forall k :: 0 <= k < |lines| ==> NoBreak(lines[k])
    ensures s == [] <==> lines == []
    decreases |s|
  {
    if s == [] then []
    else
      var i := FirstBreak(s);
      if i == |s| then [s]
      else [s[..i]] + SplitLines(s[i + BreakWidth(s, i)..])
  }

  /** `xs[1:-1]`: everything but the first and the last element. */
  function Interior<T>(xs: seq<T>): (r: seq<T>)
    ensures |r| == if |xs| <= 2 then 0 else |xs| - 2
    ensures forall k :: 0 <= k < |r| ==> r[k] == xs[k + 1]
  {
    if |xs| <= 2 then [] else xs[1..|xs| - 1]
  }

  /** `data.splitlines()[1:-1]`: the sentences of one chunk the loop looks at. */
  function Framed(chunk: string): seq<string> {
    Interior(SplitLines(chunk))
  }

  /** A line terminator a sender may use: "\n", or the "\r\n" that ends NMEA 0183 sentences. */
  predicate IsTerminator(eol: string) {
    eol == "\n" || eol == "\r\n"
  }

  /** Lines each followed by the terminator `eol`, as a sender writes them. */
  function Terminated(lines: seq<string>, eol: string): string {
    if lines == [] then [] else lines[0] + eol + Terminated(lines[1..], eol)
  }

  lemma FirstBreakAt(a: string, c: char, b: string)
    requires NoBreak(a) && IsLineBreak(c)
    ensures FirstBreak(a + [c] + b) == |a|
    decreases |a|
  {
    if a != [] {
      assert (a + [c] + b)[1..] == a[1..] + [c] + b;
      FirstBreakAt(a[1..], c, b);
    }
  }

  /** A line followed by a terminator is split off as one line; "\r\n" is one boundary. */
  lemma SplitFirst(a: string, eol: string, b: string)
    requires NoBreak(a) && IsTerminator(eol)
    ensures SplitLines(a + eol + b) == [a] + SplitLines(b)
  {
    var s := a + eol + b;
    assert s == a + [eol[0]] + (eol[1..] + b);
    FirstBreakAt(a, eol[0], eol[1..] + b);
    assert s[..|a|] == a;
    assert BreakWidth(s, |a|) == |eol|;
    assert s[|a| + |eol|..] == b;
  }

  /**
   * Splitting terminated lines followed by any further text gives those
   * lines back, then the lines of that text.
   */
  lemma {:induction false} SplitTerminated(lines: seq<string>, eol: string, rest: string)
    requires forall k :: 0 <= k < |lines| ==> NoBreak(lines[k])
    requires IsTerminator(eol)
    ensures SplitLines(Terminated(lines, eol) + rest) == lines + SplitLines(rest)
    decreases |lines|
  {
    if lines == [] {
      assert Terminated(lines, eol) + rest == rest;
    } else {
      var tail := Terminated(lines[1..], eol) + rest;
      calc {
        SplitLines(Terminated(lines, eol) + rest);
        { assert Terminated(lines, eol) + rest == lines[0] + eol + tail; }
        SplitLines(lines[0] + eol + tail);
        { SplitFirst(lines[0], eol, tail); }
        [lines[0]] + SplitLines(tail);
        { SplitTerminated(lines[1..], eol, rest); }
        [lines[0]] + (lines[1..] + SplitLines(rest));
        { assert lines == [lines[0]] + lines[1..]; }
        lines + SplitLines(rest);
      }
    }
  }

  /**
   * Of a chunk of complete lines, exactly the lines strictly between the
   * first and the last are looked at.
   */
  lemma FramedTerminated(lines: seq<string>, eol: string)
    requires forall k :: 0 <= k < |lines| ==> NoBreak(lines[k])
    requires IsTerminator(eol)
    ensures Framed(Terminated(lines, eol)) == Interior(lines)
  {
    SplitTerminated(lines, eol, []);
    assert Terminated(lines, eol) + [] == Terminated(lines, eol);
    assert lines + SplitLines([]) == lines;
  }

  /**
   * A chunk cut out of the stream in mid-line: the end of one line, then
   * complete lines, then the start of another. The loop looks at exactly
   * the complete lines and drops the two partial ones.
   */
  lemma FramedChunk(head: string, lines: seq<string>, tail: string, eol: string)
    requires NoBreak(head) && NoBreak(tail) && tail != []
    requires forall k :: 0 <= k < |lines| ==> NoBreak(lines[k])
    requires IsTerminator(eol)
    ensures Framed(head + eol + Terminated(lines, eol) + tail) == lines
  {
    var all := [head] + lines;
    assert all[1..] == lines;
    assert Terminated(all, eol) + tail == head + eol + Terminated(lines, eol) + tail;
    SplitTerminated(all, eol, tail);
    assert FirstBreak(tail) == |tail|;
    assert SplitLines(tail) == [tail];
    var split := all + [tail];
    assert Interior(split) == lines;
  }

  /** One pass of `for sentence in sentences`. */
  function IngestLine(d: Dict, line: string, parse: string -> Reading): Dict {
    if IsKnown(line) then Dispatch(d, parse(line), DevicePrefix(line)) else d
  }

  /** The `for sentence in sentences` loop over `lines`. */
  function Ingest(d: Dict, lines: seq<string>, parse: string -> Reading): Dict
    decreases |lines|
  {
    if lines == [] then d
    else IngestLine(Ingest(d, lines[..|lines| - 1], parse), lines[|lines| - 1], parse)
  }

  /** Feeding one more line is one more pass of the loop. */
  lemma IngestSnoc(d: Dict, lines: seq<string>, line: string, parse: string -> Reading)
    ensures Ingest(d, lines + [line], parse) == IngestLine(Ingest(d, lines, parse), line, parse)
  {
    assert (lines + [line])[..|lines|] == lines;
  }

  /** The lines whose prefix passes the whitelist, in order. */
  function KnownLines(lines: seq<string>): (r: seq<string>)
    ensures forall k :: 0 <= k < |r| ==> IsKnown(r[k])
    ensures |r| <= |lines|
    decreases |lines|
  {
    if lines == [] then []
    else
      var init := KnownLines(lines[..|lines| - 1]);
      if IsKnown(lines[|lines| - 1]) then init + [lines[|lines| - 1]] else init
  }

  /** Only whitelisted lines reach `handle_data`: dropping the others changes nothing. */
  lemma {:induction false} IngestKnownOnly(d: Dict, lines: seq<string>, parse: string -> Reading)
    ensures Ingest(d, lines, parse) == Ingest(d, KnownLines(lines), parse)
    decreases |lines|
  {
    if lines != [] {
      var init := lines[..|lines| - 1];
      var last := lines[|lines| - 1];
      IngestKnownOnly(d, init, parse);
      if IsKnown(last) {
        var known := KnownLines(init) + [last];
        assert known[..|known| - 1] == KnownLines(init);
      }
    }
  }

  /** A chunk of at most two lines dispatches nothing. */
  lemma ShortChunkUnchanged(d: Dict, chunk: string, parse: string -> Reading)
    requires |SplitLines(chunk)| <= 2
    ensures Framed(chunk) == []
    ensures Ingest(d, Framed(chunk), parse) == d
  {
  }

  /** A key that no sentence kind writes keeps its value through the whole loop. */
  lemma {:induction false} IngestFrame(d: Dict, lines: seq<string>, parse: string -> Reading, k: string)
    requires forall device :: k !in OutKeys(device)
    ensures Get(Ingest(d, lines, parse).vals, k) == Get(d.vals, k)
    decreases |lines|
  {
    if lines != [] {
      var init := lines[..|lines| - 1];
      var last := lines[|lines| - 1];
      IngestFrame(d, init, parse, k);
      if IsKnown(last) {
        DispatchFrame(Ingest(d, init, parse), parse(last), DevicePrefix(last), k);
      }
    }
  }

  /** The loop keeps the snapshot well formed and never removes a key. */
  lemma {:induction false} IngestGrows(d: Dict, lines: seq<string>, parse: string -> Reading)
    requires WellFormed(d)
    ensures WellFormed(Ingest(d, lines, parse))
    ensures d.order <= Ingest(d, lines, parse).order
    ensures d.vals.Keys <= Ingest(d, lines, parse).vals.Keys
    decreases |lines|
  {
    if lines != [] {
      var init := lines[..|lines| - 1];
      var last := lines[|lines| - 1];
      IngestGrows(d, init, parse);
      if IsKnown(last) {
        DispatchGrows(Ingest(d, init, parse), parse(last), DevicePrefix(last));
      }
    }
  }

  /** No sentence writes the true wind: only a flush sets "TWS" and "TWA". */
  lemma IngestKeepsTrueWind(d: Dict, lines: seq<string>, parse: string -> Reading)
    ensures Get(Ingest(d, lines, parse).vals, "TWS") == Get(d.vals, "TWS")
    ensures Get(Ingest(d, lines, parse).vals, "TWA") == Get(d.vals, "TWA")
  {
    forall device ensures "TWS" !in OutKeys(device) && "TWA" !in OutKeys(device) {
      NoDeviceWritesTrueWind(device);
    }
    IngestFrame(d, lines, parse, "TWS");
    IngestFrame(d, lines, parse, "TWA");
  }
}
