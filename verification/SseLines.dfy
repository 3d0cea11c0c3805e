/**
 The byte-level line splitter of the SSE reader: one-shot meaning, the
 chunked loop, and what lines mean under any line-end style or cut.
 */
module SseLines {
  import opened JsonText

  const MAX_SSE_LINE_BYTES: nat := 768 * 1024

  const BOM: Bytes := [0xEF, 0xBB, 0xBF]

  /** What an iterator of lines yields before it ends or raises. */
  datatype Lines = Lines(lines: seq<Bytes>, failed: bool)

  function Cons(line: Bytes, rest: Lines): Lines {
    rest.(lines := [line] + rest.lines)
  }

  predicate Break(b: byte) {
    b == LF || b == CR
  }

  /** Index of the first LF or CR, or the length. */
  function FirstBreak(s: Bytes): (n: nat)
    ensures n <= |s|
    ensures n < |s| ==> Break(s[n])
    ensures forall i :: 0 <= i < n ==> !Break(s[i])
    decreases |s|
  {
    if s == [] || Break(s[0]) then 0
    else
      var m := FirstBreak(s[1..]);
      assert forall i :: 1 <= i < m + 1 ==> s[i] == s[1..][i - 1];
      m + 1
  }

  /** Where the next line starts when a line ends at n: after LF, CR, or CR LF. */
  function NextStart(s: Bytes, n: nat): (next: nat)
    requires n < |s|
    ensures n < next <= |s|
  {
    if s[n] == CR && n + 1 < |s| && s[n + 1] == LF then n + 2 else n + 1
  }

  function StripBom(line: Bytes, first: bool): Bytes {
    if first && |line| >= 3 && line[..3] == BOM then line[3..] else line
  }

  /** One-shot splitting of a whole body. */
  function Split(s: Bytes, first: bool): Lines
    decreases |s|
  {
    if s == [] then Lines([], false)
    else
      var n := FirstBreak(s);
      if n > MAX_SSE_LINE_BYTES || !Utf8Valid(s[..n]) then Lines([], true)
      else
        Cons(StripBom(s[..n], first),
             if n == |s| then Lines([], false) else Split(s[NextStart(s, n)..], false))
  }

  lemma FirstBreakAt(s: Bytes, n: nat)
    requires n <= |s| && (n < |s| ==> Break(s[n]))
    requires forall i :: 0 <= i < n ==> !Break(s[i])
    ensures FirstBreak(s) == n
  {
  }

  function Flatten(chunks: seq<Bytes>): Bytes
    decreases |chunks|
  {
    if chunks == [] then [] else chunks[0] + Flatten(chunks[1..])
  }

  // ----- the chunked loop

  /** The lines still to come, given the loop's variables and the unread bytes. */
  function Resume(buffer: Bytes, skipLf: bool, first: bool, rest: Bytes): Lines {
    Split(buffer + (if skipLf && rest != [] && rest[0] == LF then rest[1..] else rest), first)
  }

  predicate BufferOk(buffer: Bytes, skipLf: bool) {
    |buffer| <= MAX_SSE_LINE_BYTES
    && (skipLf ==> buffer == [])
    && forall i :: 0 <= i < |buffer| ==> !Break(buffer[i])
  }

  function Append(done: seq<Bytes>, rest: Lines): Lines {
    rest.(lines := done + rest.lines)
  }

  /** What was yielded plus what is still to come is the whole answer. */
  predicate OnTrack(yielded: seq<Bytes>, buffer: Bytes, skipLf: bool, first: bool, rest: Bytes, all: Lines) {
    BufferOk(buffer, skipLf) && Append(yielded, Resume(buffer, skipLf, first, rest)) == all
  }

  lemma SkipStep(yielded: seq<Bytes>, buffer: Bytes, skipLf: bool, first: bool, rest: Bytes, all: Lines)
    requires OnTrack(yielded, buffer, skipLf, first, rest, all) && rest != []
    ensures skipLf && rest[0] == LF ==> OnTrack(yielded, buffer, false, first, rest[1..], all)
    ensures !(skipLf && rest[0] == LF) ==> OnTrack(yielded, buffer, false, first, rest, all)
  {
  }

  lemma AppendCons(yielded: seq<Bytes>, line: Bytes, rest: Lines)
    ensures Append(yielded, Cons(line, rest)) == Append(yielded + [line], rest)
  {
    assert yielded + ([line] + rest.lines) == yielded + [line] + rest.lines;
  }

  lemma ResumeAtBreak(buffer: Bytes, first: bool, rest: Bytes)
    requires BufferOk(buffer, false) && rest != [] && Break(rest[0])
    ensures Resume(buffer, false, first, rest)
         == if Utf8Valid(buffer)
            then Cons(StripBom(buffer, first), Resume([], rest[0] == CR, false, rest[1..]))
            else Lines([], true)
  {
    var s := buffer + rest;
    FirstBreakAt(s, |buffer|);
    assert s[..|buffer|] == buffer;
    var tail := rest[1..];
    var after := if rest[0] == CR && tail != [] && tail[0] == LF then tail[1..] else tail;
    assert s[NextStart(s, |buffer|)..] == after;
    assert [] + after == after;
  }

  lemma BreakStep(yielded: seq<Bytes>, buffer: Bytes, first: bool, rest: Bytes, all: Lines)
    requires OnTrack(yielded, buffer, false, first, rest, all) && rest != [] && Break(rest[0])
    ensures if Utf8Valid(buffer)
            then OnTrack(yielded + [StripBom(buffer, first)], [], rest[0] == CR, false, rest[1..], all)
            else all == Lines(yielded, true)
  {
    ResumeAtBreak(buffer, first, rest);
    AppendCons(yielded, StripBom(buffer, first), Resume([], rest[0] == CR, false, rest[1..]));
    assert yielded + [] == yielded;
  }

  lemma ByteStep(yielded: seq<Bytes>, buffer: Bytes, first: bool, rest: Bytes, all: Lines)
    requires OnTrack(yielded, buffer, false, first, rest, all) && rest != [] && !Break(rest[0])
    ensures if |buffer| >= MAX_SSE_LINE_BYTES then all == Lines(yielded, true)
            else OnTrack(yielded, buffer + [rest[0]], false, first, rest[1..], all)
  {
    var s := buffer + rest;
    if |buffer| >= MAX_SSE_LINE_BYTES {
      assert forall i :: 0 <= i <= |buffer| ==> !Break(s[i]);
      assert yielded + [] == yielded;
    } else {
      assert s == buffer + [rest[0]] + rest[1..];
    }
  }

  lemma EndStep(yielded: seq<Bytes>, buffer: Bytes, skipLf: bool, first: bool, all: Lines)
    requires OnTrack(yielded, buffer, skipLf, first, [], all)
    ensures all == if buffer == [] then Lines(yielded, false)
                   else if Utf8Valid(buffer) then Lines(yielded + [StripBom(buffer, first)], false)
                   else Lines(yielded, true)
  {
    assert buffer + [] == buffer;
    assert yielded + [] == yielded;
    FirstBreakAt(buffer, |buffer|);
    assert buffer[..|buffer|] == buffer;
  }

  lemma FlattenFrom(chunks: seq<Bytes>, i: nat)
    requires i < |chunks|
    ensures Flatten(chunks[i..]) == chunks[i] + Flatten(chunks[i + 1..])
  {
    assert chunks[i..][1..] == chunks[i + 1..];
  }

  /** The inner loop over one chunk; `failed` is the protocol error. */
  method FeedChunk(chunk: Bytes, buffer0: Bytes, skipLf0: bool, first0: bool, yielded0: seq<Bytes>, ghost later: Bytes, ghost all: Lines)
    returns (buffer: Bytes, skipLf: bool, first: bool, yielded: seq<Bytes>, failed: bool)
    requires OnTrack(yielded0, buffer0, skipLf0, first0, chunk + later, all)
    ensures if failed then all == Lines(yielded, true) else OnTrack(yielded, buffer, skipLf, first, later, all)
  {
    buffer, skipLf, first, yielded, failed := buffer0, skipLf0, first0, yielded0, false;
    var j := 0;
    assert chunk[0..] == chunk;
    while j < |chunk|
      invariant 0 <= j <= |chunk| && !failed
      invariant OnTrack(yielded, buffer, skipLf, first, chunk[j..] + later, all)
    {
      var b := chunk[j];
      ghost var rest := chunk[j..] + later;
      assert rest[0] == b && rest[1..] == chunk[j + 1..] + later;
      SkipStep(yielded, buffer, skipLf, first, rest, all);
      j := j + 1;
      if skipLf {
        skipLf := false;
        if b == LF {
          continue;
        }
      }
      if b == LF || b == CR {
        BreakStep(yielded, buffer, first, rest, all);
        if !Utf8Valid(buffer) {
          failed := true;
          return;
        }
        yielded := yielded + [StripBom(buffer, first)];
        first, buffer, skipLf := false, [], b == CR;
        continue;
      }
      ByteStep(yielded, buffer, first, rest, all);
      if |buffer| >= MAX_SSE_LINE_BYTES {
        failed := true;
        return;
      }
      buffer := buffer + [b];
    }
    assert chunk[j..] + later == later;
  }

  /**
   `iter_utf8_sse_lines`. However the body is cut into chunks, also between a
   CR and its LF or inside a character, the lines are those of the whole body.
   */
  method IterUtf8SseLines(chunks: seq<Bytes>) returns (out: Lines)
    ensures out == Split(Flatten(chunks), true)
  {
    var buffer: Bytes := [];
    var skipLf, first, failed := false, true, false;
    var yielded: seq<Bytes> := [];
    ghost var all := Split(Flatten(chunks), true);
    var i := 0;
    assert chunks[0..] == chunks;
    assert [] + Flatten(chunks) == Flatten(chunks);
    assert [] + all.lines == all.lines;
    while i < |chunks|
      invariant 0 <= i <= |chunks|
      invariant OnTrack(yielded, buffer, skipLf, first, Flatten(chunks[i..]), all)
    {
      FlattenFrom(chunks, i);
      buffer, skipLf, first, yielded, failed :=
        FeedChunk(chunks[i], buffer, skipLf, first, yielded, Flatten(chunks[i + 1..]), all);
      if failed {
        return Lines(yielded, true);
      }
      i := i + 1;
    }
    assert Flatten(chunks[i..]) == [];
    EndStep(yielded, buffer, skipLf, first, all);
    if buffer != [] {
      if !Utf8Valid(buffer) {
        return Lines(yielded, true);
      }
      yielded := yielded + [StripBom(buffer, first)];
    }
    return Lines(yielded, false);
  }

  // ----- the style of the line ends does not matter

  /** The body with every CR LF and every lone CR written as LF. */
  function Normalized(s: Bytes): (t: Bytes)
    decreases |s|
  {
    if s == [] then []
    else if Break(s[0]) then [LF] + Normalized(s[NextStart(s, 0)..])
    else [s[0]] + Normalized(s[1..])
  }

  lemma {:induction false} NormalizedLine(s: Bytes)
    ensures var n := FirstBreak(s);
            Normalized(s) == s[..n] + if n == |s| then [] else [LF] + Normalized(s[NextStart(s, n)..])
    decreases |s|
  {
    if s != [] && !Break(s[0]) {
      var n := FirstBreak(s[1..]);
      NormalizedLine(s[1..]);
      assert FirstBreak(s) == n + 1;
      assert s[..n + 1] == [s[0]] + s[1..][..n];
      if n < |s[1..]| {
        assert s[1..][NextStart(s[1..], n)..] == s[NextStart(s, n + 1)..];
      }
    }
  }

  /** LF, CR and CR LF ends, mixed in any way, split alike. */
  lemma {:induction false} LineEndsAgree(s: Bytes, first: bool)
    ensures Split(Normalized(s), first) == Split(s, first)
    decreases |s|
  {
    if s != [] {
      NormalizedLine(s);
      var n, t := FirstBreak(s), Normalized(s);
      assert n < |s| ==> |t| > n && t[n] == LF;
      FirstBreakAt(t, n);
      assert t[..n] == s[..n];
      if n < |s| {
        assert t[n + 1..] == Normalized(s[NextStart(s, n)..]);
        LineEndsAgree(s[NextStart(s, n)..], false);
      }
    }
  }

  // ----- lines written with LF are read back

  function Render(lines: seq<Bytes>): Bytes
    decreases |lines|
  {
    if lines == [] then [] else lines[0] + [LF] + Render(lines[1..])
  }

  predicate LineOk(line: Bytes) {
    |line| <= MAX_SSE_LINE_BYTES && Utf8Valid(line) && forall i :: 0 <= i < |line| ==> !Break(line[i])
  }

  lemma {:induction false} SplitRender(lines: seq<Bytes>, first: bool)
    requires forall i :: 0 <= i < |lines| ==> LineOk(lines[i])
    requires first && lines != [] ==> StripBom(lines[0], true) == lines[0]
    ensures Split(Render(lines), first) == Lines(lines, false)
    decreases |lines|
  {
    if lines != [] {
      var line, s := lines[0], Render(lines);
      assert s == line + ([LF] + Render(lines[1..]));
      FirstBreakAt(s, |line|);
      assert s[..|line|] == line;
      assert s[|line| + 1..] == Render(lines[1..]);
      SplitRender(lines[1..], false);
      assert lines == [line] + lines[1..];
    }
  }

  lemma {:induction false} RenderConcat(a: seq<Bytes>, b: seq<Bytes>)
    ensures Render(a + b) == Render(a) + Render(b)
    decreases |a|
  {
    if a == [] {
      assert a + b == b;
    } else {
      assert (a + b)[1..] == a[1..] + b;
      RenderConcat(a[1..], b);
    }
  }
}
