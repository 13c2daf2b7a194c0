/** Parsing what was printed: whole streams, streams cut off anywhere, and batches. */
module SseRoundTrip {
  import opened Wrappers
  import opened Sse

  predicate NoLF(s: Bytes) { forall i :: 0 <= i < |s| ==> s[i] != '\n' }

  predicate NoFinalCR(s: Bytes) { s == [] || s[|s| - 1] != '\r' }

  /** The frames the printer is meant for, with lines the reader accepts. */
  predicate Printable(f: Frame, limit: nat) {
    && NoLF(f.eventType) && Trimmed(f.eventType)
    && NoLF(f.data) && NoFinalCR(f.data)
    && |f.eventType| + 7 < limit && |f.data| + 6 < limit
  }

  predicate AllPrintable(fs: seq<Frame>, limit: nat) { forall i :: 0 <= i < |fs| ==> Printable(fs[i], limit) }

  function EventLine(f: Frame): Bytes { "event: " + f.eventType }

  function DataLine(f: Frame): Bytes { "data: " + f.data }

  /** The frame as lines, each followed by what comes after it. */
  lemma FormatLines(f: Frame, rest: Bytes)
    ensures FormatEvent(f) + rest == EventLine(f) + "\n" + (DataLine(f) + "\n" + ("\n" + rest))
    ensures |FormatEvent(f)| == |EventLine(f)| + |DataLine(f)| + 3
  {
    assert "\ndata: " == "\n" + "data: " && "\n\n" == "\n" + "\n";
  }

  lemma LineEndAt(line: Bytes, b: Bytes)
    requires NoLF(line)
    requires line <= b && (|b| == |line| || b[|line|] == '\n')
    ensures LineEnd(b) == |line|
  {
  }

  lemma ReadLine(line: Bytes, rest: Bytes, buffer: Bytes, eventType: Bytes, limit: nat)
    requires NoLF(line) && NoFinalCR(line) && line != [] && |line| < limit
    ensures Read(line + "\n" + rest, buffer, eventType, limit)
         == Read(rest, DataAfter(buffer, line), TypeAfter(eventType, line), limit)
  {
    var b := line + "\n" + rest;
    LineEndAt(line, b);
    assert b[..|line|] == line && b[|line| + 1..] == rest;
  }

  lemma ReadBlank(rest: Bytes, buffer: Bytes, eventType: Bytes, limit: nat)
    requires buffer != [] && limit > 0
    ensures Read("\n" + rest, buffer, eventType, limit) == Event(Frame(eventType, DropLF(buffer)), rest)
  {
    var b := "\n" + rest;
    LineEndAt([], b);
    assert b[..0] == [] && b[1..] == rest;
  }

  lemma TrimEventName(t: Bytes)
    requires Trimmed(t)
    ensures TrimSpace(" " + t) == t && TrimSpace(t) == t
  {
    assert SpaceAtStart(" " + t) == 1 && (" " + t)[1..] == t;
    assert TrimLeft(" " + t) == TrimLeft(t) == t;
  }

  lemma EventLineIsClean(f: Frame)
    requires Trimmed(f.eventType)
    ensures NoLF(f.eventType) ==> NoLF(EventLine(f))
    ensures NoFinalCR(EventLine(f))
  {
    var line := EventLine(f);
    assert line[|line| - 1] == if f.eventType == [] then ' ' else f.eventType[|f.eventType| - 1];
  }

  lemma EventLineEffect(f: Frame, buffer: Bytes, eventType: Bytes)
    requires Trimmed(f.eventType)
    ensures DataAfter(buffer, EventLine(f)) == buffer && TypeAfter(eventType, EventLine(f)) == f.eventType
  {
    var line := EventLine(f);
    assert "event:" <= line && line[6..] == " " + f.eventType;
    TrimEventName(f.eventType);
  }

  lemma DataLineIsClean(f: Frame)
    requires NoFinalCR(f.data)
    ensures NoLF(f.data) ==> NoLF(DataLine(f))
    ensures NoFinalCR(DataLine(f)) && DropLF(f.data + "\n") == f.data
  {
    var line := DataLine(f);
    assert line[|line| - 1] == if f.data == [] then ' ' else f.data[|f.data| - 1];
  }

  lemma DataLineEffect(f: Frame, eventType: Bytes)
    ensures DataAfter([], DataLine(f)) == f.data + "\n" && TypeAfter(eventType, DataLine(f)) == eventType
  {
    var line := DataLine(f);
    assert line[0] == 'd' && "event:"[0] == 'e';
    assert "data:" <= line && line[5..] == " " + f.data;
    assert [] + f.data + "\n" == f.data + "\n";
  }

  /** One printed frame is read back, and nothing after it is touched. */
  lemma ReadFormatted(f: Frame, rest: Bytes, limit: nat)
    requires Printable(f, limit)
    ensures NextEvent(FormatEvent(f) + rest, limit) == Event(f, rest)
  {
    FormatLines(f, rest);
    EventLineIsClean(f);
    EventLineEffect(f, [], DEFAULT_TYPE);
    DataLineIsClean(f);
    DataLineEffect(f, f.eventType);
    ReadLine(EventLine(f), DataLine(f) + "\n" + ("\n" + rest), [], DEFAULT_TYPE, limit);
    ReadLine(DataLine(f), "\n" + rest, [], f.eventType, limit);
    ReadBlank(rest, f.data + "\n", f.eventType, limit);
  }

  /** Reading a printed list gives the list, and then the plain end of the stream. */
  lemma {:induction false} RoundTrip(fs: seq<Frame>, limit: nat)
    requires AllPrintable(fs, limit)
    ensures Events(FormatAll(fs), limit) == fs
    ensures forall k :: 0 <= k < |fs| ==> NextEvent(FormatAll(fs[k..]), limit) == Event(fs[k], FormatAll(fs[k + 1..]))
    ensures NextEvent(FormatAll([]), limit) == Eof(None)
    decreases |fs|
  {
    if fs != [] {
      ReadFormatted(fs[0], FormatAll(fs[1..]), limit);
      RoundTrip(fs[1..], limit);
      forall k | 0 <= k < |fs| ensures NextEvent(FormatAll(fs[k..]), limit) == Event(fs[k], FormatAll(fs[k + 1..])) {
        if k > 0 {
          assert fs[1..][k - 1..] == fs[k..] && fs[1..][k..] == fs[k + 1..];
          assert NextEvent(FormatAll(fs[1..][k - 1..]), limit) == Event(fs[1..][k - 1], FormatAll(fs[1..][k..]));
        } else {
          assert fs[0..] == fs;
        }
      }
    }
  }

  // ---------------------------------------------------------------------------------------
  // Batches

  lemma {:induction false} FormatConcat(a: seq<Frame>, b: seq<Frame>)
    ensures FormatAll(a + b) == FormatAll(a) + FormatAll(b)
    decreases |a|
  {
    if a == [] {
      assert a + b == b;
    } else {
      assert (a + b)[1..] == a[1..] + b;
      FormatConcat(a[1..], b);
    }
  }

  function Flatten(batches: seq<seq<Frame>>): seq<Frame> {
    if batches == [] then [] else batches[0] + Flatten(batches[1..])
  }

  function FormatBatches(batches: seq<seq<Frame>>): Bytes {
    if batches == [] then [] else FormatAll(batches[0]) + FormatBatches(batches[1..])
  }

  /** Every split into batches gives the same bytes. */
  lemma {:induction false} BatchesAreInvisible(batches: seq<seq<Frame>>)
    ensures FormatBatches(batches) == FormatAll(Flatten(batches))
    decreases |batches|
  {
    if batches != [] {
      BatchesAreInvisible(batches[1..]);
      FormatConcat(batches[0], Flatten(batches[1..]));
    }
  }

  // ---------------------------------------------------------------------------------------
  // Truncation

  /** How many frames of the list are complete in the first `n` bytes. */
  function Complete(fs: seq<Frame>, n: nat): (k: nat)
    ensures k <= |fs|
  {
    if fs == [] || n < |FormatEvent(fs[0])| then 0 else 1 + Complete(fs[1..], n - |FormatEvent(fs[0])|)
  }

  lemma {:induction false} CompleteIsExact(fs: seq<Frame>, n: nat)
    ensures |FormatAll(fs[..Complete(fs, n)])| <= n
    ensures Complete(fs, n) < |fs| ==> n < |FormatAll(fs[..Complete(fs, n) + 1])|
    decreases |fs|
  {
    if fs != [] && n >= |FormatEvent(fs[0])| {
      var k := Complete(fs[1..], n - |FormatEvent(fs[0])|);
      CompleteIsExact(fs[1..], n - |FormatEvent(fs[0])|);
      assert fs[..k + 1][1..] == fs[1..][..k];
      if k < |fs| - 1 {
        assert fs[..k + 2][1..] == fs[1..][..k + 1];
      }
    } else if fs != [] {
      assert fs[..1] == [fs[0]] && FormatAll([]) == [];
      assert [fs[0]][1..] == [];
    }
  }

  /** A piece of a line, or a line without its end, is not blank and completes no event. */
  lemma ReadUnfinished(line: Bytes, buffer: Bytes, eventType: Bytes, limit: nat)
    requires NoLF(line) && |line| < limit
    requires line != [] ==> line[0] != '\r'
    ensures Read(line, buffer, eventType, limit).Eof?
  {
    if line != [] {
      LineEndAt(line, line);
      assert line[..|line|] == line;
    }
  }

  lemma CutConcat(a: Bytes, b: Bytes, n: nat)
    requires n <= |a + b|
    ensures (a + b)[..n] == if n <= |a| then a[..n] else a + b[..n - |a|]
  {
  }

  lemma FormatAsLines(f: Frame)
    ensures FormatEvent(f) == (EventLine(f) + "\n") + (DataLine(f) + "\n" + "\n")
  {
    FormatLines(f, []);
    assert FormatEvent(f) + [] == FormatEvent(f) && "\n" + [] == "\n";
  }

  /** A printable frame, except that its lines may be longer than the reader accepts. */
  predicate Clean(f: Frame) {
    NoLF(f.eventType) && Trimmed(f.eventType) && NoLF(f.data) && NoFinalCR(f.data)
  }

  lemma ReadLongLine(line: Bytes, b: Bytes, buffer: Bytes, eventType: Bytes, limit: nat)
    requires NoLF(line) && line <= b && (|b| == |line| || b[|line|] == '\n')
    requires b != [] && |line| >= limit
    ensures Read(b, buffer, eventType, limit).TooLong?
  {
    LineEndAt(line, b);
  }

  lemma LongLineFirst(line: Bytes, rest: Bytes, buffer: Bytes, eventType: Bytes, limit: nat)
    requires NoLF(line) && |line| >= limit
    ensures Read(line + "\n" + rest, buffer, eventType, limit).TooLong?
  {
    ReadLongLine(line, line + "\n" + rest, buffer, eventType, limit);
  }

  lemma LongFrameIsNoEvent(f: Frame, rest: Bytes, limit: nat)
    requires Clean(f) && !Printable(f, limit)
    ensures NextEvent(FormatEvent(f) + rest, limit).TooLong?
  {
    FormatLines(f, rest);
    LongLinesAreNoEvent(f, "\n" + rest, limit);
  }

  lemma LongLinesAreNoEvent(f: Frame, rest: Bytes, limit: nat)
    requires Clean(f) && !Printable(f, limit)
    ensures NextEvent(EventLine(f) + "\n" + (DataLine(f) + "\n" + rest), limit).TooLong?
  {
    var tail := DataLine(f) + "\n" + rest;
    EventLineIsClean(f);
    EventLineEffect(f, [], DEFAULT_TYPE);
    DataLineIsClean(f);
    if |EventLine(f)| >= limit {
      LongLineFirst(EventLine(f), tail, [], DEFAULT_TYPE, limit);
    } else {
      ReadLine(EventLine(f), tail, [], DEFAULT_TYPE, limit);
      LongLineFirst(DataLine(f), rest, [], f.eventType, limit);
    }
  }

  lemma CutDataIsNoEvent(f: Frame, p: Bytes, limit: nat)
    requires Clean(f)
    requires p <= DataLine(f) + "\n" + "\n" && |p| < |DataLine(f)| + 2
    ensures !Read(p, [], f.eventType, limit).Event?
  {
    DataLineIsClean(f);
    DataLineEffect(f, f.eventType);
    if |p| <= |DataLine(f)| {
      assert p == DataLine(f)[..|p|];
      CutLineIsNoEvent(p, [], f.eventType, limit);
    } else {
      assert p == DataLine(f) + "\n" + [];
      if |DataLine(f)| >= limit {
        ReadLongLine(DataLine(f), p, [], f.eventType, limit);
      } else {
        ReadLine(DataLine(f), [], [], f.eventType, limit);
      }
    }
  }

  lemma CutLineIsNoEvent(line: Bytes, buffer: Bytes, eventType: Bytes, limit: nat)
    requires NoLF(line) && (line != [] ==> line[0] != '\r')
    ensures !Read(line, buffer, eventType, limit).Event?
  {
    if |line| < limit {
      ReadUnfinished(line, buffer, eventType, limit);
    } else if line != [] {
      ReadLongLine(line, line, buffer, eventType, limit);
    }
  }

  /** A frame that is cut off never counts as an event, wherever the cut is. */
  lemma CutFrameIsNoEvent(f: Frame, n: nat, limit: nat)
    requires Clean(f) && n < |FormatEvent(f)|
    ensures !NextEvent(FormatEvent(f)[..n], limit).Event?
  {
    var line, tail := EventLine(f), DataLine(f) + "\n" + "\n";
    FormatAsLines(f);
    EventLineIsClean(f);
    EventLineEffect(f, [], DEFAULT_TYPE);
    CutConcat(line + "\n", tail, n);
    if n <= |line| {
      assert (line + "\n")[..n] == line[..n];
      assert line[0] == 'e';
      CutLineIsNoEvent(line[..n], [], DEFAULT_TYPE, limit);
    } else {
      var q := tail[..n - |line| - 1];
      assert FormatEvent(f)[..n] == line + "\n" + q;
      if |line| >= limit {
        ReadLongLine(line, line + "\n" + q, [], DEFAULT_TYPE, limit);
      } else {
        ReadLine(line, q, [], DEFAULT_TYPE, limit);
        CutDataIsNoEvent(f, q, limit);
      }
    }
  }

  /** A cut behind the first frame leaves that frame and a beginning of the others. */
  lemma CutBehindFirst(fs: seq<Frame>, n: nat)
    requires fs != [] && |FormatEvent(fs[0])| <= n <= |FormatAll(fs)|
    ensures n - |FormatEvent(fs[0])| <= |FormatAll(fs[1..])|
    ensures FormatAll(fs)[..n] == FormatEvent(fs[0]) + FormatAll(fs[1..])[..n - |FormatEvent(fs[0])|]
  {
    CutConcat(FormatEvent(fs[0]), FormatAll(fs[1..]), n);
  }

  lemma CutInsideFirst(fs: seq<Frame>, n: nat)
    requires fs != [] && n < |FormatEvent(fs[0])|
    ensures n <= |FormatAll(fs)| && FormatAll(fs)[..n] == FormatEvent(fs[0])[..n]
  {
    CutConcat(FormatEvent(fs[0]), FormatAll(fs[1..]), n);
  }

  lemma CompleteStep(fs: seq<Frame>, n: nat)
    requires fs != []
    ensures var m := |FormatEvent(fs[0])|;
      fs[..Complete(fs, n)] == if n < m then [] else [fs[0]] + fs[1..][..Complete(fs[1..], n - m)]
  {
  }

  /** The events of a cut stream: none when the cut is in the first frame, otherwise that frame
      and the events of the rest. */
  lemma EventsOfCut(fs: seq<Frame>, n: nat, limit: nat)
    requires fs != [] && Printable(fs[0], limit) && n <= |FormatAll(fs)|
    ensures var m := |FormatEvent(fs[0])|;
      && (n >= m ==> n - m <= |FormatAll(fs[1..])|)
      && Events(FormatAll(fs)[..n], limit)
         == if n < m then [] else [fs[0]] + Events(FormatAll(fs[1..])[..n - m], limit)
  {
    var m := |FormatEvent(fs[0])|;
    if n < m {
      CutInsideFirst(fs, n);
      CutFrameIsNoEvent(fs[0], n, limit);
    } else {
      CutBehindFirst(fs, n);
      ReadFormatted(fs[0], FormatAll(fs[1..])[..n - m], limit);
    }
  }

  lemma EventsOfNothing(n: nat, limit: nat)
    requires n <= |FormatAll([])|
    ensures Events(FormatAll([])[..n], limit) == []
  {
    assert FormatAll([])[..n] == [];
  }

  ghost predicate CutReads(fs: seq<Frame>, n: nat, limit: nat) {
    n <= |FormatAll(fs)| ==> Events(FormatAll(fs)[..n], limit) == fs[..Complete(fs, n)]
  }

  lemma CutReadsInside(fs: seq<Frame>, n: nat, limit: nat)
    requires fs == [] || (Printable(fs[0], limit) && n < |FormatEvent(fs[0])|)
    ensures CutReads(fs, n, limit)
  {
    if fs == [] {
      if n == 0 {
        EventsOfNothing(n, limit);
      }
    } else if n <= |FormatAll(fs)| {
      EventsOfCut(fs, n, limit);
    }
  }

  lemma CutReadsBehind(fs: seq<Frame>, n: nat, limit: nat)
    requires fs != [] && Printable(fs[0], limit) && |FormatEvent(fs[0])| <= n
    requires CutReads(fs[1..], n - |FormatEvent(fs[0])|, limit)
    ensures CutReads(fs, n, limit)
  {
    if n <= |FormatAll(fs)| {
      EventsOfCut(fs, n, limit);
      CompleteStep(fs, n);
    }
  }

  lemma {:induction false} AllCutsRead(fs: seq<Frame>, n: nat, limit: nat)
    requires AllPrintable(fs, limit)
    ensures CutReads(fs, n, limit)
    decreases |fs|
  {
    if fs == [] || n < |FormatEvent(fs[0])| {
      CutReadsInside(fs, n, limit);
    } else {
      AllCutsRead(fs[1..], n - |FormatEvent(fs[0])|, limit);
      CutReadsBehind(fs, n, limit);
    }
  }

  /** Cut a printed stream anywhere, even inside a field name: the events read without error
      are exactly those whose closing blank line lies before the cut. */
  lemma Truncation(fs: seq<Frame>, n: nat, limit: nat)
    requires AllPrintable(fs, limit) && n <= |FormatAll(fs)|
    ensures Events(FormatAll(fs)[..n], limit) == fs[..Complete(fs, n)]
  {
    AllCutsRead(fs, n, limit);
  }

  lemma NextOfCut(f: Frame, q: Bytes, limit: nat)
    requires Clean(f)
    ensures var r := NextEvent(FormatEvent(f) + q, limit);
      (r.Event? ==> r == Event(f, q)) && !r.Eof?
  {
    if Printable(f, limit) {
      ReadFormatted(f, q, limit);
    } else {
      LongFrameIsNoEvent(f, q, limit);
    }
  }

  /** The next event of a stream of clean frames cut anywhere is its first frame, complete; and
      only the end of the whole stream reads as its end. */
  lemma HeadOfStream(fs: seq<Frame>, n: nat, limit: nat)
    requires n <= |FormatAll(fs)| && forall i :: 0 <= i < |fs| ==> Clean(fs[i])
    ensures var r := NextEvent(FormatAll(fs)[..n], limit);
      && (r.Event? ==> fs != [] && |FormatEvent(fs[0])| <= n && r.frame == fs[0]
                       && r.rest == FormatAll(fs[1..])[..n - |FormatEvent(fs[0])|])
      && (r.Eof? && n == |FormatAll(fs)| ==> fs == [])
  {
    if fs == [] {
      assert FormatAll(fs)[..n] == [];
    } else if n < |FormatEvent(fs[0])| {
      CutInsideFirst(fs, n);
      CutFrameIsNoEvent(fs[0], n, limit);
    } else {
      CutBehindFirst(fs, n);
      NextOfCut(fs[0], FormatAll(fs[1..])[..n - |FormatEvent(fs[0])|], limit);
    }
  }

  // ---------------------------------------------------------------------------------------
  // Streams of other printers

  lemma ReadLineWithReturn(line: Bytes, rest: Bytes, buffer: Bytes, eventType: Bytes, limit: nat)
    requires NoLF(line) && line != [] && |line| + 1 < limit
    ensures Read(line + "\r" + "\n" + rest, buffer, eventType, limit)
         == Read(rest, DataAfter(buffer, line), TypeAfter(eventType, line), limit)
  {
    var b := line + "\r" + "\n" + rest;
    assert NoLF(line + "\r");
    LineEndAt(line + "\r", b);
    assert b[..|line| + 1] == line + "\r" && b[|line| + 2..] == rest;
    assert DropCR(line + "\r") == line;
  }

  lemma ReadBlankWithReturn(rest: Bytes, buffer: Bytes, eventType: Bytes, limit: nat)
    requires buffer != [] && limit > 1
    ensures Read("\r" + "\n" + rest, buffer, eventType, limit) == Event(Frame(eventType, DropLF(buffer)), rest)
  {
    var b: Bytes := "\r" + "\n" + rest;
    LineEndAt("\r", b);
    assert b[..1] == "\r" && b[2..] == rest && DropCR("\r") == [];
  }

  /** Lines that end in a carriage return and a line feed read as lines that end in a line feed. */
  lemma ReturnsAreDropped(f: Frame, rest: Bytes, limit: nat)
    requires limit > 0 && Printable(f, limit - 1)
    ensures NextEvent(EventLine(f) + "\r" + "\n" + (DataLine(f) + "\r" + "\n" + ("\r" + "\n" + rest)), limit)
         == Event(f, rest)
  {
    EventLineIsClean(f);
    EventLineEffect(f, [], DEFAULT_TYPE);
    DataLineIsClean(f);
    DataLineEffect(f, f.eventType);
    var end: Bytes := "\r" + "\n" + rest;
    ReadLineWithReturn(EventLine(f), DataLine(f) + "\r" + "\n" + end, [], DEFAULT_TYPE, limit);
    ReadLineWithReturn(DataLine(f), end, [], f.eventType, limit);
    ReadBlankWithReturn(rest, f.data + "\n", f.eventType, limit);
  }

  /** A line of no known field is data, as it stands. */
  lemma OtherLinesAreData(line: Bytes, rest: Bytes, limit: nat)
    requires NoLF(line) && NoFinalCR(line) && line != [] && |line| < limit
    requires !("event:" <= line) && !("data:" <= line) && !("id:" <= line) && !("retry:" <= line) && !(":" <= line)
    ensures NextEvent(line + "\n" + ("\n" + rest), limit) == Event(Frame("message", line), rest)
  {
    ReadLine(line, "\n" + rest, [], DEFAULT_TYPE, limit);
    assert [] + line + "\n" == line + "\n" && DropLF(line + "\n") == line;
    ReadBlank(rest, line + "\n", DEFAULT_TYPE, limit);
  }

  /** A stream that ends without the closing blank line, after the data or inside its line end: the
      pending event comes together with the end. */
  lemma PendingComesWithTheEnd(f: Frame, limit: nat)
    requires Printable(f, limit)
    ensures NextEvent(EventLine(f) + "\n" + DataLine(f), limit) == Eof(Some(f))
    ensures NextEvent(EventLine(f) + "\n" + (DataLine(f) + "\n" + []), limit) == Eof(Some(f))
  {
    EventLineIsClean(f);
    EventLineEffect(f, [], DEFAULT_TYPE);
    ReadLine(EventLine(f), DataLine(f), [], DEFAULT_TYPE, limit);
    ReadLine(EventLine(f), DataLine(f) + "\n" + [], [], DEFAULT_TYPE, limit);
    LastDataLine(f, limit);
  }

  lemma LastDataLine(f: Frame, limit: nat)
    requires Printable(f, limit)
    ensures Read(DataLine(f), [], f.eventType, limit) == Eof(Some(f))
    ensures Read(DataLine(f) + "\n" + [], [], f.eventType, limit) == Eof(Some(f))
  {
    DataLineIsClean(f);
    DataLineEffect(f, f.eventType);
    ReadLine(DataLine(f), [], [], f.eventType, limit);
    LineEndAt(DataLine(f), DataLine(f));
    assert DataLine(f)[..|DataLine(f)|] == DataLine(f);
  }

  /** White space only, read from its start, and from its end. */
  predicate SpaceBefore(s: Bytes)
    decreases |s|
  {
    s == [] || (SpaceAtStart(s) > 0 && SpaceBefore(s[SpaceAtStart(s)..]))
  }

  predicate SpaceAfter(s: Bytes)
    decreases |s|
  {
    s == [] || (SpaceAtEnd(s) > 0 && SpaceAfter(s[..|s| - SpaceAtEnd(s)]))
  }

  lemma {:induction false} TrimLeftIsExact(s: Bytes) returns (before: Bytes)
    ensures s == before + TrimLeft(s) && SpaceBefore(before) && SpaceAtStart(TrimLeft(s)) == 0
    decreases |s|
  {
    var n := SpaceAtStart(s);
    before := [];
    if n > 0 {
      var others := TrimLeftIsExact(s[n..]);
      before := s[..n] + others;
      assert before[..n] == s[..n] && before[n..] == others;
      assert SpaceAtStart(before) == n;
    }
  }

  /** Whether bytes end in white space is decided by their last ones. */
  lemma EndDecides(front: Bytes, t: Bytes)
    requires 0 < SpaceAtEnd(front + t) <= |t|
    ensures SpaceAtEnd(t) == SpaceAtEnd(front + t)
  {
    var s := front + t;
    assert t != [] && t[|t| - 1] == s[|s| - 1];
    assert |t| >= 2 ==> t[|t| - 2..] == s[|s| - 2..];
    assert |t| >= 3 ==> t[|t| - 3..] == s[|s| - 3..];
  }

  lemma StartDecides(t: Bytes, rest: Bytes)
    requires SpaceAtStart(t + rest) == 0
    ensures SpaceAtStart(t) == 0
  {
    var s := t + rest;
    assert t != [] ==> t[0] == s[0];
    assert |t| >= 2 ==> t[..2] == s[..2];
    assert |t| >= 3 ==> t[..3] == s[..3];
  }

  lemma MoreSpaceAfter(others: Bytes, end: Bytes, front: Bytes)
    requires SpaceAfter(others) && |end| > 0 && SpaceAtEnd(front + (others + end)) == |end|
    ensures SpaceAfter(others + end)
  {
    EndDecides(front, others + end);
    assert (others + end)[..|others|] == others;
  }

  lemma {:induction false} TrimRightIsExact(s: Bytes) returns (after: Bytes)
    ensures s == TrimRight(s) + after && SpaceAfter(after) && SpaceAtEnd(TrimRight(s)) == 0
    decreases |s|
  {
    var n := SpaceAtEnd(s);
    after := [];
    if n > 0 {
      var front, end := s[..|s| - n], s[|s| - n..];
      var others := TrimRightIsExact(front);
      after := others + end;
      assert s == front + end == TrimRight(front) + (others + end);
      MoreSpaceAfter(others, end, TrimRight(front));
    }
  }

  /** Trimming takes white space off both ends, all of it and nothing else. */
  lemma TrimIsExact(s: Bytes) returns (before: Bytes, after: Bytes)
    ensures s == before + TrimSpace(s) + after && SpaceBefore(before) && SpaceAfter(after) && Trimmed(TrimSpace(s))
  {
    before := TrimLeftIsExact(s);
    after := TrimRightIsExact(TrimLeft(s));
    Regroup(before, TrimSpace(s), after);
    StartDecides(TrimSpace(s), after);
  }

  lemma Regroup(a: Bytes, b: Bytes, c: Bytes)
    ensures a + (b + c) == a + b + c
  {
  }
}
