/**
 Event dispatch as sections 9.2.5 and 9.2.6 of the WHATWG HTML Living Standard define it, on
 streams whose lines end in a single line feed, and the streams on which the reader agrees.
 */
module EventStreamStandard {
  import opened Wrappers
  import opened Sse
  import opened SseRoundTrip

  /** The index of the first colon, or the length when there is none. */
  function Colon(line: Bytes): (n: nat)
    ensures n <= |line|
    ensures forall i :: 0 <= i < n ==> line[i] != ':'
    ensures n < |line| ==> line[n] == ':'
  {
    if line == [] || line[0] == ':' then 0 else 1 + Colon(line[1..])
  }

  function FieldName(line: Bytes): Bytes { line[..Colon(line)] }

  function FieldValue(line: Bytes): Bytes {
    if Colon(line) == |line| then [] else DropSpace(line[Colon(line) + 1..])
  }

  /** The data buffer and the event type buffer. */
  datatype Buffers = Buffers(data: Bytes, eventType: Bytes)

  function ProcessField(s: Buffers, line: Bytes): Buffers {
    if Colon(line) == 0 then s
    else if FieldName(line) == "event" then s.(eventType := FieldValue(line))
    else if FieldName(line) == "data" then s.(data := s.data + FieldValue(line) + "\n")
    else s
  }

  /** The events dispatched; a line without its end, and what is pending then, is discarded. */
  function Dispatched(b: Bytes, s: Buffers): seq<Frame>
    decreases |b|
  {
    var n := LineEnd(b);
    if n == |b| then []
    else if n > 0 then Dispatched(b[n + 1..], ProcessField(s, b[..n]))
    else if s.data == [] then Dispatched(b[1..], Buffers([], []))
    else
      [Frame(if s.eventType == [] then DEFAULT_TYPE else s.eventType, DropLF(s.data))]
      + Dispatched(b[1..], Buffers([], []))
  }

  // ---------------------------------------------------------------------------------------
  // The fragment

  predicate KnownField(line: Bytes) {
    "event:" <= line || "data:" <= line || "id:" <= line || "retry:" <= line || ":" <= line
  }

  /** Every line is short enough for the reader; every finished one is blank or a known field,
      and event names are not empty and have no white space around them. */
  predicate Wide(b: Bytes, limit: nat)
    decreases |b|
  {
    var n := LineEnd(b);
    var line := b[..n];
    && n < limit
    && (n < |b| ==>
          && (line != [] ==> KnownField(line))
          && ("event:" <= line ==> FieldValue(line) != [] && Trimmed(FieldValue(line)))
          && Wide(b[n + 1..], limit))
  }

  /** The reader keeps an event name (`carried`) over blocks without data.  Names fit when no
      block with data gets its name that way: it names its event itself, or nothing is carried. */
  predicate NamesFit(b: Bytes, s: Buffers, carried: Bytes)
    decreases |b|
  {
    var n := LineEnd(b);
    if n == |b| then true
    else if n > 0 then NamesFit(b[n + 1..], ProcessField(s, b[..n]), carried)
    else if s.data == [] then NamesFit(b[1..], Buffers([], []), ReaderType(s, carried))
    else (s.eventType != [] || carried == DEFAULT_TYPE) && NamesFit(b[1..], Buffers([], []), DEFAULT_TYPE)
  }

  predicate NoCR(b: Bytes) { forall i :: 0 <= i < |b| ==> b[i] != '\r' }

  lemma ColonAfter(name: Bytes, line: Bytes)
    requires name + ":" <= line && forall i :: 0 <= i < |name| ==> name[i] != ':'
    ensures Colon(line) == |name| && FieldName(line) == name && line[Colon(line) + 1..] == line[|name| + 1..]
  {
    assert forall i :: 0 <= i < |name| ==> line[i] == (name + ":")[i];
    assert line[|name|] == (name + ":")[|name|];
  }

  /** The reader's event type inside a block, in terms of the standard's and what was carried. */
  function ReaderType(s: Buffers, carried: Bytes): Bytes { if s.eventType == [] then carried else s.eventType }

  lemma EventField(s: Buffers, line: Bytes, carried: Bytes)
    requires "event:" <= line && FieldValue(line) != [] && Trimmed(FieldValue(line))
    ensures ProcessField(s, line) == s.(eventType := TypeAfter(ReaderType(s, carried), line))
    ensures DataAfter(s.data, line) == s.data && TypeAfter(ReaderType(s, carried), line) != []
  {
    assert "event" + ":" == "event:";
    ColonAfter("event", line);
    var value := FieldValue(line);
    TrimEventName(value);
    assert line[6..] == value || line[6..] == " " + value;
  }

  lemma DataField(s: Buffers, line: Bytes, carried: Bytes)
    requires "data:" <= line
    ensures ProcessField(s, line) == s.(data := DataAfter(s.data, line))
    ensures TypeAfter(ReaderType(s, carried), line) == ReaderType(s, carried) && DataAfter(s.data, line) != []
  {
    assert "data" + ":" == "data:";
    ColonAfter("data", line);
    assert "data"[0] != "event"[0] && line[0] == "data:"[0] && "data:"[0] != "event:"[0];
  }

  lemma OtherField(s: Buffers, line: Bytes, carried: Bytes)
    requires "id:" <= line || "retry:" <= line || ":" <= line
    ensures ProcessField(s, line) == s
    ensures DataAfter(s.data, line) == s.data && TypeAfter(ReaderType(s, carried), line) == ReaderType(s, carried)
  {
    assert line[0] in ['i', 'r', ':'];
    if "id:" <= line {
      assert "id" + ":" == "id:";
      ColonAfter("id", line);
    } else if "retry:" <= line {
      assert "retry" + ":" == "retry:";
      ColonAfter("retry", line);
    }
    assert FieldName(line) != [] ==> FieldName(line)[0] == line[0];
    assert "event"[0] == 'e' && "data"[0] == 'd' && "event:"[0] == 'e' && "data:"[0] == 'd';
  }

  lemma KnownFields(s: Buffers, line: Bytes, carried: Bytes)
    requires KnownField(line)
    requires "event:" <= line ==> FieldValue(line) != [] && Trimmed(FieldValue(line))
    ensures var s' := ProcessField(s, line);
      DataAfter(s.data, line) == s'.data && TypeAfter(ReaderType(s, carried), line) == ReaderType(s', carried)
  {
    if "event:" <= line {
      EventField(s, line, carried);
    } else if "data:" <= line {
      DataField(s, line, carried);
    } else {
      OtherField(s, line, carried);
    }
  }

  /** The events of a reader in the middle of a block. */
  function EventsFrom(b: Bytes, buffer: Bytes, eventType: Bytes, limit: nat): seq<Frame> {
    var r := Read(b, buffer, eventType, limit);
    if r.Event? then [r.frame] + Events(r.rest, limit) else []
  }

  /** A last line without its end completes nothing. */
  lemma UnfinishedLine(b: Bytes, buffer: Bytes, eventType: Bytes, limit: nat)
    requires NoCR(b) && LineEnd(b) == |b| < limit
    ensures Read(b, buffer, eventType, limit).Eof?
  {
    if b != [] {
      assert b[..|b|] == b;
      ReadUnfinished(b, buffer, eventType, limit);
    }
  }

  lemma FinishedLine(b: Bytes, buffer: Bytes, eventType: Bytes, limit: nat)
    requires NoCR(b) && 0 < LineEnd(b) < |b| && LineEnd(b) < limit
    ensures var n := LineEnd(b);
      Read(b, buffer, eventType, limit)
      == Read(b[n + 1..], DataAfter(buffer, b[..n]), TypeAfter(eventType, b[..n]), limit)
  {
    assert DropCR(b[..LineEnd(b)]) == b[..LineEnd(b)];
  }

  lemma BlankLine(b: Bytes, buffer: Bytes, eventType: Bytes, limit: nat)
    requires LineEnd(b) == 0 < |b| && limit > 0
    ensures Read(b, buffer, eventType, limit)
         == if buffer == [] then Read(b[1..], [], eventType, limit)
            else Event(Frame(eventType, DropLF(buffer)), b[1..])
  {
    assert b[..0] == [];
  }

  /** Reader and standard see the same from here on exactly when the names fit. */
  ghost predicate AgreeIff(b: Bytes, s: Buffers, carried: Bytes, limit: nat) {
    EventsFrom(b, s.data, ReaderType(s, carried), limit) == Dispatched(b, s) <==> NamesFit(b, s, carried)
  }

  lemma AgreeOnUnfinished(b: Bytes, s: Buffers, carried: Bytes, limit: nat)
    requires NoCR(b) && LineEnd(b) == |b| < limit
    ensures AgreeIff(b, s, carried, limit)
  {
    UnfinishedLine(b, s.data, ReaderType(s, carried), limit);
  }

  lemma AgreeOnLine(b: Bytes, s: Buffers, s': Buffers, carried: Bytes, limit: nat)
    requires NoCR(b) && 0 < LineEnd(b) < |b| && LineEnd(b) < limit
    requires s' == ProcessField(s, b[..LineEnd(b)]) && DataAfter(s.data, b[..LineEnd(b)]) == s'.data
    requires TypeAfter(ReaderType(s, carried), b[..LineEnd(b)]) == ReaderType(s', carried)
    requires AgreeIff(b[LineEnd(b) + 1..], s', carried, limit)
    ensures AgreeIff(b, s, carried, limit)
  {
    FinishedLine(b, s.data, ReaderType(s, carried), limit);
  }

  lemma AgreeOnBlank(b: Bytes, s: Buffers, carried: Bytes, limit: nat)
    requires LineEnd(b) == 0 < |b| && limit > 0
    requires AgreeIff(b[1..], Buffers([], []), if s.data == [] then ReaderType(s, carried) else DEFAULT_TYPE, limit)
    ensures AgreeIff(b, s, carried, limit)
  {
    BlankLine(b, s.data, ReaderType(s, carried), limit);
    if s.data != [] {
      assert EventsFrom(b[1..], [], DEFAULT_TYPE, limit) == Events(b[1..], limit);
      SameHeadAndTail(Frame(ReaderType(s, carried), DropLF(s.data)), Events(b[1..], limit),
                      Frame(ReaderType(s, DEFAULT_TYPE), DropLF(s.data)), Dispatched(b[1..], Buffers([], [])));
    }
  }

  lemma WideLine(b: Bytes, limit: nat)
    requires Wide(b, limit) && LineEnd(b) < |b|
    ensures var line := b[..LineEnd(b)];
      && |line| < limit && (line != [] ==> KnownField(line))
      && ("event:" <= line ==> FieldValue(line) != [] && Trimmed(FieldValue(line)))
      && Wide(b[LineEnd(b) + 1..], limit)
  {
  }

  lemma {:induction false} AgreeFrom(b: Bytes, s: Buffers, carried: Bytes, limit: nat)
    requires NoCR(b) && Wide(b, limit)
    ensures AgreeIff(b, s, carried, limit)
    decreases |b|
  {
    var n := LineEnd(b);
    if n == |b| {
      AgreeOnUnfinished(b, s, carried, limit);
    } else if n > 0 {
      WideLine(b, limit);
      KnownFields(s, b[..n], carried);
      AgreeFrom(b[n + 1..], ProcessField(s, b[..n]), carried, limit);
      AgreeOnLine(b, s, ProcessField(s, b[..n]), carried, limit);
    } else {
      WideLine(b, limit);
      AgreeFrom(b[1..], Buffers([], []), if s.data == [] then ReaderType(s, carried) else DEFAULT_TYPE, limit);
      AgreeOnBlank(b, s, carried, limit);
    }
  }

  /** On LF-only streams of known fields the reader returns exactly the events the standard
      dispatches if and only if no event takes its name from a block without data. */
  lemma ReaderAgreesWithTheStandard(b: Bytes, limit: nat)
    requires NoCR(b) && Wide(b, limit)
    ensures Events(b, limit) == Dispatched(b, Buffers([], [])) <==> NamesFit(b, Buffers([], []), DEFAULT_TYPE)
  {
    AgreeFrom(b, Buffers([], []), DEFAULT_TYPE, limit);
    assert EventsFrom(b, [], DEFAULT_TYPE, limit) == Events(b, limit);
  }

  /** A block that names its event has a data line when its blank line comes. */
  predicate NamesHaveData(b: Bytes, s: Buffers)
    decreases |b|
  {
    var n := LineEnd(b);
    if n == |b| then true
    else if n > 0 then NamesHaveData(b[n + 1..], ProcessField(s, b[..n]))
    else (s.eventType != [] ==> s.data != []) && NamesHaveData(b[1..], Buffers([], []))
  }

  /** So they agree where every named block has data. */
  lemma {:induction false} NamedBlocksFit(b: Bytes, s: Buffers)
    requires NamesHaveData(b, s)
    ensures NamesFit(b, s, DEFAULT_TYPE)
    decreases |b|
  {
    var n := LineEnd(b);
    if 0 < n < |b| {
      NamedBlocksFit(b[n + 1..], ProcessField(s, b[..n]));
    } else if n < |b| {
      NamedBlocksFit(b[1..], Buffers([], []));
    }
  }

  // ---------------------------------------------------------------------------------------
  // Streams the printer writes

  lemma DispatchLine(line: Bytes, rest: Bytes, s: Buffers)
    requires NoLF(line) && line != []
    ensures Dispatched(line + "\n" + rest, s) == Dispatched(rest, ProcessField(s, line))
  {
    var b := line + "\n" + rest;
    LineEndAt(line, b);
    assert b[..|line|] == line && b[|line| + 1..] == rest;
  }

  lemma DispatchBlank(rest: Bytes, s: Buffers)
    ensures Dispatched("\n" + rest, s)
         == (if s.data == [] then [] else [Frame(ReaderType(s, DEFAULT_TYPE), DropLF(s.data))]) + Dispatched(rest, Buffers([], []))
  {
    var b := "\n" + rest;
    LineEndAt([], b);
    assert b[1..] == rest;
  }

  lemma PrintedFields(f: Frame, s: Buffers)
    ensures ProcessField(s, EventLine(f)) == s.(eventType := f.eventType)
    ensures ProcessField(s, DataLine(f)) == s.(data := s.data + f.data + "\n")
  {
    assert "event:" == "event" + ":" && "data:" == "data" + ":";
    assert EventLine(f) == "event:" + (" " + f.eventType) && DataLine(f) == "data:" + (" " + f.data);
    ColonAfter("event", EventLine(f));
    ColonAfter("data", DataLine(f));
    assert EventLine(f)[6..] == " " + f.eventType && DataLine(f)[6..] == f.data && DataLine(f)[5..] == " " + f.data;
    assert DropSpace(" " + f.eventType) == f.eventType && DropSpace(" " + f.data) == f.data;
    assert "data"[0] != "event"[0];
  }

  lemma DispatchBlock(first: Bytes, second: Bytes, rest: Bytes, f: Frame)
    requires NoLF(first) && first != [] && NoLF(second) && second != [] && f.eventType != []
    requires ProcessField(Buffers([], []), first) == Buffers([], f.eventType)
    requires ProcessField(Buffers([], f.eventType), second) == Buffers(f.data + "\n", f.eventType)
    ensures Dispatched(first + "\n" + (second + "\n" + ("\n" + rest)), Buffers([], []))
         == [f] + Dispatched(rest, Buffers([], []))
  {
    DispatchLine(first, second + "\n" + ("\n" + rest), Buffers([], []));
    DispatchLine(second, "\n" + rest, Buffers([], f.eventType));
    DispatchBlank(rest, Buffers(f.data + "\n", f.eventType));
    assert DropLF(f.data + "\n") == f.data;
  }

  /** What the two lines of a printed frame do to the buffers. */
  lemma PrintedLines(f: Frame)
    ensures ProcessField(Buffers([], []), EventLine(f)) == Buffers([], f.eventType)
    ensures ProcessField(Buffers([], f.eventType), DataLine(f)) == Buffers(f.data + "\n", f.eventType)
    ensures ProcessField(Buffers([], []), DataLine(f)) == Buffers(f.data + "\n", [])
  {
    PrintedFields(f, Buffers([], []));
    PrintedFields(f, Buffers([], f.eventType));
    assert [] + f.data + "\n" == f.data + "\n";
  }

  lemma PrintedAreLines(f: Frame)
    requires NoLF(f.eventType) && NoLF(f.data)
    ensures NoLF(EventLine(f)) && NoLF(DataLine(f))
  {
  }

  lemma DispatchPrinted(f: Frame, rest: Bytes)
    requires f.eventType != [] && NoLF(f.eventType) && NoLF(f.data)
    ensures Dispatched(FormatEvent(f) + rest, Buffers([], [])) == [f] + Dispatched(rest, Buffers([], []))
  {
    FormatLines(f, rest);
    PrintedLines(f);
    PrintedAreLines(f);
    DispatchBlock(EventLine(f), DataLine(f), rest, f);
  }

  /** A standard parser reads from a printed stream exactly the printed events, whatever their
      payloads, as long as they are named and contain no line feed. */
  lemma {:induction false} StandardReadsPrinted(fs: seq<Frame>)
    requires forall k :: 0 <= k < |fs| ==> fs[k].eventType != [] && NoLF(fs[k].eventType) && NoLF(fs[k].data)
    ensures Dispatched(FormatAll(fs), Buffers([], [])) == fs
    decreases |fs|
  {
    if fs != [] {
      DispatchPrinted(fs[0], FormatAll(fs[1..]));
      StandardReadsPrinted(fs[1..]);
    }
  }

  /** A frame whose name and data stand in different blocks. */
  function TornFrame(f: Frame): Bytes { EventLine(f) + "\n" + ("\n" + (DataLine(f) + "\n" + ("\n" + []))) }

  lemma ReaderJoins(f: Frame, limit: nat)
    requires Printable(f, limit)
    ensures NextEvent(TornFrame(f), limit) == Event(f, [])
  {
    var block := DataLine(f) + "\n" + ("\n" + []);
    EventLineIsClean(f);
    EventLineEffect(f, [], DEFAULT_TYPE);
    DataLineIsClean(f);
    DataLineEffect(f, f.eventType);
    ReadLine(EventLine(f), "\n" + block, [], DEFAULT_TYPE, limit);
    LineEndAt([], "\n" + block);
    assert ("\n" + block)[1..] == block && ("\n" + block)[..0] == [];
    ReadLine(DataLine(f), "\n" + [], [], f.eventType, limit);
    ReadBlank([], f.data + "\n", f.eventType, limit);
  }

  lemma DispatchTorn(first: Bytes, second: Bytes, f: Frame)
    requires NoLF(first) && first != [] && NoLF(second) && second != []
    requires ProcessField(Buffers([], []), first) == Buffers([], f.eventType)
    requires ProcessField(Buffers([], []), second) == Buffers(f.data + "\n", [])
    ensures Dispatched(first + "\n" + ("\n" + (second + "\n" + ("\n" + []))), Buffers([], []))
         == [Frame(DEFAULT_TYPE, f.data)]
  {
    var block := second + "\n" + ("\n" + []);
    DispatchLine(first, "\n" + block, Buffers([], []));
    DispatchBlank(block, Buffers([], f.eventType));
    DispatchLine(second, "\n" + [], Buffers([], []));
    DispatchBlank([], Buffers(f.data + "\n", []));
    assert DropLF(f.data + "\n") == f.data;
  }

  lemma StandardForgets(f: Frame)
    requires NoLF(f.eventType) && NoLF(f.data)
    ensures Dispatched(TornFrame(f), Buffers([], [])) == [Frame(DEFAULT_TYPE, f.data)]
  {
    PrintedLines(f);
    PrintedAreLines(f);
    DispatchTorn(EventLine(f), DataLine(f), f);
  }

  /** An event name in a block without data sticks to the next block in the reader and is
      forgotten by the standard: unless it is the default name, the two differ. */
  lemma NamesWithoutDataStick(f: Frame, limit: nat)
    requires Printable(f, limit) && f.eventType != []
    ensures Events(TornFrame(f), limit) == [f]
    ensures Dispatched(TornFrame(f), Buffers([], [])) == [Frame(DEFAULT_TYPE, f.data)]
    ensures Events(TornFrame(f), limit) != Dispatched(TornFrame(f), Buffers([], [])) <==> f.eventType != DEFAULT_TYPE
  {
    ReaderJoins(f, limit);
    StandardForgets(f);
    assert f == Frame(f.eventType, f.data);
    assert [f][0] == f && [Frame(DEFAULT_TYPE, f.data)][0] == Frame(DEFAULT_TYPE, f.data);
  }
}
