/**
 The text/event-stream printer and parser.  A byte is a char; no definition here depends on the
 codes stopping at 255.
 */
module Sse {
  import opened Wrappers

  type Bytes = seq<char>

  const DEFAULT_TYPE: Bytes := "message"

  /** An event as the stream carries it. */
  datatype Frame = Frame(eventType: Bytes, data: Bytes)

  // ---------------------------------------------------------------------------------------
  // Printing

  function FormatEvent(f: Frame): Bytes {
    "event: " + f.eventType + "\ndata: " + f.data + "\n\n"
  }

  function FormatAll(fs: seq<Frame>): Bytes {
    if fs == [] then [] else FormatEvent(fs[0]) + FormatAll(fs[1..])
  }

  // ---------------------------------------------------------------------------------------
  // Lines

  /** The index of the first line feed, or the length when there is none. */
  function LineEnd(b: Bytes): (n: nat)
    ensures n <= |b|
    ensures forall i :: 0 <= i < n ==> b[i] != '\n'
    ensures n < |b| ==> b[n] == '\n'
  {
    if b == [] || b[0] == '\n' then 0 else 1 + LineEnd(b[1..])
  }

  function DropCR(line: Bytes): Bytes {
    if line != [] && line[|line| - 1] == '\r' then line[..|line| - 1] else line
  }

  /** What follows the line that ends at `n`. */
  function AfterLine(b: Bytes, n: nat): Bytes
    requires n <= |b|
  {
    if n < |b| then b[n + 1..] else []
  }

  // ---------------------------------------------------------------------------------------
  // Trimming white space: the ASCII spaces and the UTF-8 forms of the other Unicode ones

  predicate AsciiSpace(c: char) { c == ' ' || '\t' <= c <= '\r' }

  predicate WideSpace(s: Bytes) {
    || (|s| == 2 && s[0] == '\U{C2}' && (s[1] == '\U{85}' || s[1] == '\U{A0}'))
    || (|s| == 3 && s[0] == '\U{E1}' && s[1] == '\U{9A}' && s[2] == '\U{80}')
    || (|s| == 3 && s[0] == '\U{E2}' && s[1] == '\U{80}'
        && ('\U{80}' <= s[2] <= '\U{8A}' || s[2] == '\U{A8}' || s[2] == '\U{A9}' || s[2] == '\U{AF}'))
    || (|s| == 3 && s[0] == '\U{E2}' && s[1] == '\U{81}' && s[2] == '\U{9F}')
    || (|s| == 3 && s[0] == '\U{E3}' && s[1] == '\U{80}' && s[2] == '\U{80}')
  }

  /** The length of the space the bytes start with, and of the one they end with; 0 if none. */
  function SpaceAtStart(s: Bytes): (n: nat)
    ensures n <= |s|
  {
    if s != [] && AsciiSpace(s[0]) then 1
    else if |s| >= 2 && WideSpace(s[..2]) then 2
    else if |s| >= 3 && WideSpace(s[..3]) then 3
    else 0
  }

  function SpaceAtEnd(s: Bytes): (n: nat)
    ensures n <= |s|
  {
    if s != [] && AsciiSpace(s[|s| - 1]) then 1
    else if |s| >= 2 && WideSpace(s[|s| - 2..]) then 2
    else if |s| >= 3 && WideSpace(s[|s| - 3..]) then 3
    else 0
  }

  function TrimLeft(s: Bytes): Bytes
    decreases |s|
  {
    if SpaceAtStart(s) == 0 then s else TrimLeft(s[SpaceAtStart(s)..])
  }

  function TrimRight(s: Bytes): Bytes
    decreases |s|
  {
    if SpaceAtEnd(s) == 0 then s else TrimRight(s[..|s| - SpaceAtEnd(s)])
  }

  function TrimSpace(s: Bytes): Bytes { TrimRight(TrimLeft(s)) }

  predicate Trimmed(s: Bytes) { SpaceAtStart(s) == 0 && SpaceAtEnd(s) == 0 }

  // ---------------------------------------------------------------------------------------
  // Parsing

  function DropSpace(s: Bytes): Bytes { if s != [] && s[0] == ' ' then s[1..] else s }

  /** The data collected so far, after one more line that is not blank. */
  function DataAfter(buffer: Bytes, line: Bytes): Bytes {
    if "event:" <= line then buffer
    else if "data:" <= line then buffer + DropSpace(line[5..]) + "\n"
    else if "id:" <= line || "retry:" <= line || ":" <= line then buffer
    else buffer + line + "\n"
  }

  function TypeAfter(eventType: Bytes, line: Bytes): Bytes {
    if "event:" <= line then TrimSpace(line[6..]) else eventType
  }

  function DropLF(data: Bytes): Bytes {
    if data != [] && data[|data| - 1] == '\n' then data[..|data| - 1] else data
  }

  /** An event and what is left of the stream; or the end of the stream, with the data that was
      pending; or a line of `limit` bytes or more, which the scanner reports as an error. */
  datatype ReadResult =
    | Event(frame: Frame, rest: Bytes)
    | Eof(pending: Option<Frame>)
    | TooLong(rest: Bytes)

  function Read(b: Bytes, buffer: Bytes, eventType: Bytes, limit: nat): ReadResult
    decreases |b|
  {
    if b == [] then Eof(if buffer == [] then None else Some(Frame(eventType, DropLF(buffer))))
    else
      var n := LineEnd(b);
      var line := DropCR(b[..n]);
      if n >= limit then TooLong(b)
      else if line != [] then Read(AfterLine(b, n), DataAfter(buffer, line), TypeAfter(eventType, line), limit)
      else if buffer != [] then Event(Frame(eventType, DropLF(buffer)), AfterLine(b, n))
      else Read(AfterLine(b, n), buffer, eventType, limit)
  }

  lemma {:induction false} ReadConsumes(b: Bytes, buffer: Bytes, eventType: Bytes, limit: nat)
    ensures Read(b, buffer, eventType, limit).Event? ==> |Read(b, buffer, eventType, limit).rest| < |b|
    decreases |b|
  {
    if b != [] {
      var n := LineEnd(b);
      var line := DropCR(b[..n]);
      ReadConsumes(AfterLine(b, n), DataAfter(buffer, line), TypeAfter(eventType, line), limit);
      ReadConsumes(AfterLine(b, n), buffer, eventType, limit);
    }
  }

  /** What one call of the reader returns on the bytes it has left. */
  function NextEvent(b: Bytes, limit: nat): (r: ReadResult)
    ensures r.Event? ==> |r.rest| < |b|
  {
    ReadConsumes(b, [], DEFAULT_TYPE, limit);
    Read(b, [], DEFAULT_TYPE, limit)
  }

  /** The events returned without error by repeated calls, up to the first error. */
  function Events(b: Bytes, limit: nat): seq<Frame>
    decreases |b|
  {
    var r := NextEvent(b, limit);
    if r.Event? then [r.frame] + Events(r.rest, limit) else []
  }

  datatype ReadError = EndOfStream | LineTooLong

  class EventReader {
    var unread: Bytes
    const limit: nat

    constructor (stream: Bytes, limit: nat)
      ensures unread == stream && this.limit == limit
    {
      this.unread, this.limit := stream, limit;
    }

    /** The scanner: the next line without its end, if there is one. */
    method Scan() returns (line: Option<Bytes>)
      modifies this
      ensures old(unread) == [] || LineEnd(old(unread)) >= limit ==> line.None? && unread == old(unread)
      ensures old(unread) != [] && LineEnd(old(unread)) < limit ==>
        var n := LineEnd(old(unread));
        line == Some(DropCR(old(unread)[..n])) && unread == AfterLine(old(unread), n)
    {
      var n := 0;
      while n < |unread| && unread[n] != '\n'
        invariant n <= |unread|
        invariant LineEnd(unread) == n + LineEnd(unread[n..])
      {
        assert unread[n..][1..] == unread[n + 1..];
        n := n + 1;
      }
      if unread == [] || n >= limit {
        return None;
      }
      line := Some(DropCR(unread[..n]));
      unread := AfterLine(unread, n);
    }

    /** The next complete event; at the end of the stream the pending data comes with the error. */
    method ReadEvent() returns (frame: Option<Frame>, err: Option<ReadError>)
      modifies this
      ensures match NextEvent(old(unread), limit)
              case Event(f, rest) => frame == Some(f) && err == None && unread == rest
              case Eof(pending) => frame == pending && err == Some(EndOfStream) && unread == []
              case TooLong(rest) => frame == None && err == Some(LineTooLong) && unread == rest
    {
      var dataBuffer, eventType: Bytes := [], DEFAULT_TYPE;
      while true
        invariant Read(unread, dataBuffer, eventType, limit) == Read(old(unread), [], DEFAULT_TYPE, limit)
        decreases |unread|
      {
        var line := Scan();
        if line.None? {
          break;
        }
        if line.value == [] {
          if dataBuffer != [] {
            return Some(Frame(eventType, DropLF(dataBuffer))), None;
          }
          continue;
        }
        if "event:" <= line.value {
          eventType := TrimSpace(line.value[6..]);
        } else if "data:" <= line.value {
          dataBuffer := dataBuffer + DropSpace(line.value[5..]) + "\n";
        } else if "id:" <= line.value || "retry:" <= line.value || ":" <= line.value {
        } else {
          dataBuffer := dataBuffer + line.value + "\n";
        }
      }
      if unread != [] {
        return None, Some(LineTooLong);
      }
      frame, err := if dataBuffer == [] then None else Some(Frame(eventType, DropLF(dataBuffer))), Some(EndOfStream);
    }
  }
}
