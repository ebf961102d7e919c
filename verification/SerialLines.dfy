/**
  Serial input: bytes are assembled into lines, at most one completed line per
  task(), and each line is split into tokens in place.
 */
module SerialLines {
  import opened Common
  import SerialTokens

  const MAX_LINE := SerialTokens.MAX_LINE

  /** What a completed line leads to: it is handed on as a C string, or answered line_too_long. */
  datatype LineEvent = Line(text: string) | TooLong

  datatype Assembly = Assembly(line: string, overflow: bool)

  const EMPTY := Assembly("", false)

  // ----- assembling lines, byte by byte -----

  function Completed(a: Assembly): seq<LineEvent> {
    if a.overflow then [TooLong] else if a.line != "" then [Line(CString(a.line))] else []
  }

  function Push(a: Assembly, c: char): Assembly {
    if c == '\r' || a.overflow then a
    else if |a.line| < MAX_LINE then a.(line := a.line + [c])
    else a.(overflow := true)
  }

  /** What one task() does with the bytes that are available. */
  datatype TaskResult = TaskResult(state: Assembly, unread: string, events: seq<LineEvent>)

  function Process(a: Assembly, bytes: string): TaskResult
    decreases |bytes|
  {
    if bytes == "" then TaskResult(a, "", [])
    else if bytes[0] == '\n' then TaskResult(EMPTY, bytes[1..], Completed(a))
    else Process(Push(a, bytes[0]), bytes[1..])
  }

  class SerialControl {
    /** What the UART has received and task() has not read. */
    var fifo: string
    const lineBuf: array<char>
    var lineLen: nat
    var overflow: bool

    ghost predicate Valid()
      reads this
    {
      lineBuf.Length == MAX_LINE + 1 && lineLen <= MAX_LINE
    }

    ghost function View(): Assembly
      requires Valid()
      reads this, lineBuf
    {
      Assembly(lineBuf[..lineLen], overflow)
    }

    constructor ()
      ensures Valid() && View() == EMPTY && fifo == "" && fresh(lineBuf)
    {
      fifo := "";
      lineBuf := new char[MAX_LINE + 1](_ => '\0');
      lineLen := 0;
      overflow := false;
    }

    /** What switching serial control off does to the line buffer. */
    method ClearLine()
      requires Valid()
      modifies this`lineLen, this`overflow, lineBuf
      ensures Valid() && View() == EMPTY
    {
      lineLen := 0;
      overflow := false;
      lineBuf[0] := '\0';
    }

    /** processSerialControl; the events are the lines handed on and the replies printed. */
    method ProcessSerialControl() returns (events: seq<LineEvent>)
      requires Valid()
      modifies this`fifo, this`lineLen, this`overflow, lineBuf
      ensures Valid()
      ensures TaskResult(View(), fifo, events) == Process(old(View()), old(fifo))
    {
      events := [];
      while |fifo| > 0
        invariant Valid() && events == []
        invariant Process(View(), fifo) == Process(old(View()), old(fifo))
        decreases |fifo|
      {
        ghost var before := View();
        var ch := fifo[0];
        fifo := fifo[1..];
        if ch == '\r' {
          continue;
        }
        if ch == '\n' {
          if overflow {
            events := [TooLong];
          } else if lineLen > 0 {
            lineBuf[lineLen] := '\0';
            events := [Line(CString(lineBuf[..lineLen]))];
          }
          lineLen := 0;
          overflow := false;
          lineBuf[0] := '\0';
          return;
        }
        if overflow {
          continue;
        }
        if lineLen < MAX_LINE {
          lineBuf[lineLen] := ch;
          lineLen := lineLen + 1;
          assert lineBuf[..lineLen] == before.line + [ch];
        } else {
          overflow := true;
        }
      }
    }
  }

  // ----- the batch reading of a stream -----

  function DeleteCr(s: string): string {
    if s == "" then "" else (if s[0] == '\r' then "" else [s[0]]) + DeleteCr(s[1..])
  }

  /** The lines of `s` that a LF ends, and what follows the last LF. */
  datatype Lines = Lines(complete: seq<string>, tail: string)

  function Split(s: string): Lines {
    if s == "" then Lines([], "")
    else
      var r := Split(s[1..]);
      if s[0] == '\n' then Lines([""] + r.complete, r.tail)
      else if r.complete == [] then Lines([], [s[0]] + r.tail)
      else Lines([[s[0]] + r.complete[0]] + r.complete[1..], r.tail)
  }

  function Classify(line: string): seq<LineEvent> {
    if line == "" then [] else if |line| <= 128 then [Line(CString(line))] else [TooLong]
  }

  function ClassifyAll(lines: seq<string>): seq<LineEvent> {
    if lines == [] then [] else Classify(lines[0]) + ClassifyAll(lines[1..])
  }

  /** Delete CR, split at LF, drop empty lines, accept those of at most 128 characters. */
  function Batch(s: string): seq<LineEvent> {
    ClassifyAll(Split(DeleteCr(s)).complete)
  }

  /** The line left unfinished at the end of `s`. */
  function Unfinished(s: string): Assembly {
    var tail := Split(DeleteCr(s)).tail;
    Assembly(if |tail| <= 128 then tail else tail[..128], |tail| > 128)
  }

  lemma {:induction false} DeleteCrAppend(s: string, c: char)
    ensures DeleteCr(s + [c]) == DeleteCr(s) + if c == '\r' then "" else [c]
  {
    if s == "" {
      assert s + [c] == [c];
    } else {
      assert (s + [c])[0] == s[0] && (s + [c])[1..] == s[1..] + [c];
      DeleteCrAppend(s[1..], c);
      Assoc(if s[0] == '\r' then "" else [s[0]], DeleteCr(s[1..]), if c == '\r' then "" else [c]);
    }
  }

  lemma {:induction false} SplitAppend(s: string, c: char)
    ensures Split(s + [c]) ==
            if c == '\n' then Lines(Split(s).complete + [Split(s).tail], "")
            else Lines(Split(s).complete, Split(s).tail + [c])
  {
    if s == "" {
      assert s + [c] == [c];
    } else {
      assert (s + [c])[1..] == s[1..] + [c];
      SplitAppend(s[1..], c);
    }
  }

  lemma {:induction false} ClassifyAppend(lines: seq<string>, line: string)
    ensures ClassifyAll(lines + [line]) == ClassifyAll(lines) + Classify(line)
  {
    if lines == [] {
      assert lines + [line] == [line];
    } else {
      assert (lines + [line])[1..] == lines[1..] + [line];
      ClassifyAppend(lines[1..], line);
    }
  }

  lemma BatchAppend(s: string, c: char)
    ensures Batch(s + [c]) == Batch(s) + if c == '\n' then Completed(Unfinished(s)) else []
    ensures Unfinished(s + [c]) == if c == '\n' then EMPTY else Push(Unfinished(s), c)
  {
    DeleteCrAppend(s, c);
    if c != '\r' {
      SplitAppend(DeleteCr(s), c);
      if c == '\n' {
        ClassifyAppend(Split(DeleteCr(s)).complete, Split(DeleteCr(s)).tail);
      }
    } else {
      assert DeleteCr(s) + "" == DeleteCr(s);
    }
  }

  // ----- any way of chunking -----

  /** `events` and `state` are the batch reading of `read`. */
  predicate ReadAs(read: string, state: Assembly, events: seq<LineEvent>) {
    state == Unfinished(read) && events == Batch(read)
  }

  /** One task() goes on from the batch reading of `read` to that of `read + consumed`. */
  lemma {:induction false} ProcessContinues(read: string, a: Assembly, events: seq<LineEvent>, bytes: string)
    returns (consumed: string)
    requires ReadAs(read, a, events)
    ensures bytes == consumed + Process(a, bytes).unread
    ensures ReadAs(read + consumed, Process(a, bytes).state, events + Process(a, bytes).events)
    decreases |bytes|
  {
    if bytes == "" {
      consumed := "";
      assert read + "" == read && events + [] == events;
    } else {
      var c := bytes[0];
      BatchAppend(read, c);
      if c == '\n' {
        consumed := [c];
      } else {
        assert Batch(read) + [] == Batch(read);
        var rest := ProcessContinues(read + [c], Push(a, c), events, bytes[1..]);
        consumed := [c] + rest;
        assert read + consumed == read + [c] + rest;
      }
    }
  }

  lemma {:induction false} OneLinePerTask(a: Assembly, bytes: string)
    ensures |Process(a, bytes).events| <= 1
    decreases |bytes|
  {
    if bytes != "" && bytes[0] != '\n' {
      OneLinePerTask(Push(a, bytes[0]), bytes[1..]);
    }
  }

  /** A run of task() calls; `arrivals[k]` comes in before the k-th. */
  datatype StreamState = StreamState(state: Assembly, unread: string, events: seq<LineEvent>)

  function RunTasks(s: StreamState, arrivals: seq<string>): StreamState
    decreases |arrivals|
  {
    if arrivals == [] then s
    else
      var r := Process(s.state, s.unread + arrivals[0]);
      RunTasks(StreamState(r.state, r.unread, s.events + r.events), arrivals[1..])
  }

  function Joined(arrivals: seq<string>): string {
    if arrivals == [] then "" else arrivals[0] + Joined(arrivals[1..])
  }

  lemma Regroup(read: string, unread: string, arrival: string, later: string, step: string, left: string)
    requires unread + arrival == step + left
    ensures read + unread + (arrival + later) == read + step + left + later
  {
    assert read + unread + (arrival + later) == read + (unread + arrival) + later;
  }

  lemma {:induction false} RunContinues(read: string, s: StreamState, arrivals: seq<string>) returns (consumed: string)
    requires ReadAs(read, s.state, s.events)
    ensures var t := RunTasks(s, arrivals);
            read + s.unread + Joined(arrivals) == consumed + t.unread && ReadAs(consumed, t.state, t.events)
    decreases |arrivals|
  {
    if arrivals == [] {
      consumed := read;
      assert read + s.unread + "" == read + s.unread;
    } else {
      var bytes := s.unread + arrivals[0];
      var step := ProcessContinues(read, s.state, s.events, bytes);
      var r := Process(s.state, bytes);
      consumed := RunContinues(read + step, StreamState(r.state, r.unread, s.events + r.events), arrivals[1..]);
      Regroup(read, s.unread, arrivals[0], Joined(arrivals[1..]), step, r.unread);
    }
  }

  /**
    However a byte stream arrives across task() calls, the lines handed on and the
    line_too_long replies are the batch reading of the bytes consumed, and the
    rest is still unread.
   */
  lemma ChunkingIndependence(arrivals: seq<string>)
    ensures var t := RunTasks(StreamState(EMPTY, "", []), arrivals);
            var all := Joined(arrivals);
            && |t.unread| <= |all|
            && var consumed := all[..|all| - |t.unread|];
               all == consumed + t.unread && t.events == Batch(consumed) && t.state == Unfinished(consumed)
  {
    var consumed := RunContinues("", StreamState(EMPTY, "", []), arrivals);
    var t := RunTasks(StreamState(EMPTY, "", []), arrivals);
    assert "" + "" + Joined(arrivals) == Joined(arrivals);
    assert Joined(arrivals)[..|Joined(arrivals)| - |t.unread|] == consumed;
  }

  function LineFeeds(s: string): nat {
    if s == "" then 0 else (if s[0] == '\n' then 1 else 0) + LineFeeds(s[1..])
  }

  lemma {:induction false} ProcessReads(a: Assembly, bytes: string)
    ensures LineFeeds(bytes) == 0 ==> Process(a, bytes).unread == ""
    ensures LineFeeds(bytes) > 0 ==> LineFeeds(Process(a, bytes).unread) == LineFeeds(bytes) - 1
    decreases |bytes|
  {
    if bytes != "" && bytes[0] != '\n' {
      ProcessReads(Push(a, bytes[0]), bytes[1..]);
    }
  }

  /** With nothing more arriving, one task per line feed and one for the rest read everything. */
  lemma {:induction false} BacklogDrains(s: StreamState, n: nat)
    requires n > LineFeeds(s.unread)
    ensures RunTasks(s, seq(n, _ => "")).unread == ""
    decreases n
  {
    var idle := seq(n, _ => "");
    assert s.unread + idle[0] == s.unread;
    assert idle[1..] == seq(n - 1, _ => "");
    ProcessReads(s.state, s.unread);
    var r := Process(s.state, s.unread);
    if LineFeeds(s.unread) == 0 {
      NothingToRead(StreamState(r.state, r.unread, s.events + r.events), n - 1);
    } else {
      BacklogDrains(StreamState(r.state, r.unread, s.events + r.events), n - 1);
    }
  }

  lemma {:induction false} NothingToRead(s: StreamState, n: nat)
    requires s.unread == ""
    ensures RunTasks(s, seq(n, _ => "")) == s
    decreases n
  {
    var idle := seq(n, _ => "");
    if n > 0 {
      assert s.unread + idle[0] == "";
      assert s.events + [] == s.events;
      assert idle[1..] == seq(n - 1, _ => "");
      NothingToRead(s, n - 1);
    }
  }
}
