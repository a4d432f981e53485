/** The byte framing of client_handler_thread: lines of at most 1023 bytes, CR ignored, over-long lines cut. */
module Framing {
  import opened CText

  const LINE_MAX := 1024

  const LF: char := '\n'
  const CR: char := '\r'

  /** What the reader holds between two bytes: the line so far, the messages dispatched, the overflows counted. */
  datatype State = State(line: string, sent: seq<string>, overflows: nat)

  const START := State("", [], 0)

  /** handle_message ignores a text that is empty as a C string. */
  function Dispatched(line: string): seq<string> {
    var message := CString(line);
    if message == "" then [] else [message]
  }

  function OnByte(s: State, c: char): State {
    if c == LF then s.(line := "", sent := s.sent + Dispatched(s.line))
    else if c == CR then s
    else if |s.line| < LINE_MAX - 1 then s.(line := s.line + [c])
    else s.(line := "", overflows := s.overflows + 1)
  }

  function OnBytes(s: State, bytes: seq<char>): State {
    if bytes == [] then s else OnByte(OnBytes(s, bytes[..|bytes| - 1]), bytes[|bytes| - 1])
  }

  /** The reader of one connection, with the buffer it fills in place. */
  class Reader {
    const lineBuffer: array<char>
    var linePos: nat
    var invalidMessageCount: nat
    var dispatched: seq<string>

    ghost predicate Valid()
      reads this
    {
      lineBuffer.Length == LINE_MAX && linePos < LINE_MAX
    }

    ghost function View(): State
      requires Valid()
      reads this, lineBuffer
    {
      State(lineBuffer[..linePos], dispatched, invalidMessageCount)
    }

    constructor ()
      ensures Valid() && View() == START && fresh(lineBuffer)
    {
      lineBuffer := new char[LINE_MAX];
      linePos, invalidMessageCount, dispatched := 0, 0, [];
    }

    /** What handle_message is given: the buffer as a C string. */
    method Line() returns (message: string)
      requires Valid()
      modifies lineBuffer
      ensures message == CString(old(lineBuffer[..linePos])) && lineBuffer[..linePos] == old(lineBuffer[..linePos])
    {
      lineBuffer[linePos] := NUL;
      message := CString(lineBuffer[..linePos]);
    }

    method Feed(c: char)
      requires Valid()
      modifies this`linePos, this`invalidMessageCount, this`dispatched, lineBuffer
      ensures Valid() && View() == OnByte(old(View()), c)
    {
      if c == LF {
        if linePos > 0 {
          var message := Line();
          if message != "" {
            dispatched := dispatched + [message];
          }
        }
        linePos := 0;
      } else if c == CR {
        return;
      } else if linePos < LINE_MAX - 1 {
        lineBuffer[linePos] := c;
        linePos := linePos + 1;
      } else {
        invalidMessageCount := invalidMessageCount + 1;
        linePos := 0;
      }
    }

    /** What one recv() returned. */
    method Receive(buffer: seq<char>)
      requires Valid()
      modifies this`linePos, this`invalidMessageCount, this`dispatched, lineBuffer
      ensures Valid() && View() == OnBytes(old(View()), buffer)
    {
      for i := 0 to |buffer|
        invariant Valid() && View() == OnBytes(old(View()), buffer[..i])
      {
        assert buffer[..i + 1][..i] == buffer[..i];
        Feed(buffer[i]);
      }
      assert buffer[..|buffer|] == buffer;
    }
  }

  // ---- how the bytes arrive does not matter ----

  lemma {:induction false} OnBytesConcat(s: State, a: seq<char>, b: seq<char>)
    ensures OnBytes(s, a + b) == OnBytes(OnBytes(s, a), b)
    decreases |b|
  {
    if b == [] {
      assert a + b == a;
    } else {
      assert (a + b)[..|a + b| - 1] == a + b[..|b| - 1];
      OnBytesConcat(s, a, b[..|b| - 1]);
    }
  }

  function Concat(chunks: seq<seq<char>>): seq<char> {
    if chunks == [] then [] else Concat(chunks[..|chunks| - 1]) + chunks[|chunks| - 1]
  }

  function OnChunks(s: State, chunks: seq<seq<char>>): State {
    if chunks == [] then s else OnBytes(OnChunks(s, chunks[..|chunks| - 1]), chunks[|chunks| - 1])
  }

  lemma {:induction false} ChunksAreBytes(s: State, chunks: seq<seq<char>>)
    ensures OnChunks(s, chunks) == OnBytes(s, Concat(chunks))
  {
    if chunks != [] {
      var n := |chunks| - 1;
      ChunksAreBytes(s, chunks[..n]);
      OnBytesConcat(s, Concat(chunks[..n]), chunks[n]);
    }
  }

  /** Two ways of cutting the same stream into recv() results dispatch the same messages. */
  lemma SplittingIsInvisible(s: State, chunks: seq<seq<char>>, others: seq<seq<char>>)
    requires Concat(chunks) == Concat(others)
    ensures OnChunks(s, chunks) == OnChunks(s, others)
  {
    ChunksAreBytes(s, chunks);
    ChunksAreBytes(s, others);
  }

  // ---- printing lines, then framing them ----

  predicate Plain(line: string) {
    forall i :: 0 <= i < |line| ==> line[i] != LF && line[i] != CR
  }

  /** What is left of a line when every 1024 bytes of it have been lost. */
  function Tail(line: string): (r: string)
    ensures |r| == |line| % LINE_MAX
  {
    line[|line| - |line| % LINE_MAX..]
  }

  lemma NextLength(n: nat)
    ensures n % LINE_MAX < LINE_MAX - 1 ==> (n + 1) % LINE_MAX == n % LINE_MAX + 1 && (n + 1) / LINE_MAX == n / LINE_MAX
    ensures n % LINE_MAX == LINE_MAX - 1 ==> (n + 1) % LINE_MAX == 0 && (n + 1) / LINE_MAX == n / LINE_MAX + 1
  {
  }

  lemma TailStep(line: string)
    requires line != ""
    ensures var before := Tail(line[..|line| - 1]);
            Tail(line) == if |before| < LINE_MAX - 1 then before + [line[|line| - 1]] else ""
  {
    NextLength(|line| - 1);
  }

  /** How far a line gets: every 1024 bytes of it are lost and counted once. */
  lemma {:induction false} LongLine(s: State, line: string)
    requires s.line == "" && Plain(line)
    ensures OnBytes(s, line) == State(line[|line| - |line| % 1024..], s.sent, s.overflows + |line| / 1024)
    decreases |line|
  {
    if line == "" {
      assert Tail(line) == "";
    } else {
      LongLine(s, line[..|line| - 1]);
      TailStep(line);
      NextLength(|line| - 1);
    }
  }

  /** The lines, each with its line feed. */
  function Printed(lines: seq<string>): seq<char> {
    if lines == [] then [] else Printed(lines[..|lines| - 1]) + (lines[|lines| - 1] + [LF])
  }

  /** A line with its line feed, however long it is: what is left of it, up to a NUL, is dispatched, unless that is
      nothing. */
  lemma LineDispatched(s: State, line: string)
    requires s.line == "" && Plain(line)
    ensures var tail := line[|line| - |line| % 1024..];
            OnBytes(s, line + [LF]) == State("", if tail == "" || tail[0] == NUL then s.sent
                                                 else s.sent + [CString(tail)], s.overflows + |line| / 1024)
  {
    LongLine(s, line);
    EndOfLine(s, line);
    assert s.sent + [] == s.sent;
  }

  /** Carriage returns make no difference, wherever they are. */
  lemma ReturnsAreIgnored(s: State, a: seq<char>, b: seq<char>)
    ensures OnBytes(s, a + [CR] + b) == OnBytes(s, a + b)
  {
    OnBytesConcat(s, a + [CR], b);
    OnBytesConcat(s, a, b);
    assert (a + [CR])[..|a|] == a;
  }

  lemma EndOfLine(s: State, line: string)
    ensures OnBytes(s, line + [LF]) == OnByte(OnBytes(s, line), LF)
  {
    assert (line + [LF])[..|line|] == line;
  }

  ghost predicate Message(line: string) {
    line != "" && |line| < LINE_MAX && Plain(line) && NoNul(line)
  }

  /** Messages that are printed line by line are dispatched one by one, and nothing overflows. */
  lemma {:induction false} FramingRoundTrip(s: State, lines: seq<string>)
    requires s.line == "" && forall i :: 0 <= i < |lines| ==> Message(lines[i])
    ensures OnBytes(s, Printed(lines)) == State("", s.sent + lines, s.overflows)
  {
    if lines == [] {
      assert s.sent + lines == s.sent;
    } else {
      var n := |lines| - 1;
      var line := lines[n];
      FramingRoundTrip(s, lines[..n]);
      assert Message(line);
      OnBytesConcat(s, Printed(lines[..n]), line + [LF]);
      MessageDispatched(State("", s.sent + lines[..n], s.overflows), line);
      assert s.sent + lines[..n] + [line] == s.sent + lines;
    }
  }

  lemma MessageDispatched(s: State, line: string)
    requires s.line == "" && Message(line)
    ensures OnBytes(s, line + [LF]) == State("", s.sent + [line], s.overflows)
  {
    LineDispatched(s, line);
    WholeTail(line);
    WholeString(line);
  }

  lemma WholeTail(line: string)
    requires |line| < LINE_MAX
    ensures Tail(line) == line && |line| / LINE_MAX == 0
  {
  }

  lemma {:induction false} WholeString(s: string)
    requires NoNul(s)
    ensures CString(s) == s
  {
    if s != "" {
      WholeString(s[1..]);
      assert [s[0]] + s[1..] == s;
    }
  }

  /** The round trip does not depend on how recv() cuts the stream. */
  lemma FramingRoundTripInChunks(lines: seq<string>, chunks: seq<seq<char>>)
    requires forall i :: 0 <= i < |lines| ==> Message(lines[i])
    requires Concat(chunks) == Printed(lines)
    ensures OnChunks(START, chunks) == State("", lines, 0)
  {
    ChunksAreBytes(START, chunks);
    FramingRoundTrip(START, lines);
    assert START.sent + lines == lines;
  }
}
