/** Server-sent-event framing (src/api/utils/format_sse.py), and the part of
    the event-stream reader of section 9.2 of the HTML Living Standard
    ("Server-sent events") that recovers `data` payloads, to state what the
    framing guarantees a client. */
module Sse {
  const DefaultField := "data"

  /** `format_sse(data, field)` once `json.dumps` has produced `payload`:
      one field line, then the blank line that ends the event. */
  function FormatSse(payload: string, field: string): (frame: string)
    ensures |frame| == |field| + |payload| + 4
    ensures frame[..|field| + 2] == field + ": " && frame[|frame| - 2..] == "\n\n"
    ensures frame[|field| + 2..|frame| - 2] == payload
  {
    field + ": " + payload + "\n\n"
  }

  /** The end-of-stream marker the endpoints write by hand. */
  const DoneMarker := "data: [DONE]\n\n"

  /** The hand-written marker is the frame `format_sse` would give "[DONE]". */
  lemma DoneMarkerIsFrame()
    ensures DoneMarker == FormatSse("[DONE]", DefaultField)
  {
  }

  // ---------------------------------------------------------------------------
  // The reader. Lines end at LF (the CR and CRLF terminators the standard also
  // allows are left out). A line that is empty dispatches the event; a line
  // whose field name is "data" appends its value and an LF to the data buffer;
  // an event whose data buffer is empty is not dispatched, and the trailing LF
  // of the buffer is removed at dispatch. An unterminated last line is
  // discarded.

  function IndexOf(s: string, c: char): (i: nat)
    requires c in s
    ensures i < |s| && s[i] == c && c !in s[..i]
  {
    if s[0] == c then 0 else 1 + IndexOf(s[1..], c)
  }

  /** Field name and value of a non-empty line: up to the first colon, and
      after it with one leading space removed; a line without a colon is all
      name. */
  function FieldOf(line: string): (string, string)
  {
    if ':' in line then
      var i := IndexOf(line, ':');
      var value := line[i + 1..];
      (line[..i], if value != [] && value[0] == ' ' then value[1..] else value)
    else (line, "")
  }

  /** The data of the events a client dispatches from `s`, given the data
      buffer accumulated so far. */
  function DataEvents(s: string, buffer: string): seq<string>
    decreases |s|
  {
    if '\n' !in s then []
    else
      var i := IndexOf(s, '\n');
      var line := s[..i];
      var rest := s[i + 1..];
      if line == [] then
        (if buffer == [] then DataEvents(rest, []) else [buffer[..|buffer| - 1]] + DataEvents(rest, []))
      else if FieldOf(line).0 == "data" then DataEvents(rest, buffer + FieldOf(line).1 + "\n")
      else DataEvents(rest, buffer)
  }

  /** Reading a `data` line whose value holds no line feed. */
  lemma DataLine(payload: string, rest: string, buffer: string)
    requires '\n' !in payload
    ensures DataEvents("data: " + payload + "\n" + rest, buffer) == DataEvents(rest, buffer + payload + "\n")
  {
    var line := "data: " + payload;
    var s := line + "\n" + rest;
    assert '\n' !in line by {
      assert forall k :: 0 <= k < |line| ==> line[k] == if k < 6 then "data: "[k] else payload[k - 6];
    }
    assert s[..|line|] == line;
    IndexOfPrefix(s, line, '\n');
    assert s[|line| + 1..] == rest;
    assert line[..4] == "data" && line[4] == ':';
    IndexOfPrefix(line, "data", ':');
    assert line[5..] == " " + payload;
    assert (" " + payload)[1..] == payload;
    assert FieldOf(line) == ("data", payload);
  }

  /** Reading the blank line that ends an event. */
  lemma BlankLine(rest: string, buffer: string)
    ensures DataEvents("\n" + rest, buffer)
            == if buffer == [] then DataEvents(rest, []) else [buffer[..|buffer| - 1]] + DataEvents(rest, [])
  {
    var s := "\n" + rest;
    assert IndexOf(s, '\n') == 0;
    assert s[..0] == [] && s[1..] == rest;
  }

  /** A payload without line feeds, framed as `data`, reaches the client as
      exactly one event carrying that payload, whatever follows it. */
  lemma FrameDelivers(payload: string, tail: string)
    requires '\n' !in payload
    ensures DataEvents(FormatSse(payload, DefaultField) + tail, []) == [payload] + DataEvents(tail, [])
  {
    assert FormatSse(payload, DefaultField) + tail == "data: " + payload + "\n" + ("\n" + tail);
    DataLine(payload, "\n" + tail, []);
    BlankLine(tail, [] + payload + "\n");
    assert ([] + payload + "\n")[..|payload|] == payload;
  }

  lemma IndexOfPrefix(s: string, prefix: string, c: char)
    requires |prefix| < |s| && s[..|prefix|] == prefix && c !in prefix && s[|prefix|] == c
    ensures IndexOf(s, c) == |prefix|
  {
    if prefix != [] {
      assert s[1..][..|prefix| - 1] == prefix[1..];
      IndexOfPrefix(s[1..], prefix[1..], c);
    }
  }

  /** The concatenation of the `data` frames of several payloads. */
  function Frames(payloads: seq<string>): string
  {
    if payloads == [] then "" else FormatSse(payloads[0], DefaultField) + Frames(payloads[1..])
  }

  /** A stream of data frames, none of whose payloads holds a line feed, reaches
      the client as exactly those payloads, in order. */
  lemma {:induction false} FramesDeliver(payloads: seq<string>)
    requires forall i :: 0 <= i < |payloads| ==> '\n' !in payloads[i]
    ensures DataEvents(Frames(payloads), []) == payloads
  {
    if payloads != [] {
      FrameDelivers(payloads[0], Frames(payloads[1..]));
      FramesDeliver(payloads[1..]);
    } else {
      assert '\n' !in Frames(payloads);
    }
  }
}
