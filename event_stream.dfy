/**
 * Server-Sent Events framing and a reference parser for it.
 *
 * `Frame` is the framing SSEStream applies to each item
 * (backend/utils/sse_stream.py:22). The parser follows the event-stream
 * format of the WHATWG HTML Living Standard, sections 9.2.5 "Parsing an
 * event stream" and 9.2.6 "Interpreting an event stream": lines end at
 * CRLF, LF or CR; an empty line dispatches the buffered data (minus its
 * last LF) unless the buffer is empty; a line starting with a colon is a
 * comment; otherwise the field name runs to the first colon and one
 * leading space of the value is dropped; a "data" field appends its value and an LF to the buffer; an
 * event unfinished at the end of the stream is discarded. Only the data
 * of dispatched events is kept.
 */
module EventStream {
  import opened Strings

  /** The framing as SSEStream writes it: one data line holding the item verbatim, then a blank line. */
  function Frame(d: string): string
  {
    "data: " + d + "\n\n"
  }

  predicate IsLineEnd(c: char)
  {
    c == '\n' || c == '\r'
  }

  predicate NoLineEnds(s: string)
  {
    forall i :: 0 <= i < |s| ==> !IsLineEnd(s[i])
  }

  predicate NoCarriageReturns(s: string)
  {
    forall i :: 0 <= i < |s| ==> s[i] != '\r'
  }

  /** The parser's state: the line read so far, the data buffer, and whether the last character was a CR. */
  datatype Parser = Parser(line: string, data: string, afterCR: bool)

  const Start: Parser := Parser("", "", false)

  /** Position of the first colon of `s`, or `|s|` when it has none. */
  function ColonIndex(s: string): (k: nat)
    ensures k <= |s|
    ensures k < |s| ==> s[k] == ':'
    ensures forall i :: 0 <= i < k ==> s[i] != ':'
  {
    if s == [] || s[0] == ':' then 0 else 1 + ColonIndex(s[1..])
  }

  /** The value after the colon, with one leading space removed. */
  function FieldValue(rest: string): string
  {
    if rest != [] && rest[0] == ' ' then rest[1..] else rest
  }

  /** Processes one complete line against the data buffer: the new buffer and the data dispatched, if any. */
  function ProcessLine(line: string, data: string): (string, seq<string>)
  {
    if line == [] then
      if data == [] then ("", [])
      else if data[|data| - 1] == '\n' then ("", [data[..|data| - 1]])
      else ("", [data])
    else if line[0] == ':' then (data, [])
    else
      var k := ColonIndex(line);
      var value := if k < |line| then FieldValue(line[k + 1..]) else "";
      if line[..k] == "data" then (data + value + "\n", []) else (data, [])
  }

  /** The data of every event dispatched while reading `s` from state `p`. */
  function ParseFrom(s: string, p: Parser): seq<string>
    decreases |s|
  {
    if s == [] then []
    else if s[0] == '\n' && p.afterCR then ParseFrom(s[1..], p.(afterCR := false))
    else if IsLineEnd(s[0]) then
      var (data, out) := ProcessLine(p.line, p.data);
      out + ParseFrom(s[1..], Parser("", data, s[0] == '\r'))
    else ParseFrom(s[1..], p.(line := p.line + [s[0]], afterCR := false))
  }

  /** The data of every event a client dispatches for the whole stream `s`. */
  function Parse(s: string): seq<string>
  {
    ParseFrom(s, Start)
  }

  /** Characters that end no line only extend the current line. */
  lemma {:induction false} ReadPlain(t: string, rest: string, p: Parser)
    requires NoLineEnds(t) && !p.afterCR
    ensures ParseFrom(t + rest, p) == ParseFrom(rest, p.(line := p.line + t))
    decreases |t|
  {
    if t == [] {
      assert t + rest == rest;
      assert p.line + t == p.line;
    } else {
      assert (t + rest)[0] == t[0];
      assert (t + rest)[1..] == t[1..] + rest;
      ReadPlain(t[1..], rest, p.(line := p.line + [t[0]]));
      assert p.line + [t[0]] + t[1..] == p.line + t;
    }
  }

  /** A line `data: v` appends `v` and an LF to the buffer, whatever colons `v` holds. */
  lemma DataLine(v: string, data: string)
    ensures ProcessLine("data: " + v, data) == (data + v + "\n", [])
  {
    var line := "data: " + v;
    assert line[4] == ':';
    assert forall i :: 0 <= i < 4 ==> line[i] != ':';
    assert ColonIndex(line) == 4;
    assert line[..4] == "data";
    assert line[5..] == " " + v;
  }

  /**
   * Escaping an item for the data field: every LF starts a new data line.
   * This is the framing that section 9.2.6 of the WHATWG HTML Living Standard
   * needs for multi-line data.
   */
  function Escape(d: string): string
  {
    if d == [] then "" else (if d[0] == '\n' then "\ndata: " else [d[0]]) + Escape(d[1..])
  }

  /** The corrected framing: one data line per line of the item, then a blank line. */
  function FrameLines(d: string): string
  {
    "data: " + Escape(d) + "\n\n"
  }

  /** An item without LF is left alone by the escaping. */
  lemma {:induction false} EscapeNoNewline(d: string)
    requires NoLineEnds(d)
    ensures Escape(d) == d
    decreases |d|
  {
    if d != [] {
      EscapeNoNewline(d[1..]);
      assert d == [d[0]] + d[1..];
    }
  }

  /** One character that ends no line, read outside a CRLF pair, joins the current line. */
  lemma ReadChar(c: char, rest: string, p: Parser)
    requires !IsLineEnd(c)
    ensures ParseFrom([c] + rest, p) == ParseFrom(rest, p.(line := p.line + [c], afterCR := false))
  {
    assert ([c] + rest)[1..] == rest;
  }

  /** An LF outside a CRLF pair ends the current line and processes it. */
  lemma EndLine(p: Parser, rest: string)
    requires !p.afterCR
    ensures ParseFrom("\n" + rest, p)
         == ProcessLine(p.line, p.data).1 + ParseFrom(rest, Parser("", ProcessLine(p.line, p.data).0, false))
  {
    assert ("\n" + rest)[0] == '\n' && ("\n" + rest)[1..] == rest;
  }

  /** The LF ending a data line moves the line's value into the buffer. */
  lemma EndDataLine(cur: string, buf: string, rest: string)
    ensures ParseFrom("\n" + rest, Parser("data: " + cur, buf, false))
         == ParseFrom(rest, Parser("", buf + cur + "\n", false))
  {
    assert ("\n" + rest)[0] == '\n' && ("\n" + rest)[1..] == rest;
    DataLine(cur, buf);
  }

  /** The blank line after a data line dispatches the buffer without its final LF. */
  lemma EndEvent(buf: string, rest: string)
    ensures ParseFrom("\n" + rest, Parser("", buf + "\n", false)) == [buf] + ParseFrom(rest, Start)
  {
    assert ("\n" + rest)[0] == '\n' && ("\n" + rest)[1..] == rest;
    var full := buf + "\n";
    assert full[..|full| - 1] == buf;
  }

  /**
   * The heart of the round trip: in the middle of a data line whose value
   * so far is `cur`, with `buf` buffered, reading the rest of an escaped
   * item and the closing blank line dispatches `buf + cur + d` and returns
   * the parser to its start state.
   */
  lemma {:induction false} ReadEscaped(d: string, cur: string, buf: string, rest: string)
    requires NoCarriageReturns(d)
    ensures ParseFrom(Escape(d) + "\n\n" + rest, Parser("data: " + cur, buf, false))
         == [buf + cur + d] + ParseFrom(rest, Start)
    decreases |d|, 1
  {
    if d == [] {
      assert Escape(d) + "\n\n" + rest == "\n" + ("\n" + rest);
      EndDataLine(cur, buf, "\n" + rest);
      EndEvent(buf + cur, rest);
      assert buf + cur + d == buf + cur;
    } else if d[0] == '\n' {
      ReadEscapedLineFeed(d, cur, buf, rest);
    } else {
      ReadEscapedChar(d, cur, buf, rest);
    }
  }

  /** ReadEscaped when the item starts with an LF: the data line ends and a new one begins. */
  lemma {:induction false} ReadEscapedLineFeed(d: string, cur: string, buf: string, rest: string)
    requires NoCarriageReturns(d) && d != [] && d[0] == '\n'
    ensures ParseFrom(Escape(d) + "\n\n" + rest, Parser("data: " + cur, buf, false))
         == [buf + cur + d] + ParseFrom(rest, Start)
    decreases |d|, 0
  {
    var tail := Escape(d[1..]) + "\n\n" + rest;
    var buf' := buf + cur + "\n";
    EscapeLineFeed(d, rest);
    EndDataLine(cur, buf, "data: " + tail);
    StartDataLine(tail, buf');
    ReadEscaped(d[1..], "", buf', rest);
    LineFeedJoin(buf, cur, d);
  }

  /** Splitting the escape of an item that starts with an LF. */
  lemma EscapeLineFeed(d: string, rest: string)
    requires d != [] && d[0] == '\n'
    ensures Escape(d) + "\n\n" + rest == "\n" + ("data: " + (Escape(d[1..]) + "\n\n" + rest))
  {
    assert Escape(d) == "\ndata: " + Escape(d[1..]);
    Regroup(Escape(d[1..]), rest);
  }

  /** Regrouping the concatenation after an escaped LF, with no Escape term in sight to unfold. */
  lemma Regroup(e: string, rest: string)
    ensures "\ndata: " + e + "\n\n" + rest == "\n" + ("data: " + (e + "\n\n" + rest))
  {
    assert "\ndata: " == "\n" + "data: ";
  }

  /** Reading `data: ` at the start of a line. */
  lemma StartDataLine(tail: string, buf: string)
    ensures ParseFrom("data: " + tail, Parser("", buf, false)) == ParseFrom(tail, Parser("data: " + "", buf, false))
  {
    ReadPlain("data: ", tail, Parser("", buf, false));
    assert "" + "data: " == "data: " + "";
  }

  /** The buffer after the data line that an item's leading LF closes, joined with the rest of the item. */
  lemma LineFeedJoin(buf: string, cur: string, d: string)
    requires d != [] && d[0] == '\n'
    ensures buf + cur + "\n" + "" + d[1..] == buf + cur + d
  {
    assert d == "\n" + d[1..];
  }

  /** ReadEscaped when the item starts with any other character: it joins the current data line. */
  lemma {:induction false} ReadEscapedChar(d: string, cur: string, buf: string, rest: string)
    requires NoCarriageReturns(d) && d != [] && d[0] != '\n'
    ensures ParseFrom(Escape(d) + "\n\n" + rest, Parser("data: " + cur, buf, false))
         == [buf + cur + d] + ParseFrom(rest, Start)
    decreases |d|, 0
  {
    var tail := Escape(d[1..]) + "\n\n" + rest;
    calc {
      ParseFrom(Escape(d) + "\n\n" + rest, Parser("data: " + cur, buf, false));
    == { assert Escape(d) + "\n\n" + rest == [d[0]] + tail; }
      ParseFrom([d[0]] + tail, Parser("data: " + cur, buf, false));
    == { ReadChar(d[0], tail, Parser("data: " + cur, buf, false));
         assert "data: " + cur + [d[0]] == "data: " + (cur + [d[0]]); }
      ParseFrom(tail, Parser("data: " + (cur + [d[0]]), buf, false));
    == { ReadEscaped(d[1..], cur + [d[0]], buf, rest); }
      [buf + (cur + [d[0]]) + d[1..]] + ParseFrom(rest, Start);
    == { assert d == [d[0]] + d[1..]; assert buf + (cur + [d[0]]) + d[1..] == buf + cur + d; }
      [buf + cur + d] + ParseFrom(rest, Start);
    }
  }

  /** A correctly framed item is read back whole, and the parser is ready for the next event. */
  lemma FrameLinesRoundTrip(d: string, rest: string)
    requires NoCarriageReturns(d)
    ensures ParseFrom(FrameLines(d) + rest, Start) == [d] + ParseFrom(rest, Start)
  {
    var tail := Escape(d) + "\n\n" + rest;
    assert FrameLines(d) + rest == "data: " + tail;
    ReadPlain("data: ", tail, Start);
    assert "" + "data: " == "data: " + "";
    ReadEscaped(d, "", "", rest);
    assert "" + "" + d == d;
  }

  /** The framing as written round-trips every item that holds no line break. */
  lemma FrameRoundTrip(d: string, rest: string)
    requires NoLineEnds(d)
    ensures ParseFrom(Frame(d) + rest, Start) == [d] + ParseFrom(rest, Start)
  {
    EscapeNoNewline(d);
    FrameLinesRoundTrip(d, rest);
  }

  /** A line that is neither blank, a comment nor a data field leaves the buffer as it is. */
  lemma IgnoredLine(b: string, data: string, rest: string)
    requires NoLineEnds(b) && b != []
    requires (forall i :: 0 <= i < |b| ==> b[i] != ':') && b != "data"
    ensures ParseFrom(b + "\n" + rest, Parser("", data, false)) == ParseFrom(rest, Parser("", data, false))
  {
    ReadPlain(b, "\n" + rest, Parser("", data, false));
    assert b + "\n" + rest == b + ("\n" + rest);
    assert "" + b == b;
    assert ColonIndex(b) == |b| && b[..|b|] == b;
    EndLine(Parser(b, data, false), rest);
  }

  /**
   * The framing as written loses everything after an item's first LF when
   * the next line does not happen to be a data field: the client reads the
   * second line as a field of another name and ignores it.
   */
  lemma FrameDropsAfterNewline(a: string, b: string)
    requires NoLineEnds(a) && NoLineEnds(b) && b != []
    requires (forall i :: 0 <= i < |b| ==> b[i] != ':') && b != "data"
    ensures Parse(Frame(a + "\n" + b)) == [a]
  {
    var afterData := "\n" + (b + "\n\n");
    var buffered := Parser("", a + "\n", false);
    calc {
      Parse(Frame(a + "\n" + b));
    == { assert Frame(a + "\n" + b) == "data: " + a + afterData; }
      ParseFrom("data: " + a + afterData, Start);
    == { ReadPlain("data: " + a, afterData, Start);
         assert Start.(line := Start.line + ("data: " + a)) == Parser("data: " + a, "", false); }
      ParseFrom(afterData, Parser("data: " + a, "", false));
    == { EndDataLine(a, "", b + "\n\n"); assert "" + a + "\n" == a + "\n"; }
      ParseFrom(b + "\n\n", buffered);
    == { IgnoredLine(b, a + "\n", "\n"); assert b + "\n" + "\n" == b + "\n\n"; }
      ParseFrom("\n", buffered);
    == { EndEvent(a, ""); }
      [a];
    }
  }

  /** The smallest instance: the item "a\nb" reaches the client as "a". */
  lemma FrameSplitsEmbeddedNewline()
    ensures Parse(Frame("a\nb")) == ["a"]
  {
    var a, b := "a", "b";
    assert a + "\n" + b == "a\nb";
    assert NoLineEnds(b) && b != "data";
    FrameDropsAfterNewline(a, b);
  }

  /** The frames of a sequence of items, in order; on the wire they are sent back to back. */
  function Framed(frame: string -> string, ds: seq<string>): (r: seq<string>)
    ensures |r| == |ds|
    decreases |ds|
  {
    if ds == [] then [] else [frame(ds[0])] + Framed(frame, ds[1..])
  }

  /** A client reading the framed items as written gets every line-break-free item back, in order. */
  lemma {:induction false} WireRoundTrip(ds: seq<string>)
    requires forall i :: 0 <= i < |ds| ==> NoLineEnds(ds[i])
    ensures Parse(Concat(Framed(Frame, ds))) == ds
    decreases |ds|
  {
    if ds != [] {
      WireRoundTrip(ds[1..]);
      FrameRoundTrip(ds[0], Concat(Framed(Frame, ds[1..])));
    }
  }

  /** With the corrected framing every item without CR comes back, line breaks included. */
  lemma {:induction false} WireLinesRoundTrip(ds: seq<string>)
    requires forall i :: 0 <= i < |ds| ==> NoCarriageReturns(ds[i])
    ensures Parse(Concat(Framed(FrameLines, ds))) == ds
    decreases |ds|
  {
    if ds != [] {
      WireLinesRoundTrip(ds[1..]);
      FrameLinesRoundTrip(ds[0], Concat(Framed(FrameLines, ds[1..])));
    }
  }
}
