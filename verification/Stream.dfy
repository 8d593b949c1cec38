/**
 The event stream between the bridge and the browser: re-encoding of upstream frames, and the buffering loop
 that cuts the received text into frames, however the network cuts it into chunks.
 */
module Stream {
  import opened Wrappers
  import opened Events

  // ---------- Cutting text into frames ----------

  /** The length of a match of `\r?\n\r?\n` at the start of `s`; 0 if there is none. */
  function Delimiter(s: string): (n: nat)
    ensures n <= |s| && (n == 0 || 2 <= n <= 4)
  {
    var a := if s != "" && s[0] == '\r' then 1 else 0;
    if |s| <= a || s[a] != '\n' then 0
    else
      var b := if |s| > a + 1 && s[a + 1] == '\r' then 1 else 0;
      if |s| <= a + 1 + b || s[a + 1 + b] != '\n' then 0 else a + b + 2
  }

  /** Where the first delimiter starts; past the end if there is none. */
  function Search(s: string): (at: nat)
    ensures at <= |s|
  {
    if s == "" || Delimiter(s) > 0 then 0 else Search(s[1..]) + 1
  }

  lemma {:induction false} SearchFinds(s: string)
    ensures Search(s) < |s| ==> Delimiter(s[Search(s)..]) > 0
  {
    if s != "" && Delimiter(s) == 0 {
      SearchFinds(s[1..]);
      assert s[1..][Search(s[1..])..] == s[Search(s)..];
    } else {
      assert s[0..] == s;
    }
  }

  datatype Split = Split(frame: string, rest: string)

  /** The first frame of a buffer and what follows its delimiter. */
  function Next(s: string): (r: Option<Split>)
    ensures r.Some? ==> |r.value.rest| < |s|
  {
    var at := Search(s);
    if at == |s| then None else SearchFinds(s); Some(Split(s[..at], s[at + Delimiter(s[at..])..]))
  }

  const BLANK_LINES: set<string> := {"\n\n", "\r\n\n", "\n\r\n", "\r\n\r\n"}

  lemma DelimiterFound(s: string)
    requires Delimiter(s) > 0
    ensures s[..Delimiter(s)] in BLANK_LINES
  {
    var n := Delimiter(s);
    assert n == 2 ==> s[..n] == "\n\n";
    assert n == 3 ==> s[..n] == "\r\n\n" || s[..n] == "\n\r\n";
    assert n == 4 ==> s[..n] == "\r\n\r\n";
  }

  lemma DelimiterMeant(s: string, end: string)
    requires end in BLANK_LINES && |end| <= |s| && s[..|end|] == end
    ensures Delimiter(s) == |end|
  {
    assert forall i :: 0 <= i < |end| ==> s[i] == end[i];
  }

  /** The four ways a blank line ends a frame, and no others. */
  lemma DelimiterExactly(s: string, n: nat)
    requires n > 0
    ensures Delimiter(s) == n <==> n <= |s| && s[..n] in BLANK_LINES
  {
    if Delimiter(s) > 0 { DelimiterFound(s); }
    if n <= |s| && s[..n] in BLANK_LINES { DelimiterMeant(s, s[..n]); }
  }

  lemma {:induction false} SearchIsFirst(s: string, k: nat)
    requires k < Search(s)
    ensures k < |s| && Delimiter(s[k..]) == 0
  {
    if k > 0 {
      SearchIsFirst(s[1..], k - 1);
      assert s[1..][k - 1..] == s[k..];
    } else {
      assert s[0..] == s;
    }
  }

  /** A buffer is cut at its first blank line, which belongs to neither part; without one it is left alone. */
  lemma NextExactly(s: string)
    ensures Next(s).Some? ==>
      exists end :: end in BLANK_LINES && s == Next(s).value.frame + end + Next(s).value.rest
    ensures Next(s).Some? ==> forall k :: 0 <= k < |Next(s).value.frame| ==> Delimiter(s[k..]) == 0
    ensures Next(s).None? ==> forall k :: 0 <= k < |s| ==> Delimiter(s[k..]) == 0
  {
    var at := Search(s);
    forall k: nat | k < at ensures k < |s| && Delimiter(s[k..]) == 0 { SearchIsFirst(s, k); }
    if at < |s| {
      SearchFinds(s);
      var n := Delimiter(s[at..]);
      DelimiterExactly(s[at..], n);
      assert s == s[..at] + s[at..][..n] + s[at + n..];
    }
  }

  /** The complete frames at the front of a buffer. */
  function Frames(s: string): seq<string>
    decreases |s|
  {
    match Next(s)
    case None => []
    case Some(split) => [split.frame] + Frames(split.rest)
  }

  /** What is left of a buffer when its complete frames are taken. */
  function Left(s: string): string
    decreases |s|
  {
    match Next(s)
    case None => s
    case Some(split) => Left(split.rest)
  }

  /** A match does not depend on what follows it. */
  lemma DelimiterStays(s: string, more: string)
    requires Delimiter(s) > 0
    ensures Delimiter(s + more) == Delimiter(s)
  {
  }

  /** More text never completes a delimiter that starts before a complete one. */
  lemma NotOvertaken(s: string, k: nat, more: string)
    requires k < |s| && Delimiter(s[k..]) > 0 && Delimiter(s) == 0
    ensures Delimiter(s + more) == 0
  {
    assert forall i :: 0 <= i < |s| ==> (s + more)[i] == s[i];
    assert forall i :: 0 <= i < |s| - k ==> s[k..][i] == s[k + i];
  }

  lemma {:induction false} SearchStays(s: string, more: string)
    requires Search(s) < |s|
    ensures Search(s + more) == Search(s)
  {
    SearchFinds(s);
    if Delimiter(s) > 0 {
      DelimiterStays(s, more);
    } else {
      NotOvertaken(s, Search(s), more);
      assert (s + more)[1..] == s[1..] + more;
      SearchStays(s[1..], more);
    }
  }

  lemma PrefixOfConcat(s: string, more: string, n: nat)
    requires n <= |s|
    ensures (s + more)[..n] == s[..n] && (s + more)[n..] == s[n..] + more
  {
  }

  lemma NextStays(s: string, more: string)
    requires Next(s).Some?
    ensures Next(s + more) == Some(Split(Next(s).value.frame, Next(s).value.rest + more))
  {
    var at := Search(s);
    SearchFinds(s);
    SearchStays(s, more);
    PrefixOfConcat(s, more, at);
    DelimiterStays(s[at..], more);
    PrefixOfConcat(s, more, at + Delimiter(s[at..]));
  }

  /** Cutting early changes nothing: the frames of a text do not depend on where it was cut. */
  lemma {:induction false} FramesConcat(s: string, more: string)
    ensures Frames(s + more) == Frames(s) + Frames(Left(s) + more)
    ensures Left(s + more) == Left(Left(s) + more)
    decreases |s|
  {
    if Next(s).Some? {
      NextStays(s, more);
      FramesConcat(Next(s).value.rest, more);
    }
  }

  // ---------- The browser ----------

  datatype Received<D> = Received(event: string, data: D)

  /** JSON, blanks and what the browser does with them. */
  datatype Browser<!D> = Browser(parse: string -> Option<D>, named: D -> string, isSpace: char -> bool)

  function TrimStart(isSpace: char -> bool, s: string): string {
    if s != "" && isSpace(s[0]) then TrimStart(isSpace, s[1..]) else s
  }

  function TrimEnd(isSpace: char -> bool, s: string): string {
    if s != "" && isSpace(s[|s| - 1]) then TrimEnd(isSpace, s[..|s| - 1]) else s
  }

  function Trim(isSpace: char -> bool, s: string): string { TrimEnd(isSpace, TrimStart(isSpace, s)) }

  predicate StartsWith(s: string, prefix: string) { |prefix| <= |s| && s[..|prefix|] == prefix }

  /** The first line of `s` and the rest; the text itself when there is no line end. */
  function FirstLine(s: string): (r: Split)
    ensures |r.rest| < |s| || r.rest == ""
  {
    if s == "" then Split("", "")
    else if s[0] == '\n' then Split("", s[1..])
    else if s[0] == '\r' && |s| > 1 && s[1] == '\n' then Split("", s[2..])
    else var later := FirstLine(s[1..]); Split([s[0]] + later.frame, later.rest)
  }

  predicate HasLineEnd(s: string) { '\n' in s }

  /** A text that is cut after its first line, and how. */
  predicate Cut(s: string, line: Split, end: string) { s == line.frame + end + line.rest }

  /** A line goes up to the first line feed, with a carriage return before it left out. */
  lemma {:induction false} FirstLineExactly(s: string)
    requires HasLineEnd(s)
    ensures '\n' !in FirstLine(s).frame
    ensures Cut(s, FirstLine(s), "\r\n")
      || (Cut(s, FirstLine(s), "\n") && (FirstLine(s).frame == "" || FirstLine(s).frame[|FirstLine(s).frame| - 1] != '\r'))
  {
    if s[0] == '\n' {
      assert s == "" + "\n" + s[1..];
    } else if s[0] == '\r' && |s| > 1 && s[1] == '\n' {
      assert s == "" + "\r\n" + s[2..];
    } else {
      FirstLineExactly(s[1..]);
      CutLater(s, FirstLine(s[1..]));
    }
  }

  lemma CutLater(s: string, later: Split)
    requires s != ""
    ensures Cut(s[1..], later, "\n") ==> Cut(s, Split([s[0]] + later.frame, later.rest), "\n")
    ensures Cut(s[1..], later, "\r\n") ==> Cut(s, Split([s[0]] + later.frame, later.rest), "\r\n")
  {
    assert s == [s[0]] + s[1..];
  }

  /** `frame.split(/\r?\n/)`. */
  function Lines(s: string): seq<string>
    decreases |s|
  {
    if !HasLineEnd(s) then [s]
    else var first := FirstLine(s); assert s != ""; [first.frame] + Lines(first.rest)
  }

  /** The name and the data lines seen so far. */
  datatype Parsed = Parsed(name: string, data: seq<string>)

  function ParseLine(isSpace: char -> bool, p: Parsed, line: string): Parsed {
    if StartsWith(line, "event:") then p.(name := Trim(isSpace, line[6..]))
    else if StartsWith(line, "data:") then p.(data := p.data + [TrimStart(isSpace, line[5..])])
    else p
  }

  function ParseLines(isSpace: char -> bool, lines: seq<string>): Parsed {
    if lines == [] then Parsed("", []) else ParseLine(isSpace, ParseLines(isSpace, lines[..|lines| - 1]), lines[|lines| - 1])
  }

  function JoinLines(lines: seq<string>): string {
    if lines == [] then "" else if |lines| == 1 then lines[0] else JoinLines(lines[..|lines| - 1]) + "\n" + lines[|lines| - 1]
  }

  /** `parseSSEFrame`. */
  function ParseFrame<D(!new)>(b: Browser<D>, frame: string): seq<Received<D>> {
    var p := ParseLines(b.isSpace, Lines(frame));
    if p.data == [] then []
    else match b.parse(JoinLines(p.data))
      case None => []
      case Some(data) =>
        var name := if p.name != "" then p.name else if b.named(data) != "" then b.named(data) else "message";
        [Received(name, data)]
  }

  // ---------- What a frame says ----------

  predicate IsEvent(line: string) { StartsWith(line, "event:") }

  predicate IsData(line: string) { StartsWith(line, "data:") && !IsEvent(line) }

  /** The texts of the data lines, in order. */
  function DataTexts(isSpace: char -> bool, lines: seq<string>): seq<string> {
    if lines == [] then []
    else (if IsData(lines[0]) then [TrimStart(isSpace, lines[0][5..])] else []) + DataTexts(isSpace, lines[1..])
  }

  /** Whether `k` is the last line that names the event. */
  predicate LastName(lines: seq<string>, k: int) {
    0 <= k < |lines| && IsEvent(lines[k]) && forall j :: k < j < |lines| ==> !IsEvent(lines[j])
  }

  lemma {:induction false} DataTextsAppend(isSpace: char -> bool, lines: seq<string>, line: string)
    ensures DataTexts(isSpace, lines + [line])
      == DataTexts(isSpace, lines) + if IsData(line) then [TrimStart(isSpace, line[5..])] else []
  {
    if lines == [] {
      assert ([] + [line])[1..] == [];
    } else {
      assert (lines + [line])[1..] == lines[1..] + [line];
      DataTextsAppend(isSpace, lines[1..], line);
    }
  }

  /** All data lines count, in order; of the lines that name the event only the last does. */
  lemma {:induction false} LinesSayExactly(isSpace: char -> bool, lines: seq<string>)
    ensures ParseLines(isSpace, lines).data == DataTexts(isSpace, lines)
    ensures (forall k :: 0 <= k < |lines| ==> !IsEvent(lines[k])) ==> ParseLines(isSpace, lines).name == ""
    ensures forall k :: LastName(lines, k) ==> ParseLines(isSpace, lines).name == Trim(isSpace, lines[k][6..])
  {
    if lines != [] {
      var earlier, last := lines[..|lines| - 1], lines[|lines| - 1];
      LinesSayExactly(isSpace, earlier);
      assert lines == earlier + [last];
      DataTextsAppend(isSpace, earlier, last);
      forall k | LastName(lines, k) ensures ParseLines(isSpace, lines).name == Trim(isSpace, lines[k][6..]) {
        if k < |lines| - 1 { assert LastName(earlier, k); }
      }
    }
  }

  /**
   What a frame is taken for: nothing without data or when its data is no JSON; otherwise the event its last name line
   names, or, without such a name, the one its data names, or a message.
   */
  lemma FrameSaysExactly<D(!new)>(b: Browser<D>, frame: string)
    ensures var lines := Lines(frame);
      var data := DataTexts(b.isSpace, lines);
      && (data == [] || b.parse(JoinLines(data)).None? ==> ParseFrame(b, frame) == [])
      && (data != [] && b.parse(JoinLines(data)).Some? ==>
        && |ParseFrame(b, frame)| == 1 && ParseFrame(b, frame)[0].data == b.parse(JoinLines(data)).value
        && (forall k :: LastName(lines, k) && Trim(b.isSpace, lines[k][6..]) != "" ==>
              ParseFrame(b, frame)[0].event == Trim(b.isSpace, lines[k][6..]))
        && ((forall k :: 0 <= k < |lines| ==> !IsEvent(lines[k])) ==>
              ParseFrame(b, frame)[0].event
                == (if b.named(ParseFrame(b, frame)[0].data) != "" then b.named(ParseFrame(b, frame)[0].data) else "message")))
  {
    LinesSayExactly(b.isSpace, Lines(frame));
  }

  function ParseAll<D(!new)>(b: Browser<D>, frames: seq<string>): seq<Received<D>> {
    if frames == [] then [] else ParseFrame(b, frames[0]) + ParseAll(b, frames[1..])
  }

  /** Everything a text delivers: its complete frames, and a last one that is not blank. */
  function Delivered<D(!new)>(b: Browser<D>, text: string): seq<Received<D>> {
    ParseAll(b, Frames(text)) + if Trim(b.isSpace, Left(text)) != "" then ParseFrame(b, Left(text)) else []
  }

  function Concat(chunks: seq<string>): string {
    if chunks == [] then "" else Concat(chunks[..|chunks| - 1]) + chunks[|chunks| - 1]
  }

  lemma {:induction false} ParseAllConcat<D(!new)>(b: Browser<D>, frames: seq<string>, more: seq<string>)
    ensures ParseAll(b, frames + more) == ParseAll(b, frames) + ParseAll(b, more)
  {
    if frames == [] {
      assert frames + more == more;
    } else {
      assert (frames + more)[1..] == frames[1..] + more;
      ParseAllConcat(b, frames[1..], more);
    }
  }

  lemma TakeFrame<D(!new)>(b: Browser<D>, buffer: string)
    requires Next(buffer).Some?
    ensures var split := Next(buffer).value;
      ParseAll(b, Frames(buffer)) == ParseFrame(b, split.frame) + ParseAll(b, Frames(split.rest)) && Left(buffer) == Left(split.rest)
  {
    var split := Next(buffer).value;
    assert ([split.frame] + Frames(split.rest))[1..] == Frames(split.rest);
  }

  lemma NextChunk<D(!new)>(b: Browser<D>, before: string, chunk: string)
    ensures ParseAll(b, Frames(before + chunk)) == ParseAll(b, Frames(before)) + ParseAll(b, Frames(Left(before) + chunk))
    ensures Left(before + chunk) == Left(Left(before) + chunk)
  {
    FramesConcat(before, chunk);
    ParseAllConcat(b, Frames(before), Frames(Left(before) + chunk));
  }

  lemma Regroup<T>(a: seq<T>, b: seq<T>, c: seq<T>)
    ensures a + (b + c) == (a + b) + c
  {
  }

  /** The inner loop of `streamTurn`: every complete frame is handled and cut off. */
  method Drain<D(!new)>(b: Browser<D>, text: string) returns (events: seq<Received<D>>, buffer: string)
    ensures events == ParseAll(b, Frames(text))
    ensures buffer == Left(text)
  {
    buffer := text;
    events := [];
    var split := Next(buffer);
    while split.Some?
      invariant split == Next(buffer)
      invariant ParseAll(b, Frames(text)) == events + ParseAll(b, Frames(buffer))
      invariant Left(text) == Left(buffer)
      decreases |buffer|
    {
      TakeFrame(b, buffer);
      var parsed := ParseFrame(b, split.value.frame);
      Regroup(events, parsed, ParseAll(b, Frames(split.value.rest)));
      events := events + parsed;
      buffer := split.value.rest;
      split := Next(buffer);
    }
  }

  /** The buffering loop of `streamTurn`: what is delivered depends only on the text, not on its chunks. */
  method StreamTurn<D(!new)>(b: Browser<D>, chunks: seq<string>) returns (events: seq<Received<D>>)
    ensures events == Delivered(b, Concat(chunks))
  {
    var buffer := "";
    events := [];
    for k := 0 to |chunks|
      invariant events == ParseAll(b, Frames(Concat(chunks[..k])))
      invariant buffer == Left(Concat(chunks[..k]))
    {
      assert chunks[..k + 1][..k] == chunks[..k];
      NextChunk(b, Concat(chunks[..k]), chunks[k]);
      var more;
      more, buffer := Drain(b, buffer + chunks[k]);
      events := events + more;
    }
    assert chunks[..|chunks|] == chunks;
    if Trim(b.isSpace, buffer) != "" {
      events := events + ParseFrame(b, buffer);
    }
  }

  // ---------- The bridge ----------

  /** What the bridge does with one upstream frame. */
  datatype Projected = Nothing | Keepalive | Passed(name: string, payload: Value) | Rejected

  /**
   Python's line splitting and blanks, JSON both ways, whether a payload can be written as UTF-8 (a lone surrogate
   cannot), the text side of the projection, and the session the page asked for.
   */
  datatype Bridge = Bridge(
    splitLines: string -> seq<string>, isSpace: char -> bool, loads: string -> Option<Value>, dump: Value -> string,
    encodes: Value -> bool, words: Words, session: string)

  const REFUSAL := Object(map[EventKey := Str("error"), Message := Str("Orion projection rejected unsafe or malformed upstream event"), RunErrorObserved := Bool(true)])

  predicate OnlyComments(lines: seq<string>) {
    lines != [] && forall k :: 0 <= k < |lines| ==> lines[k] == "" || lines[k][0] == ':'
  }

  /** The event name and the JSON text of an upstream frame. */
  function Upstream(bridge: Bridge, frame: string): Parsed { ParseLines(bridge.isSpace, bridge.splitLines(frame)) }

  /** `_project_sse_frame`. */
  function ProjectFrame(bridge: Bridge, frame: string): Projected {
    var p := Upstream(bridge, frame);
    if OnlyComments(bridge.splitLines(frame)) then Keepalive
    else if p.data == [] then Nothing
    else match bridge.loads(JoinLines(p.data))
      case None => Rejected
      case Some(data) =>
        match ProjectEvent(bridge.words, bridge.session, p.name, data)
        case None => Rejected
        case Some(event) => if bridge.encodes(event.payload) then Passed(event.name, event.payload) else Rejected
  }

  /** `_encode_sse`. */
  function EncodeEvent(bridge: Bridge, name: string, payload: Value): string {
    "event: " + name + "\ndata: " + bridge.dump(payload) + "\n\n"
  }

  function Encode(bridge: Bridge, p: Projected): string {
    match p
    case Nothing => ""
    case Keepalive => ": keepalive\n\n"
    case Passed(name, payload) => EncodeEvent(bridge, name, payload)
    case Rejected => EncodeEvent(bridge, "error", REFUSAL)
  }

  const MAX_SSE_FRAME_BYTES: nat := 524_288

  predicate EndsFrame(line: string) { line == "\n" || line == "\r\n" }

  /** The frames the bridge gets to, the last one perhaps only a part; the loop ends at a bad or oversized one. */
  datatype Step = Frame(text: string) | Oversized

  /**
   What the bridge gets to of upstream lines, given the part of a frame it already has: nothing after the first
   frame it cannot pass on or that is too long.
   */
  function Steps(bridge: Bridge, part: string, lines: seq<string>): seq<Step>
    decreases lines
  {
    if lines == [] then
      if part == "" then [] else [Frame(part)]
    else if |part| + |lines[0]| > MAX_SSE_FRAME_BYTES then [Oversized]
    else if !EndsFrame(lines[0]) then Steps(bridge, part + lines[0], lines[1..])
    else if ProjectFrame(bridge, part + lines[0]).Rejected? then [Frame(part + lines[0])]
    else [Frame(part + lines[0])] + Steps(bridge, "", lines[1..])
  }

  function ItemOf(bridge: Bridge, step: Step): Projected {
    match step
    case Frame(text) => ProjectFrame(bridge, text)
    case Oversized => Rejected
  }

  function ItemsOf(bridge: Bridge, steps: seq<Step>): seq<Projected> {
    if steps == [] then [] else [ItemOf(bridge, steps[0])] + ItemsOf(bridge, steps[1..])
  }

  /** What it makes of them: one item each. */
  function Items(bridge: Bridge, lines: seq<string>): seq<Projected> { ItemsOf(bridge, Steps(bridge, "", lines)) }

  function EncodeAll(bridge: Bridge, items: seq<Projected>): string {
    if items == [] then "" else Encode(bridge, items[0]) + EncodeAll(bridge, items[1..])
  }

  function Written(bridge: Bridge, part: string, lines: seq<string>): string {
    EncodeAll(bridge, ItemsOf(bridge, Steps(bridge, part, lines)))
  }

  // ---------- Which frames the bridge passes on ----------

  /** Some line of the frame is data. */
  predicate HasData(lines: seq<string>) { exists k :: 0 <= k < |lines| && StartsWith(lines[k], "data:") && !StartsWith(lines[k], "event:") }

  lemma {:induction false} DataIsKept(isSpace: char -> bool, lines: seq<string>)
    ensures ParseLines(isSpace, lines).data != [] <==> HasData(lines)
  {
    if lines != [] {
      var earlier := lines[..|lines| - 1];
      DataIsKept(isSpace, earlier);
      assert HasData(lines) <==> HasData(earlier) || (StartsWith(lines[|lines| - 1], "data:") && !StartsWith(lines[|lines| - 1], "event:")) by {
        if HasData(earlier) {
          var k :| 0 <= k < |earlier| && StartsWith(earlier[k], "data:") && !StartsWith(earlier[k], "event:");
          assert lines[k] == earlier[k];
        }
      }
    }
  }

  /**
   A frame is answered with the refusal exactly when it is no mere comment, has data, and that data is no JSON, no
   object, of another session, without the run it must name, or cannot be written; a frame without data is dropped.
   */
  lemma RefusedExactly(bridge: Bridge, frame: string)
    ensures var lines, p := bridge.splitLines(frame), ParseLines(bridge.isSpace, bridge.splitLines(frame));
      var data := bridge.loads(JoinLines(p.data));
      && (ProjectFrame(bridge, frame) == Keepalive <==> lines != [] && forall k :: 0 <= k < |lines| ==> lines[k] == "" || lines[k][0] == ':')
      && (ProjectFrame(bridge, frame) == Nothing <==> !HasData(lines) && !OnlyComments(lines))
      && (ProjectFrame(bridge, frame).Rejected? <==>
        && HasData(lines) && !OnlyComments(lines)
        && (data.None? || !data.value.Object? || OtherSession(bridge.words, bridge.session, data.value.fields)
            || (NeedsRun(EventName(bridge.words, p.name, data.value.fields), data.value.fields) && !NamesRun(bridge.words, data.value.fields))
            || !bridge.encodes(ProjectEvent(bridge.words, bridge.session, p.name, data.value).value.payload)))
  {
    var lines := bridge.splitLines(frame);
    var p := ParseLines(bridge.isSpace, lines);
    DataIsKept(bridge.isSpace, lines);
    var data := bridge.loads(JoinLines(p.data));
    if data.Some? { ProjectedExactly(bridge.words, bridge.session, p.name, data.value); }
  }

  /** The lines i to j make up one frame: none but the last ends one, and the last does unless no line follows. */
  ghost predicate FrameOf(lines: seq<string>, i: nat, j: nat, text: string) {
    && i < j <= |lines| && text == Concat(lines[i..j])
    && (forall k :: i <= k < j - 1 ==> !EndsFrame(lines[k]))
    && (j < |lines| ==> EndsFrame(lines[j - 1]))
  }

  /** The lines i to j are the first of an unfinished frame to be more than a frame may hold. */
  ghost predicate TooLong(lines: seq<string>, i: nat, j: nat) {
    && i < j <= |lines| && |Concat(lines[i..j])| > 524_288 && |Concat(lines[i..j - 1])| <= 524_288
    && forall k :: i <= k < j - 1 ==> !EndsFrame(lines[k])
  }

  /** A complete frame that is refused is the last. */
  predicate Stops(bridge: Bridge, lines: seq<string>, j: nat, text: string)
    requires 0 < j <= |lines|
  {
    ProjectFrame(bridge, text).Rejected? && EndsFrame(lines[j - 1])
  }

  /** How the steps follow the lines from the i-th on. */
  ghost predicate Follows(bridge: Bridge, lines: seq<string>, i: nat, steps: seq<Step>)
    decreases steps
  {
    if steps == [] then i == |lines|
    else match steps[0]
      case Oversized => |steps| == 1 && exists j :: TooLong(lines, i, j)
      case Frame(text) =>
        && |text| <= 524_288
        && (exists j :: FrameOf(lines, i, j, text) && if Stops(bridge, lines, j, text) then |steps| == 1 else Follows(bridge, lines, j, steps[1..]))
  }

  /**
   The bridge takes the lines frame by frame, leaves none out, and stops at the first frame it refuses or that is too
   long, which is answered with the refusal; every frame before that is passed on.
   */
  lemma StepsFollowLines(bridge: Bridge, lines: seq<string>)
    requires forall k :: 0 <= k < |lines| ==> lines[k] != ""
    ensures Follows(bridge, lines, 0, Steps(bridge, "", lines))
    ensures forall k :: 0 <= k < |Steps(bridge, "", lines)| - 1 ==> !ItemOf(bridge, Steps(bridge, "", lines)[k]).Rejected?
  {
    assert lines[0..] == lines && lines[0..0] == [];
    StepsFrom(bridge, lines, 0, 0);
    OnlyLastRejected(bridge, "", lines);
  }

  lemma {:induction false} OnlyLastRejected(bridge: Bridge, part: string, lines: seq<string>)
    ensures forall k :: 0 <= k < |Steps(bridge, part, lines)| - 1 ==> !ItemOf(bridge, Steps(bridge, part, lines)[k]).Rejected?
    decreases lines
  {
    if lines != [] && |part| + |lines[0]| <= MAX_SSE_FRAME_BYTES {
      if !EndsFrame(lines[0]) { OnlyLastRejected(bridge, part + lines[0], lines[1..]); }
      else if !ProjectFrame(bridge, part + lines[0]).Rejected? { OnlyLastRejected(bridge, "", lines[1..]); }
    }
  }

  lemma {:induction false} StepsFrom(bridge: Bridge, lines: seq<string>, i: nat, k: nat)
    requires i <= k <= |lines| && |Concat(lines[i..k])| <= MAX_SSE_FRAME_BYTES
    requires (forall m :: 0 <= m < |lines| ==> lines[m] != "") && forall m :: i <= m < k ==> !EndsFrame(lines[m])
    ensures Follows(bridge, lines, i, Steps(bridge, Concat(lines[i..k]), lines[k..]))
    decreases |lines| - k
  {
    var part := Concat(lines[i..k]);
    assert lines[i..|lines|] == lines[i..] && lines[|lines|..] == [];
    if k == |lines| {
      if i < k { LastPart(bridge, lines, i); }
    } else {
      OneMoreLine(lines, i, k);
      assert lines[k..][0] == lines[k] && lines[k..][1..] == lines[k + 1..];
      if |part| + |lines[k]| > MAX_SSE_FRAME_BYTES {
        assert lines[i..k + 1 - 1] == lines[i..k];
        assert TooLong(lines, i, k + 1);
      } else if !EndsFrame(lines[k]) {
        StepsFrom(bridge, lines, i, k + 1);
      } else {
        assert FrameOf(lines, i, k + 1, part + lines[k]);
        assert lines[k + 1..k + 1] == [];
        if !ProjectFrame(bridge, part + lines[k]).Rejected? {
          StepsFrom(bridge, lines, k + 1, k + 1);
          var steps := Steps(bridge, part, lines[k..]);
          assert steps[1..] == Steps(bridge, "", lines[k + 1..]);
        }
      }
    }
  }

  /** What is left at the end of the lines is a frame of its own. */
  lemma LastPart(bridge: Bridge, lines: seq<string>, i: nat)
    requires i < |lines| && |Concat(lines[i..])| <= MAX_SSE_FRAME_BYTES
    requires (forall m :: 0 <= m < |lines| ==> lines[m] != "") && forall m :: i <= m < |lines| ==> !EndsFrame(lines[m])
    ensures Follows(bridge, lines, i, Steps(bridge, Concat(lines[i..]), []))
  {
    var part := Concat(lines[i..]);
    assert lines[i..|lines|] == lines[i..];
    OneMoreLine(lines, i, |lines| - 1);
    assert FrameOf(lines, i, |lines|, part);
    assert [Frame(part)][1..] == [];
  }

  lemma OneMoreLine(lines: seq<string>, i: nat, k: nat)
    requires i <= k < |lines|
    ensures Concat(lines[i..k + 1]) == Concat(lines[i..k]) + lines[k]
  {
    assert lines[i..k + 1][..k - i] == lines[i..k];
    assert lines[i..k + 1][k - i] == lines[k];
  }

  lemma WrittenNext(bridge: Bridge, part: string, lines: seq<string>)
    requires lines != []
    ensures var line, rest := lines[0], lines[1..];
      Written(bridge, part, lines) ==
        if |part| + |line| > MAX_SSE_FRAME_BYTES then Encode(bridge, Rejected)
        else if !EndsFrame(line) then Written(bridge, part + line, rest)
        else
          var p := ProjectFrame(bridge, part + line);
          if p.Rejected? then Encode(bridge, p) else Encode(bridge, p) + Written(bridge, "", rest)
  {
    var line, rest := lines[0], lines[1..];
    if |part| + |line| > MAX_SSE_FRAME_BYTES {
      OneStep(bridge, Oversized);
    } else if EndsFrame(line) {
      var step := Frame(part + line);
      if ProjectFrame(bridge, part + line).Rejected? {
        OneStep(bridge, step);
      } else {
        assert ([step] + Steps(bridge, "", rest))[1..] == Steps(bridge, "", rest);
        MoreItems(bridge, ItemOf(bridge, step), ItemsOf(bridge, Steps(bridge, "", rest)));
      }
    }
  }

  lemma OneStep(bridge: Bridge, step: Step)
    ensures EncodeAll(bridge, ItemsOf(bridge, [step])) == Encode(bridge, ItemOf(bridge, step))
  {
    assert [step][1..] == [];
    MoreItems(bridge, ItemOf(bridge, step), []);
  }

  lemma MoreItems(bridge: Bridge, item: Projected, items: seq<Projected>)
    ensures EncodeAll(bridge, [item] + items) == Encode(bridge, item) + EncodeAll(bridge, items)
  {
    assert ([item] + items)[1..] == items;
  }

  /** The frame loop of `_proxy_stream`, over the lines the reader returns. */
  method ProxyStream(bridge: Bridge, lines: seq<string>) returns (written: string)
    requires forall k :: 0 <= k < |lines| ==> lines[k] != ""
    ensures written == EncodeAll(bridge, Items(bridge, lines))
  {
    written := "";
    var frame, frameSize := "", 0;
    var k := 0;
    while k < |lines|
      invariant 0 <= k <= |lines| && frameSize == |frame| <= MAX_SSE_FRAME_BYTES
      invariant Written(bridge, "", lines) == written + Written(bridge, frame, lines[k..])
    {
      var line := lines[k];
      assert lines[k..][0] == line && lines[k..][1..] == lines[k + 1..];
      WrittenNext(bridge, frame, lines[k..]);
      if |line| > MAX_SSE_FRAME_BYTES {
        return written + Encode(bridge, Rejected);
      }
      frame, frameSize := frame + line, frameSize + |line|;
      if frameSize > MAX_SSE_FRAME_BYTES {
        return written + Encode(bridge, Rejected);
      }
      if EndsFrame(line) {
        var projected := ProjectFrame(bridge, frame);
        if projected.Rejected? {
          return written + Encode(bridge, projected);
        }
        ghost var rest := Written(bridge, "", lines[k + 1..]);
        Regroup(written, Encode(bridge, projected), rest);
        written := written + Encode(bridge, projected);
        frame, frameSize := "", 0;
      }
      k := k + 1;
    }
    if frame != "" {
      var projected := ProjectFrame(bridge, frame);
      OneStep(bridge, Frame(frame));
      written := written + Encode(bridge, projected);
    }
  }

  // ---------- From upstream to the page ----------

  predicate OneLine(s: string) { forall i :: 0 <= i < |s| ==> s[i] != '\n' && s[i] != '\r' }

  /** An event name that survives the browser's trimming. */
  predicate CleanName(isSpace: char -> bool, name: string) {
    name != "" && OneLine(name) && !isSpace(name[0]) && !isSpace(name[|name| - 1])
  }

  /** JSON is written on one line and starts with no blank, and the event names are no blanks to the browser. */
  ghost predicate JsonLines(bridge: Bridge, b: Browser<Value>) {
    && b.isSpace(' ') && (forall name :: name in NAMES ==> CleanName(b.isSpace, name))
    && forall v: Value :: bridge.dump(v) != "" && OneLine(bridge.dump(v)) && !b.isSpace(bridge.dump(v)[0])
  }

  /** JSON reads back unless some number is not finite, and integers as the doubles nearest to them. */
  ghost predicate JsonReads(bridge: Bridge, b: Browser<Value>, double: int -> Number) {
    forall v: Value :: b.parse(bridge.dump(v)) == if Finite(v) then Some(AsRead(double, v)) else None
  }

  /** What is told of one event: nothing if its JSON does not parse. */
  function Arrives(bridge: Bridge, b: Browser<Value>, name: string, payload: Value): seq<Received<Value>> {
    match b.parse(bridge.dump(payload))
    case None => []
    case Some(data) => [Received(name, data)]
  }

  /** What the page is told: the events as they arrive, in order, without the keepalives. */
  function Told(bridge: Bridge, b: Browser<Value>, items: seq<Projected>): seq<Received<Value>> {
    if items == [] then []
    else (match items[0]
      case Nothing => []
      case Keepalive => []
      case Passed(name, payload) => Arrives(bridge, b, name, payload)
      case Rejected => Arrives(bridge, b, "error", REFUSAL)) + Told(bridge, b, items[1..])
  }

  /** What it should be told: the same events as they were sent. */
  function Sent(items: seq<Projected>): seq<Received<Value>> {
    if items == [] then []
    else (match items[0]
      case Nothing => []
      case Keepalive => []
      case Passed(name, payload) => [Received(name, payload)]
      case Rejected => [Received("error", REFUSAL)]) + Sent(items[1..])
  }

  predicate CalmAt(t: string, i: nat)
    requires i < |t|
  {
    t[i] != '\r' && (t[i] == '\n' ==> i + 1 < |t| && t[i + 1] != '\n')
  }

  /** No delimiter starts in this text, whatever follows. */
  predicate Calm(t: string) {
    forall i :: 0 <= i < |t| ==> CalmAt(t, i)
  }

  lemma CalmTail(t: string)
    requires Calm(t) && t != ""
    ensures Calm(t[1..])
  {
    forall i | 0 <= i < |t[1..]| ensures CalmAt(t[1..], i) {
      assert CalmAt(t, i + 1);
    }
  }

  lemma {:induction false} CalmSearch(t: string, rest: string)
    requires Calm(t)
    ensures Search(t + ("\n\n" + rest)) == |t|
  {
    var s := t + ("\n\n" + rest);
    if t == "" {
      assert s == "\n\n" + rest;
    } else {
      assert CalmAt(t, 0);
      assert forall i :: 0 <= i < |t| ==> s[i] == t[i];
      assert CalmAt(t, |t| - 1);
      assert |t| > 1 ==> CalmAt(t, 1);
      assert Delimiter(s) == 0;
      assert s[1..] == t[1..] + ("\n\n" + rest);
      CalmTail(t);
      CalmSearch(t[1..], rest);
    }
  }

  lemma CalmNext(t: string, rest: string)
    requires Calm(t)
    ensures Next(t + ("\n\n" + rest)) == Some(Split(t, rest))
  {
    var s := t + ("\n\n" + rest);
    CalmSearch(t, rest);
    assert s[|t|..] == "\n\n" + rest && s[..|t|] == t;
    assert s[|t| + 2..] == rest;
  }

  lemma {:induction false} FirstLineOf(line: string, rest: string)
    requires OneLine(line)
    ensures FirstLine(line + ("\n" + rest)) == Split(line, rest)
  {
    var s := line + ("\n" + rest);
    if line == "" {
      assert s == "\n" + rest;
    } else {
      assert s[1..] == line[1..] + ("\n" + rest);
      FirstLineOf(line[1..], rest);
    }
  }

  lemma TwoLines(first: string, second: string)
    requires OneLine(first) && OneLine(second)
    ensures Lines(first + ("\n" + second)) == [first, second]
  {
    var s := first + ("\n" + second);
    assert s[|first|] == '\n';
    FirstLineOf(first, second);
  }

  lemma EventLine(isSpace: char -> bool, p: Parsed, name: string)
    requires isSpace(' ') && CleanName(isSpace, name)
    ensures ParseLine(isSpace, p, "event: " + name) == p.(name := name)
  {
    var line, blank := "event: " + name, " " + name;
    assert line[..6] == "event:" && line[6..] == blank;
    assert blank[0] == ' ' && blank[1..] == name;
    assert TrimStart(isSpace, blank) == TrimStart(isSpace, name) == name;
  }

  lemma DataLine(isSpace: char -> bool, p: Parsed, payload: string)
    requires isSpace(' ') && payload != "" && !isSpace(payload[0])
    ensures ParseLine(isSpace, p, "data: " + payload) == p.(data := p.data + [payload])
  {
    var line, blank := "data: " + payload, " " + payload;
    assert line[..5] == "data:" && line[5..] == blank && line[..6] == "data: ";
    assert line[..6][0] == 'd' && "event:"[0] == 'e';
    assert blank[0] == ' ' && blank[1..] == payload;
    assert TrimStart(isSpace, blank) == TrimStart(isSpace, payload) == payload;
  }

  lemma ParseTwo(isSpace: char -> bool, name: string, payload: string)
    requires isSpace(' ') && CleanName(isSpace, name) && payload != "" && !isSpace(payload[0])
    ensures ParseLines(isSpace, ["event: " + name, "data: " + payload]) == Parsed(name, [payload])
  {
    EventLine(isSpace, Parsed("", []), name);
    DataLine(isSpace, Parsed(name, []), payload);
    assert ["event: " + name, "data: " + payload][..1] == ["event: " + name];
    assert ParseLines(isSpace, ["event: " + name]) == Parsed(name, []);
  }

  lemma ParseEncoded(bridge: Bridge, b: Browser<Value>, name: string, payload: Value)
    requires JsonLines(bridge, b) && name in NAMES
    ensures ParseFrame(b, "event: " + name + ("\n" + ("data: " + bridge.dump(payload)))) == Arrives(bridge, b, name, payload)
  {
    var text := bridge.dump(payload);
    assert OneLine("event: " + name) && OneLine("data: " + text);
    TwoLines("event: " + name, "data: " + text);
    ParseTwo(b.isSpace, name, text);

  }

  lemma TwoLinesCalm(first: string, second: string)
    requires OneLine(first) && OneLine(second) && second != ""
    ensures Calm(first + ("\n" + second))
  {
    var t := first + ("\n" + second);
    forall i | 0 <= i < |t| ensures CalmAt(t, i) {
      if i < |first| { assert t[i] == first[i]; }
      else if i > |first| { assert t[i] == second[i - |first| - 1]; }
      else { assert t[i + 1] == second[0]; }
    }
  }

  lemma NextEncoded(bridge: Bridge, b: Browser<Value>, name: string, payload: Value, rest: string)
    requires JsonLines(bridge, b) && name in NAMES
    ensures Next(EncodeEvent(bridge, name, payload) + rest)
      == Some(Split("event: " + name + ("\n" + ("data: " + bridge.dump(payload))), rest))
  {
    var first, second := "event: " + name, "data: " + bridge.dump(payload);
    var t := first + ("\n" + second);
    TwoLinesCalm(first, second);
    CalmNext(t, rest);
    FrameText(name, bridge.dump(payload), rest);
  }

  lemma FrameText(name: string, json: string, rest: string)
    ensures "event: " + name + "\ndata: " + json + "\n\n" + rest == "event: " + name + ("\n" + ("data: " + json)) + ("\n\n" + rest)
  {
    assert "\ndata: " == "\n" + "data: ";
    Reassociate("event: " + name, "\n", "data: ", json, "\n\n", rest);
  }

  lemma Reassociate(a: string, b: string, c: string, d: string, e: string, f: string)
    ensures a + (b + c) + d + e + f == a + (b + (c + d)) + (e + f)
  {
  }

  lemma NextKeepalive(rest: string)
    ensures Next(": keepalive\n\n" + rest) == Some(Split(": keepalive", rest))
  {
    var t := ": keepalive";
    assert OneLine(t);
    CalmNext(t, rest);
    assert ": keepalive\n\n" + rest == t + ("\n\n" + rest);
  }

  lemma OtherStart(s: string, prefix: string)
    requires s != "" && prefix != "" && s[0] != prefix[0]
    ensures !StartsWith(s, prefix)
  {
    assert |prefix| <= |s| ==> s[..|prefix|][0] == s[0];
  }

  lemma CommentLine(isSpace: char -> bool, p: Parsed, line: string)
    requires line != "" && line[0] == ':'
    ensures ParseLine(isSpace, p, line) == p
  {
    OtherStart(line, "event:");
    OtherStart(line, "data:");
  }

  lemma KeepaliveIsSilent<D(!new)>(b: Browser<D>)
    ensures ParseFrame(b, ": keepalive") == []
  {
    var t := ": keepalive";
    assert OneLine(t);
    assert Lines(t) == [t];
    CommentLine(b.isSpace, Parsed("", []), t);
    assert ParseLines(b.isSpace, [t]) == Parsed("", []);
  }

  /** A text whose first frame is known delivers what that frame holds and what follows. */
  lemma FrameFirst<D(!new)>(b: Browser<D>, s: string, frame: string, rest: string)
    requires Next(s) == Some(Split(frame, rest))
    ensures ParseAll(b, Frames(s)) == ParseFrame(b, frame) + ParseAll(b, Frames(rest)) && Left(s) == Left(rest)
  {
    TakeFrame(b, s);
  }

  lemma {:induction false} EncodedArrives(bridge: Bridge, b: Browser<Value>, items: seq<Projected>)
    requires JsonLines(bridge, b) && forall k :: 0 <= k < |items| && items[k].Passed? ==> items[k].name in NAMES
    ensures ParseAll(b, Frames(EncodeAll(bridge, items))) == Told(bridge, b, items)
    ensures Left(EncodeAll(bridge, items)) == ""
  {
    if items != [] {
      var rest := EncodeAll(bridge, items[1..]);
      assert forall k :: 0 <= k < |items[1..]| ==> items[1..][k] == items[k + 1];
      EncodedArrives(bridge, b, items[1..]);
      match items[0]
      case Nothing => assert EncodeAll(bridge, items) == rest;
      case Keepalive =>
        NextKeepalive(rest);
        KeepaliveIsSilent(b);
        FrameFirst(b, EncodeAll(bridge, items), ": keepalive", rest);
      case Passed(name, payload) => EventFirst(bridge, b, name, payload, rest);
      case Rejected =>
        ErrorIsAName();
        EventFirst(bridge, b, "error", REFUSAL, rest);
    }
  }

  lemma ErrorIsAName()
    ensures "error" in NAMES
  {
  }

  lemma EventFirst(bridge: Bridge, b: Browser<Value>, name: string, payload: Value, rest: string)
    requires JsonLines(bridge, b) && name in NAMES
    ensures var s := EncodeEvent(bridge, name, payload) + rest;
      ParseAll(b, Frames(s)) == Arrives(bridge, b, name, payload) + ParseAll(b, Frames(rest)) && Left(s) == Left(rest)
  {
    var frame := "event: " + name + ("\n" + ("data: " + bridge.dump(payload)));
    NextEncoded(bridge, b, name, payload, rest);
    ParseEncoded(bridge, b, name, payload);
    FrameFirst(b, EncodeEvent(bridge, name, payload) + rest, frame, rest);
  }

  // ---------- Which events arrive ----------

  lemma RefusalIsFine(double: int -> Number)
    ensures Fine(double, REFUSAL)
  {
  }

  /** An event arrives as sent exactly when its numbers are good ones, and otherwise changed or not at all. */
  lemma ArrivesExactly(bridge: Bridge, b: Browser<Value>, double: int -> Number, name: string, payload: Value)
    requires JsonReads(bridge, b, double)
    ensures Arrives(bridge, b, name, payload) == [Received(name, payload)] <==> Fine(double, payload)
    ensures Arrives(bridge, b, name, payload) == [] <==> !Finite(payload)
  {
    FineReadsBack(double, payload);
  }

  lemma {:induction false} ToldExactly(bridge: Bridge, b: Browser<Value>, double: int -> Number, items: seq<Projected>)
    requires JsonReads(bridge, b, double)
    ensures |Told(bridge, b, items)| <= |Sent(items)|
    ensures Told(bridge, b, items) == Sent(items)
      <==> forall k :: 0 <= k < |items| && items[k].Passed? ==> Fine(double, items[k].payload)
  {
    if items != [] {
      var rest := items[1..];
      ToldExactly(bridge, b, double, rest);
      RefusalIsFine(double);
      assert forall k :: 0 <= k < |rest| ==> rest[k] == items[k + 1];
      assert (forall k :: 0 <= k < |items| && items[k].Passed? ==> Fine(double, items[k].payload))
        <==> (items[0].Passed? ==> Fine(double, items[0].payload))
             && forall k :: 0 <= k < |rest| && rest[k].Passed? ==> Fine(double, rest[k].payload) by {
        assert forall k :: 1 <= k < |items| ==> items[k] == rest[k - 1];
      }
      match items[0]
      case Nothing => assert Told(bridge, b, items) == Told(bridge, b, rest) && Sent(items) == Sent(rest);
      case Keepalive => assert Told(bridge, b, items) == Told(bridge, b, rest) && Sent(items) == Sent(rest);
      case Passed(name, payload) =>
        ArrivesExactly(bridge, b, double, name, payload);
        FirstDecides(Arrives(bridge, b, name, payload), Received(name, payload), Told(bridge, b, rest), Sent(rest));
      case Rejected =>
        ArrivesExactly(bridge, b, double, "error", REFUSAL);
        FirstDecides(Arrives(bridge, b, "error", REFUSAL), Received("error", REFUSAL), Told(bridge, b, rest), Sent(rest));
    }
  }

  /** At most one thing arrives for each thing sent, so the lists agree only if they agree at the first. */
  lemma FirstDecides<T>(first: seq<T>, sent: T, told: seq<T>, rest: seq<T>)
    requires |first| <= 1 && |told| <= |rest|
    ensures first + told == [sent] + rest <==> first == [sent] && told == rest
    ensures |first + told| <= |[sent] + rest|
  {
    if first + told == [sent] + rest {
      assert |first| == 1;
      assert (first + told)[0] == first[0] == sent;
      assert (first + told)[1..] == told && ([sent] + rest)[1..] == rest;
    }
  }

  /** Whether what an upstream frame carries survives, seen on the frame: its numbers, once it is decoded. */
  predicate GoodFrame(bridge: Bridge, double: int -> Number, frame: string) {
    var p := Upstream(bridge, frame);
    ProjectFrame(bridge, frame).Passed? ==>
      match bridge.loads(JoinLines(p.data))
      case Some(Object(data)) => GoodNumbers(bridge.words, double, EventName(bridge.words, p.name, data), data)
      case _ => true
  }

  lemma GoodFrameArrives(bridge: Bridge, double: int -> Number, frame: string)
    requires ProjectFrame(bridge, frame).Passed?
    ensures ProjectFrame(bridge, frame).name in NAMES
    ensures Fine(double, ProjectFrame(bridge, frame).payload) <==> GoodFrame(bridge, double, frame)
  {
    var p := Upstream(bridge, frame);
    var data := bridge.loads(JoinLines(p.data)).value.fields;
    PayloadFine(bridge.words, double, EventName(bridge.words, p.name, data), data);
    ShownNames(EventName(bridge.words, p.name, data));
  }

  predicate GoodSteps(bridge: Bridge, double: int -> Number, steps: seq<Step>) {
    forall k :: 0 <= k < |steps| && steps[k].Frame? ==> GoodFrame(bridge, double, steps[k].text)
  }

  lemma {:induction false} ItemsOfSteps(bridge: Bridge, steps: seq<Step>)
    ensures |ItemsOf(bridge, steps)| == |steps|
    ensures forall k :: 0 <= k < |steps| ==> ItemsOf(bridge, steps)[k] == ItemOf(bridge, steps[k])
  {
    if steps != [] {
      ItemsOfSteps(bridge, steps[1..]);
      assert forall k :: 1 <= k < |steps| ==> steps[k] == steps[1..][k - 1];
    }
  }

  lemma GoodStepsArrive(bridge: Bridge, double: int -> Number, steps: seq<Step>)
    ensures var items := ItemsOf(bridge, steps);
      && (forall k :: 0 <= k < |items| && items[k].Passed? ==> items[k].name in NAMES)
      && (GoodSteps(bridge, double, steps) <==> forall k :: 0 <= k < |items| && items[k].Passed? ==> Fine(double, items[k].payload))
  {
    var items := ItemsOf(bridge, steps);
    ItemsOfSteps(bridge, steps);
    forall k | 0 <= k < |steps|
      ensures items[k].Passed? ==> items[k].name in NAMES
      ensures (steps[k].Frame? ==> GoodFrame(bridge, double, steps[k].text)) <==> (items[k].Passed? ==> Fine(double, items[k].payload))
    {
      if items[k].Passed? { GoodFrameArrives(bridge, double, steps[k].text); }
    }
  }

  /**
   Whatever upstream lines the bridge reads and however its output is cut into chunks, the page is told of the
   projected events in order, each as its JSON reads back, ending with a refusal if some frame could not be passed
   on. It is told all of them and as they were sent if and only if every number the frames carry is finite and, if
   an integer, one that a double holds.
   */
  lemma PageSeesTheEvents(bridge: Bridge, b: Browser<Value>, double: int -> Number, lines: seq<string>, chunks: seq<string>)
    requires JsonLines(bridge, b) && JsonReads(bridge, b, double)
    requires Concat(chunks) == EncodeAll(bridge, Items(bridge, lines))
    ensures Delivered(b, Concat(chunks)) == Told(bridge, b, Items(bridge, lines))
    ensures Delivered(b, Concat(chunks)) == Sent(Items(bridge, lines)) <==> GoodSteps(bridge, double, Steps(bridge, "", lines))
  {
    var steps, items := Steps(bridge, "", lines), Items(bridge, lines);
    GoodStepsArrive(bridge, double, steps);
    EncodedArrives(bridge, b, items);
    WholeFrames(b, EncodeAll(bridge, items));
    ToldExactly(bridge, b, double, items);
  }

  /** A text that ends with a frame delivers its frames. */
  lemma WholeFrames(b: Browser<Value>, text: string)
    requires Left(text) == ""
    ensures Delivered(b, text) == ParseAll(b, Frames(text))
  {
  }

  // ---------- An event that is lost ----------

  /** A frame with a number that is not finite is passed on by the bridge and never told to the page. */
  lemma NonFiniteFrameIsLost(bridge: Bridge, b: Browser<Value>, double: int -> Number, first: string, second: string)
    requires JsonLines(bridge, b) && JsonReads(bridge, b, double)
    requires !EndsFrame(first) && !EndsFrame(second) && |first| + |second| < MAX_SSE_FRAME_BYTES
    requires var p := ProjectFrame(bridge, first + second + "\n"); p.Passed? && !Finite(p.payload)
    ensures var p, items := ProjectFrame(bridge, first + second + "\n"), Items(bridge, [first, second, "\n"]);
      && items == [p] && Sent(items) == [Received(p.name, p.payload)]
      && Delivered(b, EncodeAll(bridge, items)) == []
  {
    var frame, lines := first + second + "\n", [first, second, "\n"];
    var p := ProjectFrame(bridge, frame);
    assert lines[1..] == [second, "\n"] && [second, "\n"][1..] == ["\n"] && ["\n"][1..] == [];
    assert "" + first == first;
    assert Steps(bridge, frame[..|first| + |second|], ["\n"]) == [Frame(frame)] + Steps(bridge, "", []) by {
      assert frame[..|first| + |second|] == first + second;
    }
    assert Steps(bridge, "", lines) == [Frame(frame)];
    OneItem(bridge, b, frame);
    GoodFrameArrives(bridge, double, frame);
    ArrivesExactly(bridge, b, double, p.name, p.payload);
    EncodedArrives(bridge, b, [p]);
  }

  lemma OneItem(bridge: Bridge, b: Browser<Value>, frame: string)
    ensures var p := ProjectFrame(bridge, frame);
      && ItemsOf(bridge, [Frame(frame)]) == [p]
      && (p.Passed? ==> Sent([p]) == [Received(p.name, p.payload)] && Told(bridge, b, [p]) == Arrives(bridge, b, p.name, p.payload))
  {
    var p := ProjectFrame(bridge, frame);
    assert [Frame(frame)][1..] == [] && [p][1..] == [];
  }

  const HUGE := "{\"delta\":\"hi\",\"ts\":1e999}"
  const DELTA := "assistant.delta"

  /** What `json.loads` makes of it: the exponent is too large for a float. */
  const HUGE_DATA: Fields := map[Delta := Str("hi"), Ts := Num(NotFinite("Infinity"))]

  /** Python splits lines, strips blanks and reads this JSON as it does. */
  ghost predicate ReadsHuge(bridge: Bridge) {
    && bridge.splitLines("event: " + DELTA + "\n" + ("data: " + HUGE + "\n") + "\n") == ["event: " + DELTA, "data: " + HUGE, ""]
    && bridge.isSpace(' ') && CleanName(bridge.isSpace, DELTA) && !bridge.isSpace(HUGE[0])
    && bridge.loads(HUGE) == Some(Object(HUGE_DATA))
    && bridge.words.name(Str(DELTA)) == DELTA && bridge.encodes(Payload(bridge.words, DELTA, HUGE_DATA))
  }

  lemma HugeIsPassed(bridge: Bridge)
    requires ReadsHuge(bridge)
    ensures ProjectFrame(bridge, "event: " + DELTA + "\n" + ("data: " + HUGE + "\n") + "\n")
      == Passed(DELTA, Payload(bridge.words, DELTA, HUGE_DATA))
    ensures !Finite(Payload(bridge.words, DELTA, HUGE_DATA))
  {
    var lines := ["event: " + DELTA, "data: " + HUGE, ""];
    HugeParsed(bridge.isSpace, lines);
    assert lines[0][0] == 'e';
    assert [HUGE][0] == JoinLines([HUGE]);
    HugeIsProjected(bridge.words, bridge.session);
    HugeIsNotFinite(bridge.words);
  }

  lemma HugeIsProjected(w: Words, session: string)
    requires w.name(Str(DELTA)) == DELTA
    ensures ProjectEvent(w, session, DELTA, Object(HUGE_DATA)) == Some(Event(DELTA, Payload(w, DELTA, HUGE_DATA)))
  {
    DeltaIsShown(w);
    assert DELTA[0] == 'a' && SessionId !in HUGE_DATA;
  }

  lemma HugeIsNotFinite(w: Words)
    ensures !Finite(Payload(w, DELTA, HUGE_DATA))
  {
    FiniteIsFine(Payload(w, DELTA, HUGE_DATA));
    PayloadFine(w, n => Whole(n), DELTA, HUGE_DATA);
    assert !GoodField(n => Whole(n), HUGE_DATA, Ts);
  }

  lemma HugeParsed(isSpace: char -> bool, lines: seq<string>)
    requires lines == ["event: " + DELTA, "data: " + HUGE, ""] && isSpace(' ') && CleanName(isSpace, DELTA) && !isSpace(HUGE[0])
    ensures ParseLines(isSpace, lines) == Parsed(DELTA, [HUGE])
  {
    ParseTwo(isSpace, DELTA, HUGE);
    assert lines[..2] == ["event: " + DELTA, "data: " + HUGE];
    assert ParseLine(isSpace, Parsed(DELTA, [HUGE]), "") == Parsed(DELTA, [HUGE]);
  }

  lemma DeltaIsShown(w: Words)
    ensures ShownName(DELTA) == DELTA && !NeedsRun(DELTA, HUGE_DATA)
  {
    assert DELTA in NAMES;
    assert DELTA[0] == 'a' && UNOBSERVED[0] == 'p' && RunId !in HUGE_DATA;
  }

  /** The frame `event: assistant.delta`, `data: {"delta":"hi","ts":1e999}` is such a frame. */
  lemma HugeTimestampIsLost(bridge: Bridge, b: Browser<Value>, double: int -> Number)
    requires JsonLines(bridge, b) && JsonReads(bridge, b, double) && ReadsHuge(bridge)
    ensures var items := Items(bridge, ["event: " + DELTA + "\n", "data: " + HUGE + "\n", "\n"]);
      && Sent(items) == [Received(DELTA, Payload(bridge.words, DELTA, HUGE_DATA))]
      && Delivered(b, EncodeAll(bridge, items)) == []
  {
    HugeIsPassed(bridge);
    HugeLines();
    NonFiniteFrameIsLost(bridge, b, double, "event: " + DELTA + "\n", "data: " + HUGE + "\n");
  }

  lemma HugeLines()
    ensures var first, second := "event: " + DELTA + "\n", "data: " + HUGE + "\n";
      !EndsFrame(first) && !EndsFrame(second) && |first| + |second| < MAX_SSE_FRAME_BYTES
  {
    assert ("event: " + DELTA + "\n")[0] == 'e' && ("data: " + HUGE + "\n")[0] == 'd';
  }
}
