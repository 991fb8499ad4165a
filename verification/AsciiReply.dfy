/** Reading the reply to an ASCII `get` as it arrives (src/memcache_ascii_protocol.c). A character stands for a byte. */
module AsciiReply {
  import opened Basics
  import opened Wrappers
  import opened Decimal
  import Streams

  const BUFFER_SIZE := 4096

  // ---------------------------------------------------------------------------------------------------------
  // The header line, as sscanf("VALUE %250s %u %lu %lu") reads it

  /** What the last header said. A header without a cas field leaves the previous one in place. */
  datatype Header = Header(key: string, flags: nat, length: nat, cas: nat)

  predicate IsSpace(c: char) { c == ' ' || '\t' <= c <= '\r' }

  function SkipSpace(s: string): string {
    if s != "" && IsSpace(s[0]) then SkipSpace(s[1..]) else s
  }

  function WordLength(s: string, limit: nat): (k: nat)
    ensures k <= limit && k <= |s|
  {
    if limit == 0 || s == "" || IsSpace(s[0]) then 0 else 1 + WordLength(s[1..], limit - 1)
  }

  function ScanWord(s: string, limit: nat): Option<(string, string)> {
    var t := SkipSpace(s);
    var k := WordLength(t, limit);
    if k == 0 then None else Some((t[..k], t[k..]))
  }

  function ScanNumber(s: string): Option<(nat, string)> {
    var t := SkipSpace(s);
    var k := Span(t);
    if k == 0 then None else Some((Value(t[..k]), t[k..]))
  }

  predicate StartsWith(s: string, prefix: string) { |prefix| <= |s| && s[..|prefix|] == prefix }

  /** None if fewer than three fields were assigned. */
  function ScanHeader(line: string, before: Header): Option<Header> {
    if !StartsWith(line, "VALUE") then None else
    match ScanWord(line[5..], MAX_KEY_LEN)
    case None => None
    case Some((key, s1)) =>
      match ScanNumber(s1)
      case None => None
      case Some((flags, s2)) =>
        match ScanNumber(s2)
        case None => None
        case Some((length, s3)) =>
          match ScanNumber(s3)
          case None => Some(Header(key, flags, length, before.cas))
          case Some((cas, _)) => Some(Header(key, flags, length, cas))
  }

  // ---------------------------------------------------------------------------------------------------------
  // One byte at a time

  /** What the value handler is given. */
  datatype Item = Item(key: string, flags: nat, cas: nat, body: string)

  datatype Mode = Line | Body | Done | Failed

  /** `input` is the incomplete line in the stream's input buffer, `readbuf` the incomplete body. */
  datatype Parser = Parser(mode: Mode, input: string, header: Header, readbuf: string, items: seq<Item>)

  /** A finished parser takes nothing more, and neither does a line that has filled the input buffer. */
  predicate Accepts(p: Parser) {
    (p.mode.Line? && |p.input| + 1 < BUFFER_SIZE) || p.mode.Body?
  }

  function EndOfLine(p: Parser, line: string): Parser {
    var p := p.(input := "");
    if StartsWith(line, "END") then p.(mode := Done)
    else
      match ScanHeader(line, p.header)
      case None => p.(mode := Failed)
      case Some(h) => p.(mode := Body, header := h, readbuf := "")
  }

  function EndOfBody(p: Parser, bytes: string): Parser
    requires p.header.length <= |bytes|
  {
    var h := p.header;
    p.(mode := Line, readbuf := "", items := p.items + [Item(h.key, h.flags, h.cas, bytes[..h.length])])
  }

  function Step(p: Parser, c: char): Parser {
    if !Accepts(p) then p
    else if p.mode.Line? then
      var line := p.input + [c];
      if c == '\n' then EndOfLine(p, line) else p.(input := line)
    else
      var bytes := p.readbuf + [c];
      if |bytes| >= p.header.length + 2 then EndOfBody(p, bytes) else p.(readbuf := bytes)
  }

  const REPLY: Streams.Machine<Parser, char> := Streams.Machine(Accepts, Step)

  /** The parser on a stretch of the stream: its new state and what it leaves unread. */
  function Run(p: Parser, s: string): (Parser, string) { Streams.Run(REPLY, p, s) }

  // ---------------------------------------------------------------------------------------------------------
  // What a server prints

  /** A key without white space, flags and cas of 32 and 64 bits, and a body whose length fits 64 bits. */
  predicate Printable(i: Item) {
    && 0 < |i.key| <= MAX_KEY_LEN && (forall k :: 0 <= k < |i.key| ==> !IsSpace(i.key[k]))
    && i.flags < 0x1_0000_0000 && i.cas < 0x1_0000_0000_0000_0000 && |i.body| < 0x1_0000_0000_0000_0000
  }

  function HeaderLine(i: Item, withCas: bool): string {
    "VALUE " + i.key + (" " + Print(i.flags) + (" " + Print(|i.body|) + HeaderEnd(i, withCas)))
  }

  function HeaderEnd(i: Item, withCas: bool): string {
    if withCas then " " + Print(i.cas) + "\r\n" else "\r\n"
  }

  function PrintItem(i: Item, withCas: bool): string { HeaderLine(i, withCas) + i.body + "\r\n" }

  function PrintReply(items: seq<Item>, withCas: bool): string {
    if items == [] then "END\r\n" else PrintItem(items[0], withCas) + PrintReply(items[1..], withCas)
  }

  lemma {:induction false} WordOf(word: string, rest: string, limit: nat)
    requires |word| <= limit && forall k :: 0 <= k < |word| ==> !IsSpace(word[k])
    requires rest != "" && IsSpace(rest[0])
    ensures WordLength(word + rest, limit) == |word|
  {
    if word == "" {
      assert word + rest == rest;
    } else {
      assert (word + rest)[1..] == word[1..] + rest;
      WordOf(word[1..], rest, limit - 1);
    }
  }

  /** White space: blank, tab, line feed, vertical tab, form feed and carriage return. */
  predicate Blank(w: string) { forall k :: 0 <= k < |w| ==> w[k] == ' ' || 9 <= w[k] as int <= 13 }

  lemma {:induction false} BlanksSkipped(w: string, s: string)
    requires Blank(w) && s != "" && !IsSpace(s[0])
    ensures SkipSpace(w + s) == s
    decreases |w|
  {
    if w == "" {
      assert w + s == s;
    } else {
      assert (w + s)[1..] == w[1..] + s;
      BlanksSkipped(w[1..], s);
    }
  }

  lemma ScanWordOf(w: string, word: string, rest: string, limit: nat)
    requires 0 < |word| <= limit && Blank(w) && forall k :: 0 <= k < |word| ==> !IsSpace(word[k])
    requires rest != "" && IsSpace(rest[0])
    ensures ScanWord(w + word + rest, limit) == Some((word, rest))
  {
    assert w + word + rest == w + (word + rest);
    BlanksSkipped(w, word + rest);
    WordOf(word, rest, limit);
    assert (word + rest)[..|word|] == word && (word + rest)[|word|..] == rest;
  }

  lemma ScanNumberOf(w: string, n: nat, rest: string)
    requires rest != "" && IsSpace(rest[0]) && Blank(w)
    ensures ScanNumber(w + Print(n) + rest) == Some((n, rest))
  {
    var d := Print(n);
    assert IsDigit(d[0]) && !IsSpace(d[0]);
    assert w + d + rest == w + (d + rest);
    BlanksSkipped(w, d + rest);
    SpanOf(d, rest);
    assert (d + rest)[..|d|] == d && (d + rest)[|d|..] == rest;
    PrintValue(n);
  }

  lemma ScanNothing()
    ensures ScanNumber("\r\n") == None
  {
    assert "\r\n"[1..] == "\n" && "\n"[1..] == "";
    assert SkipSpace("\n") == "";
  }

  /** Scanning what was printed. */
  lemma HeaderRoundTrip(i: Item, withCas: bool, before: Header)
    requires Printable(i)
    ensures ScanHeader(HeaderLine(i, withCas), before)
            == Some(Header(i.key, i.flags, |i.body|, if withCas then i.cas else before.cas))
  {
    var line := HeaderLine(i, withCas);
    var end := HeaderEnd(i, withCas);
    var s2 := " " + Print(|i.body|) + end;
    var s1 := " " + Print(i.flags) + s2;
    assert line == "VALUE " + i.key + s1;
    assert line[..5] == "VALUE";
    assert line[5..] == " " + i.key + s1;
    ScanWordOf(" ", i.key, s1, MAX_KEY_LEN);
    ScanNumberOf(" ", i.flags, s2);
    ScanNumberOf(" ", |i.body|, end);
    if withCas { ScanNumberOf(" ", i.cas, "\r\n"); } else { ScanNothing(); }
  }

  /** Any white space may stand between the fields. */
  lemma AnyBlanks(key: string, flags: nat, length: nat, w: (string, string, string), before: Header)
    requires 0 < |key| <= MAX_KEY_LEN && forall k :: 0 <= k < |key| ==> key[k] != ' ' && !(9 <= key[k] as int <= 13)
    requires Blank(w.0) && Blank(w.1) && Blank(w.2) && w.1 != "" && w.2 != ""
    ensures ScanHeader("VALUE" + (w.0 + key + (w.1 + Print(flags) + (w.2 + Print(length) + "\r\n"))), before)
            == Some(Header(key, flags, length, before.cas))
  {
    var s2 := w.2 + Print(length) + "\r\n";
    var s1 := w.1 + Print(flags) + s2;
    var line := "VALUE" + (w.0 + key + s1);
    assert line[..5] == "VALUE" && line[5..] == w.0 + key + s1;
    ScanWordOf(w.0, key, s1, MAX_KEY_LEN);
    ScanNumberOf(w.1, flags, s2);
    ScanNumberOf(w.2, length, "\r\n");
    ScanNothing();
    hide ScanWord, ScanNumber;
  }

  lemma Powers()
    ensures Pow10(10) == 10000000000 && Pow10(20) == 100000000000000000000
  {
    assert Pow10(5) == 100000;
    assert Pow10(10) == 10000000000;
    assert Pow10(15) == 1000000000000000;
  }

  /** A printed header fits the input buffer. */
  lemma HeaderFits(i: Item, withCas: bool)
    requires Printable(i)
    ensures |HeaderLine(i, withCas)| < BUFFER_SIZE
  {
    Powers();
    PrintLength(i.flags, 20);
    PrintLength(|i.body|, 20);
    PrintLength(i.cas, 20);
  }

  predicate NoNewline(s: string) { forall k :: 0 <= k < |s| ==> s[k] != '\n' }

  lemma HeaderIsOneLine(i: Item, withCas: bool)
    requires Printable(i)
    ensures var line := HeaderLine(i, withCas); |line| > 0 && line[|line| - 1] == '\n' && NoNewline(line[..|line| - 1])
  {
    var line := HeaderLine(i, withCas);
    var end := HeaderEnd(i, withCas);
    assert line == ("VALUE " + i.key + " " + Print(i.flags) + " " + Print(|i.body|)) + end;
    assert Digits(Print(i.flags)) && Digits(Print(|i.body|)) && Digits(Print(i.cas));
    if withCas { assert end == (" " + Print(i.cas) + "\r") + "\n"; } else { assert end == "\r" + "\n"; }
  }

  lemma {:induction false} RunLine(p: Parser, s: string, rest: string)
    requires p.mode.Line? && NoNewline(s) && |p.input| + |s| < BUFFER_SIZE
    ensures Run(p, s + rest) == Run(p.(input := p.input + s), rest)
    decreases |s|
  {
    if s == "" {
      assert s + rest == rest && p.input + s == p.input;
    } else {
      var q := p.(input := p.input + [s[0]]);
      assert (s + rest)[0] == s[0] && (s + rest)[1..] == s[1..] + rest;
      assert NoNewline(s[1..]) by { assert forall k :: 0 <= k < |s| - 1 ==> s[1..][k] == s[k + 1]; }
      RunLine(q, s[1..], rest);
      assert p.input + [s[0]] + s[1..] == p.input + s;
    }
  }

  lemma {:induction false} RunBody(p: Parser, s: string, rest: string)
    requires p.mode.Body? && |p.readbuf| + |s| < p.header.length + 2
    ensures Run(p, s + rest) == Run(p.(readbuf := p.readbuf + s), rest)
    decreases |s|
  {
    if s == "" {
      assert s + rest == rest && p.readbuf + s == p.readbuf;
    } else {
      var q := p.(readbuf := p.readbuf + [s[0]]);
      assert (s + rest)[0] == s[0] && (s + rest)[1..] == s[1..] + rest;
      RunBody(q, s[1..], rest);
      assert p.readbuf + [s[0]] + s[1..] == p.readbuf + s;
    }
  }

  /** A whole line. */
  lemma RunWholeLine(p: Parser, line: string, rest: string)
    requires p.mode.Line? && p.input == "" && 0 < |line| < BUFFER_SIZE
    requires line[|line| - 1] == '\n' && NoNewline(line[..|line| - 1])
    ensures Run(p, line + rest) == Run(EndOfLine(p, line), rest)
  {
    var n := |line| - 1;
    assert line + rest == line[..n] + ([line[n]] + rest);
    RunLine(p, line[..n], [line[n]] + rest);
    var q := p.(input := p.input + line[..n]);
    assert ([line[n]] + rest)[1..] == rest;
    assert q.input + ['\n'] == line;
  }

  /** A whole body with its line end; what the body contains does not matter. */
  lemma RunWholeBody(p: Parser, body: string, rest: string)
    requires p.mode.Body? && p.readbuf == "" && p.header.length == |body|
    ensures Run(p, body + "\r\n" + rest) == Run(EndOfBody(p, body), rest)
  {
    assert body + "\r\n" + rest == (body + "\r") + ("\n" + rest);
    RunBody(p, body + "\r", "\n" + rest);
    var q := p.(readbuf := p.readbuf + (body + "\r"));
    assert ("\n" + rest)[1..] == rest;
    assert (q.readbuf + ['\n'])[..|body|] == body == body[..|body|];
  }

  function Received(items: seq<Item>, withCas: bool, cas: nat): seq<Item> {
    if withCas then items else seq(|items|, k requires 0 <= k < |items| => items[k].(cas := cas))
  }

  lemma ReceivedCons(items: seq<Item>, withCas: bool, cas: nat, first: Item)
    requires items != [] && first == items[0].(cas := if withCas then items[0].cas else cas)
    ensures Received(items, withCas, cas) == [first] + Received(items[1..], withCas, cas)
  {
  }

  /** One item: its header line, then exactly as many bytes as the header announced, then the line end. */
  lemma ItemRoundTrip(p: Parser, i: Item, withCas: bool, after: string)
    requires p.mode.Line? && p.input == "" && Printable(i)
    ensures var first := i.(cas := if withCas then i.cas else p.header.cas);
            Run(p, PrintItem(i, withCas) + after)
            == Run(p.(header := Header(i.key, i.flags, |i.body|, first.cas),
                      readbuf := "", items := p.items + [first]), after)
  {
    hide Run, HeaderLine, ScanHeader, Printable;
    var line := HeaderLine(i, withCas);
    assert PrintItem(i, withCas) + after == line + (i.body + "\r\n" + after);
    HeaderFits(i, withCas);
    HeaderIsOneLine(i, withCas);
    RunWholeLine(p, line, i.body + "\r\n" + after);
    HeaderRoundTrip(i, withCas, p.header);
    HeaderIsNotEnd(i, withCas);
    var q := EndOfLine(p, line);
    RunWholeBody(q, i.body, after);
    assert i.body[..|i.body|] == i.body;
  }

  lemma HeaderIsNotEnd(i: Item, withCas: bool)
    ensures !StartsWith(HeaderLine(i, withCas), "END")
  {
    if StartsWith(HeaderLine(i, withCas), "END") { StartsWithFirst(HeaderLine(i, withCas), "END"); }
  }

  lemma StartsWithFirst(s: string, prefix: string)
    requires StartsWith(s, prefix) && prefix != ""
    ensures s != "" && s[0] == prefix[0]
  {
  }

  lemma RunDone(p: Parser, tail: string)
    requires p.mode.Done?
    ensures Run(p, tail) == (p, tail)
  {
  }

  /** Reading back a printed reply: the items come out as they were printed, in order, whatever their bodies contain,
      and the parser is done exactly at the END line. Without cas fields the items carry the cas it started with. */
  lemma {:induction false} ReplyRoundTrip(p: Parser, items: seq<Item>, withCas: bool, tail: string)
    requires p.mode.Line? && p.input == ""
    requires forall k :: 0 <= k < |items| ==> Printable(items[k])
    ensures var (q, left) := Run(p, PrintReply(items, withCas) + tail);
            && q.mode.Done? && left == tail
            && q.items == p.items + Received(items, withCas, p.header.cas)
    decreases |items|
  {
    hide Run, PrintItem, Printable;
    if items == [] {
      RunWholeLine(p, "END\r\n", tail);
      RunDone(p.(mode := Done), tail);
      assert p.items + Received(items, withCas, p.header.cas) == p.items;
    } else {
      var i, rest := items[0], items[1..];
      var after := PrintReply(rest, withCas) + tail;
      assert PrintReply(items, withCas) + tail == PrintItem(i, withCas) + after;
      ItemRoundTrip(p, i, withCas, after);
      var first := i.(cas := if withCas then i.cas else p.header.cas);
      var r := p.(header := Header(i.key, i.flags, |i.body|, first.cas), readbuf := "", items := p.items + [first]);
      assert forall k :: 0 <= k < |rest| ==> rest[k] == items[k + 1];
      ReplyRoundTrip(r, rest, withCas, tail);
      ReceivedCons(items, withCas, p.header.cas, first);
      assert withCas ==> Received(rest, withCas, first.cas) == Received(rest, withCas, p.header.cas);
      assert p.items + ([first] + Received(rest, withCas, p.header.cas))
             == p.items + [first] + Received(rest, withCas, p.header.cas);
    }
  }

  /** A fresh or reset request. */
  function Fresh(): Parser { Parser(Line, "", Header("", 0, 0, 0), "", []) }

  /** For any split of a printed reply into reads. */
  lemma ChunkingIndependent(chunks: seq<string>, items: seq<Item>, withCas: bool, tail: string)
    requires forall k :: 0 <= k < |items| ==> Printable(items[k])
    requires Streams.Flatten(chunks) == PrintReply(items, withCas) + tail
    ensures var (q, left) := Streams.Feed(REPLY, Fresh(), "", chunks);
            q.mode.Done? && left == tail && q.items == Received(items, withCas, 0)
  {
    Streams.FeedIsRun(REPLY, Fresh(), "", chunks);
    assert "" + Streams.Flatten(chunks) == Streams.Flatten(chunks);
    ReplyRoundTrip(Fresh(), items, withCas, tail);
  }

  /** A header, written out. */
  lemma HeaderBytes()
    ensures HeaderLine(Item("k", 1, 4, "abc"), true) == "VALUE k 1 3 4\r\n"
    ensures HeaderLine(Item("k", 1, 4, "abc"), false) == "VALUE k 1 3\r\n"
  {
    assert Print(1) == "1" && Print(3) == "3" && Print(4) == "4";
    hide Print;
  }

  // ---------------------------------------------------------------------------------------------------------
  // How a reply ends

  predicate IsLine(line: string) {
    0 < |line| < 4096 && line[|line| - 1] == '\n' && NoNewline(line[..|line| - 1])
  }

  /** A line that is neither the end nor a value, such as an error, fails the request. Nothing is delivered, and what
      follows is left unread. */
  lemma OtherLinesFail(p: Parser, line: string, rest: string)
    requires p.mode.Line? && p.input == "" && IsLine(line)
    requires !StartsWith(line, "END") && (!StartsWith(line, "VALUE") || ScanHeader(line, p.header).None?)
    ensures var (q, left) := Run(p, line + rest); q.mode.Failed? && q.items == p.items && left == rest
  {
    RunWholeLine(p, line, rest);
    hide ScanHeader;
    if !StartsWith(line, "VALUE") { NotValue(line, p.header); }
  }

  /** A line that starts with END ends the request, whatever it goes on with. */
  lemma EndLineEnds(p: Parser, line: string, rest: string)
    requires p.mode.Line? && p.input == "" && IsLine(line) && StartsWith(line, "END")
    ensures var (q, left) := Run(p, line + rest); q.mode.Done? && q.items == p.items && left == rest
  {
    RunWholeLine(p, line, rest);
  }

  /** Any other line that scans as a header announces a value: as many bytes as it says, and two more, whatever these
      are. */
  lemma ValueLineReads(p: Parser, line: string, body: string, two: string, rest: string) returns (q: Parser)
    requires p.mode.Line? && p.input == "" && IsLine(line) && !StartsWith(line, "END")
    requires ScanHeader(line, p.header).Some? && |two| == 2
    requires |body| == ScanHeader(line, p.header).value.length
    ensures Run(p, line + (body + two + rest)) == Run(q, rest) && q.mode.Line? && q.input == ""
    ensures var h := ScanHeader(line, p.header).value;
            q.header == h && q.items == p.items + [Item(h.key, h.flags, h.cas, body)]
  {
    hide ScanHeader;
    RunWholeLine(p, line, body + two + rest);
    var p1 := EndOfLine(p, line);
    var bytes := body + two[..1];
    assert body + two + rest == bytes + ([two[1]] + rest);
    RunBody(p1, bytes, [two[1]] + rest);
    var p2 := p1.(readbuf := bytes);
    assert "" + bytes == bytes && ([two[1]] + rest)[1..] == rest;
    q := EndOfBody(p2, bytes + [two[1]]);
    assert (bytes + [two[1]])[..|body|] == body;
    assert Step(p2, two[1]) == q;
  }

  /** Of a line that does not end in time 4095 bytes are taken, and then no more. */
  lemma LongLineWaits(p: Parser, s: string)
    requires p.mode.Line? && p.input == "" && NoNewline(s) && |s| >= 4095
    ensures Run(p, s) == (p.(input := s[..4095]), s[4095..])
  {
    assert s == s[..4095] + s[4095..];
    RunLine(p, s[..4095], s[4095..]);
    assert "" + s[..4095] == s[..4095];
  }

  lemma NotValue(line: string, before: Header)
    requires !StartsWith(line, "VALUE")
    ensures ScanHeader(line, before).None?
  {
  }

  /** Neither is a value announced without its key, without its flags or without its length. */
  lemma FewFields(key: string, flags: nat, before: Header)
    requires 0 < |key| <= MAX_KEY_LEN && forall k :: 0 <= k < |key| ==> !IsSpace(key[k])
    ensures ScanHeader("VALUE\r\n", before).None?
    ensures ScanHeader("VALUE " + key + "\r\n", before).None?
    ensures ScanHeader("VALUE " + key + (" " + Print(flags) + "\r\n"), before).None?
  {
    NothingLeft();
    ScanNothing();
    var (one, two) := ("VALUE " + key + "\r\n", "VALUE " + key + (" " + Print(flags) + "\r\n"));
    assert "VALUE\r\n"[5..] == "\r\n" && "VALUE\r\n"[..5] == "VALUE";
    assert one[5..] == " " + key + "\r\n" && one[..5] == "VALUE";
    assert two[5..] == " " + key + (" " + Print(flags) + "\r\n") && two[..5] == "VALUE";
    ScanWordOf(" ", key, "\r\n", MAX_KEY_LEN);
    ScanWordOf(" ", key, " " + Print(flags) + "\r\n", MAX_KEY_LEN);
    ScanNumberOf(" ", flags, "\r\n");
    hide ScanWord, ScanNumber;
  }

  lemma NothingLeft()
    ensures ScanWord("\r\n", MAX_KEY_LEN).None?
  {
    assert "\r\n"[1..] == "\n" && "\n"[1..] == "";
    assert SkipSpace("\n") == "" && SkipSpace("\r\n") == "";
  }

  /** `t` ends with a line that starts with END. */
  ghost predicate EndsWithEnd(t: string) {
    exists k :: 0 <= k < |t| && t[|t| - 1] == '\n' && NoNewline(t[k..|t| - 1]) && StartsWith(t[k..], "END")
  }

  /** A parser is done only behind a line that starts with END, and has not read beyond it. */
  lemma {:induction false} DoneBehindEnd(p: Parser, s: string)
    requires (p.mode.Line? && NoNewline(p.input)) || (p.mode.Body? && p.input == "")
    ensures var (q, left) := Run(p, s);
            && |left| <= |s| && left == s[|s| - |left|..]
            && (q.mode.Done? ==> EndsWithEnd(p.input + s[..|s| - |left|]))
    decreases |s|
  {
    hide EndsWithEnd, NoNewline, Step, ScanHeader;
    if s != "" && Accepts(p) {
      var (p1, c, rest) := (Step(p, s[0]), s[0], s[1..]);
      var (q, left) := Run(p, s);
      assert Run(p1, rest) == (q, left);
      StepInput(p, c);
      if p1.mode.Line? || p1.mode.Body? {
        DoneBehindEnd(p1, rest);
        var (t, t1) := (p.input + s[..|s| - |left|], p1.input + rest[..|rest| - |left|]);
        assert s[..|s| - |left|] == [c] + rest[..|rest| - |left|];
        var before := if p1.input == "" then p.input + [c] else "";
        assert t == before + t1;
        if q.mode.Done? { EndLater(before, t, t1); }
      } else {
        assert (q, left) == (p1, rest);
        assert s[..|s| - |left|] == [c];
        if q.mode.Done? { EndNow(p, c); }
      }
    }
  }

  lemma StepInput(p: Parser, c: char)
    requires Accepts(p) && ((p.mode.Line? && NoNewline(p.input)) || (p.mode.Body? && p.input == ""))
    ensures Step(p, c).mode.Line? ==> NoNewline(Step(p, c).input)
    ensures Step(p, c).mode.Body? ==> Step(p, c).input == ""
    ensures Step(p, c).input == p.input + [c] || Step(p, c).input == ""
    ensures Step(p, c).mode.Done? ==> p.mode.Line?
  {
    hide ScanHeader, StartsWith;
  }

  lemma EndNow(p: Parser, c: char)
    requires Accepts(p) && p.mode.Line? && NoNewline(p.input) && Step(p, c).mode.Done?
    ensures EndsWithEnd(p.input + [c])
  {
    hide ScanHeader;
    var t := p.input + [c];
    assert t[0..] == t && t[0..|t| - 1] == p.input && t[|t| - 1] == c;
  }

  lemma EndLater(before: string, t: string, t1: string)
    requires EndsWithEnd(t1) && t == before + t1
    ensures EndsWithEnd(t)
  {
    var k :| 0 <= k < |t1| && NoNewline(t1[k..|t1| - 1]) && StartsWith(t1[k..], "END");
    var j := |before| + k;
    assert t[j..] == t1[k..] && t[j..|t| - 1] == t1[k..|t1| - 1] && t[|t| - 1] == t1[|t1| - 1];
  }

  // ---------------------------------------------------------------------------------------------------------
  // A request that is failed over while its reply is read

  /** mmc_pool_schedule empties the body's buffer and leaves the parser where it is; the line buffer is the new
      stream's. */
  function Rescheduled(p: Parser): Parser { p.(input := "", readbuf := "") }

  /** The new server's reply is delivered as it was printed. */
  ghost predicate Delivers(p: Parser, items: seq<Item>, withCas: bool, tail: string) {
    var (q, left) := Run(p, PrintReply(items, withCas) + tail);
    q.mode.Done? && left == tail && q.items == p.items + Received(items, withCas, p.header.cas)
  }

  lemma {:induction false} ItemsStay(p: Parser, s: string)
    ensures |p.items| <= |Run(p, s).0.items| && p.items == Run(p, s).0.items[..|p.items|]
    decreases |s|
  {
    hide ScanHeader, StartsWith;
    if s != "" && Accepts(p) { ItemsStay(Step(p, s[0]), s[1..]); }
  }

  /** In the middle of a body, what the new server sends first is taken for the body, its header lines included. */
  lemma TakenForBody(p: Parser, s: string)
    requires p.mode.Body? && |s| >= p.header.length + 2
    ensures var (h, q) := (p.header, Run(Rescheduled(p), s).0);
            |p.items| < |q.items| && q.items[|p.items|] == Item(h.key, h.flags, h.cas, s[..h.length])
  {
    var n := p.header.length + 1;
    var (q, bytes) := (Rescheduled(p), s[..n]);
    assert s == bytes + ([s[n]] + s[n + 1..]);
    RunBody(q, bytes, [s[n]] + s[n + 1..]);
    var r := q.(readbuf := bytes);
    assert ([s[n]] + s[n + 1..])[1..] == s[n + 1..] && (bytes + [s[n]])[..p.header.length] == s[..p.header.length];
    assert "" + bytes == bytes;
    hide EndOfBody;
    var t := Step(r, s[n]);
    assert Run(q, s) == Run(t, s[n + 1..]);
    ItemsStay(t, s[n + 1..]);
    assert t.items == p.items + [Item(p.header.key, p.header.flags, p.header.cas, s[..p.header.length])] by {
      BodyEnds(r, s[n]);
    }
  }

  lemma BodyEnds(p: Parser, c: char)
    requires p.mode.Body? && |p.readbuf| + 1 == p.header.length + 2
    ensures Step(p, c) == EndOfBody(p, p.readbuf + [c])
    ensures var h := p.header;
            Step(p, c).items == p.items + [Item(h.key, h.flags, h.cas, (p.readbuf + [c])[..h.length])]
  {
  }

  /** Exactly when a request that is failed over reads any reply of its new server as it was printed: when it is between
      two values. What it got from the first server it gets again. */
  lemma FailoverExactly(p: Parser, withCas: bool)
    requires p.mode.Line? || p.mode.Body?
    ensures (forall items, tail |
               (forall k :: 0 <= k < |items| ==> Printable(items[k])) :: Delivers(Rescheduled(p), items, withCas, tail))
            <==> p.mode.Line?
  {
    if p.mode.Line? {
      forall items, tail | forall k :: 0 <= k < |items| ==> Printable(items[k])
        ensures Delivers(Rescheduled(p), items, withCas, tail)
      {
        ReplyRoundTrip(Rescheduled(p), items, withCas, tail);
      }
    } else {
      NothingDelivered(p, withCas);
    }
  }

  /** Even the reply that has no values is not read. */
  lemma NothingDelivered(p: Parser, withCas: bool)
    requires p.mode.Body?
    ensures !Delivers(Rescheduled(p), [], withCas, "")
  {
    var (q, s) := (Rescheduled(p), PrintReply([], withCas));
    assert s + "" == s == "END\r\n";
    var none: seq<Item> := [];
    assert Received([], withCas, p.header.cas) == none && q.items + none == q.items;
    if |s| >= p.header.length + 2 {
      TakenForBody(p, s);
    } else {
      RunBody(q, s, "");
    }
  }

  // ---------------------------------------------------------------------------------------------------------
  // The code

  datatype Code = DONE | MORE | AGAIN | FAILURE

  /** The request together with the stream it reads from: `stream` holds the bytes that arrived and were not read. */
  class AsciiRequest {
    var stream: string
    var input: string
    var parsingValue: bool
    var header: Header
    var readbuf: string
    var items: seq<Item>

    ghost predicate Valid()
      reads this
    {
      |input| < BUFFER_SIZE && (!parsingValue ==> |readbuf| < header.length + 2)
    }

    /** The parser state, with the return code telling whether it is over. */
    ghost function View(code: Code): Parser
      reads this
    {
      Parser(if code.DONE? then Done else if code.FAILURE? then Failed else if parsingValue then Line else Body,
             input, header, readbuf, items)
    }

    constructor ()
      ensures Valid() && View(AGAIN) == Fresh() && stream == ""
    {
      stream, input, parsingValue, header, readbuf, items := "", "", true, Header("", 0, 0, 0), "", [];
    }

    method Receive(chunk: string)
      modifies `stream
      ensures stream == old(stream) + chunk
    {
      stream := stream + chunk;
    }

    /** What mmc_pool_schedule does to a request that is failed over, and the new server's stream. */
    method Reschedule()
      requires Valid()
      modifies this
      ensures Valid() && stream == "" && View(AGAIN) == Rescheduled(old(View(AGAIN)))
    {
      readbuf, input, stream := "", "", "";
    }

    /** mmc_stream_get_line over mmc_stream_readline_buffered: takes up to the next line end, or everything there is,
        as far as the input buffer has room; returns the line if that completed one. */
    method GetLine() returns (line: Option<string>)
      requires Valid() && parsingValue
      modifies `stream, `input
      ensures Valid()
      ensures line.None? ==> (View(MORE), stream) == Run(old(View(AGAIN)), old(stream))
                             && (stream == "" || !Accepts(View(MORE)))
      ensures line.Some? ==> input == "" && |stream| < old(|stream|)
                             && Run(old(View(AGAIN)), old(stream))
                               == Run(EndOfLine(old(View(AGAIN)), line.value), stream)
    {
      var room := BUFFER_SIZE - |input|;
      var k := 0;
      while k < |stream| && k + 1 < room && stream[k] != '\n'
        invariant k <= |stream| && k < room && NoNewline(stream[..k])
      {
        assert stream[..k + 1] == stream[..k] + [stream[k]];
        k := k + 1;
      }
      assert stream == stream[..k] + stream[k..];
      RunLine(View(AGAIN), stream[..k], stream[k..]);
      if k < |stream| && k + 1 < room {
        line := Some(input + stream[..k] + ['\n']);
        assert stream[k..][1..] == stream[k + 1..];
        stream, input := stream[k + 1..], "";
      } else {
        line := None;
        stream, input := stream[k..], input + stream[..k];
      }
    }

    /** mmc_request_parse_value */
    method ParseValue() returns (code: Code)
      requires Valid() && parsingValue
      modifies this
      ensures Valid()
      ensures code.MORE? ==> (View(MORE), stream) == Run(old(View(AGAIN)), old(stream))
      ensures !code.MORE? ==> |stream| < old(|stream|)
                              && Run(old(View(AGAIN)), old(stream)) == Run(View(code), stream)
    {
      var line := GetLine();
      match line
      case None => code := MORE;
      case Some(text) =>
        if StartsWith(text, "END") { return DONE; }
        match ScanHeader(text, header)
        case None => code := FAILURE;
        case Some(h) =>
          header, readbuf, parsingValue := h, "", false;
          code := AGAIN;
    }

    /** mmc_server_read_value */
    method ReadValue() returns (code: Code)
      requires Valid() && !parsingValue
      modifies this
      ensures Valid() && (code.MORE? || code.AGAIN?)
      ensures code.MORE? ==> (View(MORE), stream) == Run(old(View(AGAIN)), old(stream))
      ensures code.AGAIN? ==> |stream| < old(|stream|)
                              && Run(old(View(AGAIN)), old(stream)) == Run(View(AGAIN), stream)
    {
      var wanted := header.length + 2 - |readbuf|;
      var k := if wanted < |stream| then wanted else |stream|;
      if k < wanted {
        assert stream + "" == stream;
        RunBody(View(AGAIN), stream, "");
        readbuf, stream := readbuf + stream, "";
        return MORE;
      }
      assert stream == stream[..k - 1] + ([stream[k - 1]] + stream[k..]);
      RunBody(View(AGAIN), stream[..k - 1], [stream[k - 1]] + stream[k..]);
      assert ([stream[k - 1]] + stream[k..])[1..] == stream[k..];
      readbuf, stream := readbuf + stream[..k - 1] + [stream[k - 1]], stream[k..];
      items := items + [Item(header.key, header.flags, header.cas, readbuf[..header.length])];
      readbuf, parsingValue := "", true;
      return AGAIN;
    }

    /** The parser is called again for as long as it asks for it. */
    method Parse() returns (code: Code)
      requires Valid()
      modifies this
      ensures Valid() && !code.AGAIN?
      ensures (View(code), stream) == Run(old(View(AGAIN)), old(stream))
    {
      code := AGAIN;
      while code.AGAIN?
        invariant Valid()
        invariant code.AGAIN? ==> Run(View(AGAIN), stream) == Run(old(View(AGAIN)), old(stream))
        invariant !code.AGAIN? ==> (View(code), stream) == Run(old(View(AGAIN)), old(stream))
        decreases if code.AGAIN? then |stream| + 1 else 0
      {
        if parsingValue {
          code := ParseValue();
        } else {
          code := ReadValue();
        }
      }
    }
  }
}
