/**
 The reading that section 9.2.6 of the WHATWG HTML Living Standard gives a text, and exactly where the
 two clients depart from it.
 */
module SseStandard {
  import opened Wrappers
  import opened Sse

  const BYTE_ORDER_MARK := '\U{FEFF}'

  // ---- The standard ------------------------------------------------------------------------

  predicate EndsLine(c: char) { c == '\n' || c == '\r' }

  function LineEnd(s: string): (r: Option<nat>)
    ensures r.Some? ==> r.value < |s| && EndsLine(s[r.value]) && forall i :: 0 <= i < r.value ==> !EndsLine(s[i])
    ensures r.None? <==> forall i :: 0 <= i < |s| ==> !EndsLine(s[i])
  {
    if s == "" then None
    else if EndsLine(s[0]) then Some(0)
    else
      assert forall i :: 0 < i < |s| ==> s[i] == s[1..][i - 1];
      match LineEnd(s[1..])
      case None => None
      case Some(i) => Some(i + 1)
  }

  /** Where the next line starts: a carriage return and a line feed together end one line. */
  function NextLine(s: string, end: nat): (r: nat)
    requires end < |s|
    ensures end < r <= |s|
  {
    if s[end] == '\r' && end + 1 < |s| && s[end + 1] == '\n' then end + 2 else end + 1
  }

  /** The lines of a text that are ended by CRLF, LF or CR; an unfinished last line is not processed. */
  function StandardLines(s: string): seq<string>
    decreases |s|
  {
    match LineEnd(s)
    case None => []
    case Some(p) => [s[..p]] + StandardLines(s[NextLine(s, p)..])
  }

  function FirstColon(line: string): (r: Option<nat>)
    ensures r.Some? ==> r.value < |line| && line[r.value] == ':' && forall i :: 0 <= i < r.value ==> line[i] != ':'
    ensures r.None? <==> ':' !in line
  {
    if line == "" then None
    else if line[0] == ':' then Some(0)
    else match FirstColon(line[1..])
         case None => None
         case Some(i) => Some(i + 1)
  }

  function DropSpace(value: string): string {
    if value != "" && value[0] == ' ' then value[1..] else value
  }

  /** The value of a line whose field is `data`; without a colon the whole line is the field. */
  function DataField(line: string): Option<string> {
    match FirstColon(line)
    case None => if line == "data" then Some("") else None
    case Some(i) => if line[..i] == "data" then Some(DropSpace(line[i + 1..])) else None
  }

  /** The events dispatched so far, and the data buffer. */
  datatype Decoder = Decoder(events: seq<string>, buffer: string)

  /** A blank line dispatches a non-empty buffer without its last line feed. */
  function Feed(d: Decoder, line: string): Decoder {
    if line == "" then Decoder(d.events + (if d.buffer == "" then [] else [d.buffer[..|d.buffer| - 1]]), "")
    else
      match DataField(line)
      case Some(v) => d.(buffer := d.buffer + v + "\n")
      case None => d
  }

  function Decode(lines: seq<string>): Decoder {
    if lines == [] then Decoder([], "") else Feed(Decode(lines[..|lines| - 1]), lines[|lines| - 1])
  }

  function DropByteOrderMark(s: string): string {
    if s != "" && s[0] == BYTE_ORDER_MARK then s[1..] else s
  }

  /** The data of the events a text dispatches. */
  function Standard(s: string): seq<string> {
    Decode(StandardLines(DropByteOrderMark(s))).events
  }

  // ---- Lines of a text without carriage returns --------------------------------------------

  predicate FeedsOnly(s: string) {
    forall i :: 0 <= i < |s| ==> s[i] != '\r'
  }

  predicate SingleLined(s: string) {
    forall i :: 0 <= i < |s| ==> !EndsLine(s[i])
  }

  lemma LineEndIs(s: string, p: nat)
    requires p < |s| && EndsLine(s[p]) && forall i :: 0 <= i < p ==> !EndsLine(s[i])
    ensures LineEnd(s) == Some(p)
  {}

  lemma SplitConcat(u: string, t: string, n: nat)
    requires n <= |u|
    ensures (u + t)[..n] == u[..n] && (u + t)[n..] == u[n..] + t
  {}

  /** The first line of a text, and what is left. */
  lemma FirstLine(s: string, p: nat)
    requires p < |s| && s[p] == '\n' && SingleLined(s[..p])
    ensures StandardLines(s) == [s[..p]] + StandardLines(s[p + 1..])
  {
    forall i | 0 <= i < p ensures !EndsLine(s[i]) { assert s[i] == s[..p][i]; }
    LineEndIs(s, p);
  }

  lemma OneLine(line: string)
    requires SingleLined(line)
    ensures StandardLines(line + "\n") == [line]
  {
    SplitConcat(line, "\n", |line|);
    FirstLine(line + "\n", |line|);
  }

  lemma Prefix(s: string, n: nat) returns (p: nat)
    requires 0 < n <= |s| && FeedsOnly(s[..n]) && s[n - 1] == '\n'
    ensures p < n && s[p] == '\n' && SingleLined(s[..p]) && s[..n][p] == '\n'
    ensures s[..n][..p] == s[..p] && s[..n][p + 1..] == s[p + 1..][..n - p - 1] && s[p + 1..][n - p - 1..] == s[n..]
    ensures FeedsOnly(s[p + 1..][..n - p - 1]) && (p + 1 < n ==> s[p + 1..][n - p - 2] == '\n')
  {
    var u := s[..n];
    assert u[n - 1] == '\n';
    p := LineEnd(u).value;
    assert u[..p] == s[..p] && u[p + 1..] == s[p + 1..][..n - p - 1];
  }

  /** Takes the first line off a text and off its first n characters alike. */
  lemma SplitFirst(s: string, n: nat) returns (line: string, rest: string, m: nat)
    requires 0 < n <= |s| && FeedsOnly(s[..n]) && s[n - 1] == '\n'
    ensures m < n && m <= |rest| && rest[m..] == s[n..]
    ensures FeedsOnly(rest[..m]) && (m > 0 ==> rest[m - 1] == '\n')
    ensures StandardLines(s) == [line] + StandardLines(rest)
    ensures StandardLines(s[..n]) == [line] + StandardLines(rest[..m])
  {
    var p := Prefix(s, n);
    line, rest, m := s[..p], s[p + 1..], n - p - 1;
    FirstLine(s, p);
    FirstLine(s[..n], p);
  }

  /** Lines can be read piece by piece, cut behind a line feed. */
  lemma {:induction false} LinesSplit(s: string, n: nat)
    requires n <= |s| && FeedsOnly(s[..n]) && (n > 0 ==> s[n - 1] == '\n')
    ensures StandardLines(s) == StandardLines(s[..n]) + StandardLines(s[n..])
    decreases n
  {
    if n == 0 {
      assert s[..0] == "" && s[0..] == s;
    } else {
      var line, rest, m := SplitFirst(s, n);
      LinesSplit(rest, m);
      Associate([line], StandardLines(rest[..m]), StandardLines(s[n..]));
    }
  }

  lemma OneMoreTextLine(u: string, line: string, s: string)
    requires FeedsOnly(u) && (u != "" ==> u[|u| - 1] == '\n') && SingleLined(line)
    requires s == u + line + "\n"
    ensures StandardLines(s) == StandardLines(u) + [line]
  {
    assert s[..|u|] == u && s[|u|..] == line + "\n";
    LinesSplit(s, |u|);
    OneLine(line);
  }

  lemma RestUndelimited(s: string, n: nat)
    requires Undelimited(s) && 0 < n <= |s| && s[n - 1] == '\n'
    ensures Undelimited(s[n..]) && (n < |s| ==> s[n] != '\n')
  {
    forall j | 0 <= j < |s| - n ensures !DelimiterAt(s[n..], j) { assert !DelimiterAt(s, n + j); }
    assert !DelimiterAt(s, n - 1);
  }

  lemma FirstTextLine(s: string) returns (p: nat)
    requires FeedsOnly(s) && Undelimited(s) && StandardLines(s) != []
    ensures p < |s| && s[p] == '\n' && FeedsOnly(s[p + 1..]) && Undelimited(s[p + 1..])
    ensures (s[0] != '\n' ==> p > 0) && (p + 1 < |s| ==> s[p + 1] != '\n')
    ensures StandardLines(s) == [s[..p]] + StandardLines(s[p + 1..])
  {
    p := LineEnd(s).value;
    FirstLine(s, p);
    RestUndelimited(s, p + 1);
  }

  /** Only the first line of an undelimited text can be blank. */
  lemma {:induction false} BlankFirstOnly(s: string, i: nat)
    requires FeedsOnly(s) && Undelimited(s) && i < |StandardLines(s)|
    requires i > 0 || (s != "" && s[0] != '\n')
    ensures StandardLines(s)[i] != ""
    decreases |s|
  {
    var p := FirstTextLine(s);
    if i > 0 {
      assert StandardLines(s)[i] == StandardLines(s[p + 1..])[i - 1];
      BlankFirstOnly(s[p + 1..], i - 1);
    }
  }

  lemma {:induction false} ClientLines(block: string)
    requires FeedsOnly(block) && block != "" && block[|block| - 1] != '\n'
    ensures StandardLines(block + "\n") == Lines(block)
    decreases |block|
  {
    match FindNewline(block)
    case None =>
      OneLine(block);
    case Some(p) =>
      ClientLines(block[p + 1..]);
      SplitConcat(block, "\n", p);
      SplitConcat(block, "\n", p + 1);
      FirstLine(block + "\n", p);
      assert DropCarriageReturn(block[..p]) == block[..p];
  }

  // ---- Values and buffers ------------------------------------------------------------------

  function Values(lines: seq<string>): seq<string> {
    if lines == [] then []
    else
      Values(lines[..|lines| - 1]) +
      match DataField(lines[|lines| - 1]) case Some(v) => [v] case None => []
  }

  function Terminated(values: seq<string>): string {
    if values == [] then "" else Terminated(values[..|values| - 1]) + values[|values| - 1] + "\n"
  }

  lemma {:induction false} TerminatedIsJoin(values: seq<string>)
    requires values != []
    ensures Terminated(values) == Join(values) + "\n"
  {
    if |values| > 1 { TerminatedIsJoin(values[..|values| - 1]); }
  }

  lemma TerminatedMore(values: seq<string>, v: string)
    ensures Terminated(values + [v]) == Terminated(values) + v + "\n"
  {
    assert (values + [v])[..|values|] == values;
  }

  lemma {:induction false} TerminatedFeeds(values: seq<string>)
    requires forall i :: 0 <= i < |values| ==> SingleLined(values[i])
    ensures FeedsOnly(Terminated(values))
    ensures Terminated(values) != "" ==> Terminated(values)[|Terminated(values)| - 1] == '\n'
  {
    if values != [] { TerminatedFeeds(values[..|values| - 1]); }
  }

  lemma LinesOfTerminatedMore(values: seq<string>, v: string)
    requires forall i :: 0 <= i < |values| ==> SingleLined(values[i])
    requires SingleLined(v) && StandardLines(Terminated(values)) == values
    ensures StandardLines(Terminated(values + [v])) == values + [v]
  {
    TerminatedFeeds(values);
    TerminatedMore(values, v);
    OneMoreTextLine(Terminated(values), v, Terminated(values + [v]));
  }

  lemma {:induction false} LinesOfTerminated(values: seq<string>)
    requires forall i :: 0 <= i < |values| ==> SingleLined(values[i])
    ensures StandardLines(Terminated(values)) == values
  {
    if values != [] {
      var init, last := values[..|values| - 1], values[|values| - 1];
      assert values == init + [last];
      LinesOfTerminated(init);
      LinesOfTerminatedMore(init, last);
    }
  }

  /** Joined lines can be told apart again. */
  lemma JoinInjective(v: seq<string>, w: seq<string>)
    requires v != [] && w != [] && Join(v) == Join(w)
    requires forall i :: 0 <= i < |v| ==> SingleLined(v[i])
    requires forall i :: 0 <= i < |w| ==> SingleLined(w[i])
    ensures v == w
  {
    TerminatedIsJoin(v);
    TerminatedIsJoin(w);
    LinesOfTerminated(v);
    LinesOfTerminated(w);
  }

  lemma JoinEmpty(values: seq<string>)
    ensures Join(values) == "" <==> values == [] || values == [""]
  {
    if values != [] { TerminatedIsJoin(values); }
  }

  lemma {:induction false} Buffered(lines: seq<string>)
    requires forall i :: 0 < i < |lines| ==> lines[i] != ""
    ensures Decode(lines) == Decoder([], Terminated(Values(lines)))
  {
    if lines != [] {
      var init, last := lines[..|lines| - 1], lines[|lines| - 1];
      Buffered(init);
      if last == "" {
        assert init == [];
      } else if DataField(last).Some? {
        TerminatedMore(Values(init), DataField(last).value);
      } else {
        assert Values(init) + [] == Values(init);
      }
    }
  }

  lemma FeedAfter(events: seq<string>, d: Decoder, line: string)
    ensures Feed(Decoder(events + d.events, d.buffer), line) ==
            Decoder(events + Feed(d, line).events, Feed(d, line).buffer)
  {
    if line == "" {
      Associate(events, d.events, if d.buffer == "" then [] else [d.buffer[..|d.buffer| - 1]]);
    }
  }

  lemma {:induction false} DecodeConcat(a: seq<string>, b: seq<string>)
    requires Decode(a).buffer == ""
    ensures Decode(a + b) == Decoder(Decode(a).events + Decode(b).events, Decode(b).buffer)
  {
    if b == [] {
      assert a + b == a;
    } else {
      var init := b[..|b| - 1];
      assert (a + b)[..|a + b| - 1] == a + init;
      DecodeConcat(a, init);
      FeedAfter(Decode(a).events, Decode(init), b[|b| - 1]);
    }
  }

  /** The event of one block: its data, or nothing if it has none. */
  function EventOf(lines: seq<string>): seq<string> {
    if Values(lines) == [] then [] else [Join(Values(lines))]
  }

  lemma DecodeBlock(lines: seq<string>, later: seq<string>)
    requires forall i :: 0 < i < |lines| ==> lines[i] != ""
    ensures Decode(lines + [""] + later).events == EventOf(lines) + Decode(later).events
  {
    Buffered(lines);
    var ended := lines + [""];
    assert ended[..|ended| - 1] == lines;
    if Values(lines) != [] { TerminatedIsJoin(Values(lines)); }
    assert Decode(ended) == Decoder(EventOf(lines), "");
    DecodeConcat(ended, later);
  }

  // ---- The standard, block by block --------------------------------------------------------

  /** The non-empty data of a block by the standard's rules. */
  function StandardOf(block: string): Option<string> {
    var data := Join(Values(Lines(block)));
    if data == "" then None else Some(data)
  }

  function StandardParser(): Parser {
    (block: string) => StandardOf(block)
  }

  function NonEmpty(events: seq<string>): seq<string> {
    if events == [] then []
    else (if events[0] == "" then [] else [events[0]]) + NonEmpty(events[1..])
  }

  lemma BlockLines(block: string)
    requires FeedsOnly(block) && Clean(block)
    ensures var lines := StandardLines(block + "\n");
            && Values(lines) == Values(Lines(block))
            && (forall i :: 0 < i < |lines| ==> lines[i] != "")
            && (forall line :: line in Lines(block) ==> line in lines)
  {
    var s := block + "\n";
    forall j | 0 <= j < |s| ensures !DelimiterAt(s, j) {
      assert j + 1 < |block| ==> !DelimiterAt(block, j);
    }
    forall i | 0 < i < |StandardLines(s)| ensures StandardLines(s)[i] != "" { BlankFirstOnly(s, i); }
    if block == "" {
      OneLine(block);
      assert [""][..0] == [];
    } else {
      ClientLines(block);
    }
  }

  lemma CutFeeds(s: string, p: nat)
    requires FeedsOnly(s) && Find(s) == Some(p)
    ensures FeedsOnly(s[..p + 1]) && s[..p + 1] == s[..p] + "\n" && s[p] == '\n'
    ensures FeedsOnly(s[..p]) && Clean(s[..p]) && FeedsOnly(s[p + 2..])
    ensures s[p + 1..][0] == '\n' && s[p + 1..][1..] == s[p + 2..]
  {
    BlockIsClean(s, p);
  }

  lemma CutLines(s: string, p: nat)
    requires FeedsOnly(s) && Find(s) == Some(p)
    ensures StandardLines(s) == StandardLines(s[..p] + "\n") + [""] + StandardLines(s[p + 2..])
  {
    CutFeeds(s, p);
    LinesSplit(s, p + 1);
    FirstLine(s[p + 1..], 0);
    Associate(StandardLines(s[..p + 1]), [""], StandardLines(s[p + 2..]));
  }

  lemma PayloadsOne(parse: Parser, block: string, blocks: seq<string>)
    ensures Payloads(parse, [block] + blocks)
         == (match parse(block) case Some(p) => [p] case None => []) + Payloads(parse, blocks)
  {
    assert ([block] + blocks)[1..] == blocks;
  }

  lemma NonEmptyFirst(first: seq<string>, later: seq<string>)
    requires |first| <= 1
    ensures NonEmpty(first + later)
         == (if first == [] || first[0] == "" then [] else first) + NonEmpty(later)
  {
    if first == [] {
      assert first + later == later;
    } else {
      assert (first + later)[1..] == later;
    }
  }

  /** Without carriage returns the standard's events are those of the blocks the clients cut. */
  lemma {:induction false} StandardByBlocks(s: string)
    requires FeedsOnly(s)
    ensures NonEmpty(Decode(StandardLines(s)).events) == Payloads(StandardParser(), Blocks(s))
    decreases |s|
  {
    match Find(s)
    case None =>
      CutNever(s);
      forall i | 0 < i < |StandardLines(s)| ensures StandardLines(s)[i] != "" { BlankFirstOnly(s, i); }
      Buffered(StandardLines(s));
    case Some(p) =>
      var block, rest := s[..p], s[p + 2..];
      var lines := StandardLines(block + "\n");
      CutOnce(s, p);
      CutFeeds(s, p);
      CutLines(s, p);
      BlockLines(block);
      DecodeBlock(lines, StandardLines(rest));
      StandardByBlocks(rest);
      NonEmptyFirst(EventOf(lines), Decode(StandardLines(rest)).events);
      PayloadsOne(StandardParser(), block, Blocks(rest));
  }

  // ---- Where a block departs ---------------------------------------------------------------

  function TrimAll(values: seq<string>): (r: seq<string>)
    ensures |r| == |values| && forall i :: 0 <= i < |r| ==> r[i] == Trim(values[i])
  {
    seq(|values|, i requires 0 <= i < |values| => Trim(values[i]))
  }

  lemma SpacedPrefix(line: string)
    ensures "data: " <= line <==> "data:" <= line && |line| > 5 && line[5] == ' '
  {
    if "data: " <= line {
      assert line[..5] == "data: "[..5] == "data:" && line[5] == "data: "[5];
    }
    if "data:" <= line && |line| > 5 && line[5] == ' ' {
      assert line[..6] == line[..5] + [line[5]] == "data: ";
    }
  }

  lemma DataPrefix(line: string)
    ensures "data:" <= line <==> FirstColon(line) == Some(4) && line[..4] == "data"
  {
    if "data:" <= line {
      assert line[..5] == "data:";
      assert line[0] == 'd' && line[1] == 'a' && line[2] == 't' && line[3] == 'a' && line[4] == ':';
      assert FirstColon(line) == Some(4);
      assert line[..4] == "data";
    }
    if FirstColon(line) == Some(4) && line[..4] == "data" {
      assert line[..5] == line[..4] + [line[4]];
    }
  }

  /** Both clients find the standard's data lines, except a field name without colon. */
  lemma ClientField(line: string)
    ensures line != "data" ==> DataValue(Rest, line) == DataField(line)
    ensures line == "data" ==> DataField(line) == Some("") && DataValue(Rest, line) == None
    ensures DataValue(JsonRpc, line) == match DataValue(Rest, line) case Some(v) => Some(Trim(v)) case None => None
  {
    SpacedPrefix(line);
    DataPrefix(line);
    if "data:" <= line {
      var value := line[5..];
      if value != "" && value[0] == ' ' {
        assert line[6..] == value[1..];
      }
    }
  }

  /** What the clients collect, against the standard's values. */
  lemma {:induction false} ClientValues(lines: seq<string>)
    ensures |DataValues(Rest, lines)| <= |Values(lines)|
    ensures |DataValues(Rest, lines)| == |Values(lines)| <==> "data" !in lines
    ensures "data" !in lines ==> DataValues(Rest, lines) == Values(lines)
    ensures DataValues(JsonRpc, lines) == TrimAll(DataValues(Rest, lines))
  {
    if lines != [] {
      var init, last := lines[..|lines| - 1], lines[|lines| - 1];
      assert lines == init + [last];
      ClientValues(init);
      ClientField(last);
    }
  }

  lemma {:induction false} ValuesSingleLined(lines: seq<string>)
    requires forall i :: 0 <= i < |lines| ==> SingleLined(lines[i])
    ensures forall i :: 0 <= i < |Values(lines)| ==> SingleLined(Values(lines)[i])
    ensures forall i :: 0 <= i < |DataValues(Rest, lines)| ==> SingleLined(DataValues(Rest, lines)[i])
  {
    if lines != [] { ValuesSingleLined(lines[..|lines| - 1]); }
  }

  lemma {:induction false} LinesSingleLined(s: string, i: nat)
    requires FeedsOnly(s) && i < |Lines(s)|
    ensures SingleLined(Lines(s)[i])
    decreases |s|
  {
    match FindNewline(s)
    case None => assert Lines(s) == [s];
    case Some(p) =>
      assert Lines(s) == [DropCarriageReturn(s[..p])] + Lines(s[p + 1..]);
      if i > 0 { LinesSingleLined(s[p + 1..], i - 1); }
  }

  lemma {:induction false} TrimShortens(s: string)
    requires SingleLined(s)
    ensures SingleLined(TrimStart(s)) && SingleLined(TrimEnd(s))
    decreases |s|
  {
    if s != "" {
      TrimShortens(s[1..]);
      TrimShortens(s[..|s| - 1]);
    }
  }

  lemma {:induction false} SkipEmptyIsSuffix(values: seq<string>)
    ensures |SkipEmpty(values)| <= |values|
    ensures forall v :: v in SkipEmpty(values) ==> v in values
    ensures |SkipEmpty(values)| == |values| ==> SkipEmpty(values) == values
    ensures values != [] && values[0] != "" ==> SkipEmpty(values) == values
  {
    if values != [] { SkipEmptyIsSuffix(values[1..]); }
  }

  /** What a client joins. */
  function Kept(client: Client, lines: seq<string>): seq<string> {
    if client.JsonRpc? then SkipEmpty(DataValues(JsonRpc, lines)) else DataValues(Rest, lines)
  }

  /** No value begins or ends with whitespace, and the first is not empty. */
  predicate Trimmed(values: seq<string>) {
    values != [] && values[0] != "" && forall i :: 0 <= i < |values| ==> IsTrimmed(values[i])
  }

  /**
   No data, one empty value, or: no field name without colon and, for the trimming client, only
   trimmed values, the first of them not empty.
   */
  predicate Conforms(client: Client, block: string) {
    var lines := Lines(block);
    var values := Values(lines);
    values == [] || values == [""] || ("data" !in lines && (client.JsonRpc? ==> Trimmed(values)))
  }

  lemma TrimAllIff(values: seq<string>)
    ensures TrimAll(values) == values <==> forall i :: 0 <= i < |values| ==> IsTrimmed(values[i])
  {
    forall i | 0 <= i < |values| ensures TrimAll(values)[i] == values[i] <==> IsTrimmed(values[i]) {
      TrimmedIff(values[i]);
    }
  }

  lemma KeptIff(client: Client, lines: seq<string>)
    requires Values(lines) != []
    ensures Kept(client, lines) == Values(lines) <==>
            "data" !in lines && (client.JsonRpc? ==> Trimmed(Values(lines)))
  {
    ClientValues(lines);
    SkipEmptyIsSuffix(DataValues(JsonRpc, lines));
    TrimAllIff(Values(lines));
  }

  lemma KeptSingleLined(client: Client, lines: seq<string>)
    requires forall i :: 0 <= i < |lines| ==> SingleLined(lines[i])
    ensures forall i :: 0 <= i < |Kept(client, lines)| ==> SingleLined(Kept(client, lines)[i])
  {
    ValuesSingleLined(lines);
    ClientValues(lines);
    var rest := DataValues(Rest, lines);
    forall i | 0 <= i < |rest| ensures SingleLined(Trim(rest[i])) {
      TrimShortens(rest[i]);
      TrimShortens(TrimStart(rest[i]));
    }
    SkipEmptyIsSuffix(DataValues(JsonRpc, lines));
    var kept := Kept(client, lines);
    forall i | 0 <= i < |kept| ensures SingleLined(kept[i]) {
      if client.JsonRpc? {
        assert kept[i] in DataValues(JsonRpc, lines);
      }
    }
  }

  lemma KeptOfLittle(client: Client, lines: seq<string>)
    requires Values(lines) == [] || Values(lines) == [""]
    ensures Join(Kept(client, lines)) == ""
  {
    ClientValues(lines);
    SkipEmptyIsSuffix(DataValues(JsonRpc, lines));
    if DataValues(Rest, lines) != [] {
      assert DataValues(Rest, lines) == [""];
      assert SkipEmpty([""]) == [] by { assert [""][1..] == []; }
    }
  }

  /** A client agrees with the standard on the non-empty data of a block exactly if the block conforms. */
  lemma BlockConformsIff(client: Client, block: string)
    requires FeedsOnly(block)
    ensures Payload(client, block) == StandardOf(block) <==> Conforms(client, block)
    ensures Payload(client, block).Some? ==> StandardOf(block).Some?
  {
    var lines := Lines(block);
    var values, kept := Values(lines), Kept(client, lines);
    assert Payload(client, block) == if Join(kept) == "" then None else Some(Join(kept));
    JoinEmpty(values);
    if values == [] || values == [""] {
      KeptOfLittle(client, lines);
    } else {
      KeptIff(client, lines);
      forall i | 0 <= i < |lines| ensures SingleLined(lines[i]) { LinesSingleLined(block, i); }
      ValuesSingleLined(lines);
      KeptSingleLined(client, lines);
      if Join(kept) == Join(values) { JoinInjective(kept, values); }
    }
  }

  // ---- Where a stream departs --------------------------------------------------------------

  lemma {:induction false} BlocksFeedsOnly(s: string, i: nat)
    requires FeedsOnly(s) && i < |Blocks(s)|
    ensures FeedsOnly(Blocks(s)[i])
    decreases |s|
  {
    match Find(s)
    case None => CutNever(s);
    case Some(p) =>
      CutOnce(s, p);
      if i > 0 { BlocksFeedsOnly(s[p + 2..], i - 1); }
  }

  /** Of two parsers, one of which never finds more, equal payloads mean equal blocks. */
  lemma {:induction false} PayloadsEqualIff(fewer: Parser, more: Parser, blocks: seq<string>)
    requires forall i :: 0 <= i < |blocks| ==> (fewer(blocks[i]).Some? ==> more(blocks[i]).Some?)
    ensures |Payloads(fewer, blocks)| <= |Payloads(more, blocks)|
    ensures Payloads(fewer, blocks) == Payloads(more, blocks)
       <==> forall i :: 0 <= i < |blocks| ==> fewer(blocks[i]) == more(blocks[i])
  {
    if blocks != [] {
      var rest := blocks[1..];
      PayloadsEqualIff(fewer, more, rest);
      assert (forall i :: 0 <= i < |blocks| ==> fewer(blocks[i]) == more(blocks[i]))
        <==> fewer(blocks[0]) == more(blocks[0]) && forall i :: 0 <= i < |rest| ==> fewer(rest[i]) == more(rest[i]) by {
        assert forall i :: 0 < i < |blocks| ==> blocks[i] == rest[i - 1];
        assert forall i :: 0 <= i < |rest| ==> rest[i] == blocks[i + 1];
      }
      FirstDiffers(fewer(blocks[0]), more(blocks[0]), Payloads(fewer, rest), Payloads(more, rest));
    }
  }

  lemma FirstDiffers(a: Option<string>, b: Option<string>, xs: seq<string>, ys: seq<string>)
    requires (a.Some? ==> b.Some?) && |xs| <= |ys|
    ensures var x := (match a case Some(p) => [p] case None => []) + xs;
            var y := (match b case Some(p) => [p] case None => []) + ys;
            |x| <= |y| && (x == y <==> a == b && xs == ys)
  {
    var x := (match a case Some(p) => [p] case None => []) + xs;
    var y := (match b case Some(p) => [p] case None => []) + ys;
    if a.Some? {
      assert x[1..] == xs && y[1..] == ys && x[0] == a.value && y[0] == b.value;
    } else {
      assert x == xs;
    }
  }

  lemma EventsInjective(a: seq<string>, b: seq<string>)
    ensures Events(a) == Events(b) <==> a == b
  {
    if Events(a) == Events(b) {
      forall i | 0 <= i < |a| ensures a[i] == b[i] { assert Events(a)[i] == Events(b)[i]; }
    }
  }

  predicate AllConform(client: Client, blocks: seq<string>) {
    forall i :: 0 <= i < |blocks| ==> Conforms(client, blocks[i])
  }

  lemma PayloadsConform(client: Client, s: string)
    requires FeedsOnly(s)
    ensures |Payloads(ParserOf(client), Blocks(s))| <= |Payloads(StandardParser(), Blocks(s))|
    ensures Payloads(ParserOf(client), Blocks(s)) == Payloads(StandardParser(), Blocks(s))
       <==> AllConform(client, Blocks(s))
  {
    var blocks := Blocks(s);
    forall i | 0 <= i < |blocks|
      ensures (ParserOf(client)(blocks[i]) == StandardParser()(blocks[i]) <==> Conforms(client, blocks[i]))
           && (ParserOf(client)(blocks[i]).Some? ==> StandardParser()(blocks[i]).Some?)
    {
      BlocksFeedsOnly(s, i);
      BlockConformsIff(client, blocks[i]);
    }
    PayloadsEqualIff(ParserOf(client), StandardParser(), blocks);
  }

  lemma OutputsAreIff(client: Client, chunks: seq<Chunk>, s: string, events: seq<string>)
    requires forall i :: 0 <= i < |chunks| ==> chunks[i].Valid?
    requires s == AllText(client, chunks)
    ensures Outputs(client, "", chunks) == Events(events) <==> Payloads(ParserOf(client), Blocks(s)) == events
  {
    ChunkingIndependence(client, chunks, s);
    EventsInjective(Payloads(ParserOf(client), Blocks(s)), events);
  }

  /**
   Chunked anywhere, a text without carriage returns and byte order mark gives a client exactly the
   standard's non-empty events if and only if each of its blocks conforms.
   */
  lemma StreamConformsIff(client: Client, chunks: seq<Chunk>, s: string)
    requires forall i :: 0 <= i < |chunks| ==> chunks[i].Valid?
    requires s == AllText(client, chunks) && FeedsOnly(s) && DropByteOrderMark(s) == s
    ensures Outputs(client, "", chunks) == Events(NonEmpty(Standard(s)))
       <==> AllConform(client, Blocks(s))
  {
    OutputsAreIff(client, chunks, s, NonEmpty(Standard(s)));
    StandardByBlocks(s);
    PayloadsConform(client, s);
  }

  // ---- Texts whose data fields all have a colon --------------------------------------------

  lemma FirstBlockLines(s: string, p: nat, line: string)
    requires FeedsOnly(s) && Find(s) == Some(p) && line in Lines(s[..p])
    ensures line in StandardLines(s)
  {
    CutFeeds(s, p);
    CutLines(s, p);
    BlockLines(s[..p]);
  }

  lemma {:induction false} BlockLinesAreLines(s: string, i: nat, block: string, line: string)
    requires FeedsOnly(s) && i < |Blocks(s)| && block == Blocks(s)[i] && line in Lines(block)
    ensures line in StandardLines(s)
    decreases |s|
  {
    match Find(s)
    case None => CutNever(s);
    case Some(p) =>
      CutOnce(s, p);
      if i == 0 {
        FirstBlockLines(s, p, line);
      } else {
        BlockLinesAreLines(s[p + 2..], i - 1, block, line);
        CutLines(s, p);
      }
  }

  /** With a colon after every `data`, the REST client yields the standard's non-empty events. */
  lemma RestMeetsStandard(s: string)
    requires FeedsOnly(s) && DropByteOrderMark(s) == s && "data" !in StandardLines(s)
    ensures Payloads(ParserOf(Rest), Blocks(s)) == NonEmpty(Standard(s))
  {
    forall i | 0 <= i < |Blocks(s)| ensures Conforms(Rest, Blocks(s)[i]) {
      if "data" in Lines(Blocks(s)[i]) { BlockLinesAreLines(s, i, Blocks(s)[i], "data"); }
    }
    assert AllText(Rest, [Valid(s)]) == s + AllText(Rest, []) == s;
    StreamConformsIff(Rest, [Valid(s)], s);
    OutputsOfOneChunk(Rest, s);
    EventsInjective(Payloads(ParserOf(Rest), Blocks(s)), NonEmpty(Standard(s)));
  }

  /** What the JSON-RPC client makes of an event: every line trimmed, leading empty lines dropped. */
  function Tidy(data: string): string {
    Join(SkipEmpty(TrimAll(StandardLines(data + "\n"))))
  }

  function TidyAll(events: seq<string>): seq<string> {
    if events == [] then [] else [Tidy(events[0])] + TidyAll(events[1..])
  }

  lemma TidyBlock(block: string)
    requires FeedsOnly(block) && "data" !in Lines(block)
    ensures Payload(JsonRpc, block) ==
            match StandardOf(block)
            case None => None
            case Some(data) => if Tidy(data) == "" then None else Some(Tidy(data))
  {
    var lines := Lines(block);
    var values := Values(lines);
    ClientValues(lines);
    JoinEmpty(values);
    if values == [] || values == [""] {
      KeptOfLittle(JsonRpc, lines);
    } else {
      forall i | 0 <= i < |lines| ensures SingleLined(lines[i]) { LinesSingleLined(block, i); }
      ValuesSingleLined(lines);
      TerminatedIsJoin(values);
      LinesOfTerminated(values);
    }
  }

  lemma TidyFirst(first: seq<string>, later: seq<string>)
    requires |first| <= 1
    ensures NonEmpty(TidyAll(first + later))
         == (if first == [] || Tidy(first[0]) == "" then [] else [Tidy(first[0])]) + NonEmpty(TidyAll(later))
  {
    if first == [] {
      assert first + later == later;
    } else {
      assert (first + later)[1..] == later;
      NonEmptyFirst([Tidy(first[0])], TidyAll(later));
    }
  }

  lemma {:induction false} TidyBlocks(blocks: seq<string>)
    requires forall i :: 0 <= i < |blocks| ==> FeedsOnly(blocks[i]) && "data" !in Lines(blocks[i])
    ensures Payloads(ParserOf(JsonRpc), blocks) == NonEmpty(TidyAll(Payloads(StandardParser(), blocks)))
  {
    if blocks != [] {
      TidyBlock(blocks[0]);
      TidyBlocks(blocks[1..]);
      TidyFirst(match StandardOf(blocks[0]) case Some(p) => [p] case None => [],
                Payloads(StandardParser(), blocks[1..]));
    }
  }

  /** The JSON-RPC client yields the same events, tidied, as far as anything is left of them. */
  lemma JsonRpcTidiesStandard(s: string)
    requires FeedsOnly(s) && DropByteOrderMark(s) == s && "data" !in StandardLines(s)
    ensures Payloads(ParserOf(JsonRpc), Blocks(s)) == NonEmpty(TidyAll(NonEmpty(Standard(s))))
  {
    StandardByBlocks(s);
    forall i | 0 <= i < |Blocks(s)| ensures FeedsOnly(Blocks(s)[i]) && "data" !in Lines(Blocks(s)[i]) {
      BlocksFeedsOnly(s, i);
      if "data" in Lines(Blocks(s)[i]) { BlockLinesAreLines(s, i, Blocks(s)[i], "data"); }
    }
    TidyBlocks(Blocks(s));
  }

  // ---- Line ends and byte order marks the clients do not know ------------------------------

  /** The same text with CRLF line ends. */
  function WithCrlf(s: string): string {
    if s == "" then "" else (if s[0] == '\n' then "\r\n" else [s[0]]) + WithCrlf(s[1..])
  }

  /** The first line of a text, with its line end and what follows rewritten. */
  ghost predicate CrlfAt(s: string, p: nat)
    requires p < |s|
  {
    var t, rest := WithCrlf(s), WithCrlf(s[p + 1..]);
    |t| == p + 2 + |rest| && t[..p] == s[..p] && t[p..p + 2] == "\r\n" && t[p + 2..] == rest
  }

  lemma CrlfShift(s: string, p: nat)
    requires 0 < p < |s| && s[0] != '\n' && CrlfAt(s[1..], p - 1)
    ensures CrlfAt(s, p)
  {
    var t, u := WithCrlf(s), WithCrlf(s[1..]);
    assert t == [s[0]] + u && s[1..][p..] == s[p + 1..];
    assert t[..p] == [s[0]] + u[..p - 1] == [s[0]] + s[1..][..p - 1] == s[..p];
    assert t[p..p + 2] == u[p - 1..p + 1] && t[p + 2..] == u[p + 1..];
  }

  lemma {:induction false} CrlfFirst(s: string, p: nat)
    requires LineEnd(s) == Some(p) && s[p] == '\n'
    ensures CrlfAt(s, p)
    decreases p
  {
    if p == 0 {
      assert WithCrlf(s) == "\r\n" + WithCrlf(s[1..]);
    } else {
      LineEndIs(s[1..], p - 1);
      CrlfFirst(s[1..], p - 1);
      CrlfShift(s, p);
    }
  }

  lemma {:induction false} CrlfUnended(line: string)
    requires SingleLined(line)
    ensures WithCrlf(line) == line
  {
    if line != "" { CrlfUnended(line[1..]); }
  }

  lemma FirstCrlfLine(s: string, p: nat)
    requires p + 1 < |s| && SingleLined(s[..p]) && s[p] == '\r' && s[p + 1] == '\n'
    ensures StandardLines(s) == [s[..p]] + StandardLines(s[p + 2..])
  {
    forall i | 0 <= i < p ensures !EndsLine(s[i]) { assert s[i] == s[..p][i]; }
    LineEndIs(s, p);
  }

  lemma {:induction false} CrlfLines(s: string)
    requires FeedsOnly(s)
    ensures StandardLines(WithCrlf(s)) == StandardLines(s)
    decreases |s|
  {
    match LineEnd(s)
    case None => CrlfUnended(s);
    case Some(p) =>
      CrlfFirst(s, p);
      CrlfLines(s[p + 1..]);
      FirstLine(s, p);
      var t := WithCrlf(s);
      assert t[p] == t[p..p + 2][0] == '\r' && t[p + 1] == t[p..p + 2][1] == '\n';
      FirstCrlfLine(t, p);
  }

  lemma {:induction false} CrlfPaired(s: string, i: nat)
    requires FeedsOnly(s) && i < |WithCrlf(s)| && WithCrlf(s)[i] == '\n'
    ensures i > 0 && WithCrlf(s)[i - 1] == '\r'
  {
    var width := if s[0] == '\n' then 2 else 1;
    if i >= width { CrlfPaired(s[1..], i - width); }
  }

  /** With CRLF line ends the standard dispatches the same events, and both clients none of them. */
  lemma CrlfLosesEverything(client: Client, s: string)
    requires FeedsOnly(s) && DropByteOrderMark(s) == s
    ensures Standard(WithCrlf(s)) == Standard(s)
    ensures Outputs(client, "", [Valid(WithCrlf(s))]) == []
  {
    CrlfLines(s);
    assert DropByteOrderMark(WithCrlf(s)) == WithCrlf(s);
    var t := WithCrlf(s);
    forall i | 0 <= i < |t| && t[i] == '\n' ensures i > 0 && t[i - 1] == '\r' { CrlfPaired(s, i); }
    CarriageReturnsStall(client, t);
  }

  lemma TwoLines(line: string)
    requires SingleLined(line)
    ensures StandardLines(line + "\n" + "\n") == [line] + [""]
  {
    OneLine(line);
    OneMoreTextLine(line + "\n", "", line + "\n" + "\n");
  }

  lemma DataLineIsOne(line: string, p: string)
    requires SingleLined(p) && line == "data: " + p
    ensures SingleLined(line)
  {
    forall i | 0 <= i < |line| ensures !EndsLine(line[i]) {
      if i >= 6 { assert line[i] == p[i - 6]; }
    }
  }

  lemma OneDataLine(line: string, p: string)
    requires line == "data: " + p
    ensures EventOf([line]) == [p]
  {
    ClientField(line);
    DataLineValue(Rest, p);
    assert |line| > 4;
    var lines := [line];
    assert lines[..0] == [];
    assert Values(lines) == [p];
  }

  lemma OneEvent(p: string, line: string)
    requires SingleLined(p) && line == "data: " + p
    ensures Decode(StandardLines(line + "\n" + "\n")).events == [p]
  {
    DataLineIsOne(line, p);
    TwoLines(line);
    OneDataLine(line, p);
    DecodeBlock([line], []);
    assert [line] + [""] + [] == [line] + [""];
  }

  lemma NoEvent(client: Client, mark: char, line: string)
    requires SingleLined(line) && !EndsLine(mark) && mark != 'd'
    ensures Payloads(ParserOf(client), Blocks([mark] + line + DELIMITER)) == []
  {
    var block := [mark] + line;
    SingleLine(block);
    CutClean(block, "");
    CutNever("");
    DataValuesOne(client, block);
    assert "data:"[0] == 'd' && "data: "[0] == 'd' && block[0] == mark;
    PayloadsOne(ParserOf(client), block, []);
    assert block + DELIMITER + "" == block + DELIMITER;
  }

  /** The standard ignores a byte order mark; to both clients it hides the first event. */
  lemma ByteOrderMarkHidesEvent(client: Client, p: string)
    requires p != "" && SingleLined(p)
    ensures var s := [BYTE_ORDER_MARK] + ("data: " + p) + DELIMITER;
            Standard(s) == [p] && Outputs(client, "", [Valid(s)]) == []
  {
    var line := "data: " + p;
    var s := [BYTE_ORDER_MARK] + line + DELIMITER;
    assert s[1..] == line + "\n" + "\n";
    DataLineIsOne(line, p);
    OneEvent(p, line);
    NoEvent(client, BYTE_ORDER_MARK, line);
    OutputsOfOneChunk(client, s);
  }

  // ---- Texts with a byte order mark --------------------------------------------------------

  function Marked(s: string): string { [BYTE_ORDER_MARK] + s }

  lemma FindMarked(s: string)
    ensures Find(Marked(s)) == match Find(s) case None => None case Some(p) => Some(p + 1)
  {
    var t := Marked(s);
    assert t[1..] == s && !DelimiterAt(t, 0);
  }

  /** The mark shifts the first delimiter and stays in the first block. */
  lemma MarkedBlocks(s: string, p: nat)
    requires Find(s) == Some(p)
    ensures Blocks(Marked(s)) == [Marked(s[..p])] + Blocks(s[p + 2..])
  {
    var t := Marked(s);
    FindMarked(s);
    CutOnce(t, p + 1);
    assert t[..p + 1] == Marked(s[..p]) && t[p + 3..] == s[p + 2..];
  }

  /** The first line of a block; a blank one has none. */
  function FirstLineOf(block: string): string {
    if Lines(block) == [] then "" else Lines(block)[0]
  }

  /** The mark goes to the first line. */
  lemma MarkedLines(block: string)
    requires FeedsOnly(block)
    ensures Lines(Marked(block)) ==
            [Marked(FirstLineOf(block))] + (if Lines(block) == [] then [] else Lines(block)[1..])
  {
    var t := Marked(block);
    assert t[0] == BYTE_ORDER_MARK && t[1..] == block;
    match FindNewline(block)
    case None =>
      assert FindNewline(t) == None;
      if block != "" { assert Lines(block) == [block]; }
    case Some(p) =>
      assert FindNewline(t) == Some(p + 1);
      assert t[..p + 1] == Marked(block[..p]) && t[p + 2..] == block[p + 1..];
      assert DropCarriageReturn(block[..p]) == block[..p];
      assert DropCarriageReturn(t[..p + 1]) == t[..p + 1];
  }

  lemma {:induction false} ValuesFirst(line: string, rest: seq<string>)
    ensures Values([line] + rest) == (match DataField(line) case Some(v) => [v] case None => []) + Values(rest)
  {
    var lines := [line] + rest;
    if rest == [] {
      assert lines == [line] && lines[..0] == [];
    } else {
      var init, last := rest[..|rest| - 1], rest[|rest| - 1];
      ValuesFirst(line, init);
      assert lines[..|lines| - 1] == [line] + init;
      Associate(match DataField(line) case Some(v) => [v] case None => [], Values(init),
                match DataField(last) case Some(v) => [v] case None => []);
    }
  }

  lemma {:induction false} DataValuesFirst(line: string, rest: seq<string>)
    ensures DataValues(Rest, [line] + rest)
         == (match DataValue(Rest, line) case Some(v) => [v] case None => []) + DataValues(Rest, rest)
  {
    var lines := [line] + rest;
    if rest == [] {
      assert lines == [line] && lines[..0] == [];
    } else {
      var init, last := rest[..|rest| - 1], rest[|rest| - 1];
      DataValuesFirst(line, init);
      assert lines[..|lines| - 1] == [line] + init;
      Associate(match DataValue(Rest, line) case Some(v) => [v] case None => [], DataValues(Rest, init),
                match DataValue(Rest, last) case Some(v) => [v] case None => []);
    }
  }

  /** Neither client finds data in a marked line. */
  lemma MarkedIsNoField(line: string)
    ensures DataValue(Rest, Marked(line)) == None && DataField(Marked(line)) == None
  {
    var t := Marked(line);
    assert t[0] == BYTE_ORDER_MARK && "data:"[0] == 'd' && "data: "[0] == 'd' && "data"[0] == 'd';
    var colon := FirstColon(t);
    assert colon.Some? && colon.value > 0 ==> t[..colon.value][0] == BYTE_ORDER_MARK;
  }

  /** To a client the marked block is the block without its first line. */
  lemma MarkedKept(client: Client, block: string)
    requires FeedsOnly(block)
    ensures var lines := Lines(block);
            Kept(client, Lines(Marked(block))) == Kept(client, if lines == [] then [] else lines[1..])
  {
    var lines, marked := Lines(block), Lines(Marked(block));
    var rest := if lines == [] then [] else lines[1..];
    MarkedLines(block);
    MarkedIsNoField(FirstLineOf(block));
    DataValuesFirst(Marked(FirstLineOf(block)), rest);
    assert [] + DataValues(Rest, rest) == DataValues(Rest, rest);
    ClientValues(marked);
    ClientValues(rest);
  }

  /** Marked, a block still conforms if it has no data to lose, or loses no data with its first line. */
  predicate MarkedConforms(client: Client, block: string) {
    var values := Values(Lines(block));
    values == [] || values == [""] || (DataField(FirstLineOf(block)).None? && Conforms(client, block))
  }

  lemma KeptLength(client: Client, lines: seq<string>)
    ensures |Kept(client, lines)| <= |Values(lines)|
  {
    ClientValues(lines);
    SkipEmptyIsSuffix(DataValues(JsonRpc, lines));
  }

  lemma MarkedLittle(client: Client, lines: seq<string>)
    requires lines != [] && (Values(lines) == [] || Values(lines) == [""])
    ensures Join(Kept(client, lines[1..])) == ""
  {
    assert lines == [lines[0]] + lines[1..];
    ValuesFirst(lines[0], lines[1..]);
    KeptOfLittle(client, lines[1..]);
  }

  /** A data line in front of the others is missing from what is kept. */
  lemma MarkedLoses(client: Client, block: string)
    requires FeedsOnly(block) && Values(Lines(block)) != [] && Values(Lines(block)) != [""]
    requires DataField(FirstLineOf(block)).Some?
    ensures Join(Kept(client, Lines(block)[1..])) != Join(Values(Lines(block)))
  {
    var lines := Lines(block);
    var values, kept := Values(lines), Kept(client, lines[1..]);
    assert lines == [lines[0]] + lines[1..];
    ValuesFirst(lines[0], lines[1..]);
    KeptLength(client, lines[1..]);
    JoinEmpty(values);
    forall i | 0 <= i < |lines| ensures SingleLined(lines[i]) { LinesSingleLined(block, i); }
    ValuesSingleLined(lines);
    KeptSingleLined(client, lines[1..]);
    if kept != [] && Join(kept) == Join(values) {
      JoinInjective(kept, values);
    }
  }

  /** Without data in its first line, nothing changes for the block. */
  lemma MarkedHarmless(client: Client, block: string)
    requires FeedsOnly(block) && Lines(block) != [] && DataField(FirstLineOf(block)).None?
    ensures Kept(client, Lines(block)[1..]) == Kept(client, Lines(block))
  {
    var lines := Lines(block);
    assert lines == [lines[0]] + lines[1..];
    ClientField(lines[0]);
    DataValuesFirst(lines[0], lines[1..]);
    assert [] + DataValues(Rest, lines[1..]) == DataValues(Rest, lines[1..]);
    ClientValues(lines);
    ClientValues(lines[1..]);
  }

  lemma MarkedBlockIff(client: Client, block: string)
    requires FeedsOnly(block)
    ensures Payload(client, Marked(block)) == StandardOf(block) <==> MarkedConforms(client, block)
  {
    var lines := Lines(block);
    var values, kept := Values(lines), Kept(client, Lines(Marked(block)));
    assert Payload(client, Marked(block)) == if Join(kept) == "" then None else Some(Join(kept));
    MarkedKept(client, block);
    JoinEmpty(values);
    if lines == [] {
      KeptOfLittle(client, []);
    } else if values == [] || values == [""] {
      MarkedLittle(client, lines);
    } else if DataField(FirstLineOf(block)).Some? {
      MarkedLoses(client, block);
    } else {
      MarkedHarmless(client, block);
      BlockConformsIff(client, block);
    }
  }

  lemma MarkedFewer(client: Client, block: string)
    requires FeedsOnly(block)
    ensures Payload(client, Marked(block)).Some? ==> StandardOf(block).Some?
  {
    var lines := Lines(block);
    MarkedKept(client, block);
    JoinEmpty(Values(lines));
    if lines == [] {
      KeptOfLittle(client, []);
    } else if Values(lines) == [] || Values(lines) == [""] {
      MarkedLittle(client, lines);
    }
  }

  lemma MarkedPayloadsIff(client: Client, s: string, p: nat)
    requires FeedsOnly(s) && Find(s) == Some(p)
    ensures Payloads(ParserOf(client), Blocks(Marked(s))) == Payloads(StandardParser(), Blocks(s))
       <==> MarkedConforms(client, s[..p]) && AllConform(client, Blocks(s[p + 2..]))
  {
    var block, rest := s[..p], Blocks(s[p + 2..]);
    MarkedBlocks(s, p);
    CutOnce(s, p);
    CutFeeds(s, p);
    MarkedBlockIff(client, block);
    MarkedFewer(client, block);
    PayloadsConform(client, s[p + 2..]);
    PayloadsOne(ParserOf(client), Marked(block), rest);
    PayloadsOne(StandardParser(), block, rest);
    FirstDiffers(Payload(client, Marked(block)), StandardOf(block),
                 Payloads(ParserOf(client), rest), Payloads(StandardParser(), rest));
  }

  /**
   A text that starts with a byte order mark gives a client exactly the standard's non-empty events if and
   only if every block after the first conforms, and the first does although its first line is lost.
   */
  lemma MarkedStreamConformsIff(client: Client, chunks: seq<Chunk>, s: string)
    requires forall i :: 0 <= i < |chunks| ==> chunks[i].Valid?
    requires Marked(s) == AllText(client, chunks) && FeedsOnly(s)
    ensures Outputs(client, "", chunks) == Events(NonEmpty(Standard(Marked(s)))) <==>
            match Find(s)
            case None => true
            case Some(p) => MarkedConforms(client, s[..p]) && AllConform(client, Blocks(s[p + 2..]))
  {
    assert DropByteOrderMark(Marked(s)) == s;
    OutputsAreIff(client, chunks, Marked(s), NonEmpty(Standard(Marked(s))));
    StandardByBlocks(s);
    match Find(s)
    case None =>
      FindMarked(s);
      CutNever(s);
      CutNever(Marked(s));
    case Some(p) => MarkedPayloadsIff(client, s, p);
  }
}
