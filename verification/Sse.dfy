/**
 The incremental server-sent-event decoders of the two HTTP clients (ra2a/src/client/jsonrpc.rs,
 ra2a/src/client/rest.rs). Text is a sequence of Unicode scalar values. Both clients cut the same
 blocks out of a growing buffer and differ in how a block becomes a payload.
 */
module Sse {
  import opened Wrappers

  const DELIMITER := "\n\n"

  // ---- Cutting blocks ----------------------------------------------------------------------

  predicate DelimiterAt(s: string, i: nat) {
    i + 2 <= |s| && s[i] == '\n' && s[i + 1] == '\n'
  }

  /** `str::find("\n\n")`. */
  function Find(s: string): (r: Option<nat>)
    ensures r.Some? ==> DelimiterAt(s, r.value) && forall j :: 0 <= j < r.value ==> !DelimiterAt(s, j)
    ensures r.None? <==> forall j :: 0 <= j < |s| ==> !DelimiterAt(s, j)
  {
    if |s| < 2 then None
    else if DelimiterAt(s, 0) then Some(0)
    else
      assert forall j :: 0 < j < |s| ==> DelimiterAt(s, j) == DelimiterAt(s[1..], j - 1);
      assert forall j :: 0 <= j < |s[1..]| ==> DelimiterAt(s[1..], j) == DelimiterAt(s, j + 1);
      match Find(s[1..])
      case None => None
      case Some(i) => Some(i + 1)
  }

  /** Complete blocks, cut greedily from the left. */
  function Blocks(s: string): seq<string>
    decreases |s|
  {
    match Find(s)
    case None => []
    case Some(p) => [s[..p]] + Blocks(s[p + 2..])
  }

  /** The text after the last complete block. */
  function Residue(s: string): string
    decreases |s|
  {
    match Find(s)
    case None => s
    case Some(p) => Residue(s[p + 2..])
  }

  lemma CutOnce(s: string, p: nat)
    requires Find(s) == Some(p)
    ensures Blocks(s) == [s[..p]] + Blocks(s[p + 2..]) && Residue(s) == Residue(s[p + 2..])
  {}

  lemma CutNever(s: string)
    requires Find(s).None?
    ensures Blocks(s) == [] && Residue(s) == s
  {}

  lemma FindInLonger(s: string, t: string, p: nat)
    requires Find(s) == Some(p)
    ensures Find(s + t) == Some(p) && (s + t)[..p] == s[..p] && (s + t)[p + 2..] == s[p + 2..] + t
  {
    assert forall j :: 0 <= j <= p ==> DelimiterAt(s + t, j) == DelimiterAt(s, j);
  }

  /** Cutting is incremental: blocks already cut stay, and only the residue matters for what follows. */
  lemma {:induction false} CutIncrementally(s: string, t: string)
    ensures Blocks(s + t) == Blocks(s) + Blocks(Residue(s) + t)
    ensures Residue(s + t) == Residue(Residue(s) + t)
    decreases |s|
  {
    match Find(s)
    case None => CutNever(s);
    case Some(p) =>
      var rest := s[p + 2..];
      CutOnce(s, p);
      FindInLonger(s, t, p);
      CutOnce(s + t, p);
      CutIncrementally(rest, t);
      Associate([s[..p]], Blocks(rest), Blocks(Residue(rest) + t));
  }

  lemma Associate<T>(a: seq<T>, b: seq<T>, c: seq<T>)
    ensures (a + b) + c == a + (b + c)
  {}

  // ---- Blocks, declaratively ---------------------------------------------------------------

  function Text(blocks: seq<string>): string {
    if blocks == [] then "" else blocks[0] + DELIMITER + Text(blocks[1..])
  }

  ghost predicate Undelimited(s: string) {
    forall j :: 0 <= j < |s| ==> !DelimiterAt(s, j)
  }

  /** A block that cannot be mistaken for a shorter one once the delimiter follows it. */
  ghost predicate Clean(block: string) {
    Undelimited(block) && (block != "" ==> block[|block| - 1] != '\n')
  }

  lemma FindDelimiter(block: string, rest: string)
    requires Clean(block)
    ensures Find(block + DELIMITER + rest) == Some(|block|)
  {
    var s := block + DELIMITER + rest;
    assert DelimiterAt(s, |block|);
    forall j | 0 <= j < |block| ensures !DelimiterAt(s, j) {
      assert j + 1 < |block| ==> s[j] == block[j] && s[j + 1] == block[j + 1] && !DelimiterAt(block, j);
      assert j + 1 == |block| ==> s[j] == block[|block| - 1];
    }
  }

  lemma CutClean(block: string, rest: string)
    requires Clean(block)
    ensures Blocks(block + DELIMITER + rest) == [block] + Blocks(rest)
    ensures Residue(block + DELIMITER + rest) == Residue(rest)
  {
    var s := block + DELIMITER + rest;
    FindDelimiter(block, rest);
    CutOnce(s, |block|);
    assert s[..|block|] == block && s[|block| + 2..] == rest;
  }

  /** Blocks and residue are the only way to read a text as delimited clean blocks plus a rest. */
  lemma {:induction false} BlocksAreUnique(blocks: seq<string>, rest: string)
    requires Undelimited(rest) && forall i :: 0 <= i < |blocks| ==> Clean(blocks[i])
    ensures Blocks(Text(blocks) + rest) == blocks && Residue(Text(blocks) + rest) == rest
  {
    if blocks == [] {
      assert Text(blocks) + rest == rest;
      CutNever(rest);
    } else {
      BlocksAreUnique(blocks[1..], rest);
      CutClean(blocks[0], Text(blocks[1..]) + rest);
      Associate(blocks[0] + DELIMITER, Text(blocks[1..]), rest);
      assert blocks == [blocks[0]] + blocks[1..];
    }
  }

  lemma BlockIsClean(s: string, p: nat)
    requires Find(s) == Some(p)
    ensures Clean(s[..p]) && s == s[..p] + DELIMITER + s[p + 2..]
  {
    forall j | 0 <= j < p ensures !DelimiterAt(s[..p], j) {
      assert !DelimiterAt(s, j);
    }
    if p > 0 { assert !DelimiterAt(s, p - 1); }
  }

  lemma TextMore(block: string, blocks: seq<string>)
    ensures Text([block] + blocks) == block + DELIMITER + Text(blocks)
  {
    assert ([block] + blocks)[1..] == blocks;
  }

  lemma {:induction false} BlocksCover(s: string)
    ensures Text(Blocks(s)) + Residue(s) == s && Undelimited(Residue(s))
    decreases |s|
  {
    match Find(s)
    case None =>
      CutNever(s);
      assert Text([]) + s == s;
    case Some(p) =>
      var rest := s[p + 2..];
      CutOnce(s, p);
      BlockIsClean(s, p);
      BlocksCover(rest);
      TextMore(s[..p], Blocks(rest));
      Associate(s[..p] + DELIMITER, Text(Blocks(rest)), Residue(rest));
  }

  lemma {:induction false} BlocksAreClean(s: string, i: nat)
    requires i < |Blocks(s)|
    ensures Clean(Blocks(s)[i])
    decreases |s|
  {
    match Find(s)
    case None => CutNever(s);
    case Some(p) =>
      CutOnce(s, p);
      BlockIsClean(s, p);
      if i > 0 { BlocksAreClean(s[p + 2..], i - 1); }
  }

  // ---- From block to payload ---------------------------------------------------------------

  /** `str::lines`: a carriage return is dropped only in front of a line feed. */
  function Lines(s: string): seq<string>
    decreases |s|
  {
    if s == "" then []
    else
      match FindNewline(s)
      case None => [s]
      case Some(p) => [DropCarriageReturn(s[..p])] + Lines(s[p + 1..])
  }

  function FindNewline(s: string): (r: Option<nat>)
    ensures r.Some? ==> r.value < |s| && s[r.value] == '\n' && forall i :: 0 <= i < r.value ==> s[i] != '\n'
    ensures r.None? <==> '\n' !in s
  {
    if s == "" then None
    else if s[0] == '\n' then Some(0)
    else match FindNewline(s[1..])
         case None => None
         case Some(i) => Some(i + 1)
  }

  function DropCarriageReturn(s: string): string {
    if s != "" && s[|s| - 1] == '\r' then s[..|s| - 1] else s
  }

  /** Both line ends are cut off, and only at the end of a text a carriage return stays. */
  lemma LineEnds(line: string, rest: string)
    requires '\n' !in line
    ensures Lines(line + "\r\n" + rest) == [line] + Lines(rest)
    ensures line == "" || line[|line| - 1] != '\r' ==> Lines(line + "\n" + rest) == [line] + Lines(rest)
    ensures line != "" ==> Lines(line) == [line]
  {
    var s, t := line + "\r\n" + rest, line + "\n" + rest;
    NewlineAt(s, |line| + 1);
    NewlineAt(t, |line|);
    assert s[..|line| + 1] == line + "\r" && s[|line| + 2..] == rest;
    assert t[..|line|] == line && t[|line| + 1..] == rest;
  }

  lemma NewlineAt(s: string, p: nat)
    requires p < |s| && s[p] == '\n' && forall i :: 0 <= i < p ==> s[i] != '\n'
    ensures FindNewline(s) == Some(p)
  {}

  /** The Unicode White_Space property, as `str::trim` uses it. */
  predicate IsWhitespace(c: char) {
    var n := c as int;
    0x9 <= n <= 0xd || n == 0x20 || n == 0x85 || n == 0xa0 || n == 0x1680 || 0x2000 <= n <= 0x200a
    || n == 0x2028 || n == 0x2029 || n == 0x202f || n == 0x205f || n == 0x3000
  }

  /** No whitespace at either end; inside there may be any. */
  predicate IsTrimmed(s: string) {
    s != "" ==> !IsWhitespace(s[0]) && !IsWhitespace(s[|s| - 1])
  }

  function TrimStart(s: string): string {
    if s != "" && IsWhitespace(s[0]) then TrimStart(s[1..]) else s
  }

  function TrimEnd(s: string): string {
    if s != "" && IsWhitespace(s[|s| - 1]) then TrimEnd(s[..|s| - 1]) else s
  }

  function Trim(s: string): string {
    TrimEnd(TrimStart(s))
  }

  /** Before i and from j on there is nothing but whitespace. */
  ghost predicate OnlySpaceAround(s: string, i: nat, j: nat) {
    && i <= j <= |s|
    && (forall k :: 0 <= k < i ==> IsWhitespace(s[k]))
    && (forall k :: j <= k < |s| ==> IsWhitespace(s[k]))
  }

  lemma {:induction false} TrimStartAt(s: string) returns (i: nat)
    ensures i <= |s| && TrimStart(s) == s[i..] && (forall k :: 0 <= k < i ==> IsWhitespace(s[k]))
    ensures i < |s| ==> !IsWhitespace(s[i])
  {
    i := 0;
    if s != "" && IsWhitespace(s[0]) {
      var next := TrimStartAt(s[1..]);
      i := next + 1;
      assert forall k :: 0 < k < i ==> s[k] == s[1..][k - 1];
    }
  }

  lemma {:induction false} TrimEndAt(s: string) returns (j: nat)
    ensures j <= |s| && TrimEnd(s) == s[..j] && (forall k :: j <= k < |s| ==> IsWhitespace(s[k]))
    ensures j > 0 ==> !IsWhitespace(s[j - 1])
  {
    j := |s|;
    if s != "" && IsWhitespace(s[|s| - 1]) {
      j := TrimEndAt(s[..|s| - 1]);
      assert forall k :: j <= k < |s| - 1 ==> s[k] == s[..|s| - 1][k];
    }
  }

  lemma TrimAt(s: string) returns (i: nat, j: nat)
    ensures OnlySpaceAround(s, i, j) && Trim(s) == s[i..j] && IsTrimmed(s[i..j])
  {
    i := TrimStartAt(s);
    var rest := TrimEndAt(s[i..]);
    j := i + rest;
    assert forall k :: j <= k < |s| ==> s[k] == s[i..][k - i];
    assert s[i..][..rest] == s[i..j];
  }

  lemma OneMiddle(s: string, i: nat, j: nat, k: nat, l: nat)
    requires OnlySpaceAround(s, i, j) && OnlySpaceAround(s, k, l) && IsTrimmed(s[i..j]) && IsTrimmed(s[k..l])
    ensures s[i..j] == s[k..l]
  {
    assert i < j ==> s[i..j][0] == s[i] && s[i..j][j - i - 1] == s[j - 1];
    assert k < l ==> s[k..l][0] == s[k] && s[k..l][l - k - 1] == s[l - 1];
    assert i < j <==> k < l;
  }

  /** Trimming takes whitespace off both ends, all of it, and nothing else. */
  lemma TrimIff(s: string, t: string)
    ensures t == Trim(s) <==> IsTrimmed(t) && exists i: nat, j: nat :: OnlySpaceAround(s, i, j) && t == s[i..j]
  {
    var k, l := TrimAt(s);
    forall i: nat, j: nat | IsTrimmed(t) && OnlySpaceAround(s, i, j) && t == s[i..j] ensures t == Trim(s) {
      OneMiddle(s, i, j, k, l);
    }
  }

  lemma TrimmedIff(s: string)
    ensures Trim(s) == s <==> IsTrimmed(s)
  {
    TrimIff(s, s);
    assert OnlySpaceAround(s, 0, |s|) && s[0..|s|] == s;
  }

  function StripPrefix(s: string, prefix: string): Option<string> {
    if prefix <= s then Some(s[|prefix|..]) else None
  }

  datatype Client = JsonRpc | Rest

  /** The value of a data line: trimmed by one client, without one leading space for the other. */
  function DataValue(client: Client, line: string): Option<string> {
    match client
    case JsonRpc => (match StripPrefix(line, "data:") case Some(v) => Some(Trim(v)) case None => None)
    case Rest => (match StripPrefix(line, "data: ") case Some(v) => Some(v) case None => StripPrefix(line, "data:"))
  }

  function DataValues(client: Client, lines: seq<string>): seq<string> {
    if lines == [] then []
    else
      DataValues(client, lines[..|lines| - 1]) +
      match DataValue(client, lines[|lines| - 1]) case Some(v) => [v] case None => []
  }

  lemma DataValuesMore(client: Client, lines: seq<string>, i: nat)
    requires i < |lines|
    ensures DataValues(client, lines[..i + 1])
         == DataValues(client, lines[..i]) + match DataValue(client, lines[i]) case Some(v) => [v] case None => []
  {
    assert lines[..i + 1][..i] == lines[..i];
  }

  function Join(values: seq<string>): string {
    if values == [] then ""
    else if |values| == 1 then values[0]
    else Join(values[..|values| - 1]) + "\n" + values[|values| - 1]
  }

  function SkipEmpty(values: seq<string>): (r: seq<string>)
    ensures r == [] || r[0] != ""
  {
    if values != [] && values[0] == "" then SkipEmpty(values[1..]) else values
  }

  /** A block's payload; the JSON-RPC client ignores empty data lines before the first non-empty one. */
  function Payload(client: Client, block: string): Option<string> {
    var values := DataValues(client, Lines(block));
    var data := Join(if client.JsonRpc? then SkipEmpty(values) else values);
    if data == "" then None else Some(data)
  }

  lemma {:induction false} SkipEmptyMore(values: seq<string>, v: string)
    ensures SkipEmpty(values + [v]) == if SkipEmpty(values) == [] then (if v == "" then [] else [v])
                                       else SkipEmpty(values) + [v]
  {
    if values == [] {
      assert values + [v] == [v];
    } else {
      assert (values + [v])[1..] == values[1..] + [v];
      if values[0] == "" { SkipEmptyMore(values[1..], v); }
    }
  }

  lemma {:induction false} JoinNonEmpty(values: seq<string>)
    requires values != [] && values[0] != ""
    ensures Join(values) != ""
  {
    if |values| > 1 { JoinNonEmpty(values[..|values| - 1]); }
  }

  lemma JoinMore(values: seq<string>, v: string)
    ensures var data := Join(SkipEmpty(values));
            Join(SkipEmpty(values + [v])) == (if data == "" then "" else data + "\n") + v
  {
    SkipEmptyMore(values, v);
    var kept := SkipEmpty(values);
    if kept != [] {
      JoinNonEmpty(kept);
      assert (kept + [v])[..|kept|] == kept;
    }
  }

  /** What `parse_sse_message` has accumulated after some lines. */
  function Accumulated(lines: seq<string>): string {
    Join(SkipEmpty(DataValues(JsonRpc, lines)))
  }

  lemma OneMoreLine(lines: seq<string>, i: nat)
    requires i < |lines|
    ensures var data := Accumulated(lines[..i]);
            Accumulated(lines[..i + 1]) ==
              match StripPrefix(lines[i], "data:")
              case Some(rest) => (if data == "" then "" else data + "\n") + Trim(rest)
              case None => data
  {
    DataValuesMore(JsonRpc, lines, i);
    match StripPrefix(lines[i], "data:")
    case Some(rest) => JoinMore(DataValues(JsonRpc, lines[..i]), Trim(rest));
    case None => assert DataValues(JsonRpc, lines[..i + 1]) == DataValues(JsonRpc, lines[..i]);
  }

  /** `parse_sse_message` up to the JSON codec. */
  method ParseSseMessage(message: string) returns (r: Option<string>)
    ensures r == Payload(JsonRpc, message)
  {
    var lines := Lines(message);
    var data := "";
    var i := 0;
    while i < |lines|
      invariant 0 <= i <= |lines|
      invariant data == Accumulated(lines[..i])
    {
      OneMoreLine(lines, i);
      var rest := StripPrefix(lines[i], "data:");
      if rest.Some? {
        if data != "" {
          data := data + "\n";
        }
        data := data + Trim(rest.value);
      }
      i := i + 1;
    }
    assert lines[..i] == lines;
    r := if data == "" then None else Some(data);
  }

  /** The payload part of `try_extract_rest_event`. */
  method ParseRestEvent(text: string) returns (r: Option<string>)
    ensures r == Payload(Rest, text)
  {
    var data := Join(DataValues(Rest, Lines(text)));
    r := if data == "" then None else Some(data);
  }

  type Parser = string -> Option<string>

  function ParserOf(client: Client): Parser {
    (block: string) => Payload(client, block)
  }

  /** The payloads of those blocks that carry one. */
  function Payloads(parse: Parser, blocks: seq<string>): seq<string> {
    if blocks == [] then []
    else (match parse(blocks[0]) case Some(p) => [p] case None => []) + Payloads(parse, blocks[1..])
  }

  // ---- The stream --------------------------------------------------------------------------

  /** What the body stream yields: text, bytes that are not UTF-8 (with their lossy decoding), an error. */
  datatype Chunk = Valid(text: string) | Malformed(lossy: string) | Broken(error: string)

  datatype Output = Event(payload: string) | StreamError(error: string)

  /** The text a chunk adds: the JSON-RPC client drops malformed chunks, the REST client replaces. */
  function TextOf(client: Client, c: Chunk): string {
    match c
    case Valid(t) => t
    case Malformed(lossy) => if client.Rest? then lossy else ""
    case Broken(_) => ""
  }

  function Events(payloads: seq<string>): (r: seq<Output>)
    ensures |r| == |payloads| && forall i :: 0 <= i < |r| ==> r[i] == Event(payloads[i])
  {
    seq(|payloads|, i requires 0 <= i < |payloads| => Event(payloads[i]))
  }

  function ErrorOf(c: Chunk): seq<Output> {
    if c.Broken? then [StreamError(c.error)] else []
  }

  /** Everything a stream still yields, given its buffer and the chunks to come. */
  function Outputs(client: Client, buffer: string, incoming: seq<Chunk>): seq<Output>
    decreases incoming, 1
  {
    Events(Payloads(ParserOf(client), Blocks(buffer))) + Later(client, Residue(buffer), incoming)
  }

  /** The part that needs more chunks: without blocks in the buffer, only its residue is left. */
  function Later(client: Client, residue: string, incoming: seq<Chunk>): seq<Output>
    decreases incoming, 0
  {
    if incoming == [] then []
    else ErrorOf(incoming[0]) + Outputs(client, residue + TextOf(client, incoming[0]), incoming[1..])
  }

  class SseStream {
    const client: Client
    var buffer: string
    var incoming: seq<Chunk>

    constructor (client: Client, incoming: seq<Chunk>)
      ensures this.client == client && buffer == "" && this.incoming == incoming
    {
      this.client := client;
      this.buffer := "";
      this.incoming := incoming;
    }

    /** Cuts blocks off the buffer until one carries a payload or no complete block is left. */
    method TryExtract() returns (r: Option<string>)
      modifies this`buffer
      ensures var payloads := Payloads(ParserOf(client), Blocks(old(buffer)));
              if payloads == [] then r == None && Find(buffer).None?
              else r == Some(payloads[0]) && Payloads(ParserOf(client), Blocks(buffer)) == payloads[1..]
      ensures Residue(buffer) == Residue(old(buffer))
    {
      ghost var parse := ParserOf(client);
      ghost var payloads := Payloads(parse, Blocks(buffer));
      while true
        invariant Payloads(parse, Blocks(buffer)) == payloads
        invariant Residue(buffer) == Residue(old(buffer))
        decreases |buffer|
      {
        var pos := Find(buffer);
        if pos.None? {
          CutNever(buffer);
          return None;
        }
        var raw, rest := buffer[..pos.value], buffer[pos.value + 2..];
        CutOnce(buffer, pos.value);
        PayloadsCons(parse, raw, Blocks(rest));
        buffer := rest;
        var payload := ParseBlock(raw);
        if payload.Some? {
          return payload;
        }
      }
    }

    method ParseBlock(raw: string) returns (r: Option<string>)
      ensures r == ParserOf(client)(raw)
    {
      if client.JsonRpc? {
        r := ParseSseMessage(raw);
      } else {
        r := ParseRestEvent(raw);
      }
    }

    /** One poll of the stream; a transport error is passed on and leaves the stream usable. */
    method Next() returns (r: Option<Output>)
      modifies this
      ensures var outputs := Outputs(client, old(buffer), old(incoming));
              if outputs == [] then r == None && incoming == []
              else r == Some(outputs[0]) && Outputs(client, buffer, incoming) == outputs[1..]
    {
      ghost var outputs := Outputs(client, buffer, incoming);
      while true
        invariant Outputs(client, buffer, incoming) == outputs
        decreases |incoming|
      {
        ghost var before := buffer;
        var event := TryExtract();
        if event.Some? {
          OutputsAfterEvent(client, before, buffer, incoming);
          return Some(Event(event.value));
        }
        CutNever(buffer);
        if incoming == [] {
          OutputsAtEnd(client, before);
          return None;
        }
        var chunk := incoming[0];
        OutputsAfterChunk(client, before, incoming);
        incoming := incoming[1..];
        buffer := buffer + TextOf(client, chunk);
        if chunk.Broken? {
          return Some(StreamError(chunk.error));
        }
      }
    }
  }

  lemma PayloadsCons(parse: Parser, block: string, blocks: seq<string>)
    ensures var all := Payloads(parse, [block] + blocks);
            match parse(block)
            case Some(p) => all != [] && all[0] == p && all[1..] == Payloads(parse, blocks)
            case None => all == Payloads(parse, blocks)
  {
    assert ([block] + blocks)[1..] == blocks;
  }

  lemma OutputsAfterEvent(client: Client, before: string, after: string, incoming: seq<Chunk>)
    requires var payloads := Payloads(ParserOf(client), Blocks(before));
             payloads != [] && Payloads(ParserOf(client), Blocks(after)) == payloads[1..]
    requires Residue(after) == Residue(before)
    ensures var all := Outputs(client, before, incoming);
            && all != [] && all[0] == Event(Payloads(ParserOf(client), Blocks(before))[0])
            && all[1..] == Outputs(client, after, incoming)
  {
    var payloads := Payloads(ParserOf(client), Blocks(before));
    TailOfEvents(payloads, Later(client, Residue(before), incoming));
  }

  lemma TailOfEvents(payloads: seq<string>, later: seq<Output>)
    requires payloads != []
    ensures (Events(payloads) + later)[1..] == Events(payloads[1..]) + later
  {}

  lemma OutputsAtEnd(client: Client, buffer: string)
    requires Payloads(ParserOf(client), Blocks(buffer)) == []
    ensures Outputs(client, buffer, []) == []
  {}

  lemma OutputsAfterChunk(client: Client, buffer: string, incoming: seq<Chunk>)
    requires incoming != [] && Payloads(ParserOf(client), Blocks(buffer)) == []
    ensures var all, rest := Outputs(client, buffer, incoming),
                             Outputs(client, Residue(buffer) + TextOf(client, incoming[0]), incoming[1..]);
            if incoming[0].Broken? then all != [] && all[0] == StreamError(incoming[0].error) && all[1..] == rest
            else all == rest
  {}

  // ---- Chunking does not matter ------------------------------------------------------------

  function AllText(client: Client, chunks: seq<Chunk>): string {
    if chunks == [] then "" else TextOf(client, chunks[0]) + AllText(client, chunks[1..])
  }

  function OnlyEvents(outputs: seq<Output>): seq<Output> {
    if outputs == [] then []
    else (if outputs[0].Event? then [outputs[0]] else []) + OnlyEvents(outputs[1..])
  }

  lemma {:induction false} OnlyEventsConcat(a: seq<Output>, b: seq<Output>)
    ensures OnlyEvents(a + b) == OnlyEvents(a) + OnlyEvents(b)
  {
    if a == [] {
      assert a + b == b;
    } else {
      OnlyEventsConcat(a[1..], b);
      assert (a + b)[1..] == a[1..] + b;
      Associate(if a[0].Event? then [a[0]] else [], OnlyEvents(a[1..]), OnlyEvents(b));
    }
  }

  lemma {:induction false} OnlyEventsOfEvents(outputs: seq<Output>)
    requires forall i :: 0 <= i < |outputs| ==> outputs[i].Event?
    ensures OnlyEvents(outputs) == outputs
  {
    if outputs != [] { OnlyEventsOfEvents(outputs[1..]); }
  }

  lemma {:induction false} PayloadsConcat(parse: Parser, a: seq<string>, b: seq<string>)
    ensures Payloads(parse, a + b) == Payloads(parse, a) + Payloads(parse, b)
  {
    if a == [] {
      assert a + b == b;
    } else {
      PayloadsConcat(parse, a[1..], b);
      assert (a + b)[1..] == a[1..] + b;
      var first := match parse(a[0]) case Some(p) => [p] case None => [];
      Associate(first, Payloads(parse, a[1..]), Payloads(parse, b));
    }
  }

  lemma EventsConcat(a: seq<string>, b: seq<string>)
    ensures Events(a + b) == Events(a) + Events(b)
  {}

  /** The events of a longer text: those of its beginning, then those the residue and the rest yield. */
  lemma EventsIncrementally(parse: Parser, s: string, t: string)
    ensures Events(Payloads(parse, Blocks(s + t)))
         == Events(Payloads(parse, Blocks(s))) + Events(Payloads(parse, Blocks(Residue(s) + t)))
  {
    CutIncrementally(s, t);
    PayloadsConcat(parse, Blocks(s), Blocks(Residue(s) + t));
    EventsConcat(Payloads(parse, Blocks(s)), Payloads(parse, Blocks(Residue(s) + t)));
  }

  /** For any chunks, broken and malformed ones included: the events are those of the text as a whole. */
  lemma {:induction false} EventsDependOnTextOnly(client: Client, buffer: string, incoming: seq<Chunk>)
    ensures OnlyEvents(Outputs(client, buffer, incoming))
         == Events(Payloads(ParserOf(client), Blocks(buffer + AllText(client, incoming))))
    decreases incoming, 1
  {
    var now := Events(Payloads(ParserOf(client), Blocks(buffer)));
    OnlyEventsConcat(now, Later(client, Residue(buffer), incoming));
    OnlyEventsOfEvents(now);
    LaterDependsOnTextOnly(client, buffer, incoming);
    EventsIncrementally(ParserOf(client), buffer, AllText(client, incoming));
  }

  lemma {:induction false} LaterDependsOnTextOnly(client: Client, buffer: string, incoming: seq<Chunk>)
    ensures OnlyEvents(Later(client, Residue(buffer), incoming))
         == Events(Payloads(ParserOf(client), Blocks(Residue(buffer) + AllText(client, incoming))))
    decreases incoming, 0
  {
    var residue := Residue(buffer);
    if incoming == [] {
      BlocksCover(buffer);
      CutNever(residue);
      assert residue + AllText(client, incoming) == residue;
    } else {
      var text := TextOf(client, incoming[0]);
      EventsDependOnTextOnly(client, residue + text, incoming[1..]);
      OnlyEventsConcat(ErrorOf(incoming[0]), Outputs(client, residue + text, incoming[1..]));
      OnlyError(incoming[0]);
      Associate(residue, text, AllText(client, incoming[1..]));
    }
  }

  lemma OnlyError(c: Chunk)
    ensures OnlyEvents(ErrorOf(c)) == []
  {}

  lemma {:induction false} NoErrorNoLoss(client: Client, buffer: string, incoming: seq<Chunk>)
    requires forall i :: 0 <= i < |incoming| ==> !incoming[i].Broken?
    ensures forall i :: 0 <= i < |Outputs(client, buffer, incoming)| ==> Outputs(client, buffer, incoming)[i].Event?
    decreases incoming
  {
    if incoming != [] {
      NoErrorNoLoss(client, Residue(buffer) + TextOf(client, incoming[0]), incoming[1..]);
      assert Later(client, Residue(buffer), incoming)
          == Outputs(client, Residue(buffer) + TextOf(client, incoming[0]), incoming[1..]);
    }
  }

  lemma OutputsOfText(client: Client, chunks: seq<Chunk>)
    requires forall i :: 0 <= i < |chunks| ==> !chunks[i].Broken?
    ensures Outputs(client, "", chunks) == Events(Payloads(ParserOf(client), Blocks(AllText(client, chunks))))
  {
    EventsDependOnTextOnly(client, "", chunks);
    NoErrorNoLoss(client, "", chunks);
    OnlyEventsOfEvents(Outputs(client, "", chunks));
    assert "" + AllText(client, chunks) == AllText(client, chunks);
  }

  lemma OutputsOfOneChunk(client: Client, s: string)
    ensures Outputs(client, "", [Valid(s)]) == Events(Payloads(ParserOf(client), Blocks(s)))
  {
    OutputsOfText(client, [Valid(s)]);
    assert AllText(client, [Valid(s)]) == s + AllText(client, []) == s;
  }

  /** Chunking independence: however valid text is cut, the stream yields what one chunk would. */
  lemma ChunkingIndependence(client: Client, chunks: seq<Chunk>, text: string)
    requires forall i :: 0 <= i < |chunks| ==> chunks[i].Valid?
    requires text == AllText(client, chunks)
    ensures Outputs(client, "", chunks) == Events(Payloads(ParserOf(client), Blocks(text)))
    ensures Outputs(client, "", chunks) == Outputs(client, "", [Valid(text)])
  {
    OutputsOfText(client, chunks);
    OutputsOfOneChunk(client, text);
  }

  /** The error the body stream breaks with is passed on, each once and in order. */
  lemma {:induction false} ErrorsPassThrough(client: Client, buffer: string, incoming: seq<Chunk>)
    ensures OnlyErrors(Outputs(client, buffer, incoming)) == BodyErrors(incoming)
    decreases incoming
  {
    var now := Events(Payloads(ParserOf(client), Blocks(buffer)));
    OnlyErrorsConcat(now, Later(client, Residue(buffer), incoming));
    NoErrors(now);
    if incoming != [] {
      var text := TextOf(client, incoming[0]);
      ErrorsPassThrough(client, Residue(buffer) + text, incoming[1..]);
      OnlyErrorsConcat(ErrorOf(incoming[0]), Outputs(client, Residue(buffer) + text, incoming[1..]));
    }
  }

  function BodyErrors(chunks: seq<Chunk>): seq<Output> {
    if chunks == [] then []
    else (match chunks[0] case Broken(e) => [StreamError(e)] case _ => []) + BodyErrors(chunks[1..])
  }

  function OnlyErrors(outputs: seq<Output>): seq<Output> {
    if outputs == [] then []
    else (if outputs[0].StreamError? then [outputs[0]] else []) + OnlyErrors(outputs[1..])
  }

  lemma {:induction false} OnlyErrorsConcat(a: seq<Output>, b: seq<Output>)
    ensures OnlyErrors(a + b) == OnlyErrors(a) + OnlyErrors(b)
  {
    if a == [] {
      assert a + b == b;
    } else {
      OnlyErrorsConcat(a[1..], b);
      assert (a + b)[1..] == a[1..] + b;
      Associate(if a[0].StreamError? then [a[0]] else [], OnlyErrors(a[1..]), OnlyErrors(b));
    }
  }

  lemma {:induction false} NoErrors(outputs: seq<Output>)
    requires forall i :: 0 <= i < |outputs| ==> outputs[i].Event?
    ensures OnlyErrors(outputs) == []
  {
    if outputs != [] { NoErrors(outputs[1..]); }
  }

  /** A chunk that is not UTF-8: as if it were not there (JSON-RPC), or its lossy decoding (REST). */
  lemma MalformedChunk(client: Client, before: seq<Chunk>, lossy: string, after: seq<Chunk>)
    ensures OnlyEvents(Outputs(client, "", before + ([Malformed(lossy)] + after))) ==
            OnlyEvents(Outputs(client, "", before + if client.JsonRpc? then after else [Valid(lossy)] + after))
  {
    var rest := if client.JsonRpc? then after else [Valid(lossy)] + after;
    EventsDependOnTextOnly(client, "", before + ([Malformed(lossy)] + after));
    EventsDependOnTextOnly(client, "", before + rest);
    AllTextConcat(client, before, [Malformed(lossy)] + after);
    AllTextConcat(client, before, rest);
    SameText(client, lossy, after);
  }

  lemma SameText(client: Client, lossy: string, after: seq<Chunk>)
    ensures AllText(client, [Malformed(lossy)] + after) ==
            AllText(client, if client.JsonRpc? then after else [Valid(lossy)] + after)
  {
    assert ([Malformed(lossy)] + after)[1..] == after && ([Valid(lossy)] + after)[1..] == after;
  }

  lemma {:induction false} AllTextConcat(client: Client, a: seq<Chunk>, b: seq<Chunk>)
    ensures AllText(client, a + b) == AllText(client, a) + AllText(client, b)
  {
    if a == [] {
      assert a + b == b;
    } else {
      AllTextConcat(client, a[1..], b);
      assert (a + b)[1..] == a[1..] + b;
      Associate(TextOf(client, a[0]), AllText(client, a[1..]), AllText(client, b));
    }
  }

  // ---- Framing round trip ------------------------------------------------------------------

  /** What the server writes: one data line per event, and comment blocks as keep-alive. */
  datatype Frame = Data(payload: string) | KeepAlive(comment: string)

  function BlockOf(f: Frame): string {
    match f
    case Data(p) => "data: " + p
    case KeepAlive(c) => ":" + c
  }

  function BlocksOf(frames: seq<Frame>): (r: seq<string>)
    ensures |r| == |frames| && forall i :: 0 <= i < |r| ==> r[i] == BlockOf(frames[i])
  {
    seq(|frames|, i requires 0 <= i < |frames| => BlockOf(frames[i]))
  }

  function DataOf(frames: seq<Frame>): seq<string> {
    if frames == [] then []
    else (if frames[0].Data? then [frames[0].payload] else []) + DataOf(frames[1..])
  }

  /** A single line; a payload must not be empty, and for the trimming client not begin or end with whitespace. */
  predicate Transmittable(client: Client, f: Frame) {
    match f
    case Data(p) => p != "" && '\n' !in p && (client.JsonRpc? ==> IsTrimmed(p))
    case KeepAlive(c) => '\n' !in c
  }

  lemma SingleLine(s: string)
    requires s != "" && '\n' !in s
    ensures Lines(s) == [s] && Clean(s)
  {}

  lemma DataValuesOne(client: Client, line: string)
    ensures DataValues(client, [line]) == match DataValue(client, line) case Some(v) => [v] case None => []
  {
    assert [line][..0] == [];
  }

  lemma DataLineValue(client: Client, p: string)
    ensures DataValue(client, "data: " + p) == Some(if client.JsonRpc? then Trim(p) else p)
  {
    var line := "data: " + p;
    assert line[|"data:"|..] == " " + p && line[|"data: "|..] == p;
    assert (" " + p)[1..] == p;
    assert TrimStart(" " + p) == TrimStart(p);
  }

  /** A one-line data block carries its payload, trimmed by the JSON-RPC client only. */
  lemma DataBlockPayload(client: Client, p: string)
    requires '\n' !in p
    ensures var v := if client.JsonRpc? then Trim(p) else p;
            Payload(client, "data: " + p) == if v == "" then None else Some(v)
  {
    SingleLine("data: " + p);
    DataValuesOne(client, "data: " + p);
    DataLineValue(client, p);
    var v := if client.JsonRpc? then Trim(p) else p;
    assert [v][1..] == [];
    assert SkipEmpty([v]) == if v == "" then [] else [v];
  }

  lemma FramePayload(client: Client, f: Frame)
    requires Transmittable(client, f)
    ensures Payload(client, BlockOf(f)) == if f.Data? then Some(f.payload) else None
    ensures Clean(BlockOf(f))
  {
    match f
    case Data(p) =>
      DataBlockPayload(client, p);
      TrimmedIff(p);
      SingleLine(BlockOf(f));
    case KeepAlive(c) =>
      SingleLine(BlockOf(f));
      DataValuesOne(client, BlockOf(f));
      assert BlockOf(f)[0] == ':';
      assert "data:"[0] == 'd' && "data: "[0] == 'd';
  }

  lemma {:induction false} FramesPayloads(client: Client, frames: seq<Frame>)
    requires forall i :: 0 <= i < |frames| ==> Transmittable(client, frames[i])
    ensures Payloads(ParserOf(client), BlocksOf(frames)) == DataOf(frames)
  {
    if frames != [] {
      FramePayload(client, frames[0]);
      FramesPayloads(client, frames[1..]);
      assert BlocksOf(frames)[1..] == BlocksOf(frames[1..]);
    }
  }

  /** Frames, cut into chunks anywhere, are decoded to exactly their payloads by both clients. */
  lemma FrameRoundTrip(client: Client, frames: seq<Frame>, chunks: seq<Chunk>)
    requires forall i :: 0 <= i < |frames| ==> Transmittable(client, frames[i])
    requires forall i :: 0 <= i < |chunks| ==> chunks[i].Valid?
    requires AllText(client, chunks) == Text(BlocksOf(frames))
    ensures Outputs(client, "", chunks) == Events(DataOf(frames))
  {
    ChunkingIndependence(client, chunks, Text(BlocksOf(frames)));
    forall i | 0 <= i < |frames| ensures Clean(BlocksOf(frames)[i]) { FramePayload(client, frames[i]); }
    BlocksAreUnique(BlocksOf(frames), "");
    assert Text(BlocksOf(frames)) + "" == Text(BlocksOf(frames));
    FramesPayloads(client, frames);
  }

  /**
   The condition is exact: a one-line payload survives exactly when it is not empty and, with the
   JSON-RPC client, neither its first nor its last character is whitespace.
   */
  lemma PayloadSurvivesIff(client: Client, p: string)
    requires '\n' !in p
    ensures Payload(client, BlockOf(Data(p))) == Some(p) <==>
            p != "" && (client.JsonRpc? ==> !IsWhitespace(p[0]) && !IsWhitespace(p[|p| - 1]))
    ensures Payload(client, BlockOf(Data(p))) == Some(p) <==> Transmittable(client, Data(p))
  {
    DataBlockPayload(client, p);
    TrimmedIff(p);
  }

  /** The standard also allows CRLF line ends; a stream that uses them never delivers anything here. */
  lemma CarriageReturnsStall(client: Client, s: string)
    requires forall i :: 0 <= i < |s| && s[i] == '\n' ==> i > 0 && s[i - 1] == '\r'
    ensures Outputs(client, "", [Valid(s)]) == []
  {
    forall j | 0 <= j < |s| ensures !DelimiterAt(s, j) {
      assert j + 1 < |s| && s[j + 1] == '\n' ==> s[j] == '\r';
    }
    CutNever(s);
    OutputsOfOneChunk(client, s);
  }
}
