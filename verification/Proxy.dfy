// packages/agent/src/proxy.ts: rebuilding a message from stripped events, read line by line from a chunked stream.

module ProxyEvents {
  import opened Wrappers

  datatype Kind = TextKind | ThinkingKind | ToolKind

  /** A content block. `partialJson` is the property a tool call carries while it streams. */
  datatype Block =
    | TextBlock(text: string, textSignature: Option<string>)
    | ThinkingBlock(thinking: string, thinkingSignature: Option<string>)
    | ToolBlock(id: string, name: string, arguments: string, partialJson: Option<string>)

  datatype StopReason = Stop | Length | ToolUse | Aborted | Error

  datatype ProxyEvent =
    | Start
    | TextStart(index: nat)
    | TextDelta(index: nat, delta: string)
    | TextEnd(index: nat, signature: Option<string>)
    | ThinkingStart(index: nat)
    | ThinkingDelta(index: nat, delta: string)
    | ThinkingEnd(index: nat, signature: Option<string>)
    | ToolStart(index: nat, id: string, name: string)
    | ToolDelta(index: nat, delta: string)
    | ToolEnd(index: nat)
    | Done(reason: StopReason, usage: string)
    | Failed(reason: StopReason, errorMessage: Option<string>, usage: string)

  /** What is pushed to the consumer. */
  datatype ClientEvent =
    | Started
    | BlockStarted(kind: Kind, index: nat)
    | Delta(kind: Kind, index: nat, delta: string)
    | BlockEnded(kind: Kind, index: nat, content: string)
    | ToolEnded(index: nat, call: Block)
    | Finished(reason: StopReason)
    | Errored(reason: StopReason)

  datatype Outcome = Emitted(event: ClientEvent) | Nothing | Thrown(message: string)

  /** The partial message: `content` is a sparse array. */
  datatype Message = Message(content: map<nat, Block>, stopReason: StopReason, errorMessage: Option<string>, usage: string)

  const NO_ARGUMENTS := "{}"

  /** `parseStreamingJson`; `None` stands for a falsy result. */
  type Parser = string -> Option<string>

  predicate HasIndex(ev: ProxyEvent) {
    !ev.Start? && !ev.Done? && !ev.Failed?
  }

  // ----- One block -----

  /** A block after an event for its index; `None` is the thrown error. */
  function BlockStep(parser: Parser, b: Option<Block>, ev: ProxyEvent): Option<Option<Block>>
    requires HasIndex(ev)
  {
    match ev
    case TextStart(_) => Some(Some(TextBlock("", None)))
    case TextDelta(_, d) =>
      if b.Some? && b.value.TextBlock? then Some(Some(b.value.(text := b.value.text + d))) else None
    case TextEnd(_, s) =>
      if b.Some? && b.value.TextBlock? then Some(Some(b.value.(textSignature := s))) else None
    case ThinkingStart(_) => Some(Some(ThinkingBlock("", None)))
    case ThinkingDelta(_, d) =>
      if b.Some? && b.value.ThinkingBlock? then Some(Some(b.value.(thinking := b.value.thinking + d))) else None
    case ThinkingEnd(_, s) =>
      if b.Some? && b.value.ThinkingBlock? then Some(Some(b.value.(thinkingSignature := s))) else None
    case ToolStart(_, id, name) => Some(Some(ToolBlock(id, name, NO_ARGUMENTS, Some(""))))
    case ToolDelta(_, d) =>
      if b.Some? && b.value.ToolBlock? then
        // After the end event the property is gone, and JavaScript appends to "undefined".
        var json := b.value.partialJson.GetOr("undefined") + d;
        Some(Some(b.value.(partialJson := Some(json), arguments := parser(json).GetOr(NO_ARGUMENTS))))
      else None
    case ToolEnd(_) => if b.Some? && b.value.ToolBlock? then Some(Some(b.value.(partialJson := None))) else Some(b)
  }

  function At(content: map<nat, Block>, i: nat): Option<Block> {
    if i in content then Some(content[i]) else None
  }

  function Put(content: map<nat, Block>, i: nat, b: Option<Block>): map<nat, Block> {
    if b.Some? then content[i := b.value] else content
  }

  function Report(ev: ProxyEvent, b: Option<Block>): Outcome {
    match ev
    case Start => Emitted(Started)
    case TextStart(i) => Emitted(BlockStarted(TextKind, i))
    case TextDelta(i, d) => Emitted(Delta(TextKind, i, d))
    case TextEnd(i, _) => if b.Some? && b.value.TextBlock? then Emitted(BlockEnded(TextKind, i, b.value.text)) else Nothing
    case ThinkingStart(i) => Emitted(BlockStarted(ThinkingKind, i))
    case ThinkingDelta(i, d) => Emitted(Delta(ThinkingKind, i, d))
    case ThinkingEnd(i, _) => if b.Some? && b.value.ThinkingBlock? then Emitted(BlockEnded(ThinkingKind, i, b.value.thinking)) else Nothing
    case ToolStart(i, _, _) => Emitted(BlockStarted(ToolKind, i))
    case ToolDelta(i, d) => Emitted(Delta(ToolKind, i, d))
    case ToolEnd(i) => if b.Some? && b.value.ToolBlock? then Emitted(ToolEnded(i, b.value)) else Nothing
    case Done(reason, _) => Emitted(Finished(reason))
    case Failed(reason, _, _) => Emitted(Errored(reason))
  }

  function MismatchError(ev: ProxyEvent): string {
    match ev
    case TextDelta(_, _) => "Received text_delta for non-text content"
    case TextEnd(_, _) => "Received text_end for non-text content"
    case ThinkingDelta(_, _) => "Received thinking_delta for non-thinking content"
    case ThinkingEnd(_, _) => "Received thinking_end for non-thinking content"
    case _ => "Received toolcall_delta for non-toolCall content"
  }

  /** `processProxyEvent`: the message after an event, and what is returned or thrown. */
  function Step(parser: Parser, m: Message, ev: ProxyEvent): (Message, Outcome) {
    match ev
    case Start => (m, Report(ev, None))
    case Done(reason, usage) => (m.(stopReason := reason, usage := usage), Report(ev, None))
    case Failed(reason, message, usage) =>
      (m.(stopReason := reason, errorMessage := message, usage := usage), Report(ev, None))
    case _ =>
      var b := BlockStep(parser, At(m.content, ev.index), ev);
      if b.None? then (m, Thrown(MismatchError(ev)))
      else (m.(content := Put(m.content, ev.index, b.value)), Report(ev, b.value))
  }

  /** The partial message, as `processProxyEvent` updates it. */
  class PartialMessage {
    var content: map<nat, Block>
    var stopReason: StopReason
    var errorMessage: Option<string>
    var usage: string

    constructor ()
      ensures View() == Message(map[], Stop, None, "")
    {
      content := map[];
      stopReason := Stop;
      errorMessage := None;
      usage := "";
    }

    ghost function View(): Message
      reads this
    {
      Message(content, stopReason, errorMessage, usage)
    }

    /** `processProxyEvent`. */
    method Process(ev: ProxyEvent, parser: Parser) returns (r: Outcome)
      modifies this
      ensures (View(), r) == Step(parser, old(View()), ev)
    {
      match ev {
        case Start => r := Emitted(Started);
        case TextStart(i) =>
          content := content[i := TextBlock("", None)];
          r := Emitted(BlockStarted(TextKind, i));
        case TextDelta(i, d) =>
          if i in content && content[i].TextBlock? {
            content := content[i := content[i].(text := content[i].text + d)];
            r := Emitted(Delta(TextKind, i, d));
          } else {
            r := Thrown("Received text_delta for non-text content");
          }
        case TextEnd(i, s) =>
          if i in content && content[i].TextBlock? {
            content := content[i := content[i].(textSignature := s)];
            r := Emitted(BlockEnded(TextKind, i, content[i].text));
          } else {
            r := Thrown("Received text_end for non-text content");
          }
        case ThinkingStart(i) =>
          content := content[i := ThinkingBlock("", None)];
          r := Emitted(BlockStarted(ThinkingKind, i));
        case ThinkingDelta(i, d) =>
          if i in content && content[i].ThinkingBlock? {
            content := content[i := content[i].(thinking := content[i].thinking + d)];
            r := Emitted(Delta(ThinkingKind, i, d));
          } else {
            r := Thrown("Received thinking_delta for non-thinking content");
          }
        case ThinkingEnd(i, s) =>
          if i in content && content[i].ThinkingBlock? {
            content := content[i := content[i].(thinkingSignature := s)];
            r := Emitted(BlockEnded(ThinkingKind, i, content[i].thinking));
          } else {
            r := Thrown("Received thinking_end for non-thinking content");
          }
        case ToolStart(i, id, name) =>
          content := content[i := ToolBlock(id, name, NO_ARGUMENTS, Some(""))];
          r := Emitted(BlockStarted(ToolKind, i));
        case ToolDelta(i, d) =>
          if i in content && content[i].ToolBlock? {
            var json := content[i].partialJson.GetOr("undefined") + d;
            content := content[i := content[i].(partialJson := Some(json), arguments := parser(json).GetOr(NO_ARGUMENTS))];
            r := Emitted(Delta(ToolKind, i, d));
          } else {
            r := Thrown("Received toolcall_delta for non-toolCall content");
          }
        case ToolEnd(i) =>
          if i in content && content[i].ToolBlock? {
            content := content[i := content[i].(partialJson := None)];
            r := Emitted(ToolEnded(i, content[i]));
          } else {
            assert Put(content, i, At(content, i)) == content;
            r := Nothing;
          }
        case Done(reason, newUsage) =>
          stopReason := reason;
          usage := newUsage;
          r := Emitted(Finished(reason));
        case Failed(reason, message, newUsage) =>
          stopReason := reason;
          errorMessage := message;
          usage := newUsage;
          r := Emitted(Errored(reason));
      }
    }
  }
}

module ProxyLines {
  import opened Wrappers
  import opened ProxyEvents
  import Transcript

  // ----- Lines -----

  /** `text.split("\n")`. */
  function Split(text: string): (parts: seq<string>)
    ensures |parts| > 0
  {
    if text == "" then [""]
    else if text[0] == '\n' then [""] + Split(text[1..])
    else
      var rest := Split(text[1..]);
      [[text[0]] + rest[0]] + rest[1..]
  }

  /** The newline-terminated lines of a text, and what follows the last newline. */
  function Lines(text: string): seq<string> {
    var parts := Split(text);
    parts[..|parts| - 1]
  }

  function Rest(text: string): string {
    var parts := Split(text);
    parts[|parts| - 1]
  }

  predicate NoBreak(s: string) {
    '\n' !in s
  }

  function Terminated(lines: seq<string>): string {
    if lines == [] then "" else lines[0] + "\n" + Terminated(lines[1..])
  }

  /** Nothing is lost or added: the lines with their newlines and the rest are the text. */
  lemma {:induction false} SplitExact(text: string)
    ensures Terminated(Lines(text)) + Rest(text) == text
    ensures NoBreak(Rest(text)) && forall i :: 0 <= i < |Lines(text)| ==> NoBreak(Lines(text)[i])
  {
    if text != "" {
      SplitExact(text[1..]);
      var parts, rest := Split(text), Split(text[1..]);
      var lines := Lines(text[1..]);
      if text[0] == '\n' {
        assert Lines(text) == [""] + lines;
        assert Lines(text)[1..] == lines;
      } else if |rest| == 1 {
        assert Lines(text) == [] && lines == [];
      } else {
        assert Lines(text) == [[text[0]] + lines[0]] + lines[1..];
        assert Lines(text)[1..] == lines[1..];
      }
    }
  }

  /** One more character in front of a split text. */
  function Front(c: char, parts: seq<string>): (r: seq<string>)
    requires |parts| > 0
    ensures |r| > 0
  {
    if c == '\n' then [""] + parts else [[c] + parts[0]] + parts[1..]
  }

  lemma SplitFront(c: char, s: string)
    ensures Split([c] + s) == Front(c, Split(s))
  {
    assert ([c] + s)[1..] == s;
  }

  lemma FrontAppends(c: char, lines: seq<string>, last: string, tail: seq<string>)
    requires |tail| > 0 && (lines != [] || c == '\n')
    ensures var parts := Front(c, lines + [last]);
      && Front(c, lines + tail) == parts[..|parts| - 1] + tail
      && parts[|parts| - 1] == last
  {
  }

  lemma {:induction false} FirstLineGrows(c: char, t: string, b: string)
    requires c != '\n' && |Split(t)| == 1 && Split(t + b) == Split(Rest(t) + b)
    ensures Split([c] + (t + b)) == Lines([c] + t) + Split(Rest([c] + t) + b)
  {
    var r := Rest(t);
    SplitFront(c, t);
    SplitFront(c, t + b);
    SplitFront(c, r + b);
    assert Split([c] + t) == [[c] + r];
    assert ([c] + r) + b == [c] + (r + b);
  }

  lemma {:induction false} LinesGrow(c: char, t: string, b: string)
    requires c == '\n' || |Split(t)| > 1
    requires Split(t + b) == Lines(t) + Split(Rest(t) + b)
    ensures Split([c] + (t + b)) == Lines([c] + t) + Split(Rest([c] + t) + b)
  {
    var lines, last, tail := Lines(t), Rest(t), Split(Rest(t) + b);
    SplitFront(c, t);
    SplitFront(c, t + b);
    assert Split(t) == lines + [last];
    FrontAppends(c, lines, last, tail);
  }

  lemma {:induction false} SplitJoins(a: string, b: string)
    ensures Split(a + b) == Lines(a) + Split(Rest(a) + b)
  {
    if a == "" {
      assert a + b == b && Rest(a) + b == b;
    } else {
      SplitJoins(a[1..], b);
      assert a == [a[0]] + a[1..] && a + b == [a[0]] + (a[1..] + b);
      if a[0] != '\n' && |Split(a[1..])| == 1 {
        FirstLineGrows(a[0], a[1..], b);
      } else {
        LinesGrow(a[0], a[1..], b);
      }
    }
  }

  /** A chunk adds the lines it completes, and only the rest of the text before it matters. */
  lemma ChunkAdds(before: string, chunk: string)
    ensures Lines(before + chunk) == Lines(before) + Lines(Rest(before) + chunk)
    ensures Rest(before + chunk) == Rest(Rest(before) + chunk)
  {
    SplitJoins(before, chunk);
  }

  function Concat(chunks: seq<string>): string {
    if chunks == [] then "" else Concat(chunks[..|chunks| - 1]) + chunks[|chunks| - 1]
  }

  // ----- One line -----

  function TrimStart(s: string): string {
    if s != "" && Transcript.IsSpace(s[0]) then TrimStart(s[1..]) else s
  }

  function TrimEnd(s: string): string {
    if s != "" && Transcript.IsSpace(s[|s| - 1]) then TrimEnd(s[..|s| - 1]) else s
  }

  const DATA := "data: "

  /** The payload of a line, if it has one. */
  function Payload(line: string): Option<string> {
    if DATA <= line then
      var data := TrimEnd(TrimStart(line[|DATA|..]));
      if data == "" then None else Some(data)
    else None
  }

  /** `JSON.parse` of a payload; `Unknown` is an event of another type, which is ignored. */
  datatype Parsed = Event(event: ProxyEvent) | Unknown | Malformed(message: string)

  datatype Codec = Codec(json: string -> Parsed, arguments: Parser)

  /** The message, the events pushed so far, and the error that ended the reading. */
  datatype Client = Client(message: Message, pushed: seq<ClientEvent>, thrown: Option<string>)

  function ReadLine(codec: Codec, c: Client, line: string): Client {
    var data := Payload(line);
    if c.thrown.Some? || data.None? then c
    else match codec.json(data.value)
      case Malformed(message) => c.(thrown := Some(message))
      case Unknown => c
      case Event(ev) =>
        var step := Step(codec.arguments, c.message, ev);
        match step.1
        case Thrown(message) => c.(message := step.0, thrown := Some(message))
        case Nothing => c.(message := step.0)
        case Emitted(out) => c.(message := step.0, pushed := c.pushed + [out])
  }

  function ReadLines(codec: Codec, c: Client, lines: seq<string>): Client {
    if lines == [] then c else ReadLine(codec, ReadLines(codec, c, lines[..|lines| - 1]), lines[|lines| - 1])
  }

  lemma {:induction false} ReadLinesConcat(codec: Codec, c: Client, a: seq<string>, b: seq<string>)
    ensures ReadLines(codec, c, a + b) == ReadLines(codec, ReadLines(codec, c, a), b)
  {
    if b == [] {
      assert a + b == a;
    } else {
      ReadLinesConcat(codec, c, a, b[..|b| - 1]);
      assert (a + b)[..|a + b| - 1] == a + b[..|b| - 1];
    }
  }

  lemma {:induction false} ThrownStays(codec: Codec, c: Client, lines: seq<string>)
    requires c.thrown.Some?
    ensures ReadLines(codec, c, lines) == c
  {
    if lines != [] {
      ThrownStays(codec, c, lines[..|lines| - 1]);
    }
  }

  const FRESH := Client(Message(map[], Stop, None, ""), [], None)

  const ABORTED := "Request aborted by user"

  /** The end of `streamProxy`: an error is recorded in the message and pushed. */
  function Conclude(c: Client, aborted: bool): Client {
    if c.thrown.None? && !aborted then c
    else
      var reason := if c.thrown.None? then Aborted else Error;
      var message := c.thrown.GetOr(ABORTED);
      c.(message := c.message.(stopReason := reason, errorMessage := Some(message)),
         pushed := c.pushed + [Errored(reason)], thrown := Some(message))
  }

  /** The whole reading, as a function of the text that arrived before an abort. */
  function ReadText(codec: Codec, text: string, aborted: bool): Client {
    Conclude(ReadLines(codec, FRESH, Lines(text)), aborted)
  }

  class Reader {
    const codec: Codec
    const partial: PartialMessage
    var pushed: seq<ClientEvent>
    var thrown: Option<string>

    constructor (codec: Codec)
      ensures this.codec == codec && View() == FRESH && fresh(partial)
    {
      this.codec := codec;
      partial := new PartialMessage();
      pushed := [];
      thrown := None;
    }

    ghost function View(): Client
      reads this, partial
    {
      Client(partial.View(), pushed, thrown)
    }

    /** The body of the inner loop; an error leaves it. */
    method HandleLine(line: string)
      requires thrown.None?
      modifies this, partial
      ensures View() == ReadLine(codec, old(View()), line)
    {
      if DATA <= line {
        var data := TrimEnd(TrimStart(line[|DATA|..]));
        if data != "" {
          match codec.json(data) {
            case Malformed(message) => thrown := Some(message);
            case Unknown =>
            case Event(ev) =>
              var r := partial.Process(ev, codec.arguments);
              match r {
                case Thrown(message) => thrown := Some(message);
                case Nothing =>
                case Emitted(event) => pushed := pushed + [event];
              }
          }
        }
      }
    }

    method HandleLines(lines: seq<string>)
      requires thrown.None?
      modifies this, partial
      ensures View() == ReadLines(codec, old(View()), lines)
    {
      for i := 0 to |lines|
        invariant View() == ReadLines(codec, old(View()), lines[..i])
      {
        assert lines[..i + 1][..i] == lines[..i];
        if thrown.Some? {
          ThrownStays(codec, View(), lines[i..]);
          assert lines == lines[..i] + lines[i..];
          ReadLinesConcat(codec, old(View()), lines[..i], lines[i..]);
          return;
        }
        HandleLine(lines[i]);
      }
      assert lines[..|lines|] == lines;
    }

    /** The catch block of `streamProxy`. */
    method Fail(message: string, reason: StopReason)
      modifies this, partial
      ensures View() == Client(old(partial.View()).(stopReason := reason, errorMessage := Some(message)),
                               old(pushed) + [Errored(reason)], Some(message))
    {
      partial.stopReason := reason;
      partial.errorMessage := Some(message);
      pushed := pushed + [Errored(reason)];
      thrown := Some(message);
    }

    /** The read loop. From read number `abortedFrom` on the signal is aborted; the last check comes after the loop. The
        result depends on the text alone, not on how it was cut into chunks. */
    method ReadAll(chunks: seq<string>, abortedFrom: nat)
      requires View() == FRESH
      modifies this, partial
      ensures View() == ReadText(codec, Concat(chunks[..if abortedFrom < |chunks| then abortedFrom else |chunks|]), abortedFrom <= |chunks|)
    {
      var buffer := "";
      for i := 0 to |chunks|
        invariant i <= abortedFrom
        invariant View() == ReadLines(codec, FRESH, Lines(Concat(chunks[..i]))) && thrown.None?
        invariant buffer == Rest(Concat(chunks[..i]))
      {
        if abortedFrom <= i {
          Fail(ABORTED, Aborted);
          return;
        }
        assert chunks[..i + 1][..i] == chunks[..i];
        ChunkAdds(Concat(chunks[..i]), chunks[i]);
        buffer := buffer + chunks[i];
        var lines := Split(buffer);
        ReadLinesConcat(codec, FRESH, Lines(Concat(chunks[..i])), lines[..|lines| - 1]);
        buffer := lines[|lines| - 1];
        HandleLines(lines[..|lines| - 1]);
        if thrown.Some? {
          LaterChunks(codec, chunks, i + 1, if abortedFrom < |chunks| then abortedFrom else |chunks|);
          Fail(thrown.value, Error);
          return;
        }
      }
      assert chunks[..|chunks|] == chunks;
      if abortedFrom <= |chunks| {
        Fail(ABORTED, Aborted);
      }
    }
  }

  /** Once an error was thrown, later chunks change nothing. */
  lemma {:induction false} LaterChunks(codec: Codec, chunks: seq<string>, i: nat, n: nat)
    requires i <= n <= |chunks| && ReadLines(codec, FRESH, Lines(Concat(chunks[..i]))).thrown.Some?
    ensures ReadLines(codec, FRESH, Lines(Concat(chunks[..n]))) == ReadLines(codec, FRESH, Lines(Concat(chunks[..i])))
  {
    if i < n {
      LaterChunks(codec, chunks, i, n - 1);
      assert chunks[..n][..n - 1] == chunks[..n - 1];
      ChunkAdds(Concat(chunks[..n - 1]), chunks[n - 1]);
      var more := Lines(Rest(Concat(chunks[..n - 1])) + chunks[n - 1]);
      ReadLinesConcat(codec, FRESH, Lines(Concat(chunks[..n - 1])), more);
      ThrownStays(codec, ReadLines(codec, FRESH, Lines(Concat(chunks[..n - 1]))), more);
    }
  }
}
