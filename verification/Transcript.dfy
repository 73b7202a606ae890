// Messages, and packages/ai/src/utils/transcript-validation.ts: the check made before every provider call.

module Messages {
  import opened Wrappers

  datatype StopReason = Stop | Length | ToolUse | Error | Aborted

  datatype ToolCall = ToolCall(id: string, name: string, arguments: string)

  datatype Block = TextBlock(text: string) | ThinkingBlock(thinking: string) | CallBlock(call: ToolCall)

  /** `Custom` stands for the messages an application adds; they are never sent to a model. */
  datatype Message =
    | User(text: string)
    | Assistant(content: seq<Block>, stopReason: StopReason, errorMessage: Option<string>)
    | ToolResult(toolCallId: string, toolName: string, output: Option<string>, isError: bool)
    | Custom(text: string)

  function CallsIn(content: seq<Block>): seq<ToolCall> {
    if content == [] then []
    else if content[0].CallBlock? then [content[0].call] + CallsIn(content[1..])
    else CallsIn(content[1..])
  }

  function ToolCalls(m: Message): seq<ToolCall> {
    if m.Assistant? then CallsIn(m.content) else []
  }

  predicate Failed(m: Message) {
    m.Assistant? && (m.stopReason == Error || m.stopReason == Aborted)
  }

  /** `defaultConvertToLlm`. */
  function ConvertToLlm(messages: seq<Message>): seq<Message> {
    if messages == [] then []
    else if messages[0].Custom? then ConvertToLlm(messages[1..])
    else [messages[0]] + ConvertToLlm(messages[1..])
  }

  lemma {:induction false} ConvertFirst(m: Message, rest: seq<Message>)
    ensures ConvertToLlm([m] + rest) == (if m.Custom? then [] else [m]) + ConvertToLlm(rest)
  {
    assert ([m] + rest)[1..] == rest;
  }

  lemma {:induction false} ConvertConcat(a: seq<Message>, b: seq<Message>)
    ensures ConvertToLlm(a + b) == ConvertToLlm(a) + ConvertToLlm(b)
  {
    if a == [] {
      assert a + b == b;
    } else {
      ConvertConcat(a[1..], b);
      ConvertFirst(a[0], a[1..]);
      ConvertFirst(a[0], a[1..] + b);
      assert a == [a[0]] + a[1..] && a + b == [a[0]] + (a[1..] + b);
    }
  }
}

module Transcript {
  import opened Wrappers
  import opened Messages

  predicate IsSpace(c: char) {
    || c == ' ' || '\t' <= c <= '\r' || c == '\U{A0}' || c == '\U{1680}' || '\U{2000}' <= c <= '\U{200A}'
    || c == '\U{2028}' || c == '\U{2029}' || c == '\U{202F}' || c == '\U{205F}' || c == '\U{3000}' || c == '\U{FEFF}'
  }

  /** `!id || id.trim().length === 0`. */
  predicate Blank(id: string) {
    forall i :: 0 <= i < |id| ==> IsSpace(id[i])
  }

  /** What the validator has seen. `pending` is the current span, empty when there is none; the four error lists
      are kept as multisets because only their contents are reported. */
  datatype Scan = Scan(
    pending: set<string>,
    seen: set<string>,
    answered: set<string>,
    missing: multiset<string>,
    duplicateResults: multiset<string>,
    orphans: multiset<string>,
    duplicateCalls: multiset<string>)

  const START := Scan({}, {}, {}, multiset{}, multiset{}, multiset{}, multiset{})

  function Flush(s: Scan): Scan {
    s.(missing := s.missing + multiset(s.pending))
  }

  function ReadCall(s: Scan, id: string): Scan {
    if Blank(id) then s.(missing := s.missing + multiset{"<empty>"})
    else
      var s' := if id in s.seen then s.(duplicateCalls := s.duplicateCalls + multiset{id}) else s.(seen := s.seen + {id});
      s'.(pending := s'.pending + {id})
  }

  function ReadCalls(s: Scan, calls: seq<ToolCall>): Scan {
    if calls == [] then s else ReadCall(ReadCalls(s, calls[..|calls| - 1]), calls[|calls| - 1].id)
  }

  function ReadResult(s: Scan, id: string): Scan {
    if Blank(id) then s.(orphans := s.orphans + multiset{"<empty>"})
    else if id in s.pending then s.(pending := s.pending - {id}, answered := s.answered + {id})
    else if id in s.answered then s.(duplicateResults := s.duplicateResults + multiset{id})
    else s.(orphans := s.orphans + multiset{id})
  }

  function ReadMessage(s: Scan, m: Message): Scan {
    match m
    case Assistant(_, _, _) =>
      if Failed(m) then s
      else if ToolCalls(m) == [] then Flush(s)
      else ReadCalls(Flush(s).(pending := {}), ToolCalls(m))
    case ToolResult(id, _, _, _) => ReadResult(s, id)
    case User(_) => Flush(s).(pending := {})
    case Custom(_) => s
  }

  function ReadAll(messages: seq<Message>): Scan {
    if messages == [] then START
    else ReadMessage(ReadAll(messages[..|messages| - 1]), messages[|messages| - 1])
  }

  predicate Clean(s: Scan) {
    s.missing == multiset{} && s.duplicateResults == multiset{} && s.orphans == multiset{} && s.duplicateCalls == multiset{}
  }

  predicate Valid(messages: seq<Message>) {
    Clean(Flush(ReadAll(messages)))
  }

  /** Both validators run this loop; they differ only in the names they report. */
  method Validate(messages: seq<Message>) returns (ok: bool, scan: Scan)
    ensures ok == Valid(messages)
    ensures scan == Flush(ReadAll(messages))
  {
    var pending, seen, answered: set<string> := {}, {}, {};
    var missing, duplicates, orphans, duplicateCalls: multiset<string> := multiset{}, multiset{}, multiset{}, multiset{};
    for i := 0 to |messages|
      invariant Scan(pending, seen, answered, missing, duplicates, orphans, duplicateCalls) == ReadAll(messages[..i])
    {
      var m := messages[i];
      ghost var before := ReadAll(messages[..i]);
      assert messages[..i + 1][..i] == messages[..i];
      if m.Assistant? {
        if !Failed(m) {
          missing := missing + multiset(pending);
          var calls := ToolCalls(m);
          if |calls| > 0 {
            pending := {};
            for k := 0 to |calls|
              invariant Scan(pending, seen, answered, missing, duplicates, orphans, duplicateCalls)
                        == ReadCalls(Flush(before).(pending := {}), calls[..k])
            {
              assert calls[..k + 1][..k] == calls[..k];
              var id := calls[k].id;
              if Blank(id) {
                missing := missing + multiset{"<empty>"};
              } else {
                if id in seen {
                  duplicateCalls := duplicateCalls + multiset{id};
                } else {
                  seen := seen + {id};
                }
                pending := pending + {id};
              }
            }
            assert calls[..|calls|] == calls;
          }
        }
      } else if m.ToolResult? {
        var id := m.toolCallId;
        if Blank(id) {
          orphans := orphans + multiset{"<empty>"};
        } else if id in pending {
          pending := pending - {id};
          answered := answered + {id};
        } else if id in answered {
          duplicates := duplicates + multiset{id};
        } else {
          orphans := orphans + multiset{id};
        }
      } else if m.User? {
        missing := missing + multiset(pending);
        pending := {};
      }
    }
    assert messages[..|messages|] == messages;
    missing := missing + multiset(pending);
    scan := Scan(pending, seen, answered, missing, duplicates, orphans, duplicateCalls);
    ok := missing == multiset{} && duplicates == multiset{} && orphans == multiset{} && duplicateCalls == multiset{};
  }

  // ----- Reference definition: blocks of calls followed by their results -----

  /** Messages the pairing depends on: failed replies and custom messages do not count. */
  function Relevant(messages: seq<Message>): seq<Message> {
    if messages == [] then []
    else
      var m := messages[|messages| - 1];
      Relevant(messages[..|messages| - 1]) + if m.Custom? || Failed(m) then [] else [m]
  }

  function Ids(calls: seq<ToolCall>): seq<string> {
    seq(|calls|, i requires 0 <= i < |calls| => calls[i].id)
  }

  function ResultIds(messages: seq<Message>): seq<string> {
    seq(|messages|, i requires 0 <= i < |messages| => if messages[i].ToolResult? then messages[i].toolCallId else "")
  }

  predicate AllResults(messages: seq<Message>) {
    forall i :: 0 <= i < |messages| ==> messages[i].ToolResult?
  }

  function SetOf(ids: seq<string>): set<string> {
    set id | id in ids
  }

  /** The ids of one reply: none blank, no two equal, none used before. */
  predicate FreshIds(ids: seq<string>, seen: set<string>) {
    && (forall i :: 0 <= i < |ids| ==> !Blank(ids[i]) && ids[i] !in seen)
    && (forall i, j :: 0 <= i < j < |ids| ==> ids[i] != ids[j])
  }

  /** Every call of a reply is answered once, in the block right after it, and there is no other result. */
  predicate Paired(messages: seq<Message>, seen: set<string>)
    decreases |messages|
  {
    if messages == [] then true
    else
      var ids := Ids(ToolCalls(messages[0]));
      var n := |ids|;
      && !messages[0].ToolResult?
      && FreshIds(ids, seen)
      && 1 + n <= |messages|
      && AllResults(messages[1..1 + n])
      && multiset(ResultIds(messages[1..1 + n])) == multiset(ids)
      && Paired(messages[1 + n..], seen + SetOf(ids))
  }
}
