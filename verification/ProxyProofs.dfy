// The message a proxy client rebuilds, against the events the server stripped.

module ProxyProofs {
  import opened Wrappers
  import opened ProxyEvents
  import opened ProxyLines
  import Transcript

  // ----- Blocks do not disturb each other -----

  /** The events for one content index. */
  function Project(events: seq<ProxyEvent>, i: nat): (r: seq<ProxyEvent>)
    ensures forall k :: 0 <= k < |r| ==> HasIndex(r[k]) && r[k].index == i
  {
    if events == [] then []
    else
      var last := events[|events| - 1];
      Project(events[..|events| - 1], i) + if HasIndex(last) && last.index == i then [last] else []
  }

  datatype BlockState = Threw | Live(block: Option<Block>)

  function FoldBlock(parser: Parser, events: seq<ProxyEvent>): BlockState {
    if events == [] then Live(None)
    else
      var before := FoldBlock(parser, events[..|events| - 1]);
      var last := events[|events| - 1];
      if before.Threw? || !HasIndex(last) then before
      else
        var b := BlockStep(parser, before.block, last);
        if b.None? then Threw else Live(b.value)
  }

  datatype Run = Run(message: Message, pushed: seq<ClientEvent>, thrown: bool)

  function RunEvent(parser: Parser, r: Run, ev: ProxyEvent): Run {
    if r.thrown then r
    else
      var step := Step(parser, r.message, ev);
      match step.1
      case Thrown(_) => Run(step.0, r.pushed, true)
      case Nothing => Run(step.0, r.pushed, false)
      case Emitted(out) => Run(step.0, r.pushed + [out], false)
  }

  /** All events, up to the first that throws. */
  function RunAll(parser: Parser, events: seq<ProxyEvent>): Run {
    if events == [] then Run(Message(map[], Stop, None, ""), [], false)
    else RunEvent(parser, RunAll(parser, events[..|events| - 1]), events[|events| - 1])
  }

  ghost predicate SomeBlockThrows(parser: Parser, events: seq<ProxyEvent>) {
    exists i: nat :: FoldBlock(parser, Project(events, i)).Threw?
  }

  ghost predicate BlocksAgree(parser: Parser, events: seq<ProxyEvent>, content: map<nat, Block>) {
    forall i: nat :: FoldBlock(parser, Project(events, i)) == Live(At(content, i))
  }

  lemma ProjectSnoc(events: seq<ProxyEvent>, ev: ProxyEvent, i: nat)
    ensures Project(events + [ev], i) == Project(events, i) + if HasIndex(ev) && ev.index == i then [ev] else []
  {
    assert (events + [ev])[..|events|] == events;
  }

  lemma FoldSnoc(parser: Parser, events: seq<ProxyEvent>, ev: ProxyEvent)
    requires HasIndex(ev)
    ensures var before := FoldBlock(parser, events);
      FoldBlock(parser, events + [ev]) ==
        if before.Threw? then before
        else if BlockStep(parser, before.block, ev).None? then Threw else Live(BlockStep(parser, before.block, ev).value)
  {
    assert (events + [ev])[..|events|] == events;
  }

  lemma ThrewStays(parser: Parser, events: seq<ProxyEvent>, ev: ProxyEvent)
    requires SomeBlockThrows(parser, events)
    ensures SomeBlockThrows(parser, events + [ev])
  {
    var i: nat :| FoldBlock(parser, Project(events, i)).Threw?;
    ProjectSnoc(events, ev, i);
    if HasIndex(ev) && ev.index == i {
      FoldSnoc(parser, Project(events, i), ev);
    } else {
      assert Project(events, i) + [] == Project(events, i);
    }
    assert FoldBlock(parser, Project(events + [ev], i)).Threw?;
  }

  lemma OneMoreEvent(parser: Parser, events: seq<ProxyEvent>, ev: ProxyEvent, r: Run)
    requires !r.thrown && BlocksAgree(parser, events, r.message.content)
    ensures var r' := RunEvent(parser, r, ev);
      && (r'.thrown ==> SomeBlockThrows(parser, events + [ev]))
      && (!r'.thrown ==> BlocksAgree(parser, events + [ev], r'.message.content))
  {
    var r' := RunEvent(parser, r, ev);
    if HasIndex(ev) {
      ProjectSnoc(events, ev, ev.index);
      FoldSnoc(parser, Project(events, ev.index), ev);
      assert FoldBlock(parser, Project(events, ev.index)) == Live(At(r.message.content, ev.index));
      if r'.thrown {
        assert FoldBlock(parser, Project(events + [ev], ev.index)).Threw?;
      }
    }
    if !r'.thrown {
      forall i: nat ensures FoldBlock(parser, Project(events + [ev], i)) == Live(At(r'.message.content, i)) {
        ProjectSnoc(events, ev, i);
        assert FoldBlock(parser, Project(events, i)) == Live(At(r.message.content, i));
        if !(HasIndex(ev) && ev.index == i) {
          assert Project(events, i) + [] == Project(events, i);
          Elsewhere(parser, r, ev, i);
        } else {
          Here(parser, r, ev);
        }
      }
    }
  }

  lemma Elsewhere(parser: Parser, r: Run, ev: ProxyEvent, i: nat)
    requires !r.thrown && !(HasIndex(ev) && ev.index == i)
    ensures At(RunEvent(parser, r, ev).message.content, i) == At(r.message.content, i)
  {
  }

  /** The block an event is for becomes what that event makes of it. */
  lemma Here(parser: Parser, r: Run, ev: ProxyEvent)
    requires !r.thrown && HasIndex(ev)
    ensures RunEvent(parser, r, ev).thrown <==> BlockStep(parser, At(r.message.content, ev.index), ev).None?
    ensures !RunEvent(parser, r, ev).thrown ==>
      At(RunEvent(parser, r, ev).message.content, ev.index) == BlockStep(parser, At(r.message.content, ev.index), ev).value
  {
  }

  lemma NotBoth(parser: Parser, events: seq<ProxyEvent>, content: map<nat, Block>)
    requires BlocksAgree(parser, events, content)
    ensures !SomeBlockThrows(parser, events)
  {
  }

  lemma ThrownForGood(parser: Parser, r: Run, ev: ProxyEvent)
    requires r.thrown
    ensures RunEvent(parser, r, ev) == r
  {
  }

  /** Blocks are independent. However the events of different content indices interleave, processing throws exactly when
      the events of some index alone would, and every block is what its own events alone make of it. */
  lemma {:induction false} Interleaving(parser: Parser, events: seq<ProxyEvent>)
    ensures RunAll(parser, events).thrown <==> SomeBlockThrows(parser, events)
    ensures !RunAll(parser, events).thrown ==> BlocksAgree(parser, events, RunAll(parser, events).message.content)
  {
    if events != [] {
      hide SomeBlockThrows, BlocksAgree, RunEvent;
      var n := |events| - 1;
      var r := RunAll(parser, events[..n]);
      Interleaving(parser, events[..n]);
      assert events == events[..n] + [events[n]];
      if r.thrown {
        ThrownForGood(parser, r, events[n]);
        ThrewStays(parser, events[..n], events[n]);
      } else {
        OneMoreEvent(parser, events[..n], events[n], r);
        if !RunAll(parser, events).thrown {
          NotBoth(parser, events, RunAll(parser, events).message.content);
        }
      }
    } else {
      assert forall i: nat :: Project([], i) == [];
    }
  }

  // ----- What a block should be -----

  predicate IsStart(ev: ProxyEvent) {
    ev.TextStart? || ev.ThinkingStart? || ev.ToolStart?
  }

  /** A delta or an end event of the kind of block that `start` opens. */
  predicate DeltaOf(start: ProxyEvent, ev: ProxyEvent) {
    (start.TextStart? && ev.TextDelta?) || (start.ThinkingStart? && ev.ThinkingDelta?) || (start.ToolStart? && ev.ToolDelta?)
  }

  predicate EndOf(start: ProxyEvent, ev: ProxyEvent) {
    (start.TextStart? && ev.TextEnd?) || (start.ThinkingStart? && ev.ThinkingEnd?) || (start.ToolStart? && ev.ToolEnd?)
  }

  /** The events of one block: a start, deltas of its kind, and nothing after its end. */
  predicate BlockScript(events: seq<ProxyEvent>) {
    && events != [] && IsStart(events[0])
    && (forall k :: 0 < k < |events| - 1 ==> DeltaOf(events[0], events[k]))
    && (|events| > 1 ==> DeltaOf(events[0], events[|events| - 1]) || EndOf(events[0], events[|events| - 1]))
  }

  function DeltaText(ev: ProxyEvent): string {
    if ev.TextDelta? || ev.ThinkingDelta? || ev.ToolDelta? then ev.delta else ""
  }

  /** The deltas of a block, one after the other. */
  function Deltas(events: seq<ProxyEvent>): string {
    if events == [] then "" else Deltas(events[..|events| - 1]) + DeltaText(events[|events| - 1])
  }

  predicate Complete(events: seq<ProxyEvent>) {
    events != [] && EndOf(events[0], events[|events| - 1])
  }

  /** The block as the server has it: all its deltas together, the signature of its end event, and for a tool call the
      arguments parsed from all deltas, with the streaming property gone once it has ended. */
  function Render(parser: Parser, events: seq<ProxyEvent>): Block
    requires BlockScript(events)
  {
    var last := events[|events| - 1];
    match events[0]
    case TextStart(_) => TextBlock(Deltas(events), if Complete(events) then last.signature else None)
    case ThinkingStart(_) => ThinkingBlock(Deltas(events), if Complete(events) then last.signature else None)
    case ToolStart(_, id, name) =>
      ToolBlock(id, name, if HasDelta(events) then parser(Deltas(events)).GetOr(NO_ARGUMENTS) else NO_ARGUMENTS,
                if Complete(events) then None else Some(Deltas(events)))
  }

  predicate HasDelta(events: seq<ProxyEvent>) {
    exists k :: 0 <= k < |events| && DeltaOf(events[0], events[k])
  }

  lemma HasDeltaSnoc(events: seq<ProxyEvent>, ev: ProxyEvent)
    requires events != []
    ensures HasDelta(events + [ev]) <==> HasDelta(events) || DeltaOf(events[0], ev)
  {
    var all := events + [ev];
    assert all[|events|] == ev && all[0] == events[0];
    if HasDelta(events) {
      var k :| 0 <= k < |events| && DeltaOf(events[0], events[k]);
      assert all[k] == events[k];
    }
  }

  /** The next event of a block, on the block its events stand for so far. */
  lemma StepRendered(parser: Parser, events: seq<ProxyEvent>, ev: ProxyEvent)
    requires events != [] && BlockScript(events) && BlockScript(events + [ev])
    ensures HasIndex(ev) && BlockStep(parser, Some(Render(parser, events)), ev) == Some(Some(Render(parser, events + [ev])))
  {
    var all := events + [ev];
    assert all[0] == events[0] && all[|all| - 1] == ev && all[..|events|] == events;
    assert |events| > 1 ==> DeltaOf(events[0], all[|events| - 1]);
    assert !Complete(events);
    HasDeltaSnoc(events, ev);
    assert Deltas(all) == Deltas(events) + DeltaText(ev);
    assert Deltas(events) + "" == Deltas(events);
    assert DeltaOf(events[0], ev) || EndOf(events[0], ev);
    assert Complete(all) <==> EndOf(events[0], ev);
  }

  // ----- How a message ends -----

  predicate Terminal(ev: ProxyEvent) {
    ev.Done? || ev.Failed?
  }

  /** The last event that ends the message, or the last failure. */
  function Last(events: seq<ProxyEvent>, failure: bool): (r: Option<nat>)
    ensures r.Some? ==> r.value < |events| && Terminal(events[r.value]) && (failure ==> events[r.value].Failed?)
    ensures forall j :: 0 <= j < |events| && (r.Some? ==> r.value < j) ==>
      !(if failure then events[j].Failed? else Terminal(events[j]))
  {
    if events == [] then None
    else
      var n := |events| - 1;
      if events[n].Failed? || (events[n].Done? && !failure) then Some(n) else Last(events[..n], failure)
  }

  /** Stop reason and usage are those of the last terminal event, and the error message is that of the last failure. */
  predicate EndsAs(events: seq<ProxyEvent>, m: Message) {
    var end, failure := Last(events, false), Last(events, true);
    && m.stopReason == (if end.Some? then events[end.value].reason else Stop)
    && m.usage == (if end.Some? then events[end.value].usage else "")
    && m.errorMessage == if failure.Some? then events[failure.value].errorMessage else None
  }

  lemma {:induction false} TerminalFields(parser: Parser, events: seq<ProxyEvent>)
    requires !RunAll(parser, events).thrown
    ensures EndsAs(events, RunAll(parser, events).message)
  {
    if events != [] {
      var n := |events| - 1;
      TerminalFields(parser, events[..n]);
      EventEnds(parser, RunAll(parser, events[..n]), events[n]);
    }
  }

  lemma EventEnds(parser: Parser, r: Run, ev: ProxyEvent)
    requires !r.thrown && !RunEvent(parser, r, ev).thrown
    ensures var m := RunEvent(parser, r, ev).message;
      && (if Terminal(ev) then m.stopReason == ev.reason && m.usage == ev.usage
          else m.stopReason == r.message.stopReason && m.usage == r.message.usage)
      && m.errorMessage == if ev.Failed? then ev.errorMessage else r.message.errorMessage
  {
  }

  // ----- Several blocks for one index, one after the other -----

  /** The events of the block that is in place after the events for one index: the last start and what follows. */
  function Current(events: seq<ProxyEvent>): (r: seq<ProxyEvent>)
    ensures events != [] ==> r != []
  {
    if events == [] then []
    else
      var n := |events| - 1;
      if IsStart(events[n]) then [events[n]] else Current(events[..n]) + [events[n]]
  }

  /** At every point the last block is well formed. */
  predicate BlockScripts(events: seq<ProxyEvent>) {
    forall k :: 0 < k <= |events| ==> BlockScript(Current(events[..k]))
  }

  lemma ScriptsPrefix(events: seq<ProxyEvent>, k: nat)
    requires BlockScripts(events) && k <= |events|
    ensures BlockScripts(events[..k])
  {
    forall j | 0 < j <= k ensures BlockScript(Current(events[..k][..j])) {
      assert events[..k][..j] == events[..j];
    }
  }

  lemma ScriptsNow(events: seq<ProxyEvent>)
    requires BlockScripts(events) && events != []
    ensures BlockScript(Current(events))
  {
    assert events[..|events|] == events;
  }

  lemma {:induction false} BlockStarts(parser: Parser, before: seq<ProxyEvent>, ev: ProxyEvent)
    requires IsStart(ev) && FoldBlock(parser, before).Live?
    ensures FoldBlock(parser, before + [ev]) == Live(Some(Render(parser, [ev])))
  {
    FoldSnoc(parser, before, ev);
    assert [ev][..0] == [];
    assert Deltas([ev]) == "";
  }

  lemma {:induction false} BlockGoesOn(parser: Parser, before: seq<ProxyEvent>, ev: ProxyEvent)
    requires !IsStart(ev) && before != [] && BlockScript(Current(before)) && BlockScript(Current(before) + [ev])
    requires FoldBlock(parser, before) == Live(Some(Render(parser, Current(before))))
    ensures FoldBlock(parser, before + [ev]) == Live(Some(Render(parser, Current(before) + [ev])))
  {
    StepRendered(parser, Current(before), ev);
    FoldSnoc(parser, before, ev);
  }

  lemma {:induction false} CurrentSnoc(before: seq<ProxyEvent>, ev: ProxyEvent)
    ensures Current(before + [ev]) == if IsStart(ev) then [ev] else Current(before) + [ev]
  {
    assert (before + [ev])[..|before|] == before;
  }

  /** The events for one index make exactly the block that the last of them stand for. */
  lemma {:induction false} RenderExact(parser: Parser, events: seq<ProxyEvent>)
    requires BlockScripts(events) && events != []
    ensures BlockScript(Current(events))
    ensures FoldBlock(parser, events) == Live(Some(Render(parser, Current(events))))
    decreases |events|, 1
  {
    hide Render, BlockScript;
    var n := |events| - 1;
    var before, ev := events[..n], events[n];
    ScriptsNow(events);
    CurrentSnoc(before, ev);
    assert events == before + [ev];
    if IsStart(ev) {
      NotThrown(parser, before, events);
      BlockStarts(parser, before, ev);
    } else {
      FirstStarts(events);
      ScriptsPrefix(events, n);
      RenderExact(parser, before);
      BlockGoesOn(parser, before, ev);
    }
  }

  lemma FirstStarts(events: seq<ProxyEvent>)
    requires BlockScripts(events) && events != []
    ensures |events| == 1 ==> IsStart(events[0])
  {
    assert events[..|events|] == events;
    if |events| == 1 {
      assert events == [] + [events[0]];
      CurrentSnoc([], events[0]);
      assert BlockScript(Current(events));
    }
  }

  lemma {:induction false} NotThrown(parser: Parser, before: seq<ProxyEvent>, events: seq<ProxyEvent>)
    requires BlockScripts(events) && before <= events && |before| < |events|
    ensures FoldBlock(parser, before).Live?
    decreases |events|, 0
  {
    if before != [] {
      assert before == events[..|before|];
      ScriptsPrefix(events, |before|);
      RenderExact(parser, before);
    }
  }

  /** The events of every index are blocks, one after the other. */
  ghost predicate Scripted(events: seq<ProxyEvent>) {
    forall i: nat :: BlockScripts(Project(events, i))
  }

  function Expected(parser: Parser, events: seq<ProxyEvent>, i: nat): Option<Block>
    requires BlockScripts(Project(events, i))
  {
    if Project(events, i) == [] then None
    else
      ScriptsNow(Project(events, i));
      Some(Render(parser, Current(Project(events, i))))
  }

  lemma {:induction false} ProjectPrefix(events: seq<ProxyEvent>, k: nat, i: nat)
    requires k <= |events|
    ensures Project(events[..k], i) <= Project(events, i)
  {
    if k == |events| {
      assert events[..k] == events;
    } else {
      var n := |events| - 1;
      ProjectPrefix(events[..n], k, i);
      assert events[..n][..k] == events[..k];
    }
  }

  lemma ScriptedPrefix(events: seq<ProxyEvent>, k: nat)
    requires Scripted(events) && k <= |events|
    ensures Scripted(events[..k])
  {
    forall i: nat ensures BlockScripts(Project(events[..k], i)) {
      ProjectPrefix(events, k, i);
      var p, q := Project(events[..k], i), Project(events, i);
      assert p == q[..|p|];
      ScriptsPrefix(q, |p|);
    }
  }

  lemma NeverThrows(parser: Parser, events: seq<ProxyEvent>)
    requires Scripted(events)
    ensures !RunAll(parser, events).thrown
  {
    Interleaving(parser, events);
    forall j: nat ensures !FoldBlock(parser, Project(events, j)).Threw? {
      if Project(events, j) != [] {
        RenderExact(parser, Project(events, j));
      }
    }
  }

  /** The server's message and the client's agree after every event: each block is what its own events stand for, and
      the message ends as the events say. */
  lemma ReplayAgrees(parser: Parser, events: seq<ProxyEvent>, k: nat, i: nat)
    requires Scripted(events) && k <= |events|
    ensures !RunAll(parser, events[..k]).thrown
    ensures BlockScripts(Project(events[..k], i))
    ensures At(RunAll(parser, events[..k]).message.content, i) == Expected(parser, events[..k], i)
    ensures EndsAs(events[..k], RunAll(parser, events[..k]).message)
  {
    ScriptedPrefix(events, k);
    NeverThrows(parser, events[..k]);
    Interleaving(parser, events[..k]);
    if Project(events[..k], i) != [] {
      RenderExact(parser, Project(events[..k], i));
    }
    assert FoldBlock(parser, Project(events[..k], i)) == Live(At(RunAll(parser, events[..k]).message.content, i));
    TerminalFields(parser, events[..k]);
  }

  /** A delta after the end event of its tool call is appended to the text "undefined". */
  lemma DeltaAfterEnd(parser: Parser, id: string, name: string, delta: string)
    ensures FoldBlock(parser, [ToolStart(0, id, name)] + [ToolEnd(0)] + [ToolDelta(0, delta)])
         == Live(Some(ToolBlock(id, name, parser("undefined" + delta).GetOr(NO_ARGUMENTS), Some("undefined" + delta))))
  {
    FoldSnoc(parser, [], ToolStart(0, id, name));
    assert [] + [ToolStart(0, id, name)] == [ToolStart(0, id, name)];
    FoldSnoc(parser, [ToolStart(0, id, name)], ToolEnd(0));
    FoldSnoc(parser, [ToolStart(0, id, name)] + [ToolEnd(0)], ToolDelta(0, delta));
  }

  // ----- Through the wire -----

  /** The server's lines: one event each, and an empty line after it. */
  function Encode(json: ProxyEvent -> string, events: seq<ProxyEvent>): string {
    if events == [] then ""
    else Encode(json, events[..|events| - 1]) + (DATA + json(events[|events| - 1]) + "\n\n")
  }

  /** The texts of events are one line without outer white space, and are parsed back. */
  ghost predicate Faithful(codec: Codec, json: ProxyEvent -> string) {
    forall ev ::
      && NoBreak(json(ev)) && json(ev) != ""
      && TrimEnd(TrimStart(json(ev))) == json(ev)
      && codec.json(json(ev)) == Event(ev)
  }

  lemma {:induction false} SplitLine(line: string, rest: string)
    requires NoBreak(line)
    ensures Split(line + "\n" + rest) == [line] + Split(rest)
  {
    var text := line + "\n" + rest;
    if line == "" {
      assert text[1..] == rest;
    } else {
      assert text[1..] == line[1..] + "\n" + rest;
      SplitLine(line[1..], rest);
      assert [line[0]] + line[1..] == line;
    }
  }

  lemma EventLines(line: string)
    requires NoBreak(line)
    ensures Lines(line + "\n\n") == [line, ""] && Rest(line + "\n\n") == ""
  {
    SplitLine("", "");
    assert "" + "\n" + "" == "\n";
    SplitLine(line, "\n");
    assert line + "\n" + "\n" == line + "\n\n";
    assert Split("\n") == ["", ""];
    assert [line] + ["", ""] == [line, "", ""];
  }

  /** One encoded event is read back as that event. */
  lemma EventRead(codec: Codec, json: ProxyEvent -> string, c: Client, ev: ProxyEvent)
    requires Faithful(codec, json) && c.thrown.None?
    ensures var r := RunEvent(codec.arguments, Run(c.message, c.pushed, false), ev);
      var c' := ReadLines(codec, c, [DATA + json(ev), ""]);
      c'.message == r.message && c'.pushed == r.pushed && (c'.thrown.Some? <==> r.thrown)
  {
    var line := DATA + json(ev);
    TwoLines(codec, c, line, "");
    LineRead(codec, json, c, ev);
    assert Payload("").None?;
  }

  lemma TwoLines(codec: Codec, c: Client, a: string, b: string)
    ensures ReadLines(codec, c, [a, b]) == ReadLine(codec, ReadLine(codec, c, a), b)
  {
    assert [a, b][..1] == [a] && [a][..0] == [];
    assert ReadLines(codec, c, [a]) == ReadLine(codec, c, a);
  }

  lemma LineRead(codec: Codec, json: ProxyEvent -> string, c: Client, ev: ProxyEvent)
    requires Faithful(codec, json) && c.thrown.None?
    ensures var r := RunEvent(codec.arguments, Run(c.message, c.pushed, false), ev);
      var c' := ReadLine(codec, c, DATA + json(ev));
      c'.message == r.message && c'.pushed == r.pushed && (c'.thrown.Some? <==> r.thrown)
  {
    var line := DATA + json(ev);
    assert line[|DATA|..] == json(ev);
    assert Payload(line) == Some(json(ev));
  }

  lemma {:induction false} EncodedRead(codec: Codec, json: ProxyEvent -> string, events: seq<ProxyEvent>)
    requires Faithful(codec, json) && Scripted(events)
    ensures var c := ReadLines(codec, FRESH, Lines(Encode(json, events)));
      c.message == RunAll(codec.arguments, events).message && c.pushed == RunAll(codec.arguments, events).pushed && c.thrown.None?
    ensures Rest(Encode(json, events)) == ""
  {
    if events != [] {
      var n := |events| - 1;
      var line := DATA + json(events[n]);
      ScriptedPrefix(events, n);
      EncodedRead(codec, json, events[..n]);
      EventLines(line);
      ChunkAdds(Encode(json, events[..n]), line + "\n\n");
      assert "" + (line + "\n\n") == line + "\n\n";
      ReadLinesConcat(codec, FRESH, Lines(Encode(json, events[..n])), [line, ""]);
      NeverThrows(codec.arguments, events[..n]);
      NeverThrows(codec.arguments, events);
      EventRead(codec, json, ReadLines(codec, FRESH, Lines(Encode(json, events[..n]))), events[n]);
    }
  }

  /** What a client holds after the encoded events: no error, what the events alone would push, for every content index
      the block its events stand for, and the end the server gave the message. */
  ghost predicate Replayed(codec: Codec, events: seq<ProxyEvent>, c: Client)
    requires Scripted(events)
  {
    && c.thrown.None?
    && c.message == RunAll(codec.arguments, events).message
    && c.pushed == RunAll(codec.arguments, events).pushed
    && (forall i: nat :: At(c.message.content, i) == Expected(codec.arguments, events, i))
    && EndsAs(events, c.message)
  }

  lemma RoundTrip(codec: Codec, json: ProxyEvent -> string, events: seq<ProxyEvent>)
    requires Faithful(codec, json) && Scripted(events)
    ensures Replayed(codec, events, ReadText(codec, Encode(json, events), false))
  {
    EncodedRead(codec, json, events);
    assert events[..|events|] == events;
    ReplayAgrees(codec.arguments, events, |events|, 0);
    forall i: nat ensures At(RunAll(codec.arguments, events).message.content, i) == Expected(codec.arguments, events, i) {
      ReplayAgrees(codec.arguments, events, |events|, i);
    }
  }

  /** Round trip. Whatever chunks the encoded events arrive in, the read loop ends with the message that the server's
      events stand for. */
  method ReadEncoded(codec: Codec, chunks: seq<string>, ghost json: ProxyEvent -> string, ghost events: seq<ProxyEvent>)
    returns (reader: Reader)
    requires Faithful(codec, json) && Scripted(events) && Concat(chunks) == Encode(json, events)
    ensures fresh(reader) && fresh(reader.partial) && reader.codec == codec
    ensures Replayed(codec, events, reader.View())
  {
    reader := new Reader(codec);
    reader.ReadAll(chunks, |chunks| + 1);
    assert chunks[..|chunks|] == chunks;
    RoundTrip(codec, json, events);
  }
}
