// What the consumer of a proxy stream receives, event by event, and what is left of a stream that was cut.

module ProxyConsumer {
  import opened Wrappers
  import opened ProxyEvents
  import opened ProxyLines
  import opened ProxyProofs

  // ----- One event -----

  /** What the consumer is told of a server event: `block` is the block the event is for, as it stands after the event. */
  predicate Tells(ev: ProxyEvent, block: Option<Block>, out: ClientEvent) {
    match ev
    case Start => out == Started
    case TextStart(i) => out == BlockStarted(TextKind, i)
    case TextDelta(i, d) => out == Delta(TextKind, i, d)
    case TextEnd(i, _) => block.Some? && block.value.TextBlock? && out == BlockEnded(TextKind, i, block.value.text)
    case ThinkingStart(i) => out == BlockStarted(ThinkingKind, i)
    case ThinkingDelta(i, d) => out == Delta(ThinkingKind, i, d)
    case ThinkingEnd(i, _) =>
      block.Some? && block.value.ThinkingBlock? && out == BlockEnded(ThinkingKind, i, block.value.thinking)
    case ToolStart(i, _, _) => out == BlockStarted(ToolKind, i)
    case ToolDelta(i, d) => out == Delta(ToolKind, i, d)
    case ToolEnd(i) => block.Some? && block.value.ToolBlock? && out == ToolEnded(i, block.value)
    case Done(reason, _) => out == Finished(reason)
    case Failed(reason, _, _) => out == Errored(reason)
  }

  /** The block an event is for, as the server has it once the first `n` events have been sent. */
  function BlockThen(parser: Parser, events: seq<ProxyEvent>, n: nat, ev: ProxyEvent): Option<Block>
    requires n <= |events| && Scripted(events)
  {
    if HasIndex(ev) then
      ScriptedPrefix(events, n);
      Expected(parser, events[..n], ev.index)
    else None
  }

  /** One client event for every server event, in order, saying what it should. */
  ghost predicate TellsAll(parser: Parser, events: seq<ProxyEvent>, pushed: seq<ClientEvent>)
    requires Scripted(events)
  {
    |pushed| == |events|
    && forall k :: 0 <= k < |events| ==> Tells(events[k], BlockThen(parser, events, k + 1, events[k]), pushed[k])
  }

  lemma ScriptedEnd(events: seq<ProxyEvent>, ev: ProxyEvent)
    requires Scripted(events + [ev]) && ev.ToolEnd?
    ensures var p := Project(events + [ev], ev.index); p != [] && BlockScript(Current(p)) && Current(p)[0].ToolStart?
  {
    var p := Project(events + [ev], ev.index);
    ProjectSnoc(events, ev, ev.index);
    ScriptsNow(p);
  }

  /** The block of an event that ends it is of the event's kind. */
  predicate Fits(ev: ProxyEvent, block: Option<Block>) {
    && (ev.TextEnd? ==> block.Some? && block.value.TextBlock?)
    && (ev.ThinkingEnd? ==> block.Some? && block.value.ThinkingBlock?)
    && (ev.ToolEnd? ==> block.Some? && block.value.ToolBlock?)
  }

  function BlockAfter(r: Run, ev: ProxyEvent): Option<Block> {
    if HasIndex(ev) then At(r.message.content, ev.index) else None
  }

  /** What is pushed is told, if the block fits. */
  lemma PushedTells(parser: Parser, r: Run, ev: ProxyEvent)
    requires !r.thrown && !RunEvent(parser, r, ev).thrown
    ensures var after := RunEvent(parser, r, ev);
      Fits(ev, BlockAfter(after, ev)) ==>
        |after.pushed| == |r.pushed| + 1 && after.pushed[..|r.pushed|] == r.pushed
        && Tells(ev, BlockAfter(after, ev), after.pushed[|r.pushed|])
  {
    if HasIndex(ev) {
      Here(parser, r, ev);
    }
  }

  /** Only an end event of a tool call can meet another block without an error. */
  lemma MostFit(parser: Parser, r: Run, ev: ProxyEvent)
    requires !r.thrown && !RunEvent(parser, r, ev).thrown && !ev.ToolEnd?
    ensures Fits(ev, BlockAfter(RunEvent(parser, r, ev), ev))
  {
    if HasIndex(ev) {
      Here(parser, r, ev);
    }
  }

  /** One more event of a well-formed stream. */
  lemma TellsNext(parser: Parser, events: seq<ProxyEvent>, ev: ProxyEvent)
    requires Scripted(events + [ev])
    ensures var before, after := RunAll(parser, events), RunAll(parser, events + [ev]);
      && |after.pushed| == |before.pushed| + 1 && after.pushed[..|before.pushed|] == before.pushed
      && Tells(ev, BlockThen(parser, events + [ev], |events| + 1, ev), after.pushed[|before.pushed|])
  {
    var all := events + [ev];
    assert all[..|events|] == events && all[..|all|] == all;
    ScriptedPrefix(all, |events|);
    NeverThrows(parser, events);
    NeverThrows(parser, all);
    assert RunAll(parser, all) == RunEvent(parser, RunAll(parser, events), ev);
    if HasIndex(ev) {
      ReplayAgrees(parser, all, |all|, ev.index);
    }
    assert BlockAfter(RunAll(parser, all), ev) == BlockThen(parser, all, |all|, ev);
    if ev.ToolEnd? {
      ScriptedEnd(events, ev);
      assert Fits(ev, BlockThen(parser, all, |all|, ev));
    } else {
      MostFit(parser, RunAll(parser, events), ev);
    }
    hide RunAll, RunEvent, Fits, Tells, BlockAfter, BlockThen;
    PushedTells(parser, RunAll(parser, events), ev);
  }

  lemma BlockThenPrefix(parser: Parser, events: seq<ProxyEvent>, n: nat, k: nat, ev: ProxyEvent)
    requires k <= n <= |events| && Scripted(events)
    ensures Scripted(events[..n])
    ensures BlockThen(parser, events[..n], k, ev) == BlockThen(parser, events, k, ev)
  {
    ScriptedPrefix(events, n);
    assert events[..n][..k] == events[..k];
  }

  lemma NothingTold(parser: Parser)
    requires Scripted([])
    ensures TellsAll(parser, [], RunAll(parser, []).pushed)
  {
  }

  /** The consumer receives exactly one event for every server event of a well-formed stream: starts and deltas as they
      are sent, the full text of a block or the finished tool call at its end, and the reason at the end of the message. */
  lemma {:induction false} ConsumerTold(parser: Parser, events: seq<ProxyEvent>)
    requires Scripted(events)
    ensures TellsAll(parser, events, RunAll(parser, events).pushed)
  {
    hide Scripted, TellsAll, Tells, RunAll, BlockThen;
    if events == [] {
      NothingTold(parser);
    } else {
      var n := |events| - 1;
      ScriptedPrefix(events, n);
      ConsumerTold(parser, events[..n]);
      assert events == events[..n] + [events[n]];
      TellsNext(parser, events[..n], events[n]);
      TellsMore(parser, events, RunAll(parser, events[..n]).pushed, RunAll(parser, events).pushed);
    }
  }

  lemma TellsMore(parser: Parser, events: seq<ProxyEvent>, before: seq<ClientEvent>, after: seq<ClientEvent>)
    requires Scripted(events) && events != [] && Scripted(events[..|events| - 1])
    requires TellsAll(parser, events[..|events| - 1], before)
    requires |after| == |before| + 1 && after[..|before|] == before
    requires Tells(events[|events| - 1], BlockThen(parser, events, |events|, events[|events| - 1]), after[|before|])
    ensures TellsAll(parser, events, after)
  {
    hide Tells, BlockThen, Scripted;
    var n := |events| - 1;
    forall k | 0 <= k < |events| ensures Tells(events[k], BlockThen(parser, events, k + 1, events[k]), after[k]) {
      if k < n {
        BlockThenPrefix(parser, events, n, k + 1, events[k]);
        assert Tells(events[..n][k], BlockThen(parser, events[..n], k + 1, events[..n][k]), before[k]);
        assert after[k] == after[..n][k];
      }
    }
  }

  /** And so, however the encoded events arrive, a stream that has been read to its end has pushed these events. */
  lemma ConsumerReceives(codec: Codec, events: seq<ProxyEvent>, c: Client)
    requires Scripted(events) && Replayed(codec, events, c)
    ensures TellsAll(codec.arguments, events, c.pushed)
  {
    ConsumerTold(codec.arguments, events);
  }

  // ----- Streams that are not well formed -----

  function KindOf(ev: ProxyEvent): Kind
    requires HasIndex(ev)
  {
    if ev.TextStart? || ev.TextDelta? || ev.TextEnd? then TextKind
    else if ev.ThinkingStart? || ev.ThinkingDelta? || ev.ThinkingEnd? then ThinkingKind
    else ToolKind
  }

  /** An event that throws without a block of its kind: a delta, or the end of a text or thinking block. */
  predicate NeedsBlock(ev: ProxyEvent) {
    HasIndex(ev) && !IsStart(ev) && !ev.ToolEnd?
  }

  /** The kind of the block last started at an index. */
  function KindAt(events: seq<ProxyEvent>, i: nat): Option<Kind> {
    if events == [] then None
    else
      var ev := events[|events| - 1];
      if IsStart(ev) && ev.index == i then Some(KindOf(ev)) else KindAt(events[..|events| - 1], i)
  }

  function BlockKind(b: Option<Block>): Option<Kind> {
    match b
    case None => None
    case Some(TextBlock(_, _)) => Some(TextKind)
    case Some(ThinkingBlock(_, _)) => Some(ThinkingKind)
    case Some(ToolBlock(_, _, _, _)) => Some(ToolKind)
  }

  /** Event `k` meets no block of its kind. */
  predicate Misplaced(events: seq<ProxyEvent>, k: nat)
    requires k < |events|
  {
    NeedsBlock(events[k]) && KindAt(events[..k], events[k].index) != Some(KindOf(events[k]))
  }

  ghost predicate SomeMisplaced(events: seq<ProxyEvent>) {
    exists k :: 0 <= k < |events| && Misplaced(events, k)
  }

  /** Number of events the consumer hears of. */
  function Spoken(events: seq<ProxyEvent>): nat {
    if events == [] then 0
    else
      var before, ev := events[..|events| - 1], events[|events| - 1];
      Spoken(before) + if ev.ToolEnd? && KindAt(before, ev.index) != Some(ToolKind) then 0 else 1
  }

  ghost predicate KindsTracked(events: seq<ProxyEvent>, content: map<nat, Block>) {
    forall i: nat :: BlockKind(At(content, i)) == KindAt(events, i)
  }

  lemma MisplacedNext(events: seq<ProxyEvent>, ev: ProxyEvent)
    ensures SomeMisplaced(events + [ev]) <==>
      SomeMisplaced(events) || (NeedsBlock(ev) && KindAt(events, ev.index) != Some(KindOf(ev)))
  {
    var all := events + [ev];
    hide KindAt;
    assert all[..|events|] == events;
    assert Misplaced(all, |events|) <==> NeedsBlock(ev) && KindAt(events, ev.index) != Some(KindOf(ev));
    forall k | 0 <= k < |events| ensures Misplaced(all, k) <==> Misplaced(events, k) {
      assert all[..k] == events[..k];
    }
  }

  /** One event: when it throws, the kind of its block, and whether it is passed on. */
  lemma KindHere(parser: Parser, r: Run, ev: ProxyEvent)
    requires !r.thrown && HasIndex(ev)
    ensures var r', kind := RunEvent(parser, r, ev), BlockKind(At(r.message.content, ev.index));
      && (r'.thrown <==> NeedsBlock(ev) && kind != Some(KindOf(ev)))
      && (!r'.thrown ==>
            && BlockKind(At(r'.message.content, ev.index)) == (if IsStart(ev) then Some(KindOf(ev)) else kind)
            && |r'.pushed| == |r.pushed| + if ev.ToolEnd? && kind != Some(ToolKind) then 0 else 1)
  {
  }

  lemma KindsNext(parser: Parser, events: seq<ProxyEvent>, r: Run, ev: ProxyEvent)
    requires !r.thrown && KindsTracked(events, r.message.content)
    ensures var r' := RunEvent(parser, r, ev);
      && (r'.thrown <==> NeedsBlock(ev) && KindAt(events, ev.index) != Some(KindOf(ev)))
      && (!r'.thrown ==>
            KindsTracked(events + [ev], r'.message.content)
            && |r'.pushed| == |r.pushed| + if ev.ToolEnd? && KindAt(events, ev.index) != Some(ToolKind) then 0 else 1)
  {
    assert (events + [ev])[..|events|] == events;
    if HasIndex(ev) {
      hide RunEvent, BlockKind, KindOf, At;
      KindHere(parser, r, ev);
      assert BlockKind(At(r.message.content, ev.index)) == KindAt(events, ev.index);
      forall i: nat | i != ev.index && !RunEvent(parser, r, ev).thrown
        ensures At(RunEvent(parser, r, ev).message.content, i) == At(r.message.content, i)
      {
        Elsewhere(parser, r, ev, i);
      }
    }
  }

  /** Whatever the stream: processing throws exactly when some delta, or some end of a text or thinking block, comes at an
      index where no block was started or the last one started is of another kind. Until then every event is passed on
      but the end of a tool call that meets no tool call. */
  lemma {:induction false} ThrowsExactly(parser: Parser, events: seq<ProxyEvent>)
    ensures RunAll(parser, events).thrown <==> SomeMisplaced(events)
    ensures !RunAll(parser, events).thrown ==>
      KindsTracked(events, RunAll(parser, events).message.content) && |RunAll(parser, events).pushed| == Spoken(events)
  {
    hide RunEvent, KindsTracked;
    if events == [] {
      NothingTracked();
    } else {
      var n := |events| - 1;
      ThrowsExactly(parser, events[..n]);
      assert events == events[..n] + [events[n]];
      MisplacedNext(events[..n], events[n]);
      if RunAll(parser, events[..n]).thrown {
        ThrownForGood(parser, RunAll(parser, events[..n]), events[n]);
      } else {
        KindsNext(parser, events[..n], RunAll(parser, events[..n]), events[n]);
      }
    }
  }

  lemma NothingTracked()
    ensures KindsTracked([], map[])
  {
  }

  // ----- Deltas -----

  /** The text sent for a content index, after one more event. */
  function TextAfter(text: string, out: ClientEvent, i: nat): string {
    if out.BlockStarted? && out.index == i then ""
    else if out.Delta? && out.index == i then text + out.delta
    else text
  }

  /** The text the consumer has been sent for a content index since its block last started. */
  function Streamed(pushed: seq<ClientEvent>, i: nat): string {
    if pushed == [] then "" else TextAfter(Streamed(pushed[..|pushed| - 1], i), pushed[|pushed| - 1], i)
  }

  lemma StreamedSnoc(pushed: seq<ClientEvent>, out: ClientEvent, i: nat)
    ensures Streamed(pushed + [out], i) == TextAfter(Streamed(pushed, i), out, i)
  {
    assert (pushed + [out])[..|pushed|] == pushed;
  }

  lemma DeltasOfOne(ev: ProxyEvent)
    requires IsStart(ev)
    ensures Deltas([ev]) == ""
  {
    assert [ev][..0] == [];
  }

  lemma DeltasNext(events: seq<ProxyEvent>, ev: ProxyEvent)
    ensures Deltas(events + [ev]) == Deltas(events) + DeltaText(ev)
  {
    assert (events + [ev])[..|events|] == events;
  }

  lemma NothingAdded(text: string)
    ensures text + "" == text
  {
  }

  /** One more event changes the streamed text as it changes the deltas of the block. */
  lemma StreamedNext(events: seq<ProxyEvent>, ev: ProxyEvent, block: Option<Block>, pushed: seq<ClientEvent>, out: ClientEvent,
                     i: nat)
    requires Tells(ev, block, out) && Streamed(pushed, i) == Deltas(Current(Project(events, i)))
    ensures Streamed(pushed + [out], i) == Deltas(Current(Project(events + [ev], i)))
  {
    var before := Project(events, i);
    StreamedSnoc(pushed, out, i);
    ProjectSnoc(events, ev, i);
    hide Streamed, Project, Deltas, Current;
    if HasIndex(ev) && ev.index == i {
      CurrentSnoc(before, ev);
      if IsStart(ev) {
        DeltasOfOne(ev);
      } else {
        DeltasNext(Current(before), ev);
        NothingAdded(Deltas(Current(before)));
      }
    } else {
      assert before + [] == before;
    }
  }

  lemma PushedNext(parser: Parser, events: seq<ProxyEvent>, ev: ProxyEvent) returns (out: ClientEvent, block: Option<Block>)
    requires Scripted(events + [ev])
    ensures RunAll(parser, events + [ev]).pushed == RunAll(parser, events).pushed + [out] && Tells(ev, block, out)
  {
    TellsNext(parser, events, ev);
    hide RunAll, Tells, Scripted, BlockThen;
    var before, after := RunAll(parser, events).pushed, RunAll(parser, events + [ev]).pushed;
    out := after[|before|];
    block := BlockThen(parser, events + [ev], |events| + 1, ev);
    assert after == before + [out];
  }

  lemma NothingStreamed(parser: Parser, i: nat)
    ensures Streamed(RunAll(parser, []).pushed, i) == Deltas(Current(Project([], i)))
  {
    assert Project([], i) == [];
  }

  lemma {:induction false} StreamedDeltas(parser: Parser, events: seq<ProxyEvent>, i: nat)
    requires Scripted(events)
    ensures Streamed(RunAll(parser, events).pushed, i) == Deltas(Current(Project(events, i)))
  {
    hide Streamed, RunAll, Tells, Deltas, Current, Project, Scripted;
    if events == [] {
      NothingStreamed(parser, i);
    } else {
      var n := |events| - 1;
      var before, ev := events[..n], events[n];
      assert events == before + [ev];
      ScriptedPrefix(events, n);
      StreamedDeltas(parser, before, i);
      var out, block := PushedNext(parser, before, ev);
      StreamedNext(before, ev, block, RunAll(parser, before).pushed, out, i);
    }
  }

  /** The text streamed for a block is the block's text, or the text its arguments are parsed from. */
  predicate StreamedIs(parser: Parser, block: Block, text: string) {
    match block
    case TextBlock(t, _) => t == text
    case ThinkingBlock(t, _) => t == text
    case ToolBlock(_, _, arguments, partialJson) =>
      && (partialJson.Some? ==> partialJson.value == text)
      && (arguments == parser(text).GetOr(NO_ARGUMENTS) || (text == "" && arguments == NO_ARGUMENTS))
  }

  lemma {:induction false} NoDeltaNoText(events: seq<ProxyEvent>, start: ProxyEvent)
    requires IsStart(start) && forall k :: 0 <= k < |events| ==> !DeltaOf(start, events[k])
    requires forall k :: 0 <= k < |events| ==> events[k] == start || DeltaOf(start, events[k]) || EndOf(start, events[k])
    ensures Deltas(events) == ""
  {
    if events != [] {
      var n := |events| - 1;
      NoDeltaNoText(events[..n], start);
      assert events == events[..n] + [events[n]];
      assert DeltaText(events[n]) == "";
    }
  }

  lemma RenderStreamed(parser: Parser, events: seq<ProxyEvent>)
    requires BlockScript(events)
    ensures StreamedIs(parser, Render(parser, events), Deltas(events))
  {
    if !HasDelta(events) {
      NoDeltaNoText(events, events[0]);
    }
  }

  /** At every moment the deltas the consumer has received for a block since it started are the block's text so far. */
  lemma ConsumerHasText(parser: Parser, events: seq<ProxyEvent>, i: nat)
    requires Scripted(events) && i in RunAll(parser, events).message.content
    ensures var r := RunAll(parser, events); StreamedIs(parser, r.message.content[i], Streamed(r.pushed, i))
  {
    hide StreamedIs, Streamed, Render, RunAll, BlockScript, Deltas, Current, Project;
    assert events[..|events|] == events;
    ReplayAgrees(parser, events, |events|, i);
    StreamedDeltas(parser, events, i);
    ScriptsNow(Project(events, i));
    RenderStreamed(parser, Current(Project(events, i)));
  }
}
