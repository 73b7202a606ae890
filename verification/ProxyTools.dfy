// Tool calls on the proxy's wire: exactly when a block's arguments are parsed from all its deltas.

module ProxyTools {
  import opened Wrappers
  import opened ProxyEvents
  import opened ProxyProofs

  /** Events for one content index after the start of a tool call, up to the next start event. */
  predicate AfterStart(tail: seq<ProxyEvent>) {
    forall k :: 0 <= k < |tail| ==> HasIndex(tail[k]) && !IsStart(tail[k])
  }

  predicate ToolTail(tail: seq<ProxyEvent>) {
    forall k :: 0 <= k < |tail| ==> tail[k].ToolDelta? || tail[k].ToolEnd?
  }

  predicate HasToolDelta(tail: seq<ProxyEvent>) {
    exists k :: 0 <= k < |tail| && tail[k].ToolDelta?
  }

  predicate EndsNow(tail: seq<ProxyEvent>) {
    tail != [] && tail[|tail| - 1].ToolEnd?
  }

  /** The text the arguments were last parsed from. */
  function Accumulated(tail: seq<ProxyEvent>): string
    requires ToolTail(tail)
  {
    if tail == [] then ""
    else
      var before, last := tail[..|tail| - 1], tail[|tail| - 1];
      if last.ToolEnd? then Accumulated(before)
      else (if EndsNow(before) then "undefined" else Accumulated(before)) + last.delta
  }

  /** The block that a tool call's events make. */
  function ToolBlockOf(parser: Parser, id: string, name: string, tail: seq<ProxyEvent>): Block
    requires ToolTail(tail)
  {
    ToolBlock(id, name, if HasToolDelta(tail) then parser(Accumulated(tail)).GetOr(NO_ARGUMENTS) else NO_ARGUMENTS,
              if EndsNow(tail) then None else Some(Accumulated(tail)))
  }

  lemma HasToolDeltaSnoc(tail: seq<ProxyEvent>, ev: ProxyEvent)
    ensures HasToolDelta(tail + [ev]) <==> HasToolDelta(tail) || ev.ToolDelta?
  {
    var all := tail + [ev];
    assert all[|tail|] == ev;
    if k :| 0 <= k < |tail| && tail[k].ToolDelta? {
      assert all[k].ToolDelta?;
    }
  }

  lemma {:induction false} ToolBlockStep(parser: Parser, id: string, name: string, tail: seq<ProxyEvent>, ev: ProxyEvent)
    requires ToolTail(tail) && HasIndex(ev) && !IsStart(ev)
    ensures BlockStep(parser, Some(ToolBlockOf(parser, id, name, tail)), ev) ==
      if ev.ToolDelta? || ev.ToolEnd? then Some(Some(ToolBlockOf(parser, id, name, tail + [ev]))) else None
  {
    HasToolDeltaSnoc(tail, ev);
    assert (tail + [ev])[..|tail|] == tail;
  }

  /** The state after a tool call's start and more events for its index. */
  function ToolState(parser: Parser, id: string, name: string, tail: seq<ProxyEvent>): BlockState {
    if ToolTail(tail) then Live(Some(ToolBlockOf(parser, id, name, tail))) else Threw
  }

  lemma ToolTailSnoc(tail: seq<ProxyEvent>, ev: ProxyEvent)
    ensures ToolTail(tail + [ev]) <==> ToolTail(tail) && (ev.ToolDelta? || ev.ToolEnd?)
  {
    var all := tail + [ev];
    assert all[|tail|] == ev && forall k :: 0 <= k < |tail| ==> all[k] == tail[k];
  }

  lemma {:induction false} ToolStateNext(parser: Parser, id: string, name: string, events: seq<ProxyEvent>,
                                         tail: seq<ProxyEvent>, ev: ProxyEvent)
    requires FoldBlock(parser, events) == ToolState(parser, id, name, tail) && HasIndex(ev) && !IsStart(ev)
    ensures FoldBlock(parser, events + [ev]) == ToolState(parser, id, name, tail + [ev])
  {
    hide ToolTail, ToolBlockOf, FoldBlock, BlockStep;
    FoldSnoc(parser, events, ev);
    ToolTailSnoc(tail, ev);
    if ToolTail(tail) {
      ToolBlockStep(parser, id, name, tail, ev);
    }
  }

  lemma ToolStateFirst(parser: Parser, i: nat, id: string, name: string)
    ensures FoldBlock(parser, [ToolStart(i, id, name)]) == ToolState(parser, id, name, [])
  {
    assert [ToolStart(i, id, name)] == [] + [ToolStart(i, id, name)];
    FoldSnoc(parser, [], ToolStart(i, id, name));
  }

  lemma {:induction false} ToolStates(parser: Parser, i: nat, id: string, name: string, tail: seq<ProxyEvent>)
    requires AfterStart(tail)
    ensures FoldBlock(parser, [ToolStart(i, id, name)] + tail) == ToolState(parser, id, name, tail)
  {
    hide ToolState, FoldBlock;
    var start := [ToolStart(i, id, name)];
    if tail == [] {
      assert start + tail == start;
      ToolStateFirst(parser, i, id, name);
    } else {
      var n := |tail| - 1;
      ToolStates(parser, i, id, name, tail[..n]);
      ToolStateNext(parser, id, name, start + tail[..n], tail[..n], tail[n]);
      assert start + tail == (start + tail[..n]) + [tail[n]] && tail == tail[..n] + [tail[n]];
    }
  }

  /** Processing throws exactly when an event is meant for another kind of block. */
  lemma ToolFold(parser: Parser, i: nat, id: string, name: string, tail: seq<ProxyEvent>)
    requires AfterStart(tail)
    ensures FoldBlock(parser, [ToolStart(i, id, name)] + tail) ==
      if ToolTail(tail) then Live(Some(ToolBlockOf(parser, id, name, tail))) else Threw
  {
    ToolStates(parser, i, id, name, tail);
  }

  /** A delta arrives after an end event of its tool call. */
  predicate DeltaAfterToolEnd(tail: seq<ProxyEvent>) {
    exists i, j :: 0 <= i < j < |tail| && tail[i].ToolEnd? && tail[j].ToolDelta?
  }

  /** Where the last delta that directly follows an end event stands. */
  function LastRestart(tail: seq<ProxyEvent>): (r: Option<nat>)
    ensures r.Some? ==> 0 < r.value < |tail| && tail[r.value].ToolDelta? && tail[r.value - 1].ToolEnd?
    ensures r.Some? ==> forall k :: r.value < k < |tail| ==> !(tail[k].ToolDelta? && tail[k - 1].ToolEnd?)
    ensures r.None? ==> forall k :: 0 < k < |tail| ==> !(tail[k].ToolDelta? && tail[k - 1].ToolEnd?)
  {
    if |tail| <= 1 then None
    else
      var n := |tail| - 1;
      if tail[n].ToolDelta? && tail[n - 1].ToolEnd? then Some(n) else LastRestart(tail[..n])
  }

  lemma {:induction false} RestartExact(tail: seq<ProxyEvent>)
    requires ToolTail(tail)
    ensures LastRestart(tail).Some? <==> DeltaAfterToolEnd(tail)
  {
    if i, j :| 0 <= i < j < |tail| && tail[i].ToolEnd? && tail[j].ToolDelta? {
      var k := NextDelta(tail, i, j);
      assert tail[k].ToolDelta? && tail[k - 1].ToolEnd?;
    }
  }

  lemma {:induction false} NextDelta(tail: seq<ProxyEvent>, i: nat, j: nat) returns (k: nat)
    requires ToolTail(tail) && i < j < |tail| && tail[i].ToolEnd? && tail[j].ToolDelta?
    ensures i < k <= j && tail[k].ToolDelta? && tail[k - 1].ToolEnd?
    decreases j - i
  {
    if tail[i + 1].ToolDelta? {
      k := i + 1;
    } else {
      k := NextDelta(tail, i + 1, j);
    }
  }

  lemma DeltasSnoc(tail: seq<ProxyEvent>, ev: ProxyEvent)
    ensures Deltas(tail + [ev]) == Deltas(tail) + DeltaText(ev)
  {
    assert (tail + [ev])[..|tail|] == tail;
  }

  lemma {:induction false} DeltasConcat(a: seq<ProxyEvent>, b: seq<ProxyEvent>)
    ensures Deltas(a + b) == Deltas(a) + Deltas(b)
  {
    if b == [] {
      assert a + b == a;
    } else {
      var n := |b| - 1;
      DeltasConcat(a, b[..n]);
      assert a + b == (a + b[..n]) + [b[n]];
      DeltasSnoc(a + b[..n], b[n]);
      Regroup(Deltas(a), Deltas(b[..n]), DeltaText(b[n]));
    }
  }

  lemma Regroup(a: string, b: string, c: string)
    ensures (a + b) + c == a + (b + c)
  {
  }

  /** Each delta after an end event starts over, from the text "undefined". */
  lemma {:induction false} AccumulatedExact(tail: seq<ProxyEvent>)
    requires ToolTail(tail)
    ensures Accumulated(tail) ==
      if LastRestart(tail).None? then Deltas(tail) else "undefined" + Deltas(tail[LastRestart(tail).value..])
  {
    if tail != [] {
      var n := |tail| - 1;
      AccumulatedExact(tail[..n]);
      RestartStep(tail);
      if LastRestart(tail).Some? && LastRestart(tail).value < n {
        var r := LastRestart(tail).value;
        assert tail[r..] == tail[..n][r..] + [tail[n]];
        DeltasSnoc(tail[..n][r..], tail[n]);
        Regroup("undefined", Deltas(tail[..n][r..]), DeltaText(tail[n]));
      }
    }
  }

  lemma {:induction false} RestartStep(tail: seq<ProxyEvent>)
    requires ToolTail(tail) && tail != []
    ensures var n := |tail| - 1;
      if tail[n].ToolDelta? && EndsNow(tail[..n]) then LastRestart(tail) == Some(n) && Deltas(tail[n..]) == tail[n].delta
      else LastRestart(tail) == LastRestart(tail[..n])
  {
    var n := |tail| - 1;
    assert tail[n..] == [] + [tail[n]];
    DeltasSnoc([], tail[n]);
  }

  /** All deltas are accumulated. */
  predicate AllAccumulated(tail: seq<ProxyEvent>)
    requires ToolTail(tail)
  {
    Accumulated(tail) == Deltas(tail)
  }

  lemma {:induction false} LostDeltas(tail: seq<ProxyEvent>, r: nat)
    requires ToolTail(tail) && LastRestart(tail) == Some(r)
    ensures AllAccumulated(tail) <==> Deltas(tail[..r]) == "undefined"
  {
    AccumulatedExact(tail);
    assert tail == tail[..r] + tail[r..];
    DeltasConcat(tail[..r], tail[r..]);
    SameFront(Deltas(tail[..r]), "undefined", Deltas(tail[r..]));
  }

  /** The accumulated text is the concatenation of the deltas if and only if no delta follows an end event, or the deltas
      before the last restart happen to spell the text a restart begins with. */
  lemma {:induction false} AccumulatedAll(tail: seq<ProxyEvent>)
    requires ToolTail(tail)
    ensures AllAccumulated(tail) <==>
      !DeltaAfterToolEnd(tail) || Deltas(tail[..LastRestart(tail).GetOr(0)]) == "undefined"
  {
    RestartExact(tail);
    if LastRestart(tail).Some? {
      LostDeltas(tail, LastRestart(tail).value);
    } else {
      AccumulatedExact(tail);
    }
  }

  /** The exception is real: a delta after an end event, and still no delta is lost from the text. */
  lemma LostUndefined(i: nat, delta: string)
    ensures var tail := [ToolDelta(i, "undefined"), ToolEnd(i), ToolDelta(i, delta)];
      ToolTail(tail) && DeltaAfterToolEnd(tail) && AllAccumulated(tail)
  {
    var tail := [ToolDelta(i, "undefined"), ToolEnd(i), ToolDelta(i, delta)];
    assert tail[1].ToolEnd? && tail[2].ToolDelta?;
    assert tail[..2] == [ToolDelta(i, "undefined")] + [ToolEnd(i)];
    DeltasSnoc([], tail[0]);
    assert [] + [tail[0]] == [tail[0]];
    DeltasSnoc([tail[0]], tail[1]);
    assert LastRestart(tail) == Some(2);
    AccumulatedAll(tail);
  }

  lemma SameFront(a: string, b: string, c: string)
    ensures a + c == b + c <==> a == b
  {
    if a + c == b + c {
      assert |a| == |b|;
      assert (a + c)[..|a|] == a && (b + c)[..|b|] == b;
    }
  }

  /** The arguments as the server has them: parsed from all deltas. */
  function FullArguments(parser: Parser, tail: seq<ProxyEvent>): string {
    if HasToolDelta(tail) then parser(Deltas(tail)).GetOr(NO_ARGUMENTS) else NO_ARGUMENTS
  }

  /** The client's block has the server's arguments. */
  ghost predicate ArgumentsAgree(parser: Parser, i: nat, id: string, name: string, tail: seq<ProxyEvent>) {
    exists json :: FoldBlock(parser, [ToolStart(i, id, name)] + tail) ==
      Live(Some(ToolBlock(id, name, FullArguments(parser, tail), json)))
  }

  /** Tool arguments, exactly. Whatever the parser, the client's arguments are parsed from the concatenation of all deltas
      if and only if no event is for another kind of block and no delta follows an end event; the one exception are lost
      deltas that spell "undefined", the text JavaScript puts in their place. */
  lemma ArgumentsExactly(i: nat, id: string, name: string, tail: seq<ProxyEvent>)
    requires AfterStart(tail)
    ensures (forall parser :: ArgumentsAgree(parser, i, id, name, tail)) <==>
      ToolTail(tail) && (!DeltaAfterToolEnd(tail) || Deltas(tail[..LastRestart(tail).GetOr(0)]) == "undefined")
  {
    if ToolTail(tail) {
      AccumulatedAll(tail);
      if AllAccumulated(tail) {
        forall parser ensures ArgumentsAgree(parser, i, id, name, tail) {
          ToolFold(parser, i, id, name, tail);
          assert FoldBlock(parser, [ToolStart(i, id, name)] + tail) == Live(Some(ToolBlock(id, name, FullArguments(parser, tail),
            ToolBlockOf(parser, id, name, tail).partialJson)));
        }
      }
    }
    if forall parser :: ArgumentsAgree(parser, i, id, name, tail) {
      var echo: Parser := text => Some(text);
      assert ArgumentsAgree(echo, i, id, name, tail);
      ToolFold(echo, i, id, name, tail);
      assert HasToolDelta(tail) ==> AllAccumulated(tail);
      if !HasToolDelta(tail) {
        NoDeltas(tail);
      }
    }
  }

  lemma {:induction false} NoDeltas(tail: seq<ProxyEvent>)
    requires ToolTail(tail) && !HasToolDelta(tail)
    ensures AllAccumulated(tail)
  {
    if tail != [] {
      var n := |tail| - 1;
      NoDeltas(tail[..n]);
      assert tail == tail[..n] + [tail[n]];
      HasToolDeltaSnoc(tail[..n], tail[n]);
    }
  }

  /** Text and thinking have no such gap: deltas are added before and after an end event alike. */
  lemma {:induction false} TextComplete(parser: Parser, i: nat, tail: seq<ProxyEvent>)
    requires AfterStart(tail)
    ensures var s := FoldBlock(parser, [TextStart(i)] + tail);
      s.Live? ==> s.block.Some? && s.block.value.TextBlock? && s.block.value.text == Deltas(tail)
  {
    var start := [TextStart(i)];
    if tail == [] {
      assert start + tail == [] + start;
      FoldSnoc(parser, [], start[0]);
    } else {
      var n := |tail| - 1;
      TextComplete(parser, i, tail[..n]);
      assert start + tail == (start + tail[..n]) + [tail[n]];
      FoldSnoc(parser, start + tail[..n], tail[n]);
    }
  }

  lemma {:induction false} ThinkingComplete(parser: Parser, i: nat, tail: seq<ProxyEvent>)
    requires AfterStart(tail)
    ensures var s := FoldBlock(parser, [ThinkingStart(i)] + tail);
      s.Live? ==> s.block.Some? && s.block.value.ThinkingBlock? && s.block.value.thinking == Deltas(tail)
  {
    var start := [ThinkingStart(i)];
    if tail == [] {
      assert start + tail == [] + start;
      FoldSnoc(parser, [], start[0]);
    } else {
      var n := |tail| - 1;
      ThinkingComplete(parser, i, tail[..n]);
      assert start + tail == (start + tail[..n]) + [tail[n]];
      FoldSnoc(parser, start + tail[..n], tail[n]);
    }
  }
}
