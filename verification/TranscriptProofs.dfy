// The validator accepts a transcript exactly when it is paired, block by block.

module TranscriptProofs {
  import opened Wrappers
  import opened Messages
  import opened Transcript

  function ReadFrom(s: Scan, messages: seq<Message>): Scan
    decreases |messages|
  {
    if messages == [] then s else ReadFrom(ReadMessage(s, messages[0]), messages[1..])
  }

  lemma {:induction false} ReadFromSnoc(s: Scan, messages: seq<Message>, m: Message)
    ensures ReadFrom(s, messages + [m]) == ReadMessage(ReadFrom(s, messages), m)
    decreases |messages|
  {
    if messages == [] {
      assert ([m])[1..] == [];
    } else {
      ReadFromSnoc(ReadMessage(s, messages[0]), messages[1..], m);
      assert (messages + [m])[1..] == messages[1..] + [m];
    }
  }

  lemma {:induction false} ReadAllIsReadFrom(messages: seq<Message>)
    ensures ReadAll(messages) == ReadFrom(START, messages)
  {
    if messages != [] {
      var n := |messages| - 1;
      ReadAllIsReadFrom(messages[..n]);
      ReadFromSnoc(START, messages[..n], messages[n]);
      assert messages == messages[..n] + [messages[n]];
    }
  }

  lemma {:induction false} IrrelevantIgnored(messages: seq<Message>)
    ensures ReadAll(messages) == ReadAll(Relevant(messages))
  {
    if messages != [] {
      var n := |messages| - 1;
      IrrelevantIgnored(messages[..n]);
      assert Relevant(messages[..n]) + [] == Relevant(messages[..n]);
      var r := Relevant(messages[..n]) + [messages[n]];
      assert r[..|r| - 1] == Relevant(messages[..n]);
    }
  }

  predicate AllRelevant(messages: seq<Message>) {
    forall i :: 0 <= i < |messages| ==> !messages[i].Custom? && !Failed(messages[i])
  }

  lemma {:induction false} RelevantIsRelevant(messages: seq<Message>)
    ensures AllRelevant(Relevant(messages))
  {
    if messages != [] {
      RelevantIsRelevant(messages[..|messages| - 1]);
    }
  }

  // ----- Errors are never taken back -----

  lemma {:induction false} CallsKeepErrors(s: Scan, calls: seq<ToolCall>)
    requires !Clean(s)
    ensures !Clean(ReadCalls(s, calls))
  {
    if calls != [] {
      CallsKeepErrors(s, calls[..|calls| - 1]);
    }
  }

  lemma {:induction false} ErrorsStay(s: Scan, messages: seq<Message>)
    requires !Clean(s)
    ensures !Clean(Flush(ReadFrom(s, messages)))
    decreases |messages|
  {
    if messages != [] {
      var m := messages[0];
      if m.Assistant? && !Failed(m) && ToolCalls(m) != [] {
        CallsKeepErrors(Flush(s).(pending := {}), ToolCalls(m));
      }
      ErrorsStay(ReadMessage(s, m), messages[1..]);
    }
  }

  // ----- A reply with calls opens a span -----

  lemma IdsSnoc(calls: seq<ToolCall>, c: ToolCall)
    ensures Ids(calls + [c]) == Ids(calls) + [c.id]
  {
  }

  lemma {:induction false} CallsOpenSpan(s: Scan, calls: seq<ToolCall>)
    requires Clean(s) && s.pending == {}
    ensures Clean(ReadCalls(s, calls)) <==> FreshIds(Ids(calls), s.seen)
    ensures Clean(ReadCalls(s, calls)) ==>
      var s' := ReadCalls(s, calls); s'.pending == SetOf(Ids(calls)) && s'.seen == s.seen + SetOf(Ids(calls))
  {
    if calls != [] {
      var n := |calls| - 1;
      CallsOpenSpan(s, calls[..n]);
      IdsSnoc(calls[..n], calls[n]);
      assert calls == calls[..n] + [calls[n]];
      FreshIdsSnoc(Ids(calls[..n]), calls[n].id, s.seen);
      OneCallRead(ReadCalls(s, calls[..n]), calls[n].id);
    }
  }

  lemma FreshIdsSnoc(ids: seq<string>, id: string, seen: set<string>)
    ensures FreshIds(ids + [id], seen) <==> FreshIds(ids, seen) && !Blank(id) && id !in seen && id !in SetOf(ids)
    ensures SetOf(ids + [id]) == SetOf(ids) + {id}
  {
    var all := ids + [id];
    assert forall i :: 0 <= i < |ids| ==> all[i] == ids[i];
    assert all[|ids|] == id;
  }

  lemma OneCallRead(s: Scan, id: string)
    ensures Clean(ReadCall(s, id)) <==> Clean(s) && !Blank(id) && id !in s.seen
  {
    assert Blank(id) ==> "<empty>" in ReadCall(s, id).missing;
    assert !Blank(id) && id in s.seen ==> id in ReadCall(s, id).duplicateCalls;
    assert forall k :: k in s.missing ==> k in ReadCall(s, id).missing;
    assert forall k :: k in s.duplicateCalls ==> k in ReadCall(s, id).duplicateCalls;
  }

  // ----- The span is answered, then the next block starts -----

  /** The rest answers exactly the pending ids first, and is paired after that. */
  predicate Answers(rest: seq<Message>, ids: set<string>, seen: set<string>) {
    && |ids| <= |rest|
    && AllResults(rest[..|ids|])
    && multiset(ResultIds(rest[..|ids|])) == multiset(ids)
    && Paired(rest[|ids|..], seen)
  }

  lemma ResultIdsCons(m: Message, rest: seq<Message>)
    requires m.ToolResult?
    ensures ResultIds([m] + rest) == [m.toolCallId] + ResultIds(rest)
  {
  }

  lemma RemoveAnswer(id: string, tail: seq<string>, ids: set<string>)
    requires id in ids
    ensures |ids - {id}| == |ids| - 1
    ensures multiset([id] + tail) == multiset(ids) <==> multiset(tail) == multiset(ids - {id})
  {
    assert multiset(ids) == multiset{id} + multiset(ids - {id});
    assert multiset([id] + tail) == multiset{id} + multiset(tail);
    assert multiset(tail) == (multiset{id} + multiset(tail)) - multiset{id};
    assert multiset(ids - {id}) == multiset(ids) - multiset{id};
  }

  lemma AllResultsCons(m: Message, tail: seq<Message>)
    requires m.ToolResult?
    ensures AllResults([m] + tail) <==> AllResults(tail)
  {
    assert forall i :: 0 <= i < |tail| ==> ([m] + tail)[i + 1] == tail[i];
  }

  /** One more answer: the head takes its id out of the pending set. */
  lemma AnswersCons(rest: seq<Message>, ids: set<string>, seen: set<string>)
    requires rest != [] && rest[0].ToolResult? && rest[0].toolCallId in ids
    ensures Answers(rest, ids, seen) <==> Answers(rest[1..], ids - {rest[0].toolCallId}, seen)
  {
    var n := |ids|;
    var id := rest[0].toolCallId;
    RemoveAnswer(id, [], ids);
    if n <= |rest| {
      var tail := rest[1..][..n - 1];
      assert rest[..n] == [rest[0]] + tail;
      assert rest[n..] == rest[1..][n - 1..];
      ResultIdsCons(rest[0], tail);
      RemoveAnswer(id, ResultIds(tail), ids);
      AllResultsCons(rest[0], tail);
    }
  }

  lemma StrangerNotAnswer(rest: seq<Message>, ids: set<string>, seen: set<string>)
    requires rest != [] && ids != {} && (rest[0].ToolResult? ==> rest[0].toolCallId !in ids)
    ensures !Answers(rest, ids, seen)
  {
    var n := |ids|;
    if n <= |rest| && AllResults(rest[..n]) {
      assert rest[..n][0] == rest[0];
      assert ResultIds(rest[..n])[0] == rest[0].toolCallId;
      assert rest[0].toolCallId in multiset(ResultIds(rest[..n]));
      assert rest[0].toolCallId !in multiset(ids);
    }
  }

  lemma {:induction false} SpanExact(s: Scan, rest: seq<Message>)
    requires Clean(s) && AllRelevant(rest) && (forall id :: id in s.pending ==> !Blank(id))
    ensures Clean(Flush(ReadFrom(s, rest))) <==> Answers(rest, s.pending, s.seen)
    decreases |rest|, 1
  {
    if s.pending == {} {
      BlockExact(s, rest);
      assert rest[0..] == rest && rest[..0] == [];
    } else if rest == [] {
      assert |s.pending| > 0;
      var id :| id in s.pending;
      assert id in Flush(s).missing;
    } else {
      var m := rest[0];
      assert AllRelevant(rest[1..]);
      if m.ToolResult? && m.toolCallId in s.pending {
        AnswersCons(rest, s.pending, s.seen);
        SpanExact(ReadMessage(s, m), rest[1..]);
      } else {
        StrangerNotAnswer(rest, s.pending, s.seen);
        var id :| id in s.pending;
        if !m.ToolResult? {
          assert id in Flush(s).missing;
          if ToolCalls(m) != [] {
            CallsKeepErrors(Flush(s).(pending := {}), ToolCalls(m));
          }
        } else {
          ResultOutOfPlace(s, m.toolCallId);
        }
        ErrorsStay(ReadMessage(s, m), rest[1..]);
      }
    }
  }

  lemma ResultOutOfPlace(s: Scan, id: string)
    requires id !in s.pending || Blank(id)
    ensures !Clean(ReadResult(s, id))
  {
    var s' := ReadResult(s, id);
    assert "<empty>" in s'.orphans || id in s'.orphans || id in s'.duplicateResults;
  }

  lemma {:induction false} BlockExact(s: Scan, rest: seq<Message>)
    requires Clean(s) && s.pending == {} && AllRelevant(rest)
    ensures Clean(Flush(ReadFrom(s, rest))) <==> Paired(rest, s.seen)
    decreases |rest|, 0
  {
    if rest != [] {
      var m := rest[0];
      var ids := Ids(ToolCalls(m));
      assert AllRelevant(rest[1..]);
      if m.ToolResult? {
        ResultOutOfPlace(s, m.toolCallId);
        ErrorsStay(ReadMessage(s, m), rest[1..]);
      } else if ids == [] {
        assert Flush(s) == s;
        SpanExact(s, rest[1..]);
        assert s.seen + SetOf(ids) == s.seen;
        NoCallsBlock(rest, s.seen);
      } else {
        assert Flush(s).(pending := {}) == s;
        CallsOpenSpan(s, ToolCalls(m));
        var s' := ReadMessage(s, m);
        if Clean(s') {
          SpanExact(s', rest[1..]);
          CallsBlock(rest, s.seen);
        } else {
          ErrorsStay(s', rest[1..]);
        }
      }
    }
  }

  lemma NoCallsBlock(rest: seq<Message>, seen: set<string>)
    requires rest != [] && !rest[0].ToolResult? && Ids(ToolCalls(rest[0])) == []
    ensures Paired(rest, seen) <==> Answers(rest[1..], {}, seen)
  {
    assert seen + SetOf([]) == seen;
    assert rest[1..][0..] == rest[1..] && rest[1..][..0] == [] && rest[1..1] == [];
    assert ResultIds([]) == [];
  }

  lemma OneMoreId(ids: seq<string>, id: string)
    requires id !in SetOf(ids) && multiset(SetOf(ids)) == multiset(ids) && |SetOf(ids)| == |ids|
    ensures multiset(SetOf(ids + [id])) == multiset(ids + [id]) && |SetOf(ids + [id])| == |ids| + 1
  {
    assert SetOf(ids + [id]) == SetOf(ids) + {id};
    assert multiset(SetOf(ids) + {id}) == multiset(SetOf(ids)) + multiset{id};
  }

  lemma {:induction false} DistinctCount(ids: seq<string>)
    requires forall i, j :: 0 <= i < j < |ids| ==> ids[i] != ids[j]
    ensures |SetOf(ids)| == |ids| && multiset(SetOf(ids)) == multiset(ids)
  {
    if ids != [] {
      var n := |ids| - 1;
      DistinctCount(ids[..n]);
      assert ids == ids[..n] + [ids[n]];
      assert ids[n] !in SetOf(ids[..n]);
      OneMoreId(ids[..n], ids[n]);
    }
  }

  lemma CallsBlock(rest: seq<Message>, seen: set<string>)
    requires rest != [] && !rest[0].ToolResult? && FreshIds(Ids(ToolCalls(rest[0])), seen)
    ensures var ids := SetOf(Ids(ToolCalls(rest[0]))); Paired(rest, seen) <==> Answers(rest[1..], ids, seen + ids)
  {
    var ids := Ids(ToolCalls(rest[0]));
    var n := |ids|;
    DistinctCount(ids);
    if 1 + n <= |rest| {
      assert rest[1..1 + n] == rest[1..][..n];
      assert rest[1 + n..] == rest[1..][n..];
    }
  }

  /** The validator's four error lists stay empty exactly when the transcript is paired: every call of a reply has
      a fresh, non-blank id and one result in the block right after it, and no other result exists. */
  lemma ValidExactlyPaired(messages: seq<Message>)
    ensures Valid(messages) <==> Paired(Relevant(messages), {})
  {
    IrrelevantIgnored(messages);
    RelevantIsRelevant(messages);
    ReadAllIsReadFrom(Relevant(messages));
    BlockExact(START, Relevant(messages));
  }
}
