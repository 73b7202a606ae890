// Streams that stop early: an abort, a cut in the middle of an event, a line that is not JSON, and lines without data.

module ProxyCuts {
  import opened Wrappers
  import opened ProxyEvents
  import opened ProxyLines
  import opened ProxyProofs
  import Transcript

  // ----- Lines without data -----

  /** A line that carries no payload: it does not start with the prefix, or only white space follows it. */
  predicate NoData(line: string) {
    !("data: " <= line) || forall k :: 6 <= k < |line| ==> Transcript.IsSpace(line[k])
  }

  lemma {:induction false} TrimmedAway(s: string)
    requires forall k :: 0 <= k < |s| ==> Transcript.IsSpace(s[k])
    ensures TrimStart(s) == ""
  {
    if s != "" {
      TrimmedAway(s[1..]);
    }
  }

  lemma {:induction false} TrimStartKeeps(s: string, k: nat)
    requires k < |s| && !Transcript.IsSpace(s[k])
    ensures TrimStart(s) != "" && !Transcript.IsSpace(TrimStart(s)[0])
  {
    if Transcript.IsSpace(s[0]) {
      TrimStartKeeps(s[1..], k - 1);
    }
  }

  lemma {:induction false} TrimEndKeeps(s: string)
    requires s != "" && !Transcript.IsSpace(s[0])
    ensures TrimEnd(s) != ""
  {
    if Transcript.IsSpace(s[|s| - 1]) {
      TrimEndKeeps(s[..|s| - 1]);
    }
  }

  /** Exactly the lines without data have no payload. */
  lemma PayloadExactly(line: string)
    ensures Payload(line).None? <==> NoData(line)
  {
    if DATA <= line {
      var rest := line[|DATA|..];
      if NoData(line) {
        forall k | 0 <= k < |rest| ensures Transcript.IsSpace(rest[k]) {
          assert rest[k] == line[k + 6];
        }
        TrimmedAway(rest);
      } else {
        var k :| 6 <= k < |line| && !Transcript.IsSpace(line[k]);
        assert rest[k - 6] == line[k];
        TrimStartKeeps(rest, k - 6);
        TrimEndKeeps(TrimStart(rest));
      }
    }
  }

  /** Such a line changes nothing. */
  lemma NoDataIgnored(codec: Codec, c: Client, line: string)
    requires NoData(line)
    ensures ReadLine(codec, c, line) == c
  {
    PayloadExactly(line);
  }

  // ----- A stream that was cut -----

  /** What the client has before the end of `streamProxy`, when the first `k` events have been read. */
  predicate HasRead(codec: Codec, events: seq<ProxyEvent>, k: nat, c: Client)
    requires k <= |events|
  {
    var r := RunAll(codec.arguments, events[..k]);
    c.thrown.None? && c.message == r.message && c.pushed == r.pushed
  }

  /** The line of event `k` is the last that has arrived whole. */
  predicate ArrivedWhole(json: ProxyEvent -> string, events: seq<ProxyEvent>, k: nat, length: nat)
    requires k <= |events|
  {
    && (k > 0 ==> |Encode(json, events[..k])| <= length + 1)
    && (k < |events| ==> length + 1 < |Encode(json, events[..k + 1])|)
  }

  lemma EncodeNext(json: ProxyEvent -> string, events: seq<ProxyEvent>)
    requires events != []
    ensures var n := |events| - 1;
      Encode(json, events) == Encode(json, events[..n]) + (DATA + json(events[n]) + "\n\n")
  {
  }

  lemma PrefixOf(a: string, b: string, text: string)
    requires text <= a + b
    ensures if |text| <= |a| then text <= a else a <= text && text[|a|..] <= b
  {
    assert text == (a + b)[..|text|];
    if |text| > |a| {
      assert text[..|a|] == a && text[|a|..] == b[..|text| - |a|];
    } else {
      assert text == a[..|text|];
    }
  }

  lemma PartLines(line: string, part: string)
    requires NoBreak(line) && part <= line + "\n\n"
    ensures Lines(part) == if |part| <= |line| then [] else if |part| == |line| + 1 then [line] else [line, ""]
  {
    if |part| <= |line| {
      assert part == line[..|part|];
      assert NoBreak(part);
      OneLine(part);
    } else if |part| == |line| + 1 {
      assert part == line + "\n";
      SplitLine(line, "");
      assert line + "\n" + "" == line + "\n";
      assert Split("") == [""];
    } else {
      assert part == line + "\n\n";
      EventLines(line);
    }
  }

  lemma {:induction false} OneLine(s: string)
    requires NoBreak(s)
    ensures Split(s) == [s]
  {
    if s != "" {
      OneLine(s[1..]);
      assert s == [s[0]] + s[1..];
    }
  }

  /** The lines of one more event, cut or whole. */
  lemma PartRead(codec: Codec, json: ProxyEvent -> string, events: seq<ProxyEvent>, part: string, c: Client)
    requires Faithful(codec, json) && Scripted(events) && events != []
    requires part <= DATA + json(events[|events| - 1]) + "\n\n"
    requires HasRead(codec, events, |events| - 1, c)
    ensures var line := DATA + json(events[|events| - 1]);
      HasRead(codec, events, if |part| <= |line| then |events| - 1 else |events|, ReadLines(codec, c, Lines(part)))
  {
    var n := |events| - 1;
    var line := DATA + json(events[n]);
    PartLines(line, part);
    assert events[..|events|] == events;
    NeverThrows(codec.arguments, events);
    if |part| == |line| + 1 {
      OneLineRead(codec, c, line);
      LineRead(codec, json, c, events[n]);
    } else if |part| > |line| {
      EventRead(codec, json, c, events[n]);
    }
  }

  lemma OneLineRead(codec: Codec, c: Client, line: string)
    ensures ReadLines(codec, c, [line]) == ReadLine(codec, c, line)
  {
    assert [line][..0] == [];
  }

  lemma AllRead(codec: Codec, json: ProxyEvent -> string, events: seq<ProxyEvent>)
    requires Faithful(codec, json) && Scripted(events)
    ensures HasRead(codec, events, |events|, ReadLines(codec, FRESH, Lines(Encode(json, events))))
    ensures Rest(Encode(json, events)) == ""
  {
    EncodedRead(codec, json, events);
    assert events[..|events|] == events;
  }

  lemma NothingCut(codec: Codec, json: ProxyEvent -> string, text: string)
    requires text <= Encode(json, [])
    ensures HasRead(codec, [], 0, ReadLines(codec, FRESH, Lines(text)))
  {
    assert Split("") == [""];
  }

  /** A cut stream. Wherever the text of the events is cut, the client has read exactly the events whose lines have
      arrived whole. */
  lemma {:induction false} CutStream(codec: Codec, json: ProxyEvent -> string, events: seq<ProxyEvent>, text: string)
    returns (k: nat)
    requires Faithful(codec, json) && Scripted(events) && text <= Encode(json, events)
    ensures k <= |events| && ArrivedWhole(json, events, k, |text|)
    ensures HasRead(codec, events, k, ReadLines(codec, FRESH, Lines(text)))
  {
    hide HasRead, ReadLines, Lines, Rest, Scripted, Encode;
    if events == [] {
      k := 0;
      NothingCut(codec, json, text);
    } else {
      var n := |events| - 1;
      var before, line := Encode(json, events[..n]), DATA + json(events[n]);
      ScriptedPrefix(events, n);
      EncodeNext(json, events);
      PrefixOf(before, line + "\n\n", text);
      assert events[..n + 1] == events;
      if |text| <= |before| {
        k := CutStream(codec, json, events[..n], text);
        EarlierCut(codec, json, events, k, |text|, ReadLines(codec, FRESH, Lines(text)));
      } else {
        var part := text[|before|..];
        AllRead(codec, json, events[..n]);
        WholeBefore(codec, events, n, ReadLines(codec, FRESH, Lines(before)));
        LinesAfter(codec, before, part);
        assert text == before + part;
        PartRead(codec, json, events, part, ReadLines(codec, FRESH, Lines(before)));
        k := if |part| <= |line| then n else |events|;
      }
    }
  }

  lemma WholeBefore(codec: Codec, events: seq<ProxyEvent>, n: nat, c: Client)
    requires n <= |events| && HasRead(codec, events[..n], n, c)
    ensures HasRead(codec, events, n, c)
  {
    assert events[..n][..n] == events[..n];
  }

  lemma EarlierCut(codec: Codec, json: ProxyEvent -> string, events: seq<ProxyEvent>, k: nat, length: nat, c: Client)
    requires events != [] && k <= |events| - 1 && length <= |Encode(json, events[..|events| - 1])|
    requires ArrivedWhole(json, events[..|events| - 1], k, length) && HasRead(codec, events[..|events| - 1], k, c)
    ensures ArrivedWhole(json, events, k, length) && HasRead(codec, events, k, c)
  {
    var n := |events| - 1;
    EncodeNext(json, events);
    assert events[..n][..k] == events[..k];
    if k < n {
      assert events[..n][..k + 1] == events[..k + 1];
    } else {
      assert events[..k + 1] == events;
    }
  }

  lemma LinesAfter(codec: Codec, before: string, part: string)
    requires Rest(before) == ""
    ensures ReadLines(codec, FRESH, Lines(before + part)) == ReadLines(codec, ReadLines(codec, FRESH, Lines(before)), Lines(part))
  {
    ChunkAdds(before, part);
    assert "" + part == part;
    ReadLinesConcat(codec, FRESH, Lines(before), Lines(part));
  }

  // ----- How the reading ends -----

  /** The client stopped after `k` events: it has the blocks of those, the given stop reason and error message, and the
      consumer got the events pushed for them and then one error. */
  ghost predicate StoppedAfter(codec: Codec, events: seq<ProxyEvent>, k: nat, reason: StopReason, message: string, c: Client)
    requires k <= |events| && Scripted(events)
  {
    && ScriptedThen(events, k)
    && (forall i: nat :: At(c.message.content, i) == Expected(codec.arguments, events[..k], i))
    && c.message.stopReason == reason && c.message.errorMessage == Some(message) && c.thrown == Some(message)
    && c.pushed == RunAll(codec.arguments, events[..k]).pushed + [Errored(reason)]
  }

  ghost predicate ScriptedThen(events: seq<ProxyEvent>, k: nat)
    requires k <= |events| && Scripted(events)
    ensures ScriptedThen(events, k)
  {
    ScriptedPrefix(events, k);
    Scripted(events[..k])
  }

  lemma BlocksRead(codec: Codec, events: seq<ProxyEvent>, k: nat)
    requires k <= |events| && Scripted(events)
    ensures Scripted(events[..k])
    ensures forall i: nat ::
      At(RunAll(codec.arguments, events[..k]).message.content, i) == Expected(codec.arguments, events[..k], i)
  {
    ScriptedPrefix(events, k);
    forall i: nat
      ensures At(RunAll(codec.arguments, events[..k]).message.content, i) == Expected(codec.arguments, events[..k], i)
    {
      ReplayAgrees(codec.arguments, events, k, i);
    }
  }

  /** An abort. Wherever it cuts the stream, the message keeps the blocks of the events that arrived whole and is marked as
      aborted. */
  lemma AbortedStream(codec: Codec, json: ProxyEvent -> string, events: seq<ProxyEvent>, text: string) returns (k: nat)
    requires Faithful(codec, json) && Scripted(events) && text <= Encode(json, events)
    ensures k <= |events| && ArrivedWhole(json, events, k, |text|)
    ensures StoppedAfter(codec, events, k, Aborted, "Request aborted by user", ReadText(codec, text, true))
  {
    k := CutStream(codec, json, events, text);
    BlocksRead(codec, events, k);
  }

  /** A line that is not JSON. The message keeps the blocks of the events before it and is marked as failed with the
      parser's message; what follows is not read. */
  lemma MalformedLine(codec: Codec, json: ProxyEvent -> string, events: seq<ProxyEvent>, bad: string, message: string,
                      more: string)
    requires Faithful(codec, json) && Scripted(events)
    requires NoBreak(bad) && bad != "" && TrimEnd(TrimStart(bad)) == bad && codec.json(bad) == Malformed(message)
    ensures StoppedAfter(codec, events, |events|, Error, message,
      ReadText(codec, Encode(json, events) + ("data: " + bad + "\n" + more), false))
  {
    var before, line := Encode(json, events), "data: " + bad;
    var c := ReadLines(codec, FRESH, Lines(before));
    AllRead(codec, json, events);
    BlocksRead(codec, events, |events|);
    LinesAfter(codec, before, line + "\n" + more);
    SplitLine(line, more);
    assert Lines(line + "\n" + more) == [line] + Lines(more);
    ReadLinesConcat(codec, c, [line], Lines(more));
    OneLineRead(codec, c, line);
    assert line[|DATA|..] == bad;
    assert ReadLine(codec, c, line) == c.(thrown := Some(message));
    ThrownStays(codec, c.(thrown := Some(message)), Lines(more));
  }

  /** An abort, in chunks. However the events are cut into chunks, and whichever read finds the signal aborted, the read
      loop keeps the blocks of the events that arrived whole before it. */
  method ReadAborted(codec: Codec, chunks: seq<string>, abortedFrom: nat, ghost json: ProxyEvent -> string,
                     ghost events: seq<ProxyEvent>)
    returns (reader: Reader, ghost k: nat)
    requires Faithful(codec, json) && Scripted(events) && Concat(chunks) == Encode(json, events) && abortedFrom <= |chunks|
    ensures fresh(reader) && fresh(reader.partial) && reader.codec == codec
    ensures k <= |events| && ArrivedWhole(json, events, k, |Concat(chunks[..abortedFrom])|)
    ensures StoppedAfter(codec, events, k, Aborted, "Request aborted by user", reader.View())
  {
    reader := new Reader(codec);
    reader.ReadAll(chunks, abortedFrom);
    ConcatPrefix(chunks, abortedFrom);
    k := AbortedStream(codec, json, events, Concat(chunks[..abortedFrom]));
  }

  lemma {:induction false} ConcatPrefix(chunks: seq<string>, n: nat)
    requires n <= |chunks|
    ensures Concat(chunks[..n]) <= Concat(chunks)
    decreases |chunks| - n
  {
    if n == |chunks| {
      assert chunks[..n] == chunks;
    } else {
      ConcatPrefix(chunks, n + 1);
      assert chunks[..n + 1][..n] == chunks[..n];
    }
  }
}
