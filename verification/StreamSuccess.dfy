/** When a relayed stream counts as a success, without naming the observer's state. */
module StreamSuccess {
  import opened Policy
  import opened Sse
  import opened Completion
  import opened Streaming

  // ----- what a frame means -----

  /** The decoded event of a frame that carries one and reports no error. */
  function EventIn(c: Setting, frame: string): Option<Event> {
    var data := DataText(c.d, frame);
    if EventName(c.d, Lines(frame)) == "error" || data == "" || data == "[DONE]" || c.d.parse(data).None? || c.d.parse(data).value.hasError
    then None
    else c.d.parse(data)
  }

  function NameIn(c: Setting, frame: string, v: Event): string {
    if v.kind != "" then v.kind else EventName(c.d, Lines(frame))
  }

  /** The protocol's own end marker. */
  predicate TerminalFrame(c: Setting, frame: string) {
    match c.p
    case Chat => EventName(c.d, Lines(frame)) != "error" && DataText(c.d, frame) == "[DONE]"
    case Messages => EventIn(c, frame).Some? && NameIn(c, frame, EventIn(c, frame).value) == "message_stop"
    case Responses => EventIn(c, frame).Some? && NameIn(c, frame, EventIn(c, frame).value) == "response.completed"
    case _ => false
  }

  predicate BadIndex(x: Choice) { x.index.n < 0 || x.index.n > 1024 }

  ghost predicate AnyBadIndex(cs: seq<Choice>) { exists k :: 0 <= k < |cs| && BadIndex(cs[k]) }

  /** An event that reports a failure, or that the protocol does not allow. */
  ghost predicate FaultEvent(p: Protocol, name: string, v: Event) {
    || v.hasError || name in {"error", "response.failed", "response.incomplete"}
    || match p
       case Chat => AnyBadIndex(v.choices)
       case Gemini => v.blocked || AnyBadIndex(v.candidates)
       case OtherProtocol => true
       case _ => false
  }

  /** A frame that says that the stream failed: an error event, a foreign end marker, data that is not
      JSON, or a failing event. */
  ghost predicate FaultFrame(c: Setting, frame: string) {
    var event, data := EventName(c.d, Lines(frame)), DataText(c.d, frame);
    || event == "error"
    || (data == "[DONE]" && c.p != Chat)
    || (data != "" && data != "[DONE]"
        && (c.d.parse(data).None? || FaultEvent(c.p, NameIn(c, frame, c.d.parse(data).value), c.d.parse(data).value)))
  }

  /** The choices a frame reports on; two of the protocols have none. */
  function ChoicesIn(c: Setting, frame: string): seq<Choice> {
    match EventIn(c, frame)
    case None => []
    case Some(v) => if c.p == Chat then v.choices else if c.p.Gemini? then v.candidates else []
  }

  function History(c: Setting, frames: seq<string>): seq<Choice> {
    if frames == [] then [] else ChoicesIn(c, frames[0]) + History(c, frames[1..])
  }

  /** At least one choice was seen, and every one that was seen has finished. */
  ghost predicate AllFinished(h: seq<Choice>) {
    h != [] && forall k :: 0 <= k < |h| ==> Finishes(h, h[k].index)
  }

  ghost predicate Finishes(h: seq<Choice>, i: Index) { exists j :: 0 <= j < |h| && h[j].index == i && h[j].finished }

  ghost predicate Occurs(h: seq<Choice>, i: Index) { exists j :: 0 <= j < |h| && h[j].index == i }

  // ----- the choice table summarises the history -----

  ghost predicate Summary(choices: map<Index, bool>, h: seq<Choice>) {
    forall i :: (i in choices <==> Occurs(h, i)) && (i in choices ==> (choices[i] <==> Finishes(h, i)))
  }

  lemma OccursSnoc(h: seq<Choice>, x: Choice, i: Index)
    ensures Occurs(h + [x], i) <==> Occurs(h, i) || x.index == i
    ensures Finishes(h + [x], i) <==> Finishes(h, i) || (x.index == i && x.finished)
    ensures Finishes(h, i) ==> Occurs(h, i)
  {
    var all := h + [x];
    assert all[|h|] == x && forall j :: 0 <= j < |h| ==> all[j] == h[j];
  }

  lemma SummarySnoc(choices: map<Index, bool>, h: seq<Choice>, x: Choice)
    requires Summary(choices, h)
    ensures Summary(choices[x.index := (x.index in choices && choices[x.index]) || x.finished], h + [x])
  {
    forall i: Index
      ensures Occurs(h + [x], i) <==> Occurs(h, i) || x.index == i
      ensures Finishes(h + [x], i) <==> Finishes(h, i) || (x.index == i && x.finished)
      ensures Finishes(h, i) ==> Occurs(h, i)
    {
      OccursSnoc(h, x, i);
    }
  }

  lemma DoneIsFinished(choices: map<Index, bool>, h: seq<Choice>)
    requires Summary(choices, h)
    ensures AllDone(choices) <==> AllFinished(h)
  {
    forall k | 0 <= k < |h| ensures h[k].index in choices {
      assert Occurs(h, h[k].index);
    }
    if AllDone(choices) {
      var i :| i in choices;
      assert Occurs(h, i);
    }
    if AllFinished(h) {
      forall i | i in choices ensures choices[i] {
        var j :| 0 <= j < |h| && h[j].index == i;
        assert Finishes(h, h[j].index);
      }
      assert h[0].index in choices;
    }
  }

  /** A running observer: no fault, no end marker yet, and its table is the history. */
  ghost predicate Running(o: Observation, h: seq<Choice>) {
    o.fault == NoFault && !o.terminal && Summary(o.choices, h) && (o.complete <==> AllDone(o.choices))
  }

  lemma {:induction false} NotedRuns(o: Observation, h: seq<Choice>, cs: seq<Choice>)
    requires Running(o, h) && NotedAll(o, cs).fault == NoFault
    ensures Running(NotedAll(o, cs), h + cs)
  {
    hide Summary, AllDone;
    if cs == [] {
      assert h + cs == h;
    } else {
      var n := |cs| - 1;
      NotedKeepsFault(o, cs[..n], cs[n]);
      NotedRuns(o, h, cs[..n]);
      SummarySnoc(NotedAll(o, cs[..n]).choices, h + cs[..n], cs[n]);
      assert h + cs[..n] + [cs[n]] == h + cs;
    }
  }

  lemma NotedKeepsFault(o: Observation, cs: seq<Choice>, x: Choice)
    ensures NotedAll(o, cs).fault != NoFault ==> Noted(NotedAll(o, cs), x.index, x.finished).fault != NoFault
  {
  }

  /** A decoded event, seen by a running observer. */
  lemma DecodedRuns(p: Protocol, o: Observation, h: seq<Choice>, event: string, v: Event)
    requires Running(o, h) && Decoded(p, o, event, v).fault == NoFault
    ensures var after, name := Decoded(p, o, event, v), if v.kind != "" then v.kind else event;
      && !v.hasError
      && (after.terminal <==> (p.Messages? && name == "message_stop") || (p.Responses? && name == "response.completed"))
      && (after.terminal ==> after.complete)
      && (!after.terminal ==> Running(after, h + if p.Chat? then v.choices else if p.Gemini? then v.candidates else []))
  {
    hide Summary, AllDone, NotedAll, MergedAll;
    assert h + [] == h;
    var a := o.(usage := MergedAll(o.usage, v.usages));
    if p.Chat? {
      if NotedAll(a, v.choices).fault == NoFault {
        NotedRuns(a, h, v.choices);
      }
    } else if p.Gemini? {
      if NotedAll(a, v.candidates).fault == NoFault {
        NotedRuns(a, h, v.candidates);
      }
    }
  }

  /** One frame, seen by a running observer. */
  lemma SeeRuns(c: Setting, o: Observation, h: seq<Choice>, frame: string)
    requires Running(o, h) && See(c, o, frame).fault == NoFault
    ensures See(c, o, frame).terminal <==> TerminalFrame(c, frame)
    ensures TerminalFrame(c, frame) ==> See(c, o, frame).complete
    ensures !TerminalFrame(c, frame) ==> Running(See(c, o, frame), h + ChoicesIn(c, frame))
  {
    hide Summary, AllDone, Decoded, EventName, Lines, DataText;
    assert h + [] == h;
    var event, data := EventName(c.d, Lines(frame)), DataText(c.d, frame);
    if event != "error" && data != "" && data != "[DONE]" && c.d.parse(data).Some? {
      DecodedRuns(c.p, o, h, event, c.d.parse(data).value);
    }
  }

  lemma {:induction false} NotedFault(o: Observation, cs: seq<Choice>)
    requires o.fault == NoFault
    ensures NotedAll(o, cs).fault != NoFault <==> AnyBadIndex(cs)
  {
    if cs != [] {
      var n := |cs| - 1;
      NotedFault(o, cs[..n]);
      assert AnyBadIndex(cs) <==> AnyBadIndex(cs[..n]) || BadIndex(cs[n]) by {
        assert forall k :: 0 <= k < n ==> cs[..n][k] == cs[k];
      }
    }
  }

  lemma DecodedFaultIff(p: Protocol, o: Observation, event: string, v: Event)
    requires o.fault == NoFault
    ensures Decoded(p, o, event, v).fault != NoFault <==> FaultEvent(p, if v.kind != "" then v.kind else event, v)
  {
    hide NotedAll, MergedAll, AnyBadIndex;
    var a := o.(usage := MergedAll(o.usage, v.usages));
    NotedFault(a, v.choices);
    NotedFault(a, v.candidates);
  }

  /** The observer faults on exactly the frames that say so. */
  lemma SeeFaultIff(c: Setting, o: Observation, frame: string)
    requires o.fault == NoFault
    ensures See(c, o, frame).fault != NoFault <==> FaultFrame(c, frame)
  {
    hide Decoded, FaultEvent, EventName, Lines, DataText;
    var event, data := EventName(c.d, Lines(frame)), DataText(c.d, frame);
    if event != "error" && data != "" && data != "[DONE]" && c.d.parse(data).Some? {
      DecodedFaultIff(c.p, o, event, c.d.parse(data).value);
    }
  }

  // ----- success -----

  /** How many frames the relay may read: up to the first end marker, or all of them. */
  function Stops(c: Setting, frames: seq<string>): (k: nat)
    ensures k <= |frames|
  {
    if frames == [] then 0 else if TerminalFrame(c, frames[0]) then 1 else 1 + Stops(c, frames[1..])
  }

  predicate Marked(c: Setting, frames: seq<string>) {
    Stops(c, frames) > 0 && TerminalFrame(c, frames[Stops(c, frames) - 1])
  }

  /** The first `k` frames fit the cap, say nothing of a failure and reach the client. `total` bytes
      and `n` frames went before. */
  ghost predicate Delivered(c: Setting, frames: seq<string>, k: nat, total: int, n: nat)
    requires k <= |frames|
  {
    && (k > 0 ==> total + |Concat(frames[..k])| <= c.cap)
    && (forall j :: 0 <= j < k ==> !FaultFrame(c, frames[j]))
    && (forall j: nat :: n <= j < n + k ==> c.writes(j))
  }

  lemma DeliveredStep(c: Setting, frames: seq<string>, k: nat, total: int, n: nat)
    requires 0 < k <= |frames|
    ensures Delivered(c, frames, k, total, n) <==>
      total + |frames[0]| <= c.cap && !FaultFrame(c, frames[0]) && c.writes(n) && Delivered(c, frames[1..], k - 1, total + |frames[0]|, n + 1)
  {
    hide FaultFrame;
    var rest := frames[1..];
    assert frames[..k][0] == frames[0] && frames[..k][1..] == rest[..k-1];
    assert k == 1 ==> rest[..k-1] == [];
    assert forall j :: 1 <= j < k ==> frames[j] == rest[j-1];
    assert forall j :: 0 <= j < k - 1 ==> rest[j] == frames[j+1];
  }

  lemma {:induction false} SuccessFrom(c: Setting, frames: seq<string>, last: Read, o: Observation, total: int, n: nat, h: seq<Choice>)
    requires Running(o, h)
    ensures var out, k := Run(c, frames, last, o, total, n), Stops(c, frames);
      && (Successful(out.result) <==>
           Delivered(c, frames, k, total, n) && (Marked(c, frames) || (last.End? && AllFinished(h + History(c, frames)))))
      && (Successful(out.result) ==> out.read == k && out.handed == frames[..k])
    decreases |frames|
  {
    hide Observed, TerminalFrame, FaultFrame, ChoicesIn, Summary, AllFinished, AllDone, Delivered;
    NothingDelivered(c, frames, total, n);
    if frames == [] {
      assert h + [] == h;
      DoneIsFinished(o.choices, h);
    } else {
      var f, sum, seen := frames[0], total + |frames[0]|, See(c, o, frames[0]);
      DeliveredStep(c, frames, Stops(c, frames), total, n);
      SeeFaultIff(c, o, f);
      NothingDelivered(c, frames[1..], sum, n + 1);
      if sum <= c.cap && seen.fault == NoFault && c.writes(n) {
        SeeRuns(c, o, h, f);
        var rest := frames[1..];
        if TerminalFrame(c, f) {
          assert frames[..1] == [f];
        } else {
          SuccessFrom(c, rest, last, seen, sum, n + 1, h + ChoicesIn(c, f));
          assert h + ChoicesIn(c, f) + History(c, rest) == h + History(c, frames);
          assert frames[..Stops(c, rest) + 1] == [f] + rest[..Stops(c, rest)];
        }
      }
    }
  }

  lemma NothingDelivered(c: Setting, frames: seq<string>, total: int, n: nat)
    ensures Delivered(c, frames, 0, total, n)
  {
  }

  lemma StartRuns()
    ensures Running(START, [])
  {
  }

  /** Success is exactly this: the frames up to the first end marker, or all of them, fit the cap,
      none says that the stream failed, all reach the client, and either the marker is there or the
      stream ended cleanly with at least one choice seen and every seen choice finished. */
  lemma SuccessIff(c: Setting, frames: seq<string>, last: Read)
    ensures var out, k := Run(c, frames, last, START, 0, 0), Stops(c, frames);
      Successful(out.result) <==>
        Delivered(c, frames, k, 0, 0) && (Marked(c, frames) || (last.End? && AllFinished(History(c, frames))))
  {
    hide Delivered;
    StartRuns();
    SuccessFrom(c, frames, last, START, 0, 0, []);
    assert [] + History(c, frames) == History(c, frames);
  }

  /** A success is real: every frame that was read was written, in order and within the cap; none
      says that the stream failed; and the last one is the end marker, or the stream ended cleanly
      with all choices finished, which only the two protocols with choices can do. */
  lemma SuccessIsReal(c: Setting, frames: seq<string>, last: Read)
    requires Successful(Run(c, frames, last, START, 0, 0).result)
    ensures var out := Run(c, frames, last, START, 0, 0);
      && out.read <= |frames| && out.handed == frames[..out.read]
      && (out.read > 0 ==> |Concat(frames[..out.read])| <= c.cap)
      && (forall j: nat :: j < out.read ==> c.writes(j))
      && (forall j :: 0 <= j < out.read ==> !FaultFrame(c, frames[j]))
      && ((out.read > 0 && TerminalFrame(c, frames[out.read-1]))
          || (out.read == |frames| && last.End? && AllFinished(History(c, frames)) && (c.p.Chat? || c.p.Gemini?)))
  {
    hide Observed, TerminalFrame, FaultFrame, AllFinished, Run;
    StartRuns();
    SuccessFrom(c, frames, last, START, 0, 0, []);
    assert [] + History(c, frames) == History(c, frames);
    if !Marked(c, frames) {
      UnmarkedReadsAll(c, frames);
      NoChoicesElsewhere(c, frames);
      EmptyNotFinished();
    }
  }

  lemma EmptyNotFinished()
    ensures !AllFinished([])
  {
  }

  lemma {:induction false} UnmarkedReadsAll(c: Setting, frames: seq<string>)
    ensures Marked(c, frames) || Stops(c, frames) == |frames|
  {
    hide TerminalFrame;
    if frames != [] && !TerminalFrame(c, frames[0]) {
      var rest := frames[1..];
      UnmarkedReadsAll(c, rest);
      if Marked(c, rest) {
        assert frames[Stops(c, frames) - 1] == rest[Stops(c, rest) - 1];
      }
    }
  }

  lemma {:induction false} NoChoicesElsewhere(c: Setting, frames: seq<string>)
    ensures !c.p.Chat? && !c.p.Gemini? ==> History(c, frames) == []
  {
    if frames != [] {
      NoChoicesElsewhere(c, frames[1..]);
    }
  }

  // ----- failure -----

  /** What each fault says of the frame it was found in. */
  ghost predicate FaultIs(c: Setting, frame: string, fault: Fault) {
    var event, data := EventName(c.d, Lines(frame)), DataText(c.d, frame);
    match fault
    case NoFault => false
    case UpstreamError => event == "error" || (c.d.parse(data).Some? && c.d.parse(data).value.hasError)
    case UnexpectedMarker => data == "[DONE]" && c.p != Chat
    case InvalidSseJson => data != "" && data != "[DONE]" && c.d.parse(data).None?
    case UpstreamIncomplete => EventIn(c, frame).Some? && NameIn(c, frame, EventIn(c, frame).value) in {"error", "response.failed", "response.incomplete"}
    case UpstreamBlocked => EventIn(c, frame).Some? && c.p.Gemini? && EventIn(c, frame).value.blocked
    case UnknownProtocol => c.p.OtherProtocol?
    case InvalidChoiceIndex => AnyBadIndex(ChoicesIn(c, frame))
  }

  lemma {:induction false} NotedFaultIs(o: Observation, cs: seq<Choice>)
    requires o.fault == NoFault
    ensures NotedAll(o, cs).fault in {NoFault, InvalidChoiceIndex}
  {
    if cs != [] {
      NotedFaultIs(o, cs[..|cs|-1]);
    }
  }

  /** What each fault says of the event it was found in. */
  ghost predicate EventFaultIs(p: Protocol, name: string, v: Event, fault: Fault) {
    match fault
    case NoFault => true
    case UpstreamError => v.hasError
    case UpstreamIncomplete => !v.hasError && name in {"error", "response.failed", "response.incomplete"}
    case UpstreamBlocked => !v.hasError && p.Gemini? && v.blocked
    case UnknownProtocol => p.OtherProtocol?
    case InvalidChoiceIndex => !v.hasError && ((p.Chat? && AnyBadIndex(v.choices)) || (p.Gemini? && AnyBadIndex(v.candidates)))
    case _ => false
  }

  lemma DecodedFaultIs(p: Protocol, o: Observation, event: string, v: Event)
    requires o.fault == NoFault
    ensures EventFaultIs(p, if v.kind != "" then v.kind else event, v, Decoded(p, o, event, v).fault)
  {
    hide NotedAll, MergedAll, AnyBadIndex;
    var a := o.(usage := MergedAll(o.usage, v.usages));
    NotedFault(a, v.choices);
    NotedFault(a, v.candidates);
    NotedFaultIs(a, v.choices);
    NotedFaultIs(a, v.candidates);
  }

  /** A fault is found in a frame that shows it. */
  lemma SeeFaultIs(c: Setting, o: Observation, frame: string)
    requires o.fault == NoFault && See(c, o, frame).fault != NoFault
    ensures FaultIs(c, frame, See(c, o, frame).fault)
  {
    hide Decoded, AnyBadIndex, EventName, Lines, DataText;
    var event, data := EventName(c.d, Lines(frame)), DataText(c.d, frame);
    if event != "error" && data != "" && data != "[DONE]" && c.d.parse(data).Some? {
      DecodedFaultIs(c.p, o, event, c.d.parse(data).value);
    }
  }

  /** What the result of a relay says of the frames it read: too long for the cap, a frame that shows the
      fault, a clean end before the choices finished, a stream cut short, or a write that failed. */
  ghost predicate ResultIs(c: Setting, frames: seq<string>, last: Read, out: Outcome, total: int, n: nat, h: seq<Choice>) {
    && out.read <= |frames|
    && match out.result.error
       case OutputLimit => out.read > 0 && total + |Concat(frames[..out.read])| > c.cap && out.handed == frames[..out.read-1]
       case Observing(fault) => out.read > 0 && FaultIs(c, frames[out.read-1], fault) && out.handed == frames[..out.read-1]
       case MissingCompletion =>
         out.read == |frames| && last.End? && !AllFinished(h + History(c, frames)) && out.handed == frames && out.result.transportOk
       case TruncatedStream => out.read == |frames| && !last.End? && out.result.clientCanceled == c.canceled && out.handed == frames
       case NoError =>
         && out.handed == frames[..out.read]
         && (Successful(out.result) || (out.result.clientCanceled && out.read > 0 && !c.writes(n + out.read - 1)))
  }

  lemma {:induction false} FailureFrom(c: Setting, frames: seq<string>, last: Read, o: Observation, total: int, n: nat, h: seq<Choice>)
    requires Running(o, h)
    ensures ResultIs(c, frames, last, Run(c, frames, last, o, total, n), total, n, h)
    decreases |frames|
  {
    hide Observed, TerminalFrame, FaultIs, ChoicesIn, Summary, AllFinished, AllDone, Run;
    RunStep(c, frames, last, o, total, n);
    if frames == [] {
      assert h + [] == h;
      DoneIsFinished(o.choices, h);
    } else {
      var f, sum, seen := frames[0], total + |frames[0]|, See(c, o, frames[0]);
      assert frames[..1] == [f] && [f][1..] == [];
      if sum <= c.cap && seen.fault != NoFault {
        SeeFaultIs(c, o, f);
      }
      if sum <= c.cap && seen.fault == NoFault && c.writes(n) {
        SeeRuns(c, o, h, f);
        if !TerminalFrame(c, f) {
          var rest := frames[1..];
          FailureFrom(c, rest, last, seen, sum, n + 1, h + ChoicesIn(c, f));
          assert h + ChoicesIn(c, f) + History(c, rest) == h + History(c, frames);
          var read := Run(c, frames, last, o, total, n).read;
          assert frames[..read][0] == f && frames[..read][1..] == rest[..read-1];
          assert read > 1 ==> frames[read-1] == rest[read-2];
        }
      }
    }
  }

  /** A relay that is no success names what went wrong. */
  lemma FailureIsNamed(c: Setting, frames: seq<string>, last: Read)
    ensures ResultIs(c, frames, last, Run(c, frames, last, START, 0, 0), 0, 0, [])
  {
    hide ResultIs;
    StartRuns();
    FailureFrom(c, frames, last, START, 0, 0, []);
  }

  // ----- output -----

  ghost predicate AnyOutput(cs: seq<Choice>) { exists k :: 0 <= k < |cs| && cs[k].output }

  /** A frame that carries output of the model, as each protocol marks it. */
  ghost predicate OutputFrame(c: Setting, frame: string) {
    EventIn(c, frame).Some? && EventHasOutput(c.p, NameIn(c, frame, EventIn(c, frame).value), EventIn(c, frame).value)
  }

  ghost predicate EventHasOutput(p: Protocol, name: string, v: Event) {
    match p
    case Chat => AnyOutput(v.choices)
    case Gemini => AnyOutput(v.candidates)
    case Messages => name == "content_block_delta" && v.blockDelta
    case Responses => v.textDelta && (name == "response.output_text.delta" || name == "response.function_call_arguments.delta" || name == "response.refusal.delta")
    case OtherProtocol => false
  }

  lemma {:induction false} NotedOutput(o: Observation, cs: seq<Choice>)
    ensures NotedAll(o, cs).sawOutput <==> o.sawOutput || AnyOutput(cs)
  {
    if cs != [] {
      var n := |cs| - 1;
      NotedOutput(o, cs[..n]);
      assert AnyOutput(cs) <==> AnyOutput(cs[..n]) || cs[n].output by {
        assert forall k :: 0 <= k < n ==> cs[..n][k] == cs[k];
      }
    }
  }

  lemma DecodedOutput(p: Protocol, o: Observation, event: string, v: Event)
    requires Decoded(p, o, event, v).fault == NoFault
    ensures !v.hasError
    ensures Decoded(p, o, event, v).sawOutput <==> o.sawOutput || EventHasOutput(p, if v.kind != "" then v.kind else event, v)
  {
    hide NotedAll, MergedAll, AnyOutput;
    var a := o.(usage := MergedAll(o.usage, v.usages));
    NotedOutput(a, v.choices);
    NotedOutput(a, v.candidates);
  }

  /** The observer has seen output exactly when one of its frames carried some. */
  lemma SeeOutput(c: Setting, o: Observation, frame: string)
    requires See(c, o, frame).fault == NoFault
    ensures See(c, o, frame).sawOutput <==> o.sawOutput || OutputFrame(c, frame)
  {
    hide Decoded, EventHasOutput, EventName, Lines, DataText;
    var event, data := EventName(c.d, Lines(frame)), DataText(c.d, frame);
    if event != "error" && data != "" && data != "[DONE]" && c.d.parse(data).Some? {
      DecodedOutput(c.p, o, event, c.d.parse(data).value);
    }
  }

  // ----- the usage of a run -----

  /** The token counts that a frame declares. */
  function UsagesIn(c: Setting, frame: string): seq<UsageValue> {
    match EventIn(c, frame)
    case None => []
    case Some(v) => v.usages
  }

  function AllUsages(c: Setting, frames: seq<string>): seq<UsageValue> {
    if frames == [] then [] else UsagesIn(c, frames[0]) + AllUsages(c, frames[1..])
  }

  lemma {:induction false} MergeTwice(u: Usage, a: seq<UsageValue>, b: seq<UsageValue>)
    ensures MergedAll(MergedAll(u, a), b) == MergedAll(u, a + b)
  {
    hide Merged;
    if b == [] {
      assert a + b == a;
    } else {
      MergeTwice(u, a, b[..|b|-1]);
      assert (a + b)[..|a + b|-1] == a + b[..|b|-1];
    }
  }

  lemma {:induction false} NotedKeepsUsage(o: Observation, cs: seq<Choice>)
    ensures NotedAll(o, cs).usage == o.usage
  {
    if cs != [] {
      NotedKeepsUsage(o, cs[..|cs|-1]);
    }
  }

  lemma DecodedUsage(p: Protocol, o: Observation, event: string, v: Event)
    ensures Decoded(p, o, event, v).usage == if v.hasError then o.usage else MergedAll(o.usage, v.usages)
  {
    hide MergedAll, NotedAll;
    var a := o.(usage := MergedAll(o.usage, v.usages));
    NotedKeepsUsage(a, v.choices);
    NotedKeepsUsage(a, v.candidates);
  }

  lemma SeeUsage(c: Setting, o: Observation, frame: string)
    ensures See(c, o, frame).usage == MergedAll(o.usage, UsagesIn(c, frame))
  {
    hide Decoded, EventName, Lines, DataText;
    var event, data := EventName(c.d, Lines(frame)), DataText(c.d, frame);
    if event != "error" && data != "" && data != "[DONE]" && c.d.parse(data).Some? {
      DecodedUsage(c.p, o, event, c.d.parse(data).value);
    }
  }

  lemma {:induction false} RunUsage(c: Setting, frames: seq<string>, last: Read, o: Observation, total: int, n: nat)
    ensures var out := Run(c, frames, last, o, total, n);
      && out.read <= |frames|
      && (out.result.error != OutputLimit ==> out.result.usage == MergedAll(o.usage, AllUsages(c, frames[..out.read])))
    decreases |frames|
  {
    hide See, MergedAll, UsagesIn;
    if frames != [] {
      var f, rest := frames[0], frames[1..];
      RunStep(c, frames, last, o, total, n);
      SeeUsage(c, o, f);
      RunUsage(c, rest, last, See(c, o, f), total + |f|, n + 1);
      var out := Run(c, frames, last, o, total, n);
      var read := out.read;
      assert frames[..read][1..] == rest[..read-1] && frames[..read][0] == f;
      MergeTwice(o.usage, UsagesIn(c, f), AllUsages(c, rest[..read-1]));
      assert read == 1 ==> rest[..read-1] == [] && UsagesIn(c, f) + [] == UsagesIn(c, f);
    } else {
      NoUsages(c, o.usage);
      assert frames[..0] == [];
    }
  }

  lemma NoUsages(c: Setting, u: Usage)
    ensures AllUsages(c, []) == [] && MergedAll(u, []) == u
  {
  }

  /** Unless the relay stops at its output limit, it reports the usage that the frames it read declare, all
      of them, in order. */
  lemma UsageIsRead(c: Setting, frames: seq<string>, last: Read)
    ensures var out := Run(c, frames, last, START, 0, 0);
      && out.read <= |frames|
      && (out.result.error != OutputLimit ==> out.result.usage == MergedAll(NO_USAGE, AllUsages(c, frames[..out.read])))
  {
    RunUsage(c, frames, last, START, 0, 0);
  }
}
