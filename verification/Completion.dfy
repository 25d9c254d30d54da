/** Deciding from the frames of a stream whether the upstream really finished. */
module Completion {
  import opened Policy
  import opened Sse

  datatype Protocol = Chat | Messages | Responses | Gemini | OtherProtocol

  datatype Fault = NoFault | UpstreamError | UnexpectedMarker | InvalidSseJson | UpstreamIncomplete | UpstreamBlocked
                 | UnknownProtocol | InvalidChoiceIndex

  datatype Index = Index(n: int)

  /** One choice or candidate of an event: its index, whether it names a finish reason, whether it
      carries output. */
  datatype Choice = Choice(index: Index, finished: bool, output: bool)

  /** Declared token counts, each present or not. */
  datatype UsageValue = UsageValue(input: Option<int>, output: Option<int>, total: Option<int>)

  /** A decoded event. Decoding of the delimited JSON is not modelled. */
  datatype Event = Event(
    kind: string, hasError: bool, choices: seq<Choice>, candidates: seq<Choice>, blocked: bool,
    blockDelta: bool, textDelta: bool, usages: seq<UsageValue>)

  datatype Decoding = Decoding(trim: string -> string, parse: string -> Option<Event>)

  datatype Usage = Usage(input: int, output: int, total: int, seen: bool, inputSeen: bool, outputSeen: bool, totalSeen: bool)

  datatype Observation = Observation(
    complete: bool, terminal: bool, sawOutput: bool, fault: Fault, choices: map<Index, bool>, usage: Usage)

  const NO_USAGE := Usage(0, 0, 0, false, false, false, false)
  const START := Observation(false, false, false, NoFault, map[], NO_USAGE)

  // ----- what one frame says -----

  /** The last event line names the event. */
  function EventName(d: Decoding, lines: seq<string>): string {
    if lines == [] then ""
    else if "event:" <= lines[|lines|-1] then d.trim(lines[|lines|-1][6..])
    else EventName(d, lines[..|lines|-1])
  }

  function DataText(d: Decoding, frame: string): string {
    d.trim(if DataOf(frame).Some? then DataOf(frame).value else "")
  }

  predicate AllDone(choices: map<Index, bool>) {
    choices != map[] && forall i :: i in choices ==> choices[i]
  }

  function Noted(o: Observation, index: Index, finished: bool): Observation {
    if index.n < 0 || index.n > 1024 then o.(fault := InvalidChoiceIndex)
    else
      var choices := o.choices[index := (index in o.choices && o.choices[index]) || finished];
      o.(choices := choices, complete := AllDone(choices))
  }

  function NotedAll(o: Observation, cs: seq<Choice>): Observation {
    if cs == [] then o
    else
      var n := Noted(NotedAll(o, cs[..|cs|-1]), cs[|cs|-1].index, cs[|cs|-1].finished);
      n.(sawOutput := n.sawOutput || cs[|cs|-1].output)
  }

  function Merged(u: Usage, v: UsageValue): Usage {
    if v.input.None? && v.output.None? && v.total.None? then u
    else
      var a := u.(seen := true,
                  input := if v.input.Some? then v.input.value else u.input, inputSeen := u.inputSeen || v.input.Some?,
                  output := if v.output.Some? then v.output.value else u.output, outputSeen := u.outputSeen || v.output.Some?,
                  total := if v.total.Some? then v.total.value else u.total, totalSeen := u.totalSeen || v.total.Some?);
      if !a.totalSeen && a.inputSeen && a.outputSeen then a.(total := a.input + a.output) else a
  }

  function MergedAll(u: Usage, vs: seq<UsageValue>): Usage {
    if vs == [] then u else Merged(MergedAll(u, vs[..|vs|-1]), vs[|vs|-1])
  }

  function Finished(o: Observation): Observation { o.(complete := true, terminal := true) }

  /** The event kinds each protocol reacts to. */
  function Dispatched(p: Protocol, o: Observation, name: string, v: Event): Observation {
    match p
    case Chat => NotedAll(o, v.choices)
    case Messages =>
      var a := if name == "message_stop" then Finished(o) else o;
      if name == "content_block_delta" && v.blockDelta then a.(sawOutput := true) else a
    case Responses =>
      var a := if name == "response.completed" then Finished(o) else o;
      if name in {"response.output_text.delta", "response.function_call_arguments.delta", "response.refusal.delta"} && v.textDelta
      then a.(sawOutput := true) else a
    case Gemini => if v.blocked then o.(fault := UpstreamBlocked) else NotedAll(o, v.candidates)
    case OtherProtocol => o.(fault := UnknownProtocol)
  }

  function Decoded(p: Protocol, o: Observation, event: string, v: Event): Observation {
    if v.hasError then o.(fault := UpstreamError)
    else
      var name := if v.kind != "" then v.kind else event;
      var a := o.(usage := MergedAll(o.usage, v.usages));
      if name in {"error", "response.failed", "response.incomplete"} then a.(fault := UpstreamIncomplete)
      else Dispatched(p, a, name, v)
  }

  function Observed(d: Decoding, p: Protocol, o: Observation, frame: string): Observation {
    var event, data := EventName(d, Lines(frame)), DataText(d, frame);
    if event == "error" then o.(fault := UpstreamError)
    else if data == "" then o
    else if data == "[DONE]" then if p != Chat then o.(fault := UnexpectedMarker) else Finished(o)
    else
      match d.parse(data)
      case None => o.(fault := InvalidSseJson)
      case Some(v) => Decoded(p, o, event, v)
  }

  // ----- the observer -----

  method FoldDone(choices: map<Index, bool>) returns (complete: bool)
    ensures complete == AllDone(choices)
  {
    complete := |choices| > 0;
    var todo := choices.Keys;
    while todo != {}
      invariant todo <= choices.Keys
      invariant complete <==> choices != map[] && forall i :: i in choices && i !in todo ==> choices[i]
      decreases |todo|
    {
      var i :| i in todo;
      todo := todo - {i};
      if !choices[i] {
        complete := false;
      }
    }
  }

  class Observer {
    const protocol: Protocol
    var complete: bool
    var terminal: bool
    var sawOutput: bool
    var fault: Fault
    var choices: map<Index, bool>
    var usage: Usage

    constructor (protocol: Protocol)
      ensures this.protocol == protocol && Value() == START
    {
      this.protocol := protocol;
      complete, terminal, sawOutput, fault, choices, usage := false, false, false, NoFault, map[], NO_USAGE;
    }

    ghost function Value(): Observation
      reads this
    {
      Observation(complete, terminal, sawOutput, fault, choices, usage)
    }

    method Note(index: Index, finished: bool)
      modifies this`choices, this`complete, this`fault
      ensures Value() == Noted(old(Value()), index, finished)
    {
      if index.n < 0 || index.n > 1024 {
        fault := InvalidChoiceIndex;
        return;
      }
      choices := choices[index := (index in choices && choices[index]) || finished];
      complete := FoldDone(choices);
    }

    method NoteAll(cs: seq<Choice>)
      modifies this
      ensures Value() == NotedAll(old(Value()), cs)
    {
      for n := 0 to |cs|
        invariant Value() == NotedAll(old(Value()), cs[..n])
      {
        assert cs[..n+1][..n] == cs[..n];
        Note(cs[n].index, cs[n].finished);
        if cs[n].output {
          sawOutput := true;
        }
      }
      assert cs[..|cs|] == cs;
    }

    method MergeUsage(v: UsageValue)
      modifies this`usage
      ensures usage == Merged(old(usage), v)
    {
      if v.input.None? && v.output.None? && v.total.None? {
        return;
      }
      usage := usage.(seen := true);
      if v.input.Some? {
        usage := usage.(input := v.input.value, inputSeen := true);
      }
      if v.output.Some? {
        usage := usage.(output := v.output.value, outputSeen := true);
      }
      if v.total.Some? {
        usage := usage.(total := v.total.value, totalSeen := true);
      }
      if !usage.totalSeen && usage.inputSeen && usage.outputSeen {
        usage := usage.(total := usage.input + usage.output);
      }
    }

    method MergeAll(vs: seq<UsageValue>)
      modifies this`usage
      ensures usage == MergedAll(old(usage), vs)
    {
      for n := 0 to |vs|
        invariant usage == MergedAll(old(usage), vs[..n])
      {
        assert vs[..n+1][..n] == vs[..n];
        MergeUsage(vs[n]);
      }
      assert vs[..|vs|] == vs;
    }

    method Dispatch(name: string, v: Event)
      modifies this
      ensures Value() == Dispatched(protocol, old(Value()), name, v)
    {
      match protocol {
        case Chat => NoteAll(v.choices);
        case Messages =>
          if name == "message_stop" {
            complete, terminal := true, true;
          }
          if name == "content_block_delta" && v.blockDelta {
            sawOutput := true;
          }
        case Responses =>
          if name == "response.completed" {
            complete, terminal := true, true;
          }
          if name in {"response.output_text.delta", "response.function_call_arguments.delta", "response.refusal.delta"} && v.textDelta {
            sawOutput := true;
          }
        case Gemini =>
          if v.blocked {
            fault := UpstreamBlocked;
          } else {
            NoteAll(v.candidates);
          }
        case OtherProtocol => fault := UnknownProtocol;
      }
    }

    method Observe(d: Decoding, frame: string)
      modifies this
      ensures Value() == Observed(d, protocol, old(Value()), frame)
    {
      var event := LastEvent(d, frame);
      var joined := SseData(frame);
      var data := d.trim(if joined.Some? then joined.value else "");
      if event == "error" {
        fault := UpstreamError;
        return;
      }
      if data == "" {
        return;
      }
      if data == "[DONE]" {
        if protocol != Chat {
          fault := UnexpectedMarker;
        } else {
          complete, terminal := true, true;
        }
        return;
      }
      var decoded := d.parse(data);
      if decoded.None? {
        fault := InvalidSseJson;
        return;
      }
      var v := decoded.value;
      if v.hasError {
        fault := UpstreamError;
        return;
      }
      if v.kind != "" {
        event := v.kind;
      }
      MergeAll(v.usages);
      if event in {"error", "response.failed", "response.incomplete"} {
        fault := UpstreamIncomplete;
        return;
      }
      Dispatch(event, v);
    }
  }

  /** Scans the lines forwards; a later event line overrides an earlier one. */
  method LastEvent(d: Decoding, frame: string) returns (event: string)
    ensures event == EventName(d, Lines(frame))
  {
    hide Lines;
    event := "";
    var rest := frame;
    ghost var done: seq<string> := [];
    assert Lines([]) == [] by { NothingJoined(); }
    while rest != []
      invariant Lines(frame) == done + Lines(rest) && event == EventName(d, done)
      decreases |rest|
    {
      var line, more := CutLine(rest);
      if "event:" <= line {
        event := d.trim(line[6..]);
      }
      assert (done + [line])[..|done|] == done;
      done, rest := done + [line], more;
    }
    assert done + [] == done;
  }

  /** The event is named by the last event line, or not at all. */
  lemma {:induction false} EventNameMeans(d: Decoding, lines: seq<string>, k: nat)
    requires k < |lines| ==> "event:" <= lines[k]
    requires forall j :: k < j < |lines| ==> !("event:" <= lines[j])
    requires k >= |lines| ==> forall j :: 0 <= j < |lines| ==> !("event:" <= lines[j])
    ensures EventName(d, lines) == if k < |lines| then d.trim(lines[k][6..]) else ""
  {
    if lines != [] && !("event:" <= lines[|lines|-1]) {
      var n := |lines| - 1;
      EventNameMeans(d, lines[..n], if k < |lines| then k else n);
    }
  }

  // ----- usage -----

  /** The total is the declared one, or the sum once both parts are known. */
  predicate UsageOk(u: Usage) {
    && (u.seen <==> u.inputSeen || u.outputSeen || u.totalSeen)
    && (!u.inputSeen ==> u.input == 0) && (!u.outputSeen ==> u.output == 0)
    && (!u.totalSeen ==> u.total == if u.inputSeen && u.outputSeen then u.input + u.output else 0)
  }

  /** The latest declaration of a token count. */
  function Latest(vs: seq<UsageValue>, part: UsageValue -> Option<int>): Option<int> {
    if vs == [] then None
    else if part(vs[|vs|-1]).Some? then part(vs[|vs|-1])
    else Latest(vs[..|vs|-1], part)
  }

  /** Whatever was declared, in whatever order: each count is its latest declaration, and an
      undeclared total is the sum of the latest parts. */
  lemma {:induction false} UsageMeans(vs: seq<UsageValue>)
    ensures var u := MergedAll(NO_USAGE, vs);
      && UsageOk(u)
      && var i, o, t := Latest(vs, (v: UsageValue) => v.input), Latest(vs, (v: UsageValue) => v.output), Latest(vs, (v: UsageValue) => v.total);
      && (u.inputSeen <==> i.Some?) && (u.outputSeen <==> o.Some?) && (u.totalSeen <==> t.Some?)
      && (i.Some? ==> u.input == i.value) && (o.Some? ==> u.output == o.value) && (t.Some? ==> u.total == t.value)
  {
    if vs != [] {
      UsageMeans(vs[..|vs|-1]);
    }
  }
}
