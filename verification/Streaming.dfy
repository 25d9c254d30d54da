/** Relaying a stream: when the relay may call it a success. */
module Streaming {
  import opened Policy
  import opened Sse
  import opened Completion

  datatype StreamFault = NoError | MissingCompletion | TruncatedStream | OutputLimit | Observing(fault: Fault)

  datatype Execution = Execution(transportOk: bool, protocolComplete: bool, error: StreamFault, clientCanceled: bool, usage: Usage)

  predicate Successful(r: Execution) { r.transportOk && r.protocolComplete && r.error == NoError && !r.clientCanceled }

  /** The surroundings of one relay: decoding, protocol, output cap, which writes reach the client
      and whether its context has ended when a read fails. */
  datatype Setting = Setting(d: Decoding, p: Protocol, cap: int, writes: nat -> bool, canceled: bool)

  datatype Outcome = Outcome(result: Execution, handed: seq<string>, read: nat)

  function See(c: Setting, o: Observation, frame: string): Observation { Observed(c.d, c.p, o, frame) }

  /** What one frame leads to: the end of the relay, if it is one, and whether the client was
      handed the frame. `sum` includes the frame. */
  function Relayed(c: Setting, o: Observation, frame: string, sum: int, n: nat): (Option<Execution>, bool) {
    if sum > c.cap then (Some(Execution(false, false, OutputLimit, false, o.usage)), false)
    else
      var seen := See(c, o, frame);
      if seen.fault != NoFault then (Some(Execution(false, false, Observing(seen.fault), false, seen.usage)), false)
      else if !c.writes(n) then (Some(Execution(false, false, NoError, true, seen.usage)), true)
      else if seen.terminal then (Some(Execution(true, seen.complete, NoError, false, seen.usage)), true)
      else (None, true)
  }

  /** What follows the last frame. */
  function Ended(c: Setting, last: Read, o: Observation): Execution {
    if last.End? then Execution(true, o.complete, if o.complete then NoError else MissingCompletion, false, o.usage)
    else Execution(false, false, TruncatedStream, c.canceled, o.usage)
  }

  /** The relay over the frames that the reader will return and the outcome that follows them. */
  function Run(c: Setting, frames: seq<string>, last: Read, o: Observation, total: int, n: nat): Outcome
    decreases |frames|
  {
    if frames == [] then Outcome(Ended(c, last, o), [], 0)
    else
      var f, sum := frames[0], total + |frames[0]|;
      var (done, wrote) := Relayed(c, o, f, sum, n);
      if done.Some? then Outcome(done.value, if wrote then [f] else [], 1)
      else
        var rest := Run(c, frames[1..], last, See(c, o, f), sum, n + 1);
        Outcome(rest.result, [f] + rest.handed, rest.read + 1)
  }

  method Finish(observer: Observer, c: Setting, last: Read) returns (result: Execution)
    ensures result == Ended(c, last, observer.Value())
  {
    if last.End? {
      result := Execution(true, observer.complete, if observer.complete then NoError else MissingCompletion, false, observer.usage);
    } else {
      result := Execution(false, false, TruncatedStream, c.canceled, observer.usage);
    }
  }

  method Relay(observer: Observer, c: Setting, frame: string, sum: int, n: nat) returns (done: Option<Execution>, wrote: bool)
    requires observer.protocol == c.p
    modifies observer
    ensures (done, wrote) == Relayed(c, old(observer.Value()), frame, sum, n)
    ensures done.None? ==> wrote && observer.Value() == See(c, old(observer.Value()), frame)
  {
    hide Observed;
    if sum > c.cap {
      return Some(Execution(false, false, OutputLimit, false, observer.usage)), false;
    }
    observer.Observe(c.d, frame);
    if observer.fault != NoFault {
      return Some(Execution(false, false, Observing(observer.fault), false, observer.usage)), false;
    }
    if !c.writes(n) {
      return Some(Execution(false, false, NoError, true, observer.usage)), true;
    }
    if observer.terminal {
      return Some(Execution(true, observer.complete, NoError, false, observer.usage)), true;
    }
    return None, true;
  }

  /** The relay loop. `handed` are the frames given to the client, in order. */
  method StreamResponse(reader: Reader, c: Setting) returns (result: Execution, sent: bool, ghost handed: seq<string>)
    requires reader.Valid()
    modifies reader
    ensures var all := AllFrames(old(reader.Rest()), reader.limit, reader.broken);
      var out := Run(c, all.0, all.1, START, 0, 0);
      result == out.result && handed == out.handed && sent == (handed != [])
  {
    hide Observed, NextRead, AllFrames, Run, Relayed, See, Ended;
    var observer := new Observer(c.p);
    var total, n := 0, 0;
    sent, handed := false, [];
    ghost var all := AllFrames(reader.Rest(), reader.limit, reader.broken);
    ghost var out := Run(c, all.0, all.1, START, 0, 0);
    ghost var left := all.0;
    while true
      invariant reader.Valid() && fresh(observer) && 0 <= n && observer.protocol == c.p
      invariant AllFrames(reader.Rest(), reader.limit, reader.broken) == (left, all.1)
      invariant sent == (handed != [])
      invariant var now := Run(c, left, all.1, observer.Value(), total, n);
        now.result == out.result && handed + now.handed == out.handed
      decreases |left|
    {
      AllFramesStep(reader.Rest(), reader.limit, reader.broken);
      RunStep(c, left, all.1, observer.Value(), total, n);
      var read := reader.Next();
      match read {
        case Frame(frame) =>
          total := total + |frame|;
          var done, wrote := Relay(observer, c, frame, total, n);
          if wrote {
            sent, handed := true, handed + [frame];
          }
          if done.Some? {
            return done.value, sent, handed;
          }
          left, n := left[1..], n + 1;
        case _ =>
          result := Finish(observer, c, read);
          return;
      }
    }
  }

  lemma RunStep(c: Setting, frames: seq<string>, last: Read, o: Observation, total: int, n: nat)
    ensures frames == [] ==> Run(c, frames, last, o, total, n) == Outcome(Ended(c, last, o), [], 0)
    ensures frames != [] ==>
      var f, sum := frames[0], total + |frames[0]|;
      var (done, wrote) := Relayed(c, o, f, sum, n);
      var rest := Run(c, frames[1..], last, See(c, o, f), sum, n + 1);
      Run(c, frames, last, o, total, n) == if done.Some? then Outcome(done.value, if wrote then [f] else [], 1)
        else Outcome(rest.result, [f] + rest.handed, rest.read + 1)
  {
    hide Relayed, See, Ended;
  }

  lemma AllFramesStep(rest: string, limit: int, broken: bool)
    ensures var r, all := NextRead(rest, limit, broken), AllFrames(rest, limit, broken);
      if r.Frame? then |r.bytes| <= |rest| && all.0 != [] && all.0[0] == r.bytes
        && AllFrames(rest[|r.bytes|..], limit, broken) == (all.0[1..], all.1)
      else all == ([], r)
  {
  }
}
