/** Server-sent event framing: complete frames out of a fragmenting reader, and the data of a frame
    (sections 9.2.5 and 9.2.6 of the WHATWG HTML standard). A byte is a character with that code. */
module Sse {
  import opened Policy

  // ----- frames -----

  /** Position `n` lies right behind an empty line, LF or CRLF; the text starts at a line start. */
  predicate Boundary(s: string, n: nat) {
    && 1 <= n <= |s| && s[n-1] == '\n'
    && (n == 1 || s[n-2] == '\n' || (s[n-2] == '\r' && (n == 2 || s[n-3] == '\n')))
  }

  /** Length of the first line with its LF, or of everything when there is none. */
  function LineLen(s: string): (n: nat)
    ensures n <= |s| && forall k :: 0 <= k < n - 1 ==> s[k] != '\n'
    ensures s != [] ==> n >= 1
    ensures n < |s| ==> s[n-1] == '\n'
  {
    if s == [] then 0 else if s[0] == '\n' then 1 else 1 + LineLen(s[1..])
  }

  predicate Terminated(s: string) { s != [] && s[LineLen(s)-1] == '\n' }

  predicate EmptyLine(s: string) { s == "\n" || s == "\r\n" }

  /** Length of the first frame, if the text holds a complete one. */
  function FrameLen(s: string): (r: Option<nat>)
    ensures r.Some? ==> 1 <= r.value <= |s|
  {
    if !Terminated(s) then None
    else
      var n := LineLen(s);
      if EmptyLine(s[..n]) then Some(n) else Later(FrameLen(s[n..]), n)
  }

  function Later(r: Option<nat>, n: nat): Option<nat> {
    if r.None? then None else Some(n + r.value)
  }

  /** Inside the first line the only possible boundary is its end, if the line is empty. */
  lemma FirstLineBoundary(s: string, k: nat)
    requires Terminated(s) && k <= LineLen(s)
    ensures Boundary(s, k) <==> k == LineLen(s) && EmptyLine(s[..k])
  {
    var n := LineLen(s);
    if k == n {
      assert s[..n][n-1] == s[n-1];
      if n >= 2 { assert s[..n][n-2] == s[n-2]; }
    }
  }

  /** A frame is the shortest prefix that ends in an empty line; without one there is no frame. */
  lemma {:induction false} FrameIsShortest(s: string)
    ensures FrameLen(s).Some? ==> Boundary(s, FrameLen(s).value) && forall k: nat :: k < FrameLen(s).value ==> !Boundary(s, k)
    ensures FrameLen(s).None? ==> forall k: nat :: !Boundary(s, k)
    decreases |s|
  {
    hide FrameLen, Boundary, EmptyLine;
    if Terminated(s) {
      var n := LineLen(s);
      FirstFrame(s);
      forall k: nat | k <= n ensures Boundary(s, k) <==> k == n && EmptyLine(s[..k]) {
        FirstLineBoundary(s, k);
      }
      if !EmptyLine(s[..n]) {
        FrameIsShortest(s[n..]);
        forall k: nat | k > n ensures Boundary(s, k) <==> Boundary(s[n..], k - n) {
          LaterBoundary(s, n, k - n);
        }
      }
    } else {
      NoLineNoBoundary(s);
    }
  }

  lemma LaterBoundary(s: string, n: nat, k: nat)
    requires Terminated(s) && n == LineLen(s) && !EmptyLine(s[..n]) && k >= 1
    ensures Boundary(s, n + k) <==> Boundary(s[n..], k)
  {
    if n + k <= |s| {
      assert s[n..][k-1] == s[n+k-1];
      if k >= 2 { assert s[n..][k-2] == s[n+k-2]; }
      if k >= 3 { assert s[n..][k-3] == s[n+k-3]; }
    }
  }

  lemma NoLineNoBoundary(s: string)
    requires !Terminated(s)
    ensures FrameLen(s) == None
    ensures forall k: nat :: !Boundary(s, k)
  {
  }

  // ----- reading frames -----

  datatype Read = Frame(bytes: string) | End | TooLong | Truncated

  /** What the next call returns, whatever the fragments: the shortest frame if it fits. `broken`
      tells a failing stream from one that ends. */
  function NextRead(rest: string, limit: int, broken: bool): Read {
    match FrameLen(rest)
    case Some(n) => if n > limit then TooLong else Frame(rest[..n])
    case None =>
      if |rest| > limit then TooLong
      else if rest == [] && !broken then End
      else Truncated
  }

  datatype Stop = Delimiter | BufferFull | Failed

  /** The first `n` bytes hold only complete, nonempty lines. */
  ghost predicate NoFrameIn(rest: string, n: nat) {
    && n <= |rest|
    && FrameLen(rest) == Later(FrameLen(rest[n..]), n)
  }

  lemma NextLine(rest: string, n: nat)
    requires NoFrameIn(rest, n) && Terminated(rest[n..])
    ensures var m := LineLen(rest[n..]);
      if EmptyLine(rest[n..][..m]) then FrameLen(rest) == Some(n + m) else NoFrameIn(rest, n + m)
  {
    hide FrameLen, EmptyLine, Terminated;
    var m := LineLen(rest[n..]);
    assert rest[n..][m..] == rest[n+m..];
    FirstFrame(rest[n..]);
  }

  lemma FirstFrame(s: string)
    requires Terminated(s)
    ensures FrameLen(s) == if EmptyLine(s[..LineLen(s)]) then Some(LineLen(s)) else Later(FrameLen(s[LineLen(s)..]), LineLen(s))
  {
    hide EmptyLine;
  }

  lemma {:induction false} LineLenIs(s: string, m: nat)
    requires 1 <= m <= |s| && s[m-1] == '\n' && forall k :: 0 <= k < m - 1 ==> s[k] != '\n'
    ensures LineLen(s) == m && Terminated(s)
  {
  }

  lemma {:induction false} Unterminated(s: string)
    requires forall k :: 0 <= k < |s| ==> s[k] != '\n'
    ensures FrameLen(s) == None && LineLen(s) == |s|
  {
    if s != [] {
      Unterminated(s[1..]);
    }
  }

  /** A frame reaches at least over the line that is being read. */
  lemma FrameCoversLine(s: string, m: nat)
    requires m <= |s| && forall k :: 0 <= k < m ==> s[k] != '\n'
    ensures FrameLen(s).Some? ==> FrameLen(s).value > m
  {
    FrameIsShortest(s);
    if FrameLen(s).Some? {
      assert s[FrameLen(s).value - 1] == '\n';
    }
  }

  /** What the bytes of the current line say, once `m` of them were read. */
  lemma LineFacts(rest: string, start: nat, m: nat, closed: bool)
    requires NoFrameIn(rest, start) && start + m <= |rest| && (closed ==> m >= 1 && rest[start+m-1] == '\n')
    requires forall k :: start <= k < start + m && (k < start + m - 1 || !closed) ==> rest[k] != '\n'
    ensures FrameLen(rest).Some? ==> FrameLen(rest).value >= start + m
    ensures closed ==> if EmptyLine(rest[start..start+m]) then FrameLen(rest) == Some(start + m) else NoFrameIn(rest, start + m)
    ensures !closed && start + m == |rest| ==> FrameLen(rest) == None
  {
    hide FrameLen, EmptyLine, NoFrameIn;
    if closed {
      ClosedLine(rest, start, m);
    } else {
      OpenLine(rest, start, m);
    }
  }

  lemma ClosedLine(rest: string, start: nat, m: nat)
    requires NoFrameIn(rest, start) && 1 <= m && start + m <= |rest| && rest[start+m-1] == '\n'
    requires forall k :: start <= k < start + m - 1 ==> rest[k] != '\n'
    ensures FrameLen(rest).Some? ==> FrameLen(rest).value >= start + m
    ensures if EmptyLine(rest[start..start+m]) then FrameLen(rest) == Some(start + m) else NoFrameIn(rest, start + m)
  {
    hide FrameLen, EmptyLine, Terminated, LineLen;
    var s := rest[start..];
    assert forall k :: 0 <= k < m ==> s[k] == rest[start+k];
    LineLenIs(s, m);
    NextLine(rest, start);
    assert s[..m] == rest[start..start+m];
    FrameCoversLine(s, m - 1);
  }

  lemma OpenLine(rest: string, start: nat, m: nat)
    requires NoFrameIn(rest, start) && start + m <= |rest|
    requires forall k :: start <= k < start + m ==> rest[k] != '\n'
    ensures FrameLen(rest).Some? ==> FrameLen(rest).value >= start + m
    ensures start + m == |rest| ==> FrameLen(rest) == None
  {
    hide FrameLen, LineLen;
    var s := rest[start..];
    assert forall k :: 0 <= k < m ==> s[k] == rest[start+k];
    FrameCoversLine(s, m);
    if start + m == |rest| {
      Unterminated(s);
    }
  }

  class Reader {
    const stream: string
    const broken: bool
    const size: nat
    const limit: int
    var pos: nat
    var frame: string

    ghost predicate Valid()
      reads this
    {
      pos <= |stream| && size >= 2 && limit >= 0
    }

    constructor (stream: string, broken: bool, size: nat, limit: int)
      requires size >= 2 && limit >= 0
      ensures Valid() && this.stream == stream && this.broken == broken && this.size == size && this.limit == limit && pos == 0
    {
      this.stream, this.broken, this.size, this.limit := stream, broken, size, limit;
      pos, frame := 0, [];
    }

    ghost function Rest(): string
      reads this
      requires Valid()
    {
      stream[pos..]
    }

    /** One buffered read: up to a line feed, or a full buffer without one, or what is left. */
    method ReadSlice() returns (line: string, stop: Stop)
      requires Valid()
      modifies this`pos
      ensures Valid() && old(pos) + |line| == pos && line == stream[old(pos)..pos]
      ensures forall k :: 0 <= k < |line| && (k < |line| - 1 || !stop.Delimiter?) ==> line[k] != '\n'
      ensures stop.Delimiter? ==> line != [] && line[|line|-1] == '\n'
      ensures stop.BufferFull? ==> |line| == size
      ensures stop.Failed? ==> pos == |stream|
    {
      var i := pos;
      while i < |stream| && i - pos < size
        invariant pos <= i <= |stream| && i - pos <= size
        invariant forall k :: pos <= k < i ==> stream[k] != '\n'
      {
        i := i + 1;
        if stream[i-1] == '\n' {
          line, pos := stream[pos..i], i;
          return line, Delimiter;
        }
      }
      line := stream[pos..i];
      stop := if i - pos == size then BufferFull else Failed;
      pos := i;
    }

    /** What was read of the current frame: complete nonempty lines, then `lineBytes` of a line. */
    ghost predicate Reading(rest: string, lineBytes: nat)
      reads this
    {
      && Valid() && lineBytes <= |frame| <= |rest| && frame == rest[..|frame|] && stream[pos..] == rest[|frame|..]
      && NoFrameIn(rest, |frame| - lineBytes)
      && (forall k :: |frame| - lineBytes <= k < |frame| ==> rest[k] != '\n')
    }

    /** Read one more fragment and append it, unless the frame grows over the limit. `empty` tells
        whether an empty line was completed. */
    method Extend(lineBytes: nat, ghost rest: string) returns (read: nat, stop: Stop, over: bool, empty: bool)
      requires Reading(rest, lineBytes) && (lineBytes == 0 || lineBytes >= 2)
      modifies this
      ensures over ==> NextRead(rest, limit, broken) == TooLong
      ensures !over ==> |frame| <= limit && (stop.BufferFull? ==> read == size) && |frame| == |old(frame)| + read
      ensures !over && stop.BufferFull? ==> Reading(rest, lineBytes + read)
      ensures stop.Delimiter? ==> read >= 1
      ensures !over && stop.Failed? ==> FrameLen(rest) == None && frame == rest
      ensures !over && stop.Delimiter? && empty ==> FrameLen(rest) == Some(|frame|) && Framed(rest)
      ensures !over && stop.Delimiter? && !empty ==> Reading(rest, 0) && frame != []
    {
      hide FrameLen, NoFrameIn, EmptyLine, NextRead;
      ghost var start, were, from := |frame| - lineBytes, |frame|, pos;
      var line;
      line, stop := ReadSlice();
      read := |line|;
      assert stream[from..] == line + stream[pos..];
      Fragment(rest, start, were, line, stream[pos..]);
      LineFacts(rest, start, were + |line| - start, stop.Delimiter?);
      over := |frame| + |line| > limit;
      if over {
        TooMuch(rest, limit, broken, |frame| + |line|);
      }
      empty := lineBytes + |line| == 1 || (lineBytes + |line| == 2 && |line| == 2 && line[0] == '\r');
      if !over {
        frame := frame + line;
        if stop.Delimiter? {
          LineShape(rest[start..|frame|], line, lineBytes);
        }
      }
    }

    /** A complete frame was read. */
    ghost predicate Framed(rest: string)
      reads this
    {
      Valid() && 0 < |frame| <= |rest| && frame == rest[..|frame|] && stream[pos..] == rest[|frame|..]
    }

    /** The next frame. The outcome depends on the bytes that are left and not on where the buffer
        happened to split a line. */
    method Next() returns (r: Read)
      requires Valid()
      modifies this
      ensures r == NextRead(old(Rest()), limit, broken)
      ensures r.Frame? ==> r.bytes != [] && Valid() && |r.bytes| <= |old(Rest())| && Rest() == old(Rest())[|r.bytes|..]
    {
      hide FrameLen, NoFrameIn;
      frame := [];
      var lineBytes: nat := 0;
      ghost var rest := Rest();
      NothingRead(rest);
      while true
        invariant Reading(rest, lineBytes) && (lineBytes == 0 || lineBytes >= 2)
        decreases |rest| - |frame|
      {
        var read, stop, over, empty := Extend(lineBytes, rest);
        if over {
          return TooLong;
        }
        lineBytes := lineBytes + read;
        if stop == BufferFull {
          continue;
        }
        if stop != Delimiter {
          return if !broken && |frame| == 0 then End else Truncated;
        }
        if empty {
          return Frame(frame);
        }
        lineBytes := 0;
      }
    }
  }

  lemma TooMuch(rest: string, limit: int, broken: bool, n: nat)
    requires limit < n <= |rest| && (FrameLen(rest).Some? ==> FrameLen(rest).value >= n)
    ensures NextRead(rest, limit, broken) == TooLong
  {
    hide FrameLen;
  }

  lemma Fragment(rest: string, start: nat, were: nat, line: string, tail: string)
    requires start <= were <= |rest| && rest[were..] == line + tail
    ensures were + |line| <= |rest| && rest[..were] + line == rest[..were + |line|] && rest[were + |line|..] == tail
    ensures forall k :: were <= k < were + |line| ==> rest[k] == line[k-were]
    ensures line != [] ==> rest[were + |line| - 1] == line[|line|-1]
    ensures rest[start..were + |line|][were-start..] == line
  {
    assert forall k :: 0 <= k < |line| ==> rest[were..][k] == line[k];
    assert rest == rest[..were] + rest[were..];
  }

  /** A line is empty when it is a lone line feed, or a CRLF that arrived in one piece; a fragment
      before it has at least two bytes. */
  lemma LineShape(full: string, line: string, before: nat)
    requires line != [] && line[|line|-1] == '\n' && |full| == before + |line| && full[before..] == line
    requires before == 0 || before >= 2
    ensures EmptyLine(full) <==> before + |line| == 1 || (before + |line| == 2 && |line| == 2 && line[0] == '\r')
  {
    assert full[|full|-1] == line[|line|-1];
    if before == 0 {
      assert full == line;
    }
  }

  lemma NothingRead(rest: string)
    ensures NoFrameIn(rest, 0)
  {
    assert rest[0..] == rest;
  }

  // ----- whole streams -----

  function Concat(fs: seq<string>): string { if fs == [] then [] else fs[0] + Concat(fs[1..]) }

  /** Every frame up to the first outcome that is none, and that outcome. */
  function AllFrames(rest: string, limit: int, broken: bool): (r: (seq<string>, Read))
    decreases |rest|
  {
    match NextRead(rest, limit, broken)
    case Frame(f) => var (fs, last) := AllFrames(rest[|f|..], limit, broken); ([f] + fs, last)
    case other => ([], other)
  }

  /** One complete frame: it ends in an empty line and has none before. */
  ghost predicate IsFrame(f: string) { FrameLen(f) == Some(|f|) }

  lemma FrameIsPrefix(f: string, rest: string)
    requires IsFrame(f)
    ensures FrameLen(f + rest) == Some(|f|)
  {
    hide FrameLen;
    FrameIsShortest(f);
    FrameIsShortest(f + rest);
    forall k: nat | k <= |f| ensures Boundary(f + rest, k) <==> Boundary(f, k) {
    }
  }

  lemma FramePrefix(s: string)
    requires FrameLen(s).Some?
    ensures IsFrame(s[..FrameLen(s).value])
  {
    hide FrameLen;
    var n := FrameLen(s).value;
    FrameIsShortest(s);
    FrameIsShortest(s[..n]);
    forall k: nat | k <= n ensures Boundary(s[..n], k) <==> Boundary(s, k) {
    }
  }

  lemma ConcatCons(f: string, fs: seq<string>, rest: string)
    requires f <= rest && Concat(fs) <= rest[|f|..]
    ensures Concat([f] + fs) <= rest && (Concat(fs) == rest[|f|..] ==> Concat([f] + fs) == rest)
    ensures forall k :: 1 <= k < |[f] + fs| ==> ([f] + fs)[k] == fs[k-1]
  {
    assert ([f] + fs)[1..] == fs;
    assert rest == f + rest[|f|..];
  }

  /** Nothing is lost or invented: the frames are complete, fit the limit and, when the stream ends
      cleanly, concatenate to all of it. */
  lemma {:induction false} FramesAreStream(rest: string, limit: int, broken: bool)
    ensures var (fs, last) := AllFrames(rest, limit, broken);
      && (forall k :: 0 <= k < |fs| ==> IsFrame(fs[k]) && |fs[k]| <= limit)
      && Concat(fs) <= rest
      && (last.End? ==> Concat(fs) == rest && !broken)
      && !last.Frame?
    decreases |rest|
  {
    hide FrameLen, IsFrame;
    var r := NextRead(rest, limit, broken);
    if r.Frame? {
      FramePrefix(rest);
      var f := r.bytes;
      FramesAreStream(rest[|f|..], limit, broken);
      var (fs, last) := AllFrames(rest[|f|..], limit, broken);
      ConcatCons(f, fs, rest);
    }
  }

  /** How reading ends: cleanly exactly when nothing is left of a stream that did not fail, as too long
      exactly when what is left passes the limit without an empty line, and as truncated otherwise. */
  lemma {:induction false} StreamEnds(rest: string, limit: int, broken: bool)
    ensures var (fs, last) := AllFrames(rest, limit, broken);
      && Concat(fs) <= rest
      && var left := rest[|Concat(fs)|..];
      && (last.End? <==> left == [] && !broken && limit >= 0)
      && (last.TooLong? <==> |left| > limit && forall k: nat :: k <= limit ==> !Boundary(left, k))
      && !last.Frame?
    decreases |rest|
  {
    hide FrameLen, Boundary;
    FrameIsShortest(rest);
    NoFrameInNothing();
    var r := NextRead(rest, limit, broken);
    if r.Frame? {
      var f := r.bytes;
      StreamEnds(rest[|f|..], limit, broken);
      var (fs, last) := AllFrames(rest[|f|..], limit, broken);
      ConcatCons(f, fs, rest);
      assert ([f] + fs)[1..] == fs;
      assert rest[|Concat([f] + fs)|..] == rest[|f|..][|Concat(fs)|..];
    } else {
      assert rest[|Concat([])|..] == rest;
    }
  }

  /** Conversely every list of frames within the limit is read back unchanged. */
  lemma {:induction false} FramesRoundTrip(fs: seq<string>, limit: int)
    requires limit >= 0 && forall k :: 0 <= k < |fs| ==> IsFrame(fs[k]) && |fs[k]| <= limit
    ensures AllFrames(Concat(fs), limit, false) == (fs, End)
    decreases |fs|
  {
    hide FrameLen;
    if fs != [] {
      var f, rest := fs[0], Concat(fs[1..]);
      FrameIsPrefix(f, rest);
      assert IsFrame(f) && |f| <= limit;
      assert (f + rest)[..|f|] == f && (f + rest)[|f|..] == rest;
      assert NextRead(Concat(fs), limit, false) == Frame(f);
      FramesRoundTrip(fs[1..], limit);
      assert [f] + fs[1..] == fs;
    } else {
      NoFrameInNothing();
    }
  }

  lemma NoFrameInNothing()
    ensures FrameLen([]) == None
  {
  }

  // ----- the data of a frame -----

  function TrimCr(line: string): string { if line != [] && line[|line|-1] == '\r' then line[..|line|-1] else line }

  function TrimSpace(v: string): string { if v != [] && v[0] == ' ' then v[1..] else v }

  /** The value of a data line, if it is one. */
  function DataValue(line: string): Option<string> {
    var l := TrimCr(line);
    if "data:" <= l then Some(TrimSpace(l[5..])) else None
  }

  /** The lines of a frame without their line feeds; nothing follows a final line feed. */
  function Lines(frame: string): seq<string>
    decreases |frame|
  {
    if frame == [] then []
    else
      var n := LineLen(frame);
      [frame[..if Terminated(frame) then n - 1 else n]] + Lines(frame[n..])
  }

  function Values(lines: seq<string>): seq<string> {
    if lines == [] then []
    else (if DataValue(lines[0]).Some? then [DataValue(lines[0]).value] else []) + Values(lines[1..])
  }

  /** Join with line feeds; no data line at all is not the same as one empty value. */
  function Joined(values: seq<string>): Option<string> {
    if values == [] then None
    else if |values| == 1 then Some(values[0])
    else Some(Joined(values[..|values|-1]).value + "\n" + values[|values|-1])
  }

  function DataOf(frame: string): Option<string> { Joined(Values(Lines(frame))) }

  lemma {:induction false} ValuesSnoc(lines: seq<string>, line: string)
    ensures Values(lines + [line]) == Values(lines) + if DataValue(line).Some? then [DataValue(line).value] else []
  {
    hide DataValue;
    if lines == [] {
      assert lines + [line] == [line];
    } else {
      assert (lines + [line])[1..] == lines[1..] + [line];
      ValuesSnoc(lines[1..], line);
    }
  }

  /** One more value costs its length and a line feed, which its own line has paid for. */
  lemma ValueShort(line: string)
    ensures DataValue(line).Some? ==> |DataValue(line).value| + 5 <= |line|
  {
  }

  lemma JoinedSnoc(values: seq<string>, v: string)
    ensures Joined(values + [v]) == Some(if values == [] then v else Joined(values).value + "\n" + v)
    ensures Joined(values).None? <==> values == []
  {
    assert (values + [v])[..|values|] == values;
  }

  method CopyInto(buf: array<char>, at: nat, v: string)
    requires at + |v| <= buf.Length
    modifies buf
    ensures buf[..at] == old(buf[..at]) && buf[at..at+|v|] == v
  {
    var i := 0;
    while i < |v|
      invariant 0 <= i <= |v| && buf[..at] == old(buf[..at]) && buf[at..at+i] == v[..i]
    {
      buf[at+i] := v[i];
      i := i + 1;
    }
  }

  /** Cuts the next line off, without its line feed. */
  method CutLine(frame: string) returns (line: string, rest: string)
    requires frame != []
    ensures Lines(frame) == [line] + Lines(rest) && |rest| < |frame|
    ensures |line| + |rest| <= |frame| && (rest != [] ==> |line| + 1 + |rest| <= |frame|)
  {
    var i := 0;
    while i < |frame| && frame[i] != '\n'
      invariant 0 <= i <= |frame| && forall k :: 0 <= k < i ==> frame[k] != '\n'
    {
      i := i + 1;
    }
    if i < |frame| {
      LineLenIs(frame, i + 1);
      return frame[..i], frame[i+1..];
    }
    Unterminated(frame);
    assert frame[..i] == frame && frame[i..] == [];
    return frame, [];
  }

  /** The text collected so far: a view of the frame, or the buffer that owns a copy. */
  ghost predicate Collected(buf: array?<char>, used: nat, view: Option<string>, expected: Option<string>)
    reads if buf == null then {} else {buf}
  {
    if buf == null then view == expected else used <= buf.Length && expected == Some(buf[..used])
  }

  /** Appends one value. The first one is kept as a view; the second moves everything into a buffer
      as large as the frame, which never has to grow. */
  method Append(buf0: array?<char>, used0: nat, view0: Option<string>, capacity: nat, v: string, ghost values: seq<string>)
    returns (buf: array?<char>, used: nat, view: Option<string>)
    requires Collected(buf0, used0, view0, Joined(values)) && (buf0 != null ==> buf0.Length == capacity)
    requires values != [] ==> |Joined(values).value| + 1 + |v| <= capacity
    requires Joined(values).None? <==> values == []
    modifies if buf0 == null then {} else {buf0}
    ensures buf == buf0 || fresh(buf)
    ensures buf != null ==> buf.Length == capacity
    ensures Collected(buf, used, view, Joined(values + [v]))
  {
    JoinedSnoc(values, v);
    buf, used, view := buf0, used0, view0;
    if buf == null && view.None? {
      view := Some(v);
      return;
    }
    if buf == null {
      buf, used := new char[capacity], |view.value|;
      CopyInto(buf, 0, view.value);
    }
    ghost var sofar := buf[..used];
    buf[used] := '\n';
    assert buf[..used] == sofar;
    CopyInto(buf, used + 1, v);
    assert buf[..used+1] == sofar + ['\n'];
    assert buf[..used+1+|v|] == buf[..used+1] + buf[used+1..used+1+|v|];
    used := used + 1 + |v|;
  }

  /** The data of a frame: the values of its data lines joined with line feeds, never longer than
      the frame, whether one line allowed a view or several were copied. */
  method SseData(frame: string) returns (data: Option<string>)
    ensures data == DataOf(frame) && (data.Some? ==> |data.value| <= |frame|)
  {
    hide DataValue, Joined, Lines, Values;
    var rest, capacity := frame, |frame|;
    var buf: array?<char>, used: nat, view: Option<string> := null, 0, None;
    ghost var done: seq<string>, values: seq<string> := [], [];
    NothingJoined();
    while rest != []
      invariant Lines(frame) == done + Lines(rest) && values == Values(done)
      invariant buf == null || (fresh(buf) && buf.Length == capacity)
      invariant Collected(buf, used, view, Joined(values)) && (Joined(values).None? <==> values == [])
      invariant |rest| <= capacity && (Joined(values).Some? ==> |Joined(values).value| + |rest| <= capacity)
      decreases |rest|
    {
      var line, more := CutLine(rest);
      ValuesSnoc(done, line);
      ValueShort(line);
      var value := DataValue(line);
      if value.Some? {
        JoinedSnoc(values, value.value);
        buf, used, view := Append(buf, used, view, capacity, value.value, values);
        values := values + [value.value];
      }
      done, rest := done + [line], more;
    }
    NothingJoined();
    assert done + Lines(rest) == done;
    data := if buf == null then view else Some(buf[..used]);
  }

  lemma NothingJoined()
    ensures Joined([]) == None && Values([]) == [] && Lines([]) == []
  {
  }

  // ----- writing data and reading it back -----

  /** A line as a server may write it: a data line with or without a space, or another line; each with
      or without a carriage return. */
  datatype Written = Data(value: string, spaced: bool, cr: bool) | Other(text: string, cr: bool)

  predicate WrittenOk(l: Written) {
    match l
    case Data(value, spaced, cr) => '\n' !in value && (!spaced ==> !([' '] <= value)) && (!cr ==> !EndsInCr(value))
    case Other(text, _) => '\n' !in text && !("data:" <= text)
  }

  predicate EndsInCr(s: string) { s != [] && s[|s|-1] == '\r' }

  function Spelled(l: Written): string {
    match l
    case Data(value, spaced, cr) => "data:" + (if spaced then " " else "") + value + (if cr then "\r" else "")
    case Other(text, cr) => text + (if cr then "\r" else "")
  }

  function Sent(ls: seq<Written>): string {
    if ls == [] then [] else Spelled(ls[0]) + "\n" + Sent(ls[1..])
  }

  /** The values of the data lines, with line feeds between them. */
  function Told(ls: seq<Written>): Option<string> {
    if ls == [] then None
    else
      match (ls[0], Told(ls[1..]))
      case (Data(value, _, _), Some(more)) => Some(value + "\n" + more)
      case (Data(value, _, _), None) => Some(value)
      case (Other(_, _), more) => more
  }

  lemma SpelledIsLine(l: Written)
    requires WrittenOk(l)
    ensures '\n' !in Spelled(l)
    ensures DataValue(Spelled(l)) == match l case Data(value, _, _) => Some(value) case Other(_, _) => None
  {
    hide DataValue;
    match l
    case Data(value, spaced, cr) => DataIsRead(value, spaced, cr);
    case Other(text, cr) => OtherIsNoData(text, cr);
  }

  lemma DataIsRead(value: string, spaced: bool, cr: bool)
    requires WrittenOk(Data(value, spaced, cr))
    ensures DataValue(Spelled(Data(value, spaced, cr))) == Some(value)
  {
    var s, body := Spelled(Data(value, spaced, cr)), "data:" + (if spaced then " " else "") + value;
    assert s == body + (if cr then "\r" else "");
    assert !cr ==> s == body && s[|s|-1] == if value != [] then value[|value|-1] else if spaced then ' ' else ':';
    assert TrimCr(s) == body;
    assert body[5..] == (if spaced then " " else "") + value;
    assert TrimSpace(body[5..]) == value;
  }

  lemma OtherIsNoData(text: string, cr: bool)
    requires !("data:" <= text)
    ensures DataValue(text + if cr then "\r" else "") == None
  {
  }

  lemma FirstLine(line: string, rest: string)
    requires '\n' !in line
    ensures Lines(line + "\n" + rest) == [line] + Lines(rest)
  {
    var s := line + "\n" + rest;
    LineLenIs(s, |line| + 1);
    assert s[..|line|] == line && s[|line|+1..] == rest;
  }

  lemma {:induction false} JoinedFront(v: string, values: seq<string>)
    requires values != []
    ensures Joined(values).Some? && Joined([v] + values) == Some(v + "\n" + Joined(values).value)
    decreases |values|
  {
    var n := |values| - 1;
    assert ([v] + values)[..|values|] == [v] + values[..n];
    if n > 0 {
      JoinedFront(v, values[..n]);
      assert v + "\n" + Joined(values[..n]).value + "\n" + values[n] == v + "\n" + (Joined(values[..n]).value + "\n" + values[n]);
    }
  }

  lemma ValuesFront(line: string, rest: seq<string>)
    ensures Values([line] + rest) == (if DataValue(line).Some? then [DataValue(line).value] else []) + Values(rest)
  {
    hide DataValue;
    assert ([line] + rest)[1..] == rest;
  }

  /** Whatever lines a server writes, reading the data of the frame gives back the values of its data lines,
      joined with line feeds; nothing when it has none. */
  lemma {:induction false} DataRoundTrip(ls: seq<Written>)
    requires forall k :: 0 <= k < |ls| ==> WrittenOk(ls[k])
    ensures DataOf(Sent(ls)) == Told(ls)
  {
    hide DataValue, Lines, Values, Joined, WrittenOk, Spelled;
    NothingJoined();
    if ls != [] {
      var line, rest := Spelled(ls[0]), Sent(ls[1..]);
      DataRoundTrip(ls[1..]);
      SpelledIsLine(ls[0]);
      FirstLine(line, rest);
      ValuesFront(line, Lines(rest));
      JoinedSnoc(Values(Lines(rest)), "");
      assert [] + Values(Lines(rest)) == Values(Lines(rest));
      if ls[0].Data? {
        if Values(Lines(rest)) != [] {
          JoinedFront(ls[0].value, Values(Lines(rest)));
        } else {
          JoinedSnoc([], ls[0].value);
          assert [ls[0].value] + [] == [] + [ls[0].value];
        }
      }
    }
  }
}
