/** Reading the routing fields of a request body, and replacing its model name in place. */
module Requests {
  import opened Policy
  import opened Json
  import opened Scanner
  import opened Spans

  /** `limit` is the caller's output ceiling, zero when there is none. */
  datatype Flags = Flags(stream: bool, tools: bool, stateful: bool, vision: bool, limit: int)

  /** The model name with the span of its value; a negative start means that none was seen. */
  datatype Request = Request(model: string, modelStart: int, modelEnd: int, flags: Flags)

  datatype Error = InvalidJson | NotObject | DuplicateModel | ModelNotString | DuplicateStream | StreamNotBool

  datatype Result<+T> = Ok(value: T) | Err(error: Error)

  /** Decoding of one delimited value is not modelled: each decoder is some function of its bytes. */
  datatype Decoders = Decoders(
    text: string -> Option<string>, boolean: string -> Option<bool>,
    positive: string -> Option<int>, generation: string -> Option<int>, image: string -> bool)

  /** A member as the scanner delimits it: the raw key, the raw value and the value's span. */
  datatype Field = Field(key: string, value: string, start: nat, end: nat)

  /** The routing fields collected so far. */
  datatype Scan = Scan(request: Request, seenStream: bool)

  const EMPTY := Request("", -1, 0, Flags(false, false, false, false, 0))

  const ROUTING_KEYS: set<string> := {
    "model", "stream", "tools", "functions", "previous_response_id", "conversation", "messages", "contents", "input",
    "max_tokens", "max_completion_tokens", "max_output_tokens", "generationConfig", "generation_config" }

  function Quote(name: string): string { "\"" + name + "\"" }

  /** The key a raw spelling stands for; unescaped keys that do not matter read as empty. */
  function RoutingKey(d: Decoders, raw: string): string {
    if |raw| >= 2 && raw == Quote(raw[1..|raw|-1]) && raw[1..|raw|-1] in ROUTING_KEYS then raw[1..|raw|-1]
    else if '\\' in raw && d.text(raw).Some? then d.text(raw).value
    else ""
  }

  function Raise(limit: int, found: Option<int>): int {
    if found.Some? && found.value > limit then found.value else limit
  }

  datatype Role = ModelName | StreamFlag | ToolList | ServerState | Conversation | OutputCap | GenerationCap | Ignored

  function RoleOf(key: string): Role {
    if key == "model" then ModelName
    else if key == "stream" then StreamFlag
    else if key in {"tools", "functions"} then ToolList
    else if key in {"previous_response_id", "conversation"} then ServerState
    else if key in {"messages", "contents", "input"} then Conversation
    else if key in {"max_tokens", "max_completion_tokens", "max_output_tokens"} then OutputCap
    else if key in {"generationConfig", "generation_config"} then GenerationCap
    else Ignored
  }

  function RoleIn(d: Decoders, f: Field): Role { RoleOf(RoutingKey(d, f.key)) }

  /** The effect of one member, in member order. */
  function Step(d: Decoders, s: Scan, f: Field): Result<Scan> {
    var r, g := s.request, s.request.flags;
    match RoleIn(d, f)
    case ModelName =>
      if r.modelStart >= 0 then Err(DuplicateModel)
      else if d.text(f.value).None? then Err(ModelNotString)
      else Ok(s.(request := Request(d.text(f.value).value, f.start, f.end, g)))
    case StreamFlag =>
      if s.seenStream then Err(DuplicateStream)
      else if d.boolean(f.value).None? then Err(StreamNotBool)
      else Ok(Scan(r.(flags := g.(stream := d.boolean(f.value).value)), true))
    case ToolList => Ok(s.(request := r.(flags := g.(tools := g.tools || (f.value != "[]" && f.value != "null")))))
    case ServerState => Ok(s.(request := r.(flags := g.(stateful := g.stateful || f.value != "null"))))
    case Conversation => Ok(s.(request := r.(flags := g.(vision := g.vision || d.image(f.value)))))
    case OutputCap => Ok(s.(request := r.(flags := g.(limit := Raise(g.limit, d.positive(f.value))))))
    case GenerationCap => Ok(s.(request := r.(flags := g.(limit := Raise(g.limit, d.generation(f.value))))))
    case Ignored => Ok(s)
  }

  function Fold(d: Decoders, s: Scan, fields: seq<Field>): Result<Scan>
    decreases |fields|
  {
    if fields == [] then Ok(s)
    else
      match Step(d, s, fields[0])
      case Err(e) => Err(e)
      case Ok(next) => Fold(d, next, fields[1..])
  }

  // ----- the members of a document, with their exact spans -----

  function ValueStart(m: Members, at: nat): nat
    requires m.Member?
  {
    at + |m.before| + |Quoted(m.key)| + |m.gap| + 1 + |m.sep|
  }

  function ValueText(m: Members): string
    requires m.Member?
  {
    Print(m.value) + Trail(m.value, m.after)
  }

  function FieldOf(m: Members, at: nat): Field
    requires m.Member?
  {
    Field(Quoted(m.key), ValueText(m), ValueStart(m, at), ValueStart(m, at) + |ValueText(m)|)
  }

  /** Where the member after `m` begins, behind the comma if there is one. */
  function NextAt(m: Members, at: nat): nat
    requires m.Member?
  {
    ValueStart(m, at) + |Print(m.value)| + |m.after| + if m.rest.NoMembers? then 0 else 1
  }

  function FieldsOf(members: Members, at: nat): seq<Field>
    decreases members
  {
    match members
    case NoMembers => []
    case Member(_, _, _, _, _, _, rest) => [FieldOf(members, at)] + FieldsOf(rest, NextAt(members, at))
  }

  function Count(m: Members): nat { if m.Member? then 1 + Count(m.rest) else 0 }

  function Nth(m: Members, k: nat): Members
    requires k < Count(m)
  {
    if k == 0 then m else Nth(m.rest, k - 1)
  }

  /** There is one field for every member, in order, with its raw key and its raw value; blanks behind a
      value belong to it when nothing else ends it. */
  lemma {:induction false} FieldsAreMembers(m: Members, at: nat, k: nat)
    requires k < Count(m)
    ensures |FieldsOf(m, at)| == Count(m) && Nth(m, k).Member?
    ensures var n, f := Nth(m, k), FieldsOf(m, at)[k];
      f.key == Quoted(n.key) && f.value == Print(n.value) + (if n.value.Scalar? then n.after else [])
  {
    hide Print, Quoted, NextAt, ValueStart;
    if k > 0 {
      FieldsAreMembers(m.rest, NextAt(m, at), k - 1);
    } else if Count(m.rest) > 0 {
      FieldsAreMembers(m.rest, NextAt(m, at), 0);
    }
  }

  /** What inspection should report for a document. */
  function Inspected(d: Decoders, doc: Document): Result<Request> {
    match doc.value
    case Object(_, members) =>
      (match Fold(d, Scan(EMPTY, false), FieldsOf(members, |doc.before| + 1))
       case Ok(s) => Ok(s.request)
       case Err(e) => Err(e))
    case _ => Err(NotObject)
  }

  // ----- the scan -----

  /** `s` is what is left of the text from position `i`. */
  ghost predicate At(b: string, i: nat, s: string) { i <= |b| && b[i..] == s }

  lemma Advance(b: string, i: nat, p: string, s: string)
    requires At(b, i, p + s)
    ensures i + |p| <= |b| && At(b, i + |p|, s) && b[i..i+|p|] == p
  {
    assert b[i+|p|..] == b[i..][|p|..];
    assert b[i..i+|p|] == b[i..][..|p|];
  }

  lemma AtFirst(b: string, i: nat, s: string)
    requires At(b, i, s) && s != []
    ensures i < |b| && b[i] == s[0]
  {
    assert b[i..][0] == b[i];
  }

  /** What is left to scan inside the top-level object. */
  ghost predicate Left(b: string, i: nat, pad: string, members: Members, after: string) {
    At(b, i, PrintMembers(pad, members) + (['}'] + after))
  }

  lemma FirstOfValue(v: Value, rest: string)
    requires ValueOk(v)
    ensures Print(v) != [] && !IsSpace(Print(v)[0])
    ensures (Print(v) + rest)[0] == Print(v)[0] && (Print(v)[0] == '{' <==> v.Object?)
  {
    if v.Scalar? {
      ScalarInert(v.text);
    }
  }

  method SkipSpace(b: string, i: nat, ghost pad: string, ghost rest: string) returns (j: nat)
    requires At(b, i, pad + rest) && Blank(pad) && (rest == [] || !IsSpace(rest[0]))
    ensures j == i + |pad| && At(b, j, rest)
  {
    j := Space(b, i);
    BlankSkipped(pad, rest);
    Advance(b, i, pad, rest);
  }

  method TakeString(b: string, i: nat, ghost ps: seq<Piece>, ghost rest: string) returns (j: nat)
    requires At(b, i, Quoted(ps) + rest) && PiecesOk(ps)
    ensures j == i + |Quoted(ps)| && j <= |b| && b[i..j] == Quoted(ps) && At(b, j, rest)
  {
    StringSpan(ps, rest);
    Advance(b, i, Quoted(ps), rest);
    j := StringEnd(b, i);
  }

  /** Reads one value; blanks behind a scalar are taken along. `j` ends the span. */
  method TakeValue(b: string, i: nat, ghost v: Value, ghost after: string, ghost rest: string) returns (j: nat)
    requires At(b, i, Print(v) + (after + rest)) && ValueOk(v) && Blank(after) && rest != [] && rest[0] in {',', '}'}
    ensures j == i + |Print(v)| + |Trail(v, after)| && j <= |b| && b[i..j] == Print(v) + Trail(v, after)
    ensures At(b, j, (if v.Scalar? then [] else after) + rest)
  {
    hide ValueLen, Print, ValueOk;
    ValueSpan(v, after, rest);
    assert Print(v) + after + rest == Print(v) + (after + rest);
    assert Print(v) + (after + rest) == (Print(v) + Trail(v, after)) + ((if v.Scalar? then [] else after) + rest);
    Advance(b, i, Print(v) + Trail(v, after), (if v.Scalar? then [] else after) + rest);
    j := ValueEnd(b, i);
  }

  ghost function Tail(m: Members, after: string): (t: string)
    requires m.Member?
    ensures t != [] && t[0] in {',', '}'}
  {
    (if m.rest.NoMembers? then [] else [','] + PrintMembers([], m.rest)) + (['}'] + after)
  }

  /** The text of a member from its key on. */
  ghost function FromKey(m: Members, after: string): string
    requires m.Member?
  {
    Quoted(m.key) + (m.gap + [':'] + m.sep + (Print(m.value) + (m.after + Tail(m, after))))
  }

  /** The key, the colon and the blanks around it. */
  method TakeKey(b: string, k0: nat, ghost m: Members, ghost rest: string) returns (k1: nat, start: nat)
    requires m.Member? && At(b, k0, Quoted(m.key) + (m.gap + [':'] + m.sep + rest))
    requires PiecesOk(m.key) && Blank(m.gap) && Blank(m.sep) && (rest == [] || !IsSpace(rest[0]))
    ensures k1 == k0 + |Quoted(m.key)| && start == k1 + |m.gap| + 1 + |m.sep| && start <= |b|
    ensures b[k0..k1] == Quoted(m.key) && At(b, start, rest)
  {
    hide Quoted, PiecesOk, Blank;
    k1 := TakeString(b, k0, m.key, m.gap + [':'] + m.sep + rest);
    assert m.gap + [':'] + m.sep + rest == m.gap + ([':'] + (m.sep + rest));
    var colon := SkipSpace(b, k1, m.gap, [':'] + (m.sep + rest));
    Advance(b, colon, [':'], m.sep + rest);
    start := SkipSpace(b, colon + 1, m.sep, rest);
  }

  /** The value, the blanks behind it and the comma, if there is one. */
  method TakeRest(b: string, start: nat, ghost m: Members, ghost after: string) returns (end: nat, next: nat)
    requires m.Member? && At(b, start, Print(m.value) + (m.after + Tail(m, after)))
    requires ValueOk(m.value) && Blank(m.after)
    ensures end == start + |ValueText(m)| && end <= |b| && b[start..end] == ValueText(m)
    ensures next == start + |Print(m.value)| + |m.after| + if m.rest.NoMembers? then 0 else 1
    ensures Left(b, next, [], m.rest, after)
  {
    hide Print, ValueOk, Blank, Tail, PrintMembers, At;
    end := TakeValue(b, start, m.value, m.after, Tail(m, after));
    EmptyIsBlank();
    next := SkipSpace(b, end, if m.value.Scalar? then [] else m.after, Tail(m, after));
    TailSplit(m, after);
    AtFirst(b, next, Tail(m, after));
    if b[next] == ',' {
      Advance(b, next, [','], PrintMembers([], m.rest) + (['}'] + after));
      next := next + 1;
    }
  }

  lemma LeftText(b: string, i: nat, pad: string, m: Members, after: string)
    requires Left(b, i, pad, m, after) && m.Member?
    ensures At(b, i, m.before + FromKey(m, after))
  {
    hide Print, Quoted;
    MemberText(pad, m, ['}'] + after, Print(m.value) + (m.after + Tail(m, after)), Tail(m, after));
  }

  lemma MemberParts(m: Members)
    requires MembersOk(m) && m.Member?
    ensures Blank(m.before) && PiecesOk(m.key) && Blank(m.gap) && Blank(m.sep) && ValueOk(m.value) && Blank(m.after) && MembersOk(m.rest)
  {
  }

  /** Skip to the next key or to the closing brace. */
  method NextKey(b: string, i: nat, ghost pad: string, ghost m: Members, ghost after: string) returns (k0: nat)
    requires Left(b, i, pad, m, after) && Blank(pad) && MembersOk(m)
    ensures k0 < |b| && (b[k0] == '}' <==> m.NoMembers?)
    ensures m.Member? ==> k0 == i + |m.before| && At(b, k0, FromKey(m, after))
  {
    hide Blank, Print, Quoted;
    ghost var skip, rest := pad, ['}'] + after;
    if m.Member? {
      LeftText(b, i, pad, m, after);
      QuoteFirst(m.key, m.gap + [':'] + m.sep + (Print(m.value) + (m.after + Tail(m, after))));
      skip, rest := m.before, FromKey(m, after);
    }
    k0 := SkipSpace(b, i, skip, rest);
    AtFirst(b, k0, rest);
  }

  /** One round of the scan delimits exactly one member. */
  method NextField(b: string, k0: nat, ghost i: nat, ghost m: Members, ghost after: string) returns (f: Field, next: nat)
    requires m.Member? && k0 == i + |m.before| && At(b, k0, FromKey(m, after)) && MembersOk(m)
    ensures f == FieldOf(m, i) && next == NextAt(m, i) && Left(b, next, [], m.rest, after)
  {
    hide Print, Quoted, ValueOk, PiecesOk, Blank, Left, At, Tail, MembersOk;
    MemberParts(m);
    FirstOfValue(m.value, m.after + Tail(m, after));
    var k1, start := TakeKey(b, k0, m, Print(m.value) + (m.after + Tail(m, after)));
    var end;
    end, next := TakeRest(b, start, m, after);
    f := Field(b[k0..k1], b[start..end], start, end);
  }

  lemma QuoteFirst(ps: seq<Piece>, rest: string)
    ensures (Quoted(ps) + rest)[0] == '"'
  {
  }

  lemma TailSplit(m: Members, after: string)
    requires m.Member?
    ensures m.rest.NoMembers? ==> Tail(m, after) == PrintMembers([], m.rest) + (['}'] + after) && Tail(m, after)[0] == '}'
    ensures !m.rest.NoMembers? ==> Tail(m, after) == [','] + (PrintMembers([], m.rest) + (['}'] + after))
  {
  }

  /** One member's effect, by the switch over its key. */
  lemma FoldStep(d: Decoders, s: Scan, m: Members, at: nat)
    requires m.Member?
    ensures Fold(d, s, FieldsOf(m, at)) ==
      match Step(d, s, FieldOf(m, at)) case Err(e) => Err(e) case Ok(next) => Fold(d, next, FieldsOf(m.rest, NextAt(m, at)))
  {
    hide Step, FieldOf, NextAt;
    assert FieldsOf(m, at)[1..] == FieldsOf(m.rest, NextAt(m, at));
  }

  /** Reads the routing fields. `valid` is the verdict of the JSON validator; on valid text the
      scan stays in bounds and visits exactly the top-level members, in order. */
  method Inspect(d: Decoders, b: string, valid: bool, ghost doc: Document) returns (r: Result<Request>)
    requires valid ==> DocumentOk(doc) && b == PrintDocument(doc)
    ensures r == if valid then Inspected(d, doc) else Err(InvalidJson)
  {
    hide Print, ValueOk, Blank, Step, Quoted, At, FieldsOf, Left, MembersOk, PiecesOk, FromKey;
    if !valid {
      return Err(InvalidJson);
    }
    var i: nat := OpenDocument(b, doc);
    if i >= |b| || b[i] != '{' {
      return Err(NotObject);
    }
    var s := Scan(EMPTY, false);
    ghost var pad, left := doc.value.pad, doc.value.members;
    i := EnterObject(b, i, doc);
    ObjectParts(doc);
    while true
      invariant Left(b, i, pad, left, doc.after) && Blank(pad) && MembersOk(left)
      invariant Fold(d, s, FieldsOf(left, i)) == Fold(d, Scan(EMPTY, false), FieldsOf(doc.value.members, |doc.before| + 1))
      decreases left
    {
      var key := NextKey(b, i, pad, left, doc.after);
      if b[key] == '}' {
        NoFields(d, s, i);
        return Ok(s.request);
      }
      FoldStep(d, s, left, i);
      var f, next := NextField(b, key, i, left, doc.after);
      match Step(d, s, f) {
        case Err(e) => return Err(e);
        case Ok(changed) => s := changed;
      }
      EmptyIsBlank();
      MemberParts(left);
      pad, left, i := [], left.rest, next;
    }
  }

  lemma ObjectParts(doc: Document)
    requires DocumentOk(doc) && doc.value.Object?
    ensures Blank(doc.value.pad) && MembersOk(doc.value.members)
  {
  }

  lemma NoFields(d: Decoders, s: Scan, at: nat)
    ensures Fold(d, s, FieldsOf(NoMembers, at)) == Ok(s)
  {
  }

  /** The first byte that is not blank starts the top-level value. */
  method OpenDocument(b: string, ghost doc: Document) returns (i: nat)
    requires DocumentOk(doc) && b == PrintDocument(doc)
    ensures i == |doc.before| && i < |b| && (b[i] == '{' <==> doc.value.Object?)
    ensures At(b, i, Print(doc.value) + doc.after)
  {
    hide Print, ValueOk, Blank;
    FirstOfValue(doc.value, doc.after);
    assert b == doc.before + (Print(doc.value) + doc.after);
    assert b[0..] == b;
    i := SkipSpace(b, 0, doc.before, Print(doc.value) + doc.after);
  }

  method EnterObject(b: string, i: nat, ghost doc: Document) returns (j: nat)
    requires doc.value.Object? && At(b, i, Print(doc.value) + doc.after)
    ensures j == i + 1 && Left(b, j, doc.value.pad, doc.value.members, doc.after)
  {
    ghost var inside := PrintMembers(doc.value.pad, doc.value.members) + (['}'] + doc.after);
    assert Print(doc.value) + doc.after == ['{'] + inside;
    Advance(b, i, ['{'], inside);
    j := i + 1;
  }

  // ----- what the collected flags mean -----

  /** A raw key spells a word: in quotes as it stands, or with escapes that decode to it. */
  predicate Spells(d: Decoders, raw: string, word: string) {
    raw == "\"" + word + "\"" || ('\\' in raw && d.text(raw) == Some(word))
  }

  /** Which keys carry each routing role. */
  predicate Names(d: Decoders, raw: string, role: Role) {
    match role
    case ModelName => Spells(d, raw, "model")
    case StreamFlag => Spells(d, raw, "stream")
    case ToolList => Spells(d, raw, "tools") || Spells(d, raw, "functions")
    case ServerState => Spells(d, raw, "previous_response_id") || Spells(d, raw, "conversation")
    case Conversation => Spells(d, raw, "messages") || Spells(d, raw, "contents") || Spells(d, raw, "input")
    case OutputCap => Spells(d, raw, "max_tokens") || Spells(d, raw, "max_completion_tokens") || Spells(d, raw, "max_output_tokens")
    case GenerationCap => Spells(d, raw, "generationConfig") || Spells(d, raw, "generation_config")
    case Ignored => forall word :: word in ROUTING_KEYS ==> !Spells(d, raw, word)
  }

  lemma PlainWord(word: string)
    requires word in ROUTING_KEYS
    ensures '\\' !in word
  {
  }

  lemma RoutingKeyIff(d: Decoders, raw: string, word: string)
    requires word in ROUTING_KEYS
    ensures RoutingKey(d, raw) == word <==> Spells(d, raw, word)
  {
    PlainWord(word);
    if raw == "\"" + word + "\"" {
      assert raw[1..|raw|-1] == word;
    }
    if |raw| >= 2 && raw == Quote(raw[1..|raw|-1]) && raw[1..|raw|-1] in ROUTING_KEYS {
      PlainWord(raw[1..|raw|-1]);
    }
  }

  /** The switch over the key gives every role exactly the keys that name it. */
  lemma RoleIff(d: Decoders, f: Field, role: Role)
    ensures RoleIn(d, f) == role <==> Names(d, f.key, role)
  {
    hide RoutingKey, Spells;
    forall word | word in ROUTING_KEYS ensures RoutingKey(d, f.key) == word <==> Spells(d, f.key, word) {
      RoutingKeyIff(d, f.key, word);
    }
  }

  predicate Sets(d: Decoders, f: Field, role: Role) {
    && Names(d, f.key, role)
    && match role
       case ToolList => f.value != "[]" && f.value != "null"
       case ServerState => f.value != "null"
       case Conversation => d.image(f.value)
       case _ => false
  }

  /** The output ceiling a member declares. */
  function Declares(d: Decoders, f: Field): Option<int> {
    if Names(d, f.key, OutputCap) then d.positive(f.value)
    else if Names(d, f.key, GenerationCap) then d.generation(f.value)
    else None
  }

  ghost predicate AnySets(d: Decoders, fields: seq<Field>, role: Role) {
    exists k :: 0 <= k < |fields| && Sets(d, fields[k], role)
  }

  ghost predicate IsCeiling(d: Decoders, fields: seq<Field>, base: int, limit: int) {
    && base <= limit
    && (forall k :: 0 <= k < |fields| ==> Declares(d, fields[k]).Some? ==> Declares(d, fields[k]).value <= limit)
    && (limit == base || exists k :: 0 <= k < |fields| && Declares(d, fields[k]) == Some(limit))
  }

  lemma StepFlags(d: Decoders, s: Scan, f: Field)
    requires Step(d, s, f).Ok?
    ensures var g, g' := s.request.flags, Step(d, s, f).value.request.flags;
      && (g'.tools <==> g.tools || Sets(d, f, ToolList))
      && (g'.stateful <==> g.stateful || Sets(d, f, ServerState))
      && (g'.vision <==> g.vision || Sets(d, f, Conversation))
      && g'.limit == Raise(g.limit, Declares(d, f))
  {
    hide RoleIn, Names;
    forall role ensures RoleIn(d, f) == role <==> Names(d, f.key, role) {
      RoleIff(d, f, role);
    }
  }

  /** Whatever the order of the members: each flag is set exactly when some member sets it, and the
      ceiling is the largest one declared. */
  lemma {:induction false} FlagsMean(d: Decoders, s: Scan, fields: seq<Field>)
    requires Fold(d, s, fields).Ok?
    ensures var g, g' := s.request.flags, Fold(d, s, fields).value.request.flags;
      && (g'.tools <==> g.tools || AnySets(d, fields, ToolList))
      && (g'.stateful <==> g.stateful || AnySets(d, fields, ServerState))
      && (g'.vision <==> g.vision || AnySets(d, fields, Conversation))
      && IsCeiling(d, fields, g.limit, g'.limit)
    decreases |fields|
  {
    hide Step, Sets, Declares;
    if fields != [] {
      var next, rest := Step(d, s, fields[0]).value, fields[1..];
      StepFlags(d, s, fields[0]);
      FlagsMean(d, next, rest);
      assert forall k :: 1 <= k < |fields| ==> fields[k] == rest[k-1];
      SomeSplit(d, fields, ToolList);
      SomeSplit(d, fields, ServerState);
      SomeSplit(d, fields, Conversation);
      var limit := Fold(d, s, fields).value.request.flags.limit;
      if limit != next.request.flags.limit {
        var k :| 0 <= k < |rest| && Declares(d, rest[k]) == Some(limit);
        assert fields[k+1] == rest[k];
      }
    }
  }

  lemma SomeSplit(d: Decoders, fields: seq<Field>, role: Role)
    requires fields != []
    ensures AnySets(d, fields, role) <==> Sets(d, fields[0], role) || AnySets(d, fields[1..], role)
  {
    hide Sets;
    if k :| 0 <= k < |fields| && Sets(d, fields[k], role) {
      assert k > 0 ==> fields[1..][k-1] == fields[k];
    }
    if k :| 0 <= k < |fields[1..]| && Sets(d, fields[1..][k], role) {
      assert fields[k+1] == fields[1..][k];
    }
  }

  /** What is wrong with a member after the ones collected in `s`. */
  ghost predicate Faulty(d: Decoders, s: Scan, f: Field, e: Error) {
    match e
    case DuplicateModel => Names(d, f.key, ModelName) && s.request.modelStart >= 0
    case ModelNotString => Names(d, f.key, ModelName) && s.request.modelStart < 0 && d.text(f.value) == None
    case DuplicateStream => Names(d, f.key, StreamFlag) && s.seenStream
    case StreamNotBool => Names(d, f.key, StreamFlag) && !s.seenStream && d.boolean(f.value) == None
    case _ => false
  }

  lemma FaultyIff(d: Decoders, s: Scan, f: Field, e: Error)
    ensures Step(d, s, f) == Err(e) <==> Faulty(d, s, f, e)
  {
    hide RoleIn, Names;
    RoleIff(d, f, ModelName);
    RoleIff(d, f, StreamFlag);
  }

  /** The member at `k` is faulty, and all before it is accepted. */
  ghost predicate FailsAt(d: Decoders, s: Scan, fields: seq<Field>, k: nat, e: Error) {
    k < |fields| && Fold(d, s, fields[..k]).Ok? && Faulty(d, Fold(d, s, fields[..k]).value, fields[k], e)
  }

  /** An error is given exactly when an accepted prefix is followed by a member with that fault. */
  lemma {:induction false} RejectedIff(d: Decoders, s: Scan, fields: seq<Field>, e: Error)
    ensures Fold(d, s, fields) == Err(e) <==> exists k: nat :: FailsAt(d, s, fields, k, e)
    decreases |fields|
  {
    hide Step, FailsAt;
    FailsFirst(d, s, fields, e);
    if fields != [] {
      var first, rest := Step(d, s, fields[0]), fields[1..];
      FailsLater(d, s, fields, e);
      if first.Ok? {
        RejectedIff(d, first.value, rest, e);
        if k: nat :| FailsAt(d, first.value, rest, k, e) {
          assert FailsAt(d, s, fields, k + 1, e);
        }
      }
    }
  }

  lemma FailsFirst(d: Decoders, s: Scan, fields: seq<Field>, e: Error)
    ensures fields == [] ==> forall k: nat :: !FailsAt(d, s, fields, k, e)
    ensures fields != [] ==> (FailsAt(d, s, fields, 0, e) <==> Step(d, s, fields[0]) == Err(e))
  {
    hide Step, Faulty;
    if fields != [] {
      FaultyIff(d, s, fields[0], e);
    }
  }

  lemma FailsLater(d: Decoders, s: Scan, fields: seq<Field>, e: Error)
    requires fields != []
    ensures var first := Step(d, s, fields[0]);
      && (first.Err? ==> forall k: nat :: k > 0 ==> !FailsAt(d, s, fields, k, e))
      && (first.Ok? ==> forall k: nat :: k > 0 ==> (FailsAt(d, s, fields, k, e) <==> FailsAt(d, first.value, fields[1..], k - 1, e)))
      && (first.Ok? ==> forall k: nat :: FailsAt(d, first.value, fields[1..], k, e) ==> FailsAt(d, s, fields, k + 1, e))
  {
    hide Step, Faulty;
    var rest := fields[1..];
    forall k: nat | 0 < k <= |fields|
      ensures fields[..k][0] == fields[0] && fields[..k][1..] == rest[..k-1] && (k < |fields| ==> fields[k] == rest[k-1])
    {
    }
    forall k: nat | k < |rest| ensures fields[..k+1][1..] == rest[..k] && fields[..k+1][0] == fields[0] && fields[k+1] == rest[k] {
    }
  }

  ghost predicate NoneIs(d: Decoders, fields: seq<Field>, role: Role) {
    forall k :: 0 <= k < |fields| ==> !Names(d, fields[k].key, role)
  }

  /** Exactly one member has the role, and it is the one at `k`. */
  ghost predicate OnlyOneIs(d: Decoders, fields: seq<Field>, role: Role, k: nat) {
    && k < |fields| && Names(d, fields[k].key, role)
    && forall j :: 0 <= j < |fields| && Names(d, fields[j].key, role) ==> j == k
  }

  /** The model name and span are those of the only model member; without one they keep their
      defaults. A second one is never accepted. */
  lemma {:induction false} ModelNamedOnce(d: Decoders, s: Scan, fields: seq<Field>)
    requires Fold(d, s, fields).Ok?
    ensures var r, r' := s.request, Fold(d, s, fields).value.request;
      && (NoneIs(d, fields, ModelName) ==> r'.model == r.model && r'.modelStart == r.modelStart && r'.modelEnd == r.modelEnd)
      && (forall k: nat :: OnlyOneIs(d, fields, ModelName, k) ==>
            d.text(fields[k].value) == Some(r'.model) && r'.modelStart == fields[k].start && r'.modelEnd == fields[k].end)
      && (NoneIs(d, fields, ModelName) || exists k: nat :: OnlyOneIs(d, fields, ModelName, k))
      && (r.modelStart >= 0 ==> NoneIs(d, fields, ModelName))
    decreases |fields|
  {
    hide RoleIn, Names, OnlyOneIs, NoneIs;
    NoneOfNothing(d, ModelName);
    if fields != [] {
      ModelNamedOnce(d, Step(d, s, fields[0]).value, fields[1..]);
      RoleIff(d, fields[0], ModelName);
      OnlyOneLater(d, fields, ModelName);
      OnlyOneRange(d, fields, ModelName);
    }
  }

  /** The stream flag is that of the only stream member, or off. */
  lemma {:induction false} StreamNamedOnce(d: Decoders, s: Scan, fields: seq<Field>)
    requires Fold(d, s, fields).Ok?
    ensures var g, g' := s.request.flags, Fold(d, s, fields).value.request.flags;
      && (NoneIs(d, fields, StreamFlag) ==> g'.stream == g.stream)
      && (forall k: nat :: OnlyOneIs(d, fields, StreamFlag, k) ==> d.boolean(fields[k].value) == Some(g'.stream))
      && (NoneIs(d, fields, StreamFlag) || exists k: nat :: OnlyOneIs(d, fields, StreamFlag, k))
      && (s.seenStream ==> NoneIs(d, fields, StreamFlag))
    decreases |fields|
  {
    hide RoleIn, Names, OnlyOneIs, NoneIs;
    NoneOfNothing(d, StreamFlag);
    if fields != [] {
      StreamNamedOnce(d, Step(d, s, fields[0]).value, fields[1..]);
      RoleIff(d, fields[0], StreamFlag);
      OnlyOneLater(d, fields, StreamFlag);
      OnlyOneRange(d, fields, StreamFlag);
    }
  }

  lemma NoneOfNothing(d: Decoders, role: Role)
    ensures NoneIs(d, [], role) && forall k: nat :: !OnlyOneIs(d, [], role, k)
  {
  }

  lemma OnlyOneRange(d: Decoders, fields: seq<Field>, role: Role)
    ensures forall k: nat :: OnlyOneIs(d, fields, role, k) ==> k < |fields|
    ensures fields != [] ==> forall k: nat :: OnlyOneIs(d, fields[1..], role, k) ==> k + 1 < |fields| && fields[k+1] == fields[1..][k]
  {
  }

  lemma OnlyOneLater(d: Decoders, fields: seq<Field>, role: Role)
    requires fields != []
    ensures NoneIs(d, fields, role) <==> !Names(d, fields[0].key, role) && NoneIs(d, fields[1..], role)
    ensures OnlyOneIs(d, fields, role, 0) <==> Names(d, fields[0].key, role) && NoneIs(d, fields[1..], role)
    ensures forall k: nat :: k > 0 ==> (OnlyOneIs(d, fields, role, k) <==> !Names(d, fields[0].key, role) && OnlyOneIs(d, fields[1..], role, k - 1))
    ensures forall k: nat :: OnlyOneIs(d, fields[1..], role, k) && !Names(d, fields[0].key, role) ==> OnlyOneIs(d, fields, role, k + 1)
  {
    hide Names;
    var rest := fields[1..];
    assert forall j :: 1 <= j < |fields| ==> fields[j] == rest[j-1];
    assert forall j :: 0 <= j < |rest| ==> rest[j] == fields[j+1];
  }

  /** What inspection reports of an object's members: each flag that some member sets, the largest ceiling
      declared, the only stream flag and the only model name with its span; off, zero and absent otherwise. */
  lemma InspectedMeans(d: Decoders, doc: Document)
    requires doc.value.Object? && Inspected(d, doc).Ok?
    ensures var r, fields := Inspected(d, doc).value, FieldsOf(doc.value.members, |doc.before| + 1);
      && (r.flags.tools <==> AnySets(d, fields, ToolList))
      && (r.flags.stateful <==> AnySets(d, fields, ServerState))
      && (r.flags.vision <==> AnySets(d, fields, Conversation))
      && IsCeiling(d, fields, 0, r.flags.limit)
      && (if NoneIs(d, fields, StreamFlag) then !r.flags.stream
          else exists k: nat :: OnlyOneIs(d, fields, StreamFlag, k) && d.boolean(fields[k].value) == Some(r.flags.stream))
      && (if NoneIs(d, fields, ModelName) then r.model == "" && r.modelStart < 0
          else exists k: nat :: OnlyOneIs(d, fields, ModelName, k) && d.text(fields[k].value) == Some(r.model)
                 && (r.modelStart, r.modelEnd) == (fields[k].start, fields[k].end))
  {
    hide Fold, FieldsOf, NoneIs, OnlyOneIs, IsCeiling, AnySets;
    var fields := FieldsOf(doc.value.members, |doc.before| + 1);
    FlagsMean(d, Scan(EMPTY, false), fields);
    StreamNamedOnce(d, Scan(EMPTY, false), fields);
    ModelNamedOnce(d, Scan(EMPTY, false), fields);
    OnlyOneRange(d, fields, StreamFlag);
    OnlyOneRange(d, fields, ModelName);
  }

  ghost predicate HasFault(d: Decoders, fields: seq<Field>, e: Error) {
    exists k: nat :: FailsAt(d, Scan(EMPTY, false), fields, k, e)
  }

  /** Which inputs are refused: a value that is no object, or an object with a faulty member. */
  lemma InspectionFailsIff(d: Decoders, doc: Document, e: Error)
    ensures Inspected(d, doc) == Err(e) <==>
      if doc.value.Object? then HasFault(d, FieldsOf(doc.value.members, |doc.before| + 1), e) else e == NotObject
  {
    hide Fold, FieldsOf, FailsAt;
    if doc.value.Object? {
      RejectedIff(d, Scan(EMPTY, false), FieldsOf(doc.value.members, |doc.before| + 1), e);
    }
  }
}
