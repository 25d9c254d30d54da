/** Replacing the model name: what the splice keeps, what inspection says of the result, and for
    which names the result is JSON. */
module Rewriting {
  import opened Policy
  import opened Json
  import opened Scanner
  import opened Spans
  import opened Requests
  import opened Lexing
  import opened Quoting
  import opened Images

  // ----- the splice -----

  predicate InSpan(b: string, r: Request) {
    r.modelStart >= 0 ==> r.modelStart <= r.modelEnd <= |b|
  }

  /** Appends the parts to a buffer: everything before the model span, the new name as the quoting
      routine spells it, everything behind. */
  method Rewrite(b: string, r: Request, name: string, quote: string -> string) returns (out: string)
    requires InSpan(b, r)
    ensures r.modelStart < 0 || r.model == name ==> out == b
    ensures r.modelStart >= 0 && r.model != name ==> out == b[..r.modelStart] + quote(name) + b[r.modelEnd..]
  {
    if r.modelStart < 0 || r.model == name {
      return b;
    }
    out := [];
    out := out + b[..r.modelStart];
    out := out + quote(name);
    out := out + b[r.modelEnd..];
  }

  // ----- the document after the splice -----

  predicate IsModel(d: Decoders, m: Members)
    requires m.Member?
  {
    Spells(d, Quoted(m.key), "model")
  }

  lemma IsModelIff(d: Decoders, m: Members, at: nat)
    requires m.Member?
    ensures IsModel(d, m) <==> RoleIn(d, FieldOf(m, at)) == ModelName
  {
    hide RoleIn, Spells, Quoted, Print;
    RoleIff(d, FieldOf(m, at), ModelName);
  }

  /** The first model member gets the new name; blanks behind a scalar belonged to its span. */
  function Renamed(d: Decoders, m: Members, ps: seq<Piece>): Members
    decreases m
  {
    match m
    case NoMembers => NoMembers
    case Member(before, key, gap, sep, v, after, rest) =>
      if IsModel(d, m) then Member(before, key, gap, sep, Text(ps), if v.Scalar? then [] else after, rest)
      else Member(before, key, gap, sep, v, after, Renamed(d, rest, ps))
  }

  function RenamedDocument(d: Decoders, doc: Document, ps: seq<Piece>): Document
    requires doc.value.Object?
  {
    doc.(value := Object(doc.value.pad, Renamed(d, doc.value.members, ps)))
  }

  lemma {:induction false} RenamedOk(d: Decoders, m: Members, ps: seq<Piece>)
    requires MembersOk(m) && PiecesOk(ps)
    ensures MembersOk(Renamed(d, m, ps))
    decreases m
  {
    hide Quoted, RoleIn, Spells, ValueOk;
    match m
    case NoMembers =>
    case Member(before, key, gap, sep, v, after, rest) =>
      MemberParts(m);
      if IsModel(d, m) {
        TextOk(ps);
        EmptyIsBlank();
      } else {
        RenamedOk(d, rest, ps);
      }
  }

  lemma TextOk(ps: seq<Piece>)
    requires PiecesOk(ps)
    ensures ValueOk(Text(ps))
  {
  }

  /** The span of the first model member, if there is one. */
  function ModelSpan(d: Decoders, m: Members, at: nat): Option<(nat, nat)>
    decreases m
  {
    match m
    case NoMembers => None
    case Member(_, _, _, _, _, _, rest) =>
      if IsModel(d, m) then Some((FieldOf(m, at).start, FieldOf(m, at).end)) else ModelSpan(d, rest, NextAt(m, at))
  }

  /** `text` prints the members from position `at` on, with `post` behind them. */
  ghost predicate Prints(text: string, at: nat, pad: string, m: Members, post: string) {
    at <= |text| && text[at..] == PrintMembers(pad, m) + post
  }

  function Splice(text: string, start: nat, end: nat, piece: string): string
    requires start <= end <= |text|
  {
    text[..start] + piece + text[end..]
  }

  /** A member's text before its value. */
  function Head(m: Members): string
    requires m.Member?
  {
    m.before + Quoted(m.key) + m.gap + [':'] + m.sep
  }

  lemma MemberSplit(pad: string, m: Members)
    requires m.Member?
    ensures PrintMembers(pad, m) == Head(m) + Print(m.value) + m.after + (if m.rest.NoMembers? then [] else [','] + PrintMembers([], m.rest))
  {
    hide Print, Quoted;
  }

  lemma SpliceParts(a: string, span: string, c: string, piece: string)
    ensures Splice(a + span + c, |a|, |a| + |span|, piece) == a + piece + c
  {
    var text := a + span + c;
    assert text[..|a|] == a && text[|a|+|span|..] == c;
  }

  lemma TextPrinted(ps: seq<Piece>)
    ensures Print(Text(ps)) == Quoted(ps)
  {
  }

  lemma SpliceHere(d: Decoders, text: string, at: nat, pad: string, m: Members, post: string, ps: seq<Piece>)
    requires Prints(text, at, pad, m, post) && m.Member? && IsModel(d, m)
    ensures var start, end := FieldOf(m, at).start, FieldOf(m, at).end;
      && at <= start <= end <= |text|
      && Splice(text, start, end, Quoted(ps))[..at] == text[..at]
      && Prints(Splice(text, start, end, Quoted(ps)), at, pad, Renamed(d, m, ps), post)
  {
    hide Print, Quoted, RoleIn, Spells, PrintMembers, Splice, Head;
    var left := if m.value.Scalar? then [] else m.after;
    var tail := (if m.rest.NoMembers? then [] else [','] + PrintMembers([], m.rest)) + post;
    MemberSplit(pad, m);
    HeadLength(m, at);
    assert text[at..] == Head(m) + ValueText(m) + (left + tail);
    SpliceText(text, at, Head(m), ValueText(m), left + tail, Quoted(ps));
    RenamedText(d, pad, m, post, ps, left + tail);
  }

  lemma SpliceText(text: string, at: nat, head: string, span: string, c: string, piece: string)
    requires at <= |text| && text[at..] == head + span + c
    ensures var start := at + |head|;
      && start + |span| <= |text|
      && Splice(text, start, start + |span|, piece)[..at] == text[..at]
      && Splice(text, start, start + |span|, piece)[at..] == head + piece + c
      && at <= |Splice(text, start, start + |span|, piece)|
  {
    hide Splice;
    var a := text[..at] + head;
    assert text == text[..at] + text[at..];
    assert text == a + span + c;
    SpliceParts(a, span, c, piece);
    assert a + piece + c == text[..at] + (head + piece + c);
  }

  lemma HeadLength(m: Members, at: nat)
    requires m.Member?
    ensures ValueStart(m, at) == at + |Head(m)|
  {
    hide Quoted;
  }

  lemma RenamedText(d: Decoders, pad: string, m: Members, post: string, ps: seq<Piece>, c: string)
    requires m.Member? && IsModel(d, m)
    requires c == (if m.value.Scalar? then [] else m.after) + ((if m.rest.NoMembers? then [] else [','] + PrintMembers([], m.rest)) + post)
    ensures PrintMembers(pad, Renamed(d, m, ps)) + post == Head(m) + Quoted(ps) + c
  {
    hide Print, Quoted, RoleIn, Spells, PrintMembers;
    MemberSplit(pad, Renamed(d, m, ps));
    TextPrinted(ps);
  }

  /** Splicing the model span renames the member and keeps every byte in front of the members. */
  lemma {:induction false} SpliceRenames(d: Decoders, text: string, at: nat, pad: string, m: Members, post: string, ps: seq<Piece>)
    requires Prints(text, at, pad, m, post) && ModelSpan(d, m, at).Some?
    ensures var (start, end) := ModelSpan(d, m, at).value;
      && at <= start <= end <= |text|
      && Splice(text, start, end, Quoted(ps))[..at] == text[..at]
      && Prints(Splice(text, start, end, Quoted(ps)), at, pad, Renamed(d, m, ps), post)
    decreases m
  {
    hide Print, Quoted, RoleIn, Spells, PrintMembers, Splice;
    if IsModel(d, m) {
      SpliceHere(d, text, at, pad, m, post, ps);
    } else {
      var next, mid := NextAt(m, at), Head(m) + Print(m.value) + m.after + [','];
      NextText(text, at, pad, m, post);
      SpliceRenames(d, text, next, [], m.rest, post, ps);
      var (start, end) := ModelSpan(d, m, at).value;
      var out := Splice(text, start, end, Quoted(ps));
      MemberSplit(pad, Renamed(d, m, ps));
      RenamedKeepsShape(d, m.rest, ps);
      assert out[..at] == out[..next][..at];
      assert out[at..] == out[..next][at..] + out[next..];
    }
  }

  lemma RenamedKeepsShape(d: Decoders, m: Members, ps: seq<Piece>)
    ensures Renamed(d, m, ps).NoMembers? <==> m.NoMembers?
  {
  }

  lemma NextText(text: string, at: nat, pad: string, m: Members, post: string)
    requires Prints(text, at, pad, m, post) && m.Member? && m.rest.Member?
    ensures Prints(text, NextAt(m, at), [], m.rest, post) && NextAt(m, at) >= at
    ensures text[..NextAt(m, at)] == text[..at] + (Head(m) + Print(m.value) + m.after + [','])
    ensures text[..NextAt(m, at)][at..] == Head(m) + Print(m.value) + m.after + [',']
  {
    hide Print, Quoted, PrintMembers;
    MemberSplit(pad, m);
    var mid := Head(m) + Print(m.value) + m.after + [','];
    assert text == text[..at] + text[at..];
    assert text == text[..at] + (mid + (PrintMembers([], m.rest) + post));
    assert |mid| == NextAt(m, at) - at;
  }

  /** Every reported span holds the member's raw value, byte for byte. */
  lemma {:induction false} SpansExact(text: string, at: nat, pad: string, m: Members, post: string, k: nat)
    requires Prints(text, at, pad, m, post) && k < |FieldsOf(m, at)|
    ensures var f := FieldsOf(m, at)[k]; at <= f.start <= f.end <= |text| && text[f.start..f.end] == f.value
    decreases m
  {
    hide Print, Quoted, PrintMembers;
    if k > 0 {
      NextText(text, at, pad, m, post);
      SpansExact(text, NextAt(m, at), [], m.rest, post, k - 1);
    } else {
      MemberSplit(pad, m);
      HeadLength(m, at);
      var rest := text[at..][|Head(m)| + |ValueText(m)|..];
      assert text[at..] == Head(m) + ValueText(m) + rest;
      assert text[at..][|Head(m)|..|Head(m)| + |ValueText(m)|] == ValueText(m);
    }
  }

  // ----- what inspection makes of it -----

  /** Equal up to the model name and its span, both with a model seen. */
  predicate Alike(a: Scan, b: Scan) {
    && a.request.modelStart >= 0 && b.request.modelStart >= 0
    && a.request.flags == b.request.flags && a.seenStream == b.seenStream
  }

  /** Behind the model member only the positions differ, and inspection ignores those. */
  lemma {:induction false} FoldAlike(d: Decoders, a: Scan, b: Scan, m: Members, at: nat, at': nat)
    requires Alike(a, b) && Fold(d, a, FieldsOf(m, at)).Ok?
    ensures Fold(d, b, FieldsOf(m, at')).Ok?
    ensures var ra, rb := Fold(d, a, FieldsOf(m, at)).value, Fold(d, b, FieldsOf(m, at')).value;
      && Alike(ra, rb) && rb.request.model == b.request.model && rb.request.modelStart == b.request.modelStart
      && rb.request.modelEnd == b.request.modelEnd
    decreases m
  {
    hide FieldsOf, Fold;
    if m.NoMembers? {
      NoFields(d, a, at);
      NoFields(d, b, at');
    } else {
      FoldStep(d, a, m, at);
      FoldStep(d, b, m, at');
      StepAlike(d, a, b, FieldOf(m, at), FieldOf(m, at'));
      FoldAlike(d, Step(d, a, FieldOf(m, at)).value, Step(d, b, FieldOf(m, at')).value, m.rest, NextAt(m, at), NextAt(m, at'));
    }
  }

  lemma StepAlike(d: Decoders, a: Scan, b: Scan, f: Field, g: Field)
    requires f.key == g.key && f.value == g.value && Alike(a, b) && Step(d, a, f).Ok?
    ensures Step(d, b, g).Ok?
    ensures var na, nb := Step(d, a, f).value, Step(d, b, g).value;
      && Alike(na, nb) && nb.request.model == b.request.model && nb.request.modelStart == b.request.modelStart
      && nb.request.modelEnd == b.request.modelEnd
  {
    hide RoutingKey, RoleOf;
  }

  /** Only the model member touches the model fields. */
  lemma StepFrame(d: Decoders, s: Scan, f: Field)
    requires Step(d, s, f).Ok? && (RoleIn(d, f) != ModelName || s.request.modelStart >= 0)
    ensures var r := Step(d, s, f).value.request;
      r.model == s.request.model && r.modelStart == s.request.modelStart && r.modelEnd == s.request.modelEnd
  {
    hide RoleIn;
  }

  /** The decoder reads back the name that was quoted. */
  ghost predicate ReadsBack(d: Decoders, name: string, ps: seq<Piece>) {
    d.text(Quoted(ps)) == Some(name)
  }

  /** What inspection reports before and after a renaming. */
  ghost predicate RenamedReport(d: Decoders, before: Scan, after: Scan, span: Option<(nat, nat)>, name: string, ps: seq<Piece>)
  {
    && Alike(before, after) && after.request.model == name
    && span == Some((before.request.modelStart, before.request.modelEnd))
    && after.request.modelStart == before.request.modelStart
    && after.request.modelEnd == after.request.modelStart + |Quoted(ps)|
  }

  lemma FoldRenamedHere(d: Decoders, s: Scan, m: Members, at: nat, name: string, ps: seq<Piece>)
    requires m.Member? && IsModel(d, m) && Fold(d, s, FieldsOf(m, at)).Ok? && s.request.modelStart < 0
    requires ReadsBack(d, name, ps)
    ensures var m' := Renamed(d, m, ps);
      && Fold(d, s, FieldsOf(m', at)).Ok?
      && RenamedReport(d, Fold(d, s, FieldsOf(m, at)).value, Fold(d, s, FieldsOf(m', at)).value, ModelSpan(d, m, at), name, ps)
  {
    hide FieldsOf, Fold, RoleIn, Spells, Quoted, Print;
    var m' := Renamed(d, m, ps);
    FoldStep(d, s, m, at);
    FoldStep(d, s, m', at);
    TextPrinted(ps);
    var f, f' := FieldOf(m, at), FieldOf(m', at);
    IsModelIff(d, m, at);
    IsModelIff(d, m', at);
    assert f'.value == Quoted(ps) && RoleIn(d, f') == ModelName;
    var a, a' := Step(d, s, f).value, Step(d, s, f').value;
    FoldAlike(d, a, a', m.rest, NextAt(m, at), NextAt(m', at));
    FoldKeepsModel(d, a, m.rest, NextAt(m, at));
  }

  /** The same members with one renamed: inspection differs in the model name and its span only. */
  lemma {:induction false} FoldRenamed(d: Decoders, s: Scan, m: Members, at: nat, name: string, ps: seq<Piece>)
    requires Fold(d, s, FieldsOf(m, at)).Ok? && s.request.modelStart < 0 && ReadsBack(d, name, ps)
    requires ModelSpan(d, m, at).Some?
    ensures var m' := Renamed(d, m, ps);
      && Fold(d, s, FieldsOf(m', at)).Ok?
      && RenamedReport(d, Fold(d, s, FieldsOf(m, at)).value, Fold(d, s, FieldsOf(m', at)).value, ModelSpan(d, m, at), name, ps)
    decreases m
  {
    hide FieldsOf, Fold, Step, RoleIn, Spells, Quoted, Print, RenamedReport;
    if IsModel(d, m) {
      FoldRenamedHere(d, s, m, at, name, ps);
    } else {
      FoldStep(d, s, m, at);
      FoldStep(d, s, Renamed(d, m, ps), at);
      RenamedKeepsShape(d, m.rest, ps);
      IsModelIff(d, m, at);
      StepFrame(d, s, FieldOf(m, at));
      FoldRenamed(d, Step(d, s, FieldOf(m, at)).value, m.rest, NextAt(m, at), name, ps);
    }
  }

  lemma {:induction false} FoldKeepsModel(d: Decoders, a: Scan, m: Members, at: nat)
    requires a.request.modelStart >= 0 && Fold(d, a, FieldsOf(m, at)).Ok?
    ensures var r := Fold(d, a, FieldsOf(m, at)).value.request;
      r.model == a.request.model && r.modelStart == a.request.modelStart && r.modelEnd == a.request.modelEnd
    decreases m
  {
    hide FieldsOf, Fold, Step, RoleIn, Spells;
    if m.NoMembers? {
      NoFields(d, a, at);
    } else {
      FoldStep(d, a, m, at);
      StepFrame(d, a, FieldOf(m, at));
      FoldKeepsModel(d, Step(d, a, FieldOf(m, at)).value, m.rest, NextAt(m, at));
    }
  }

  /** A reported model span is the span of the first model member, and it is absent exactly when
      there is none. */
  lemma {:induction false} ModelReported(d: Decoders, s: Scan, m: Members, at: nat)
    requires s.request.modelStart < 0 && Fold(d, s, FieldsOf(m, at)).Ok?
    ensures var r := Fold(d, s, FieldsOf(m, at)).value.request;
      if ModelSpan(d, m, at).Some? then (r.modelStart, r.modelEnd) == ModelSpan(d, m, at).value else r.modelStart < 0
    decreases m
  {
    hide FieldsOf, Fold, RoleIn, Spells;
    if m.NoMembers? {
      NoFields(d, s, at);
    } else {
      FoldStep(d, s, m, at);
      IsModelIff(d, m, at);
      if IsModel(d, m) {
        FoldKeepsModel(d, Step(d, s, FieldOf(m, at)).value, m.rest, NextAt(m, at));
      } else {
        StepFrame(d, s, FieldOf(m, at));
        ModelReported(d, Step(d, s, FieldOf(m, at)).value, m.rest, NextAt(m, at));
      }
    }
  }

  /** Round trip. For every well-formed body with a model member and every spelling of a name as a
      JSON string that the decoder reads back: the rewritten body is well formed, keeps every byte
      outside the model span, and inspects to the new name with all other fields unchanged. */
  lemma RewriteRoundTrip(d: Decoders, b: string, doc: Document, name: string, ps: seq<Piece>)
    requires DocumentOk(doc) && b == PrintDocument(doc) && PiecesOk(ps) && ReadsBack(d, name, ps)
    requires Inspected(d, doc).Ok? && Inspected(d, doc).value.modelStart >= 0
    ensures var r := Inspected(d, doc).value;
      && InSpan(b, r) && doc.value.Object?
      && var out, doc' := Splice(b, r.modelStart, r.modelEnd, Quoted(ps)), RenamedDocument(d, doc, ps);
      && DocumentOk(doc') && out == PrintDocument(doc')
      && Inspected(d, doc') == Ok(r.(model := name, modelEnd := r.modelStart + |Quoted(ps)|))
  {
    hide Print, ValueOk, FieldsOf, Fold, Blank, PrintMembers, Splice, Renamed, ModelSpan, MembersOk;
    var m, at, s := doc.value.members, |doc.before| + 1, Scan(EMPTY, false);
    var post := ['}'] + doc.after;
    ObjectText(doc);
    ObjectParts(doc);
    ModelReported(d, s, m, at);
    FoldRenamed(d, s, m, at, name, ps);
    SpliceRenames(d, b, at, doc.value.pad, m, post, ps);
    RenamedOk(d, m, ps);
    var r := Inspected(d, doc).value;
    var out, doc' := Splice(b, r.modelStart, r.modelEnd, Quoted(ps)), RenamedDocument(d, doc, ps);
    ObjectText(doc');
    ObjectOk(doc');
    assert out == out[..at] + out[at..] && PrintDocument(doc') == PrintDocument(doc')[..at] + PrintDocument(doc')[at..];
  }

  lemma ObjectText(doc: Document)
    requires doc.value.Object?
    ensures var at, post := |doc.before| + 1, ['}'] + doc.after;
      && Prints(PrintDocument(doc), at, doc.value.pad, doc.value.members, post)
      && PrintDocument(doc)[..at] == doc.before + ['{']
  {
    hide PrintMembers;
    var inside := PrintMembers(doc.value.pad, doc.value.members) + (['}'] + doc.after);
    assert PrintDocument(doc) == (doc.before + ['{']) + inside;
  }

  lemma ObjectOk(doc: Document)
    requires doc.value.Object? && Blank(doc.before) && Blank(doc.after) && Blank(doc.value.pad) && MembersOk(doc.value.members)
    ensures DocumentOk(doc)
  {
  }

  /** The round trip for every name that needs no escaping, in any script, and any quoting routine
      that leaves it alone. */
  lemma PlainRoundTrip(d: Decoders, b: string, doc: Document, name: string, quote: string -> string)
    requires DocumentOk(doc) && b == PrintDocument(doc)
    requires PlainName(name) && quote(name) == ['"'] + name + ['"'] && d.text(quote(name)) == Some(name)
    requires Inspected(d, doc).Ok? && Inspected(d, doc).value.modelStart >= 0
    ensures var r := Inspected(d, doc).value;
      && InSpan(b, r) && doc.value.Object?
      && var out, doc' := Splice(b, r.modelStart, r.modelEnd, quote(name)), RenamedDocument(d, doc, PlainPieces(name));
      && DocumentOk(doc') && out == PrintDocument(doc')
      && Inspected(d, doc') == Ok(r.(model := name, modelEnd := r.modelStart + |quote(name)|))
  {
    hide Inspected, RenamedDocument, DocumentOk, PrintDocument, PlainName, Splice;
    PlainSpelled(name);
    assert Quoted(PlainPieces(name)) == quote(name);
    RewriteRoundTrip(d, b, doc, name, PlainPieces(name));
  }

  /** The round trip for every safe ASCII name, escaped or not, with the quoting routine's own table. */
  lemma AsciiRoundTrip(d: Decoders, b: string, doc: Document, name: string)
    requires DocumentOk(doc) && b == PrintDocument(doc)
    requires Ascii(name) && JsonSafe(name) && d.text(AppendQuote(name)) == Some(name)
    requires Inspected(d, doc).Ok? && Inspected(d, doc).value.modelStart >= 0
    ensures var r := Inspected(d, doc).value;
      && InSpan(b, r) && doc.value.Object?
      && var out, doc' := Splice(b, r.modelStart, r.modelEnd, AppendQuote(name)), RenamedDocument(d, doc, PiecesFor(name));
      && DocumentOk(doc') && out == PrintDocument(doc')
      && Inspected(d, doc') == Ok(r.(model := name, modelEnd := r.modelStart + |AppendQuote(name)|))
  {
    hide Inspected, RenamedDocument, DocumentOk, PrintDocument, JsonSafe, Splice, QuoteBody, PiecesFor;
    SafeNameIsJson(name);
    assert Quoted(PiecesFor(name)) == AppendQuote(name);
    RewriteRoundTrip(d, b, doc, name, PiecesFor(name));
  }

  /** The quoting routine's own table spells every safe name so that a decoder of JSON reads it back. */
  lemma AsciiReadsBack(d: Decoders, name: string)
    requires Ascii(name) && JsonSafe(name) && Faithful(d.text)
    ensures d.text(AppendQuote(name)) == Some(name)
  {
    hide QuoteBody, PieceFor, JsonSafe;
    SafeNameIsJson(name);
    var ps := PiecesFor(name);
    assert Quoted(ps) == AppendQuote(name);
    forall i | 0 <= i < |name| ensures ps[i] == PieceFor(name[i]) && CharBack(name[i]) {
      SafeChar(name, i);
      PieceMeans(name[i]);
    }
    assert Meaning(ps) == name;
  }

  /** One character's spelling is no \\u escape, and stands for it. */
  predicate CharBack(c: char) {
    var p := PieceFor(c);
    !p.Unicode? && p.c as int < 0x80 && c == if p.Plain? then p.c else Unescaped(p.c)
  }

  lemma SafeChar(name: string, i: nat)
    requires Ascii(name) && JsonSafe(name) && i < |name|
    ensures name[i] as int < 0x80 && (' ' <= name[i] <= '~' || name[i] as int in {8, 9, 10, 12, 13})
  {
  }

  lemma PieceMeans(c: char)
    requires ' ' <= c <= '~' || c as int in {8, 9, 10, 12, 13}
    ensures CharBack(c)
  {
  }

  // ----- for which names the rewritten body is JSON -----

  lemma LexHead(m: Members, rest: string)
    requires m.Member? && MembersOk(m)
    ensures LexOk(Head(m) + rest) <==> LexOk(rest)
  {
    hide LexOk, Quoted, Blank, PiecesOk, ValueOk;
    MemberParts(m);
    LexKey(m.before, m.key, m.gap, m.sep, rest);
    assert Head(m) + rest == m.before + (Quoted(m.key) + (m.gap + [':'] + m.sep + rest));
  }

  lemma LexMember(m: Members, rest: string)
    requires m.Member? && MembersOk(m)
    ensures LexOk(Head(m) + Print(m.value) + m.after + [','] + rest) <==> LexOk(rest)
  {
    hide LexOk, Quoted, Blank, PiecesOk, ValueOk, Print, Head;
    MemberParts(m);
    LexHead(m, Print(m.value) + (m.after + ([','] + rest)));
    LexValue(m.value, m.after + ([','] + rest));
    LexBlank(m.after, [','] + rest);
    LexChar(',', rest);
    assert Head(m) + Print(m.value) + m.after + [','] + rest == Head(m) + (Print(m.value) + (m.after + ([','] + rest)));
  }

  lemma SplicedHere(text: string, at: nat, pad: string, m: Members, post: string, piece: string) returns (tail: string)
    requires Prints(text, at, pad, m, post) && m.Member? && MembersOk(m)
    ensures var start, end := FieldOf(m, at).start, FieldOf(m, at).end;
      && at <= start <= end <= |text|
      && var out := Splice(text, start, end, piece);
      && at <= |out| && out[..at] == text[..at] && (LexOk(out[at..]) <==> LexOk(piece + tail))
  {
    hide Print, Quoted, PrintMembers, Splice, LexOk, Head, Blank, PiecesOk, ValueOk, MembersOk;
    var left := if m.value.Scalar? then [] else m.after;
    tail := left + ((if m.rest.NoMembers? then [] else [','] + PrintMembers([], m.rest)) + post);
    MemberSplit(pad, m);
    HeadLength(m, at);
    assert text[at..] == Head(m) + ValueText(m) + tail;
    SpliceText(text, at, Head(m), ValueText(m), tail, piece);
    LexHead(m, piece + tail);
    assert Head(m) + piece + tail == Head(m) + (piece + tail);
  }

  /** Whatever is spliced into the model span stands at the start of a token there. */
  lemma {:induction false} SplicedToken(d: Decoders, text: string, at: nat, pad: string, m: Members, post: string, piece: string) returns (tail: string)
    requires Prints(text, at, pad, m, post) && MembersOk(m) && ModelSpan(d, m, at).Some?
    ensures var (start, end) := ModelSpan(d, m, at).value;
      && at <= start <= end <= |text|
      && var out := Splice(text, start, end, piece);
      && at <= |out| && out[..at] == text[..at] && (LexOk(out[at..]) <==> LexOk(piece + tail))
    decreases m
  {
    hide Print, Quoted, RoleIn, Spells, PrintMembers, Splice, LexOk, Head, Blank, PiecesOk, ValueOk;
    if IsModel(d, m) {
      tail := SplicedHere(text, at, pad, m, post, piece);
    } else {
      var next, mid := NextAt(m, at), Head(m) + Print(m.value) + m.after + [','];
      NextText(text, at, pad, m, post);
      MemberParts(m);
      tail := SplicedToken(d, text, next, [], m.rest, post, piece);
      var (start, end) := ModelSpan(d, m, at).value;
      var out := Splice(text, start, end, piece);
      assert out[..at] == out[..next][..at];
      assert out[at..] == mid + out[next..] by { assert out[at..] == out[..next][at..] + out[next..]; }
      LexMember(m, out[next..]);
    }
  }

  lemma LexOpening(doc: Document, rest: string)
    requires DocumentOk(doc)
    ensures LexOk(doc.before + ['{'] + rest) <==> LexOk(rest)
  {
    hide LexOk, Blank, ValueOk;
    LexBlank(doc.before, ['{'] + rest);
    LexChar('{', rest);
    assert doc.before + ['{'] + rest == doc.before + (['{'] + rest);
  }

  /** The rewritten body is JSON exactly when the spliced text is a JSON string: no other reading of
      the body can make up for a bad spelling. */
  lemma RewrittenIsJsonIff(d: Decoders, b: string, doc: Document, piece: string)
    requires DocumentOk(doc) && b == PrintDocument(doc) && OneString(piece)
    requires Inspected(d, doc).Ok? && Inspected(d, doc).value.modelStart >= 0
    ensures var r := Inspected(d, doc).value;
      && InSpan(b, r)
      && ((exists doc' :: DocumentOk(doc') && PrintDocument(doc') == Splice(b, r.modelStart, r.modelEnd, piece)) <==> SpelledString(piece))
  {
    hide Print, ValueOk, FieldsOf, Fold, Blank, PrintMembers, Splice, Renamed, ModelSpan, MembersOk, OneString, LexOk, Quoted;
    var m, at := doc.value.members, |doc.before| + 1;
    var post := ['}'] + doc.after;
    ObjectText(doc);
    ObjectParts(doc);
    ModelReported(d, Scan(EMPTY, false), m, at);
    var tail := SplicedToken(d, b, at, doc.value.pad, m, post, piece);
    var r := Inspected(d, doc).value;
    var out := Splice(b, r.modelStart, r.modelEnd, piece);
    if doc' :| DocumentOk(doc') && PrintDocument(doc') == out {
      LexDocument(doc');
      assert out == doc.before + ['{'] + out[at..];
      LexOpening(doc, out[at..]);
      LexOneString(piece, tail);
    }
    if SpelledString(piece) {
      var ps :| PiecesOk(ps) && Quoted(ps) == piece;
      SpliceRenames(d, b, at, doc.value.pad, m, post, ps);
      RenamedOk(d, m, ps);
      var doc' := RenamedDocument(d, doc, ps);
      ObjectText(doc');
      ObjectOk(doc');
      assert out == out[..at] + out[at..] && PrintDocument(doc') == PrintDocument(doc')[..at] + PrintDocument(doc')[at..];
    }
  }

  /** For ASCII names: exactly when the name has no control character that JSON spells differently. */
  lemma AsciiRewriteIsJsonIff(d: Decoders, b: string, doc: Document, name: string)
    requires DocumentOk(doc) && b == PrintDocument(doc) && Ascii(name)
    requires Inspected(d, doc).Ok? && Inspected(d, doc).value.modelStart >= 0
    ensures var r := Inspected(d, doc).value;
      && InSpan(b, r)
      && ((exists doc' :: DocumentOk(doc') && PrintDocument(doc') == Splice(b, r.modelStart, r.modelEnd, AppendQuote(name))) <==> JsonSafe(name))
  {
    hide Inspected, DocumentOk, PrintDocument, Splice, OneString, SpelledString, AppendQuote;
    AppendQuoteIsOneString(name);
    SpelledIffSafe(name);
    RewrittenIsJsonIff(d, b, doc, AppendQuote(name));
  }

  /** The body {"model":"a"} and a decoder that reads its name. */
  function Small(): Document {
    Document("", Object("", Member("", PlainPieces("model"), "", "", Text([Plain('a')]), "", NoMembers)), "")
  }

  function Reads(): Decoders { Decoders(_ => Some("a"), _ => None, _ => None, _ => None, _ => false) }

  lemma SmallInspects()
    ensures DocumentOk(Small()) && Inspected(Reads(), Small()).Ok? && Inspected(Reads(), Small()).value.modelStart >= 0
  {
    hide RoleIn, Names;
    var m := Small().value.members;
    PlainSpelled("model");
    assert Quoted(m.key) == "\"" + "model" + "\"";
    assert IsModel(Reads(), m);
    IsModelIff(Reads(), m, 1);
    SmallIsOk();
    FoldStep(Reads(), Scan(EMPTY, false), m, 1);
    NoFields(Reads(), Step(Reads(), Scan(EMPTY, false), FieldOf(m, 1)).value, NextAt(m, 1));
  }

  lemma SmallIsOk()
    ensures DocumentOk(Small())
  {
    PlainSpelled("model");
  }

  /** Renaming its model to a bell character leaves a body that is no JSON. */
  lemma BellBreaksBody()
    ensures Inspected(Reads(), Small()).Ok?
    ensures var r, name := Inspected(Reads(), Small()).value, [7 as char];
      && InSpan(PrintDocument(Small()), r) && r.modelStart >= 0 && Ascii(name)
      && !exists doc' :: DocumentOk(doc') && PrintDocument(doc') == Splice(PrintDocument(Small()), r.modelStart, r.modelEnd, AppendQuote(name))
  {
    hide Inspected, DocumentOk, PrintDocument, Splice, AppendQuote, Small, Reads;
    var name := [7 as char];
    SmallInspects();
    assert !JsonSafe(name) by { assert name[0] as int == 7; }
    AsciiRewriteIsJsonIff(Reads(), PrintDocument(Small()), Small(), name);
  }
}
