/** The string tokens of a text, found by the forward automaton. In a well-formed document every one
    of them is spelled as JSON demands. */
module Lexing {
  import opened Json
  import opened Scanner
  import opened Spans

  ghost predicate SpelledString(s: string) { exists ps :: PiecesOk(ps) && Quoted(ps) == s }

  ghost predicate LexOk(s: string)
    decreases |s|
  {
    if s == [] then true
    else if s[0] != '"' then LexOk(s[1..])
    else SpelledString(s[..StringLen(s)]) && LexOk(s[StringLen(s)..])
  }

  /** The text is one string token, whatever follows it. */
  ghost predicate OneString(s: string) {
    s != [] && s[0] == '"' && forall rest :: StringLen(s + rest) == |s|
  }

  lemma LexOneString(s: string, rest: string)
    requires OneString(s)
    ensures LexOk(s + rest) <==> SpelledString(s) && LexOk(rest)
  {
    hide SpelledString, StringLen;
    var all := s + rest;
    assert StringLen(all) == |s|;
    assert all[..|s|] == s && all[|s|..] == rest;
  }

  lemma QuotedIsOneString(ps: seq<Piece>)
    requires PiecesOk(ps)
    ensures OneString(Quoted(ps)) && SpelledString(Quoted(ps))
  {
    forall rest ensures StringLen(Quoted(ps) + rest) == |Quoted(ps)| {
      StringSpan(ps, rest);
    }
  }

  lemma LexString(ps: seq<Piece>, rest: string)
    requires PiecesOk(ps)
    ensures LexOk(Quoted(ps) + rest) <==> LexOk(rest)
  {
    hide OneString, SpelledString, Quoted;
    QuotedIsOneString(ps);
    LexOneString(Quoted(ps), rest);
  }

  lemma {:induction false} LexFlat(s: string, rest: string)
    requires forall i :: 0 <= i < |s| ==> s[i] != '"'
    ensures LexOk(s + rest) <==> LexOk(rest)
  {
    if s == [] {
      assert s + rest == rest;
    } else {
      assert (s + rest)[1..] == s[1..] + rest;
      LexFlat(s[1..], rest);
    }
  }

  lemma LexBlank(s: string, rest: string)
    requires Blank(s)
    ensures LexOk(s + rest) <==> LexOk(rest)
  {
    LexFlat(s, rest);
  }

  lemma LexColon(gap: string, sep: string, rest: string)
    requires Blank(gap) && Blank(sep)
    ensures LexOk(gap + [':'] + sep + rest) <==> LexOk(rest)
  {
    LexFlat(gap + [':'] + sep, rest);
  }

  lemma LexChar(c: char, rest: string)
    requires c != '"'
    ensures LexOk([c] + rest) <==> LexOk(rest)
  {
    LexFlat([c], rest);
  }

  lemma LexScalar(text: string, rest: string)
    requires IsScalar(text)
    ensures LexOk(text + rest) <==> LexOk(rest)
  {
    ScalarInert(text);
    LexFlat(text, rest);
  }

  lemma {:induction false} LexValue(v: Value, rest: string)
    requires ValueOk(v)
    ensures LexOk(Print(v) + rest) <==> LexOk(rest)
    decreases v, 1
  {
    hide LexOk, Blank, Quoted;
    match v
    case Text(ps) => LexString(ps, rest);
    case Scalar(text) => LexScalar(text, rest);
    case Array(pad, items) =>
      var inside := if items.NoItems? then pad else PrintItems(items);
      assert Print(v) + rest == ['['] + (inside + ([']'] + rest));
      LexChar('[', inside + ([']'] + rest));
      if items.NoItems? {
        LexBlank(pad, [']'] + rest);
      } else {
        LexItems(items, [']'] + rest);
      }
      LexChar(']', rest);
    case Object(pad, members) =>
      assert Print(v) + rest == ['{'] + (PrintMembers(pad, members) + (['}'] + rest));
      LexChar('{', PrintMembers(pad, members) + (['}'] + rest));
      LexMembers(pad, members, ['}'] + rest);
      LexChar('}', rest);
  }

  lemma {:induction false} LexItems(items: Items, rest: string)
    requires ItemsOk(items)
    ensures LexOk(PrintItems(items) + rest) <==> LexOk(rest)
    decreases items
  {
    hide LexOk, Blank, Print, ValueOk;
    match items
    case NoItems => assert PrintItems(items) + rest == rest;
    case Item(before, v, after, more) =>
      var tail := (if more.NoItems? then [] else [','] + PrintItems(more)) + rest;
      assert PrintItems(items) + rest == before + (Print(v) + (after + tail));
      LexBlank(before, Print(v) + (after + tail));
      LexValue(v, after + tail);
      LexBlank(after, tail);
      if !more.NoItems? {
        assert tail == [','] + (PrintItems(more) + rest);
        LexChar(',', PrintItems(more) + rest);
        LexItems(more, rest);
      } else {
        assert tail == rest;
      }
  }

  /** A key, its colon and the blanks around them. */
  lemma LexKey(before: string, key: seq<Piece>, gap: string, sep: string, rest: string)
    requires Blank(before) && PiecesOk(key) && Blank(gap) && Blank(sep)
    ensures LexOk(before + (Quoted(key) + (gap + [':'] + sep + rest))) <==> LexOk(rest)
  {
    hide LexOk, Blank, Quoted, PiecesOk;
    LexBlank(before, Quoted(key) + (gap + [':'] + sep + rest));
    LexString(key, gap + [':'] + sep + rest);
    LexColon(gap, sep, rest);
  }

  lemma {:induction false} LexMembers(pad: string, members: Members, rest: string)
    requires Blank(pad) && MembersOk(members)
    ensures LexOk(PrintMembers(pad, members) + rest) <==> LexOk(rest)
    decreases members
  {
    hide LexOk, Blank, Print, ValueOk, Quoted, PiecesOk;
    match members
    case NoMembers => LexBlank(pad, rest);
    case Member(before, key, gap, sep, v, after, more) =>
      var tail := (if more.NoMembers? then [] else [','] + PrintMembers([], more)) + rest;
      MemberText(pad, members, rest, Print(v) + (after + tail), tail);
      LexKey(before, key, gap, sep, Print(v) + (after + tail));
      LexValue(v, after + tail);
      LexBlank(after, tail);
      if !more.NoMembers? {
        assert tail == [','] + (PrintMembers([], more) + rest);
        LexChar(',', PrintMembers([], more) + rest);
        EmptyIsBlank();
        LexMembers([], more, rest);
      } else {
        assert tail == rest;
      }
  }

  lemma LexDocument(doc: Document)
    requires DocumentOk(doc)
    ensures LexOk(PrintDocument(doc))
  {
    hide Blank, Print, ValueOk;
    LexBlank(doc.before, Print(doc.value) + doc.after);
    LexValue(doc.value, doc.after);
    LexBlank(doc.after, []);
    assert doc.after + [] == doc.after;
    assert PrintDocument(doc) == doc.before + (Print(doc.value) + doc.after);
  }
}
