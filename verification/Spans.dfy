/** On every well-formed text the scanner stops exactly where the grammar says. */
module Spans {
  import opened Json
  import opened Scanner

  lemma {:induction false} BlankSkipped(s: string, rest: string)
    requires Blank(s) && (rest == [] || !IsSpace(rest[0]))
    ensures SpaceLen(s + rest) == |s|
  {
    if s == [] {
      assert s + rest == rest;
    } else {
      assert (s + rest)[1..] == s[1..] + rest;
      BlankSkipped(s[1..], rest);
    }
  }

  // ----- strings -----

  lemma PieceClosing(p: Piece, rest: string)
    requires PieceOk(p)
    ensures Closing(PrintPiece(p) + rest) == |PrintPiece(p)| + Closing(rest)
  {
    var s := PrintPiece(p) + rest;
    match p
    case Plain(c) => assert s[1..] == rest;
    case Escape(c) => assert s[2..] == rest;
    case Unicode(hex) =>
      assert s[2..] == hex + rest;
      HexClosing(hex, rest);
  }

  lemma {:induction false} HexClosing(hex: string, rest: string)
    requires forall i :: 0 <= i < |hex| ==> IsHex(hex[i])
    ensures Closing(hex + rest) == |hex| + Closing(rest)
  {
    if hex == [] {
      assert hex + rest == rest;
    } else {
      assert (hex + rest)[1..] == hex[1..] + rest;
      HexClosing(hex[1..], rest);
    }
  }

  lemma {:induction false} PiecesClosing(ps: seq<Piece>, rest: string)
    requires PiecesOk(ps)
    ensures Closing(PrintPieces(ps) + (['"'] + rest)) == |PrintPieces(ps)| + 1
  {
    if ps == [] {
      assert PrintPieces(ps) + (['"'] + rest) == ['"'] + rest;
    } else {
      PieceClosing(ps[0], PrintPieces(ps[1..]) + (['"'] + rest));
      assert PrintPieces(ps) + (['"'] + rest) == PrintPiece(ps[0]) + (PrintPieces(ps[1..]) + (['"'] + rest));
      PiecesClosing(ps[1..], rest);
    }
  }

  /** The string scan ends right behind the closing quote, whatever escapes the body holds. */
  lemma StringSpan(ps: seq<Piece>, rest: string)
    requires PiecesOk(ps)
    ensures StringLen(Quoted(ps) + rest) == |Quoted(ps)|
  {
    PiecesClosing(ps, rest);
    assert (Quoted(ps) + rest)[1..] == PrintPieces(ps) + (['"'] + rest);
  }

  // ----- values inside a container -----

  predicate Flat(c: char) { c != '"' && c != '[' && c != ']' && c != '{' && c != '}' }

  /** Characters that the depth scan steps over. */
  lemma {:induction false} DepthFlat(s: string, rest: string, depth: nat)
    requires forall i :: 0 <= i < |s| ==> Flat(s[i]) && (depth > 0 || s[i] != ',')
    ensures DepthLen(s + rest, depth) == |s| + DepthLen(rest, depth)
  {
    if s == [] {
      assert s + rest == rest;
    } else {
      assert (s + rest)[1..] == s[1..] + rest;
      DepthFlat(s[1..], rest, depth);
    }
  }

  lemma DepthString(ps: seq<Piece>, rest: string, depth: nat)
    requires PiecesOk(ps)
    ensures DepthLen(Quoted(ps) + rest, depth) == |Quoted(ps)| + DepthLen(rest, depth)
  {
    StringSpan(ps, rest);
    assert (Quoted(ps) + rest)[|Quoted(ps)|..] == rest;
  }

  /** Inside a container the depth scan steps over one whole value. */
  lemma {:induction false} DepthValue(v: Value, rest: string, depth: nat)
    requires ValueOk(v) && depth >= 1
    ensures DepthLen(Print(v) + rest, depth) == |Print(v)| + DepthLen(rest, depth)
    decreases v, 1
  {
    match v
    case Text(ps) => DepthString(ps, rest, depth);
    case Scalar(text) =>
      ScalarInert(text);
      DepthFlat(text, rest, depth);
    case Array(pad, items) => DepthContainer(v, rest, depth);
    case Object(pad, members) => DepthContainer(v, rest, depth);
  }

  function Inside(v: Value): string
    requires v.Array? || v.Object?
  {
    match v
    case Array(pad, items) => if items.NoItems? then pad else PrintItems(items)
    case Object(pad, members) => PrintMembers(pad, members)
  }

  lemma DepthBlank(s: string, rest: string, depth: nat)
    requires Blank(s)
    ensures DepthLen(s + rest, depth) == |s| + DepthLen(rest, depth)
  {
    DepthFlat(s, rest, depth);
  }

  lemma DepthColon(gap: string, sep: string, rest: string, depth: nat)
    requires Blank(gap) && Blank(sep)
    ensures DepthLen(gap + [':'] + sep + rest, depth) == |gap + [':'] + sep| + DepthLen(rest, depth)
  {
    DepthFlat(gap + [':'] + sep, rest, depth);
  }

  lemma DepthBracket(c: char, rest: string, depth: nat)
    ensures c == '[' || c == '{' ==> DepthLen([c] + rest, depth) == 1 + DepthLen(rest, depth + 1)
    ensures (c == ']' || c == '}') && depth > 0 ==> DepthLen([c] + rest, depth) == 1 + if depth == 1 then 0 else DepthLen(rest, depth - 1)
    ensures c == ',' && depth > 0 ==> DepthLen([c] + rest, depth) == 1 + DepthLen(rest, depth)
  {
    assert ([c] + rest)[1..] == rest;
  }

  lemma {:induction false} DepthContainer(v: Value, rest: string, depth: nat)
    requires ValueOk(v) && (v.Array? || v.Object?)
    ensures DepthLen(Print(v) + rest, depth) == |Print(v)| + if depth == 0 then 0 else DepthLen(rest, depth)
    decreases v, 0
  {
    hide DepthLen, Blank, PrintItems, PrintMembers, Quoted, PiecesOk, IsScalar;
    var open, close := (if v.Array? then '[' else '{'), (if v.Array? then ']' else '}');
    assert Print(v) + rest == [open] + (Inside(v) + ([close] + rest));
    DepthBracket(open, Inside(v) + ([close] + rest), depth);
    match v {
      case Array(pad, items) =>
        if items.NoItems? {
          DepthBlank(pad, [close] + rest, depth + 1);
        } else {
          DepthItems(items, [close] + rest, depth + 1);
        }
      case Object(pad, members) => DepthMembers(pad, members, [close] + rest, depth + 1);
    }
    DepthBracket(close, rest, depth + 1);
  }

  lemma {:induction false} DepthItems(items: Items, rest: string, depth: nat)
    requires ItemsOk(items) && depth >= 1
    ensures DepthLen(PrintItems(items) + rest, depth) == |PrintItems(items)| + DepthLen(rest, depth)
    decreases items
  {
    hide DepthLen, Blank, Print, ValueOk;
    match items
    case NoItems => assert PrintItems(items) + rest == rest;
    case Item(before, v, after, more) =>
      var tail := (if more.NoItems? then [] else [','] + PrintItems(more)) + rest;
      assert PrintItems(items) + rest == before + (Print(v) + (after + tail));
      DepthBlank(before, Print(v) + (after + tail), depth);
      DepthValue(v, after + tail, depth);
      DepthBlank(after, tail, depth);
      if !more.NoItems? {
        assert tail == [','] + (PrintItems(more) + rest);
        DepthBracket(',', PrintItems(more) + rest, depth);
        DepthItems(more, rest, depth);
      } else {
        assert tail == rest;
      }
  }

  lemma {:induction false} DepthMembers(pad: string, members: Members, rest: string, depth: nat)
    requires Blank(pad) && MembersOk(members) && depth >= 1
    ensures DepthLen(PrintMembers(pad, members) + rest, depth) == |PrintMembers(pad, members)| + DepthLen(rest, depth)
    decreases members
  {
    hide DepthLen, Blank, Print, ValueOk, Quoted, PiecesOk;
    match members
    case NoMembers => DepthBlank(pad, rest, depth);
    case Member(before, key, gap, sep, v, after, more) =>
      var tail := (if more.NoMembers? then [] else [','] + PrintMembers([], more)) + rest;
      var fromValue := Print(v) + (after + tail);
      var fromKey := Quoted(key) + (gap + [':'] + sep + fromValue);
      MemberText(pad, members, rest, fromValue, tail);
      DepthBlank(before, fromKey, depth);
      DepthString(key, gap + [':'] + sep + fromValue, depth);
      DepthColon(gap, sep, fromValue, depth);
      DepthValue(v, after + tail, depth);
      DepthBlank(after, tail, depth);
      if !more.NoMembers? {
        assert tail == [','] + (PrintMembers([], more) + rest);
        DepthBracket(',', PrintMembers([], more) + rest, depth);
        EmptyIsBlank();
        DepthMembers([], more, rest, depth);
      } else {
        assert tail == rest;
      }
  }

  lemma EmptyIsBlank()
    ensures Blank([])
  {
  }

  /** The text of a member list, part by part. */
  lemma MemberText(pad: string, members: Members, rest: string, fromValue: string, tail: string)
    requires members.Member?
    requires tail == (if members.rest.NoMembers? then [] else [','] + PrintMembers([], members.rest)) + rest
    requires fromValue == Print(members.value) + (members.after + tail)
    ensures PrintMembers(pad, members) + rest
      == members.before + (Quoted(members.key) + (members.gap + [':'] + members.sep + fromValue))
    ensures |PrintMembers(pad, members) + rest|
      == |members.before| + |Quoted(members.key)| + |members.gap| + 1 + |members.sep| + |Print(members.value)| + |members.after| + |tail|
  {
    hide Print, Quoted;
  }

  // ----- the span of a top-level value -----

  /** Blanks behind a number or a literal belong to its span; strings and containers end exactly. */
  function Trail(v: Value, after: string): string { if v.Scalar? then after else [] }

  /** The value scan stops at the end of the value, or behind the blanks that follow a scalar. */
  lemma ValueSpan(v: Value, after: string, rest: string)
    requires ValueOk(v) && Blank(after) && rest != [] && rest[0] in {',', '}'}
    ensures Print(v) != [] && ValueLen(Print(v) + after + rest) == |Print(v) + Trail(v, after)|
  {
    match v
    case Text(ps) =>
      StringSpan(ps, after + rest);
      assert Print(v) + after + rest == Quoted(ps) + (after + rest);
    case Scalar(text) =>
      ScalarInert(text);
      DepthFlat(text + after, rest, 0);
    case Array(_, _) =>
      DepthContainer(v, after + rest, 0);
      assert Print(v) + after + rest == Print(v) + (after + rest);
    case Object(_, _) =>
      DepthContainer(v, after + rest, 0);
      assert Print(v) + after + rest == Print(v) + (after + rest);
  }
}
