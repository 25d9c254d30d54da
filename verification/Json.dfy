/** JSON texts: a syntax tree that keeps whitespace and spelling, and its printed form
    (sections 2 to 7 of RFC 8259). A byte is a character with that code. */
module Json {

  /** One element of a string body. */
  datatype Piece = Plain(c: char) | Escape(c: char) | Unicode(hex: string)

  datatype Value = Text(pieces: seq<Piece>) | Scalar(text: string) | Array(pad: string, items: Items) | Object(pad: string, members: Members)

  /** `pad` above is the blank between the brackets of an empty container. */
  datatype Items = NoItems | Item(before: string, value: Value, after: string, rest: Items)

  datatype Members = NoMembers
    | Member(before: string, key: seq<Piece>, gap: string, sep: string, value: Value, after: string, rest: Members)

  datatype Document = Document(before: string, value: Value, after: string)

  // ----- printing -----

  function PrintPiece(p: Piece): (r: string)
    ensures |r| >= 1
  {
    match p
    case Plain(c) => [c]
    case Escape(c) => ['\\', c]
    case Unicode(hex) => ['\\', 'u'] + hex
  }

  function PrintPieces(ps: seq<Piece>): string {
    if ps == [] then [] else PrintPiece(ps[0]) + PrintPieces(ps[1..])
  }

  function Quoted(ps: seq<Piece>): (r: string)
    ensures |r| >= 2 && r[0] == '"'
  {
    ['"'] + PrintPieces(ps) + ['"']
  }

  function Print(v: Value): string
    decreases v, 0
  {
    match v
    case Text(ps) => Quoted(ps)
    case Scalar(text) => text
    case Array(pad, items) => ['['] + (if items.NoItems? then pad else PrintItems(items)) + [']']
    case Object(pad, members) => ['{'] + PrintMembers(pad, members) + ['}']
  }

  function PrintItems(items: Items): string {
    match items
    case NoItems => []
    case Item(before, v, after, rest) =>
      before + Print(v) + after + (if rest.NoItems? then [] else [','] + PrintItems(rest))
  }

  /** What stands between the braces. */
  function PrintMembers(pad: string, members: Members): string
    decreases members, 1
  {
    match members
    case NoMembers => pad
    case Member(before, key, gap, sep, v, after, rest) =>
      before + Quoted(key) + gap + [':'] + sep + Print(v) + after
      + (if rest.NoMembers? then [] else [','] + PrintMembers([], rest))
  }

  function PrintDocument(d: Document): string { d.before + Print(d.value) + d.after }

  // ----- well-formedness -----

  predicate IsSpace(c: char) { c == ' ' || c == '\r' || c == '\n' || c == '\t' }

  predicate Blank(s: string) { forall i :: 0 <= i < |s| ==> IsSpace(s[i]) }

  predicate IsHex(c: char) { '0' <= c <= '9' || 'a' <= c <= 'f' || 'A' <= c <= 'F' }

  predicate PieceOk(p: Piece) {
    match p
    case Plain(c) => c >= ' ' && c != '"' && c != '\\'
    case Escape(c) => c in {'"', '\\', '/', 'b', 'f', 'n', 'r', 't'}
    case Unicode(hex) => |hex| == 4 && forall i :: 0 <= i < 4 ==> IsHex(hex[i])
  }

  predicate PiecesOk(ps: seq<Piece>) { forall i :: 0 <= i < |ps| ==> PieceOk(ps[i]) }

  predicate Digits(s: string) { forall i :: 0 <= i < |s| ==> '0' <= s[i] <= '9' }

  predicate IsInteger(s: string) { s != [] && Digits(s) && (s[0] == '0' ==> |s| == 1) }

  predicate IsFraction(s: string) { s == [] || (|s| >= 2 && s[0] == '.' && Digits(s[1..])) }

  predicate IsExponent(s: string) {
    s == [] || (|s| >= 2 && s[0] in {'e', 'E'}
                && (Digits(s[1..]) || (|s| >= 3 && s[1] in {'+', '-'} && Digits(s[2..]))))
  }

  ghost predicate IsNumber(s: string) {
    exists minus, integer, fraction, exponent ::
      (minus == [] || minus == "-") && IsInteger(integer) && IsFraction(fraction) && IsExponent(exponent)
      && s == minus + integer + fraction + exponent
  }

  ghost predicate IsScalar(s: string) { s == "true" || s == "false" || s == "null" || IsNumber(s) }

  ghost predicate ValueOk(v: Value)
    decreases v, 0
  {
    match v
    case Text(ps) => PiecesOk(ps)
    case Scalar(text) => IsScalar(text)
    case Array(pad, items) => Blank(pad) && ItemsOk(items)
    case Object(pad, members) => Blank(pad) && MembersOk(members)
  }

  ghost predicate ItemsOk(items: Items) {
    match items
    case NoItems => true
    case Item(before, v, after, rest) => Blank(before) && ValueOk(v) && Blank(after) && ItemsOk(rest)
  }

  ghost predicate MembersOk(members: Members) {
    match members
    case NoMembers => true
    case Member(before, key, gap, sep, v, after, rest) =>
      Blank(before) && PiecesOk(key) && Blank(gap) && Blank(sep) && ValueOk(v) && Blank(after) && MembersOk(rest)
  }

  ghost predicate DocumentOk(d: Document) { Blank(d.before) && ValueOk(d.value) && Blank(d.after) }

  // ----- scalars contain nothing that the scanner reacts to -----

  predicate Inert(c: char) {
    c != '"' && c != '[' && c != ']' && c != '{' && c != '}' && c != ',' && c != ':' && c != '\\' && !IsSpace(c)
  }

  predicate AllInert(s: string) { forall i :: 0 <= i < |s| ==> Inert(s[i]) }

  lemma ScalarInert(s: string)
    requires IsScalar(s)
    ensures s != [] && AllInert(s)
  {
    if IsNumber(s) {
      var minus, integer, fraction, exponent :|
        (minus == [] || minus == "-") && IsInteger(integer) && IsFraction(fraction) && IsExponent(exponent)
        && s == minus + integer + fraction + exponent;
      FractionInert(fraction);
      ExponentInert(exponent);
      assert AllInert(minus) && AllInert(integer);
    }
  }

  lemma FractionInert(s: string)
    requires IsFraction(s)
    ensures AllInert(s)
  {
    forall i | 0 <= i < |s| ensures Inert(s[i]) {
      assert i > 0 ==> s[i] == s[1..][i-1];
    }
  }

  lemma ExponentInert(s: string)
    requires IsExponent(s)
    ensures AllInert(s)
  {
    forall i | 0 <= i < |s| ensures Inert(s[i]) {
      assert i > 0 ==> s[i] == s[1..][i-1];
      assert i > 1 ==> s[i] == s[2..][i-2];
    }
  }
}
