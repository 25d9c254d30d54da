/** How the quoting routine spells ASCII names, and when that is JSON. */
module Quoting {
  import opened Json
  import opened Scanner
  import opened Lexing

  predicate Ascii(name: string) { forall i :: 0 <= i < |name| ==> name[i] as int < 0x80 }

  function HexDigit(n: nat): char
    requires n < 16
  {
    if n < 10 then '0' + n as char else 'a' + (n - 10) as char
  }

  /** The quoting routine's spelling of one ASCII character. It is not JSON's. */
  function QuoteChar(c: char): string
    requires c as int < 0x80
  {
    if c == '"' || c == '\\' then ['\\', c]
    else if ' ' <= c <= '~' then [c]
    else
      match c as int
      case 7 => "\\a"
      case 8 => "\\b"
      case 12 => "\\f"
      case 10 => "\\n"
      case 13 => "\\r"
      case 9 => "\\t"
      case 11 => "\\v"
      case n => "\\x" + [HexDigit(n / 16), HexDigit(n % 16)]
  }

  function QuoteBody(name: string): string
    requires Ascii(name)
  {
    if name == [] then [] else QuoteChar(name[0]) + QuoteBody(name[1..])
  }

  /** Printable characters and the five control characters that JSON also abbreviates. */
  predicate JsonSafe(name: string) {
    forall i :: 0 <= i < |name| ==> ' ' <= name[i] <= '~' || name[i] as int in {8, 9, 10, 12, 13}
  }

  function PieceFor(c: char): Piece {
    if c == '"' || c == '\\' then Escape(c)
    else
      match c as int
      case 8 => Escape('b')
      case 12 => Escape('f')
      case 10 => Escape('n')
      case 13 => Escape('r')
      case 9 => Escape('t')
      case _ => Plain(c)
  }

  function PiecesFor(name: string): (ps: seq<Piece>)
    ensures |ps| == |name|
  {
    seq(|name|, i requires 0 <= i < |name| => PieceFor(name[i]))
  }

  lemma {:induction false} SafeNameIsJson(name: string)
    requires Ascii(name) && JsonSafe(name)
    ensures PiecesOk(PiecesFor(name)) && PrintPieces(PiecesFor(name)) == QuoteBody(name)
  {
    if name != [] {
      SafeNameIsJson(name[1..]);
      assert PiecesFor(name)[1..] == PiecesFor(name[1..]);
      assert PrintPiece(PieceFor(name[0])) == QuoteChar(name[0]);
    }
  }

  lemma FirstPieceFixed(ps: seq<Piece>, c: char, rest: string)
    requires PiecesOk(ps) && c as int < 0x80 && PrintPieces(ps) == QuoteChar(c) + rest
    ensures JsonSafe([c]) && ps != [] && PrintPieces(ps[1..]) == rest
  {
    var text := PrintPieces(ps);
    assert text[0] == QuoteChar(c)[0] && text == PrintPiece(ps[0]) + PrintPieces(ps[1..]);
    assert text[0] == PrintPiece(ps[0])[0];
    if text[0] == '\\' {
      assert text[1] == QuoteChar(c)[1] && text[1] == PrintPiece(ps[0])[1];
      assert rest == text[|QuoteChar(c)|..];
      assert PrintPieces(ps[1..]) == text[|PrintPiece(ps[0])|..];
    } else {
      assert rest == text[1..] && PrintPieces(ps[1..]) == text[1..];
    }
  }

  lemma {:induction false} JsonNameIsSafe(name: string, ps: seq<Piece>)
    requires Ascii(name) && PiecesOk(ps) && PrintPieces(ps) == QuoteBody(name)
    ensures JsonSafe(name)
  {
    if name != [] {
      FirstPieceFixed(ps, name[0], QuoteBody(name[1..]));
      JsonNameIsSafe(name[1..], ps[1..]);
      assert JsonSafe([name[0]]) && [name[0]][0] == name[0];
      assert forall i :: 1 <= i < |name| ==> name[i] == name[1..][i-1];
    }
  }

  /** The spliced value is a JSON string exactly for the names without a control character that
      JSON spells differently. */
  lemma QuotedNameIsJsonIff(name: string)
    requires Ascii(name)
    ensures (exists ps :: PiecesOk(ps) && PrintPieces(ps) == QuoteBody(name)) <==> JsonSafe(name)
  {
    if JsonSafe(name) {
      SafeNameIsJson(name);
    }
    if ps :| PiecesOk(ps) && PrintPieces(ps) == QuoteBody(name) {
      JsonNameIsSafe(name, ps);
    }
  }

  function AppendQuote(name: string): string
    requires Ascii(name)
  {
    ['"'] + QuoteBody(name) + ['"']
  }

  /** Whatever the name, the quoted text is one string token. */
  lemma AppendQuoteIsOneString(name: string)
    requires Ascii(name)
    ensures OneString(AppendQuote(name))
  {
    forall rest ensures StringLen(AppendQuote(name) + rest) == |AppendQuote(name)| {
      QuoteBodyCloses(name, rest);
      assert (AppendQuote(name) + rest)[1..] == QuoteBody(name) + (['"'] + rest);
    }
  }

  lemma {:induction false} QuoteBodyCloses(name: string, rest: string)
    requires Ascii(name)
    ensures Closing(QuoteBody(name) + (['"'] + rest)) == |QuoteBody(name)| + 1
  {
    if name == [] {
      assert QuoteBody(name) + (['"'] + rest) == ['"'] + rest;
    } else {
      var more := QuoteBody(name[1..]) + (['"'] + rest);
      assert QuoteBody(name) + (['"'] + rest) == QuoteChar(name[0]) + more;
      QuoteCharCloses(name[0], more);
      QuoteBodyCloses(name[1..], rest);
    }
  }

  lemma QuoteCharCloses(c: char, rest: string)
    requires c as int < 0x80
    ensures Closing(QuoteChar(c) + rest) == |QuoteChar(c)| + Closing(rest)
  {
    var s := QuoteChar(c) + rest;
    if s[0] != '\\' {
      assert s[1..] == rest;
    } else if |QuoteChar(c)| == 2 {
      assert s[2..] == rest;
    } else {
      var x, y := QuoteChar(c)[2], QuoteChar(c)[3];
      assert s[2..] == [x] + ([y] + rest);
      ClosingPlain(x, [y] + rest);
      ClosingPlain(y, rest);
    }
  }

  lemma ClosingPlain(c: char, rest: string)
    requires c != '"' && c != '\\'
    ensures Closing([c] + rest) == 1 + Closing(rest)
  {
    assert ([c] + rest)[1..] == rest;
  }

  lemma SameQuotes(ps: seq<Piece>, body: string)
    ensures Quoted(ps) == ['"'] + body + ['"'] <==> PrintPieces(ps) == body
  {
    if Quoted(ps) == ['"'] + body + ['"'] {
      assert Quoted(ps)[1..|Quoted(ps)|-1] == PrintPieces(ps);
      assert (['"'] + body + ['"'])[1..|body|+1] == body;
    }
  }

  /** The quoted name is a JSON string exactly for the safe names. */
  lemma SpelledIffSafe(name: string)
    requires Ascii(name)
    ensures SpelledString(AppendQuote(name)) <==> JsonSafe(name)
  {
    hide JsonSafe, QuoteBody;
    QuotedNameIsJsonIff(name);
    forall ps ensures Quoted(ps) == AppendQuote(name) <==> PrintPieces(ps) == QuoteBody(name) {
      SameQuotes(ps, QuoteBody(name));
    }
  }

  // ----- names that need no escaping -----

  /** No control character, quote or backslash; every other character of any script is plain. */
  predicate PlainName(name: string) { forall i :: 0 <= i < |name| ==> name[i] >= ' ' && name[i] != '"' && name[i] != '\\' }

  function PlainPieces(name: string): (ps: seq<Piece>)
    ensures |ps| == |name|
  {
    seq(|name|, i requires 0 <= i < |name| => Plain(name[i]))
  }

  lemma {:induction false} PlainSpelled(name: string)
    ensures PrintPieces(PlainPieces(name)) == name
    ensures PlainName(name) ==> PiecesOk(PlainPieces(name))
  {
    if name != [] {
      PlainSpelled(name[1..]);
      assert PlainPieces(name)[1..] == PlainPieces(name[1..]);
    }
  }
}
