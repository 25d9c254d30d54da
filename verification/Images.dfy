/** Finding image content without parsing: a scan over strings and colons that agrees with the
    syntax tree. */
module Images {
  import opened Policy
  import opened Json
  import opened Scanner
  import opened Spans
  import opened Requests

  type Decoder = string -> Option<string>

  const IMAGE_KEYS: set<string> := { "image_url", "inlineData", "inline_data" }
  const IMAGE_KINDS: set<string> := { "image", "image_url", "input_image" }
  const MARKERS: set<string> := { "type", "image", "input_image", "image_url", "inlineData", "inline_data" }

  // ----- the scan -----

  /** The marker a raw string spells; escaped spellings go through the decoder. */
  function Marker(d: Decoder, raw: string): string {
    if |raw| >= 2 && raw == ['"'] + raw[1..|raw|-1] + ['"'] && raw[1..|raw|-1] in MARKERS then raw[1..|raw|-1]
    else if '\\' in raw && d(raw).Some? then d(raw).value
    else ""
  }

  /** Whether a key, with the text behind its colon, announces an image. */
  function Announces(d: Decoder, raw: string, rest: string): bool {
    var key, v := Marker(d, raw), SpaceLen(rest);
    || key in IMAGE_KEYS
    || (key == "type" && v < |rest| && rest[v] == '"' && Marker(d, rest[v..][..StringLen(rest[v..])]) in IMAGE_KINDS)
  }

  function ImageScan(d: Decoder, s: string): bool {
    if s == [] then false
    else if s[0] != '"' then ImageScan(d, s[1..])
    else
      var end := StringLen(s);
      Hit(d, s[..end], s[end..]) || ImageScan(d, s[end..])
  }

  /** A string that a colon follows is a key. */
  function Hit(d: Decoder, raw: string, rest: string): bool {
    var n := SpaceLen(rest);
    n < |rest| && rest[n] == ':' && Announces(d, raw, rest[n+1..])
  }

  predicate OccursAt(s: string, w: string, i: nat) { i + |w| <= |s| && s[i..i+|w|] == w }

  ghost predicate Contains(s: string, w: string) { exists i: nat :: OccursAt(s, w, i) }

  /** The cheap test that precedes the scan. */
  ghost predicate Gate(s: string) {
    Contains(s, "image") || Contains(s, "inlineData") || Contains(s, "inline_data") || Contains(s, "\\u")
  }

  ghost function ImageFound(d: Decoder, s: string): bool { Gate(s) && ImageScan(d, s) }

  method FindsWord(s: string, w: string) returns (found: bool)
    ensures found <==> Contains(s, w)
  {
    var i := 0;
    while i + |w| <= |s|
      invariant 0 <= i && forall k: nat :: k < i ==> !OccursAt(s, w, k)
    {
      if s[i..i+|w|] == w {
        assert OccursAt(s, w, i);
        return true;
      }
      i := i + 1;
    }
    found := false;
  }

  method AnnouncedAt(d: Decoder, b: string, i: nat, end: nat, colon: nat) returns (found: bool)
    requires i <= end <= colon < |b|
    ensures found == Announces(d, b[i..end], b[colon+1..])
  {
    hide Marker, StringLen, SpaceLen;
    var key := Marker(d, b[i..end]);
    if key in IMAGE_KEYS {
      return true;
    }
    if key == "type" {
      var value := Space(b, colon + 1);
      if value < |b| && b[value] == '"' {
        var stop := StringEnd(b, value);
        assert b[colon+1..][value-colon-1..] == b[value..] && b[value..][..stop-value] == b[value..stop];
        return Marker(d, b[value..stop]) in IMAGE_KINDS;
      }
    }
    found := false;
  }

  /** The source's loop over quotes. */
  method HasImage(d: Decoder, b: string) returns (found: bool)
    ensures found == ImageFound(d, b)
  {
    var w1 := FindsWord(b, "image");
    var w2 := FindsWord(b, "inlineData");
    var w3 := FindsWord(b, "inline_data");
    var w4 := FindsWord(b, "\\u");
    if !w1 && !w2 && !w3 && !w4 {
      return false;
    }
    found := ScanStrings(d, b);
  }

  method ScanStrings(d: Decoder, b: string) returns (found: bool)
    ensures found == ImageScan(d, b)
  {
    hide Announces, StringLen, SpaceLen;
    var i := 0;
    assert b[0..] == b;
    while i < |b|
      invariant i <= |b| && ImageScan(d, b[i..]) == ImageScan(d, b)
    {
      if b[i] != '"' {
        assert b[i..][1..] == b[i+1..];
        i := i + 1;
        continue;
      }
      var end := StringEnd(b, i);
      var next := Space(b, end);
      assert b[i..][end-i..] == b[end..] && b[i..][..end-i] == b[i..end];
      if next < |b| && b[next] == ':' {
        assert b[end..][next-end+1..] == b[next+1..];
        var hit := AnnouncedAt(d, b, i, end, next);
        if hit {
          return true;
        }
      }
      i := end;
    }
    found := false;
  }

  // ----- what the tree says -----

  function Unescaped(c: char): char {
    if c == 'b' then 8 as char else if c == 'f' then 12 as char else if c == 'n' then 10 as char
    else if c == 'r' then 13 as char else if c == 't' then 9 as char else c
  }

  predicate NoUnicode(ps: seq<Piece>) { forall i :: 0 <= i < |ps| ==> !ps[i].Unicode? }

  /** The text of a string without \\u escapes. */
  function Meaning(ps: seq<Piece>): (s: string)
    requires NoUnicode(ps)
    ensures |s| == |ps|
  {
    seq(|ps|, i requires 0 <= i < |ps| => if ps[i].Plain? then ps[i].c else Unescaped(ps[i].c))
  }

  predicate AsciiPieces(ps: seq<Piece>) { forall i :: 0 <= i < |ps| && !ps[i].Unicode? ==> ps[i].c as int < 0x80 }

  /** The decoder is right about ASCII strings without \\u escapes. Of other strings without such
      escapes, which it may repair, it only has to make no marker; about the rest it may say anything. */
  ghost predicate Faithful(d: Decoder) {
    && (forall ps :: PiecesOk(ps) && NoUnicode(ps) && AsciiPieces(ps) ==> d(Quoted(ps)) == Some(Meaning(ps)))
    && (forall ps :: PiecesOk(ps) && NoUnicode(ps) && !AsciiPieces(ps) && d(Quoted(ps)).Some? ==> d(Quoted(ps)).value !in MARKERS)
  }

  function Decode(d: Decoder, ps: seq<Piece>): string {
    if NoUnicode(ps) then Meaning(ps) else if d(Quoted(ps)).Some? then d(Quoted(ps)).value else ""
  }

  predicate MemberAnnounces(d: Decoder, key: seq<Piece>, v: Value) {
    || Decode(d, key) in {"image_url", "inlineData", "inline_data"}
    || (Decode(d, key) == "type" && v.Text? && Decode(d, v.pieces) in {"image", "image_url", "input_image"})
  }

  /** Some object, at any depth, has a member that announces an image. */
  predicate TreeHasImage(d: Decoder, v: Value)
    decreases v, 0
  {
    match v
    case Text(_) => false
    case Scalar(_) => false
    case Array(_, items) => ItemsHaveImage(d, items)
    case Object(_, members) => MembersHaveImage(d, members)
  }

  predicate ItemsHaveImage(d: Decoder, items: Items) {
    match items
    case NoItems => false
    case Item(_, v, _, rest) => TreeHasImage(d, v) || ItemsHaveImage(d, rest)
  }

  predicate MembersHaveImage(d: Decoder, members: Members) {
    match members
    case NoMembers => false
    case Member(_, key, _, _, v, _, rest) => MemberAnnounces(d, key, v) || TreeHasImage(d, v) || MembersHaveImage(d, rest)
  }

  // ----- spelling -----

  predicate AllPlain(ps: seq<Piece>) { forall i :: 0 <= i < |ps| ==> ps[i].Plain? }

  lemma {:induction false} PlainPrints(ps: seq<Piece>)
    requires AllPlain(ps)
    ensures PrintPieces(ps) == Meaning(ps)
  {
    if ps != [] {
      PlainPrints(ps[1..]);
    }
  }

  lemma {:induction false} SlashIffEscaped(ps: seq<Piece>)
    requires PiecesOk(ps)
    ensures '\\' in PrintPieces(ps) <==> !AllPlain(ps)
  {
    if ps != [] {
      SlashIffEscaped(ps[1..]);
      assert '\\' in PrintPiece(ps[0]) <==> !ps[0].Plain? by {
        if !ps[0].Plain? {
          assert PrintPiece(ps[0])[0] == '\\';
        }
      }
      assert PrintPieces(ps) == PrintPiece(ps[0]) + PrintPieces(ps[1..]);
      assert AllPlain(ps) <==> ps[0].Plain? && AllPlain(ps[1..]) by {
        assert forall i :: 1 <= i < |ps| ==> ps[i] == ps[1..][i-1];
      }
    }
  }

  predicate InWord(c: char) { 'a' <= c <= 'z' || c == 'D' || c == '_' }

  lemma EscapeIsNoLetter(ps: seq<Piece>, i: nat)
    requires PiecesOk(ps) && NoUnicode(ps) && i < |ps|
    ensures InWord(Meaning(ps)[i]) ==> ps[i].Plain?
  {
  }

  lemma ForeignIsNoMarker(ps: seq<Piece>)
    requires PiecesOk(ps) && NoUnicode(ps) && !AsciiPieces(ps)
    ensures Meaning(ps) !in MARKERS
  {
    MarkersAreLetters();
    var i :| 0 <= i < |ps| && !ps[i].Unicode? && ps[i].c as int >= 0x80;
    assert !InWord(Meaning(ps)[i]);
  }

  lemma MarkersAreLetters()
    ensures forall w, i :: w in MARKERS && 0 <= i < |w| ==> InWord(w[i])
    ensures "" !in MARKERS
  {
  }

  /** Literal comparison, with the decoder only for escaped spellings, recognises the same markers
      as decoding every string. */
  lemma MarkerIsDecode(d: Decoder, ps: seq<Piece>, w: string)
    requires Faithful(d) && PiecesOk(ps) && w in MARKERS
    ensures Marker(d, Quoted(ps)) == w <==> Decode(d, ps) == w
  {
    hide PrintPieces, Meaning;
    var raw, inner := Quoted(ps), PrintPieces(ps);
    SlashIffEscaped(ps);
    assert raw[1..|raw|-1] == inner;
    assert '\\' in raw <==> '\\' in inner;
    MarkersAreLetters();
    if AllPlain(ps) {
      PlainPrints(ps);
    } else {
      var k :| 0 <= k < |inner| && inner[k] == '\\';
      assert inner !in MARKERS by { assert !InWord(inner[k]); }
      if NoUnicode(ps) && !AsciiPieces(ps) {
        ForeignIsNoMarker(ps);
      }
    }
  }

  /** An escape of one character never spells a letter or an underscore. */
  lemma MarkerIsPlain(ps: seq<Piece>)
    requires PiecesOk(ps) && NoUnicode(ps) && Meaning(ps) in MARKERS
    ensures AllPlain(ps) && PrintPieces(ps) == Meaning(ps)
  {
    MarkersAreLetters();
    forall i | 0 <= i < |ps| ensures ps[i].Plain? {
      EscapeIsNoLetter(ps, i);
    }
    PlainPrints(ps);
  }

  // ----- the gate -----

  lemma ContainsInside(a: string, s: string, c: string, w: string)
    requires Contains(s, w)
    ensures Contains(a + s + c, w)
  {
    var i: nat :| OccursAt(s, w, i);
    assert (a + s + c)[|a|+i..|a|+i+|w|] == s[i..i+|w|];
    assert OccursAt(a + s + c, w, |a| + i);
  }

  lemma GateInside(a: string, s: string, c: string)
    requires Gate(s)
    ensures Gate(a + s + c)
  {
    hide Contains;
    if Contains(s, "image") { ContainsInside(a, s, c, "image"); }
    if Contains(s, "inlineData") { ContainsInside(a, s, c, "inlineData"); }
    if Contains(s, "inline_data") { ContainsInside(a, s, c, "inline_data"); }
    if Contains(s, "\\u") { ContainsInside(a, s, c, "\\u"); }
  }

  lemma {:induction false} UnicodeSpelled(ps: seq<Piece>, k: nat)
    requires k < |ps| && ps[k].Unicode?
    ensures Contains(PrintPieces(ps), "\\u")
  {
    if k == 0 {
      assert OccursAt(PrintPieces(ps), "\\u", 0);
    } else {
      UnicodeSpelled(ps[1..], k - 1);
      ContainsInside(PrintPiece(ps[0]), PrintPieces(ps[1..]), "", "\\u");
      assert PrintPiece(ps[0]) + PrintPieces(ps[1..]) + "" == PrintPieces(ps);
    }
  }

  /** Every word that announces an image passes the gate, however it is spelled. */
  lemma SpellingPassesGate(d: Decoder, ps: seq<Piece>)
    requires PiecesOk(ps) && Decode(d, ps) in IMAGE_KEYS + IMAGE_KINDS
    ensures Gate(Quoted(ps))
  {
    if NoUnicode(ps) {
      MarkerIsPlain(ps);
      WordsPassGate(PrintPieces(ps));
    } else {
      var k :| 0 <= k < |ps| && ps[k].Unicode?;
      UnicodeSpelled(ps, k);
    }
    GateInside(['"'], PrintPieces(ps), ['"']);
  }

  lemma WordsPassGate(w: string)
    requires w in IMAGE_KEYS + IMAGE_KINDS
    ensures Gate(w)
  {
    assert w == "image_url" || w == "image" ==> OccursAt(w, "image", 0);
    assert w == "input_image" ==> OccursAt(w, "image", 6);
    assert w == "inlineData" ==> OccursAt(w, "inlineData", 0);
    assert w == "inline_data" ==> OccursAt(w, "inline_data", 0);
  }

  lemma {:induction false} TreePassesGate(d: Decoder, v: Value)
    requires ValueOk(v) && TreeHasImage(d, v)
    ensures Gate(Print(v))
    decreases v, 0
  {
    hide Gate;
    match v
    case Array(pad, items) =>
      ItemsPassGate(d, items);
      GateInside(['['], PrintItems(items), [']']);
    case Object(pad, members) =>
      MembersPassGate(d, pad, members);
      GateInside(['{'], PrintMembers(pad, members), ['}']);
  }

  lemma {:induction false} ItemsPassGate(d: Decoder, items: Items)
    requires ItemsOk(items) && ItemsHaveImage(d, items)
    ensures Gate(PrintItems(items))
    decreases items
  {
    hide Gate, Print;
    match items
    case Item(before, v, after, rest) =>
      var tail := if rest.NoItems? then [] else [','] + PrintItems(rest);
      if TreeHasImage(d, v) {
        TreePassesGate(d, v);
        GateInside(before, Print(v), after + tail);
        assert PrintItems(items) == before + Print(v) + (after + tail);
      } else {
        ItemsPassGate(d, rest);
        GateInside(before + Print(v) + after + [','], PrintItems(rest), []);
        assert PrintItems(items) == (before + Print(v) + after + [',']) + PrintItems(rest) + [];
      }
  }

  lemma {:induction false} MembersPassGate(d: Decoder, pad: string, members: Members)
    requires MembersOk(members) && MembersHaveImage(d, members)
    ensures Gate(PrintMembers(pad, members))
    decreases members
  {
    hide Gate, Print, Quoted, Decode;
    match members
    case Member(before, key, gap, sep, v, after, rest) =>
      var tail := if rest.NoMembers? then [] else [','] + PrintMembers([], rest);
      var text := PrintMembers(pad, members);
      if Decode(d, key) in IMAGE_KEYS {
        SpellingPassesGate(d, key);
        GateInside(before, Quoted(key), gap + [':'] + sep + Print(v) + after + tail);
        assert text == before + Quoted(key) + (gap + [':'] + sep + Print(v) + after + tail);
      } else if MemberAnnounces(d, key, v) || TreeHasImage(d, v) {
        ValuePassesGate(d, key, v);
        GateInside(before + Quoted(key) + gap + [':'] + sep, Print(v), after + tail);
        assert text == (before + Quoted(key) + gap + [':'] + sep) + Print(v) + (after + tail);
      } else {
        MembersPassGate(d, [], rest);
        GateInside(before + Quoted(key) + gap + [':'] + sep + Print(v) + after + [','], PrintMembers([], rest), []);
        assert text == (before + Quoted(key) + gap + [':'] + sep + Print(v) + after + [',']) + PrintMembers([], rest) + [];
      }
  }

  lemma ValuePassesGate(d: Decoder, key: seq<Piece>, v: Value)
    requires ValueOk(v) && Decode(d, key) !in IMAGE_KEYS && (MemberAnnounces(d, key, v) || TreeHasImage(d, v))
    ensures Gate(Print(v))
    decreases v, 1
  {
    hide Gate, Quoted, Decode;
    if TreeHasImage(d, v) {
      TreePassesGate(d, v);
    } else {
      SpellingPassesGate(d, v.pieces);
    }
  }

  // ----- the scan agrees with the tree -----

  predicate NotColon(rest: string) {
    var n := SpaceLen(rest);
    n == |rest| || rest[n] != ':'
  }

  lemma {:induction false} ScanFlat(d: Decoder, s: string, rest: string)
    requires forall i :: 0 <= i < |s| ==> s[i] != '"'
    ensures ImageScan(d, s + rest) == ImageScan(d, rest)
  {
    if s == [] {
      assert s + rest == rest;
    } else {
      assert (s + rest)[1..] == s[1..] + rest;
      ScanFlat(d, s[1..], rest);
    }
  }

  lemma ScanBlank(d: Decoder, s: string, rest: string)
    requires Blank(s)
    ensures ImageScan(d, s + rest) == ImageScan(d, rest)
  {
    ScanFlat(d, s, rest);
  }

  lemma ScanColon(d: Decoder, gap: string, sep: string, rest: string)
    requires Blank(gap) && Blank(sep)
    ensures ImageScan(d, gap + [':'] + sep + rest) == ImageScan(d, rest)
  {
    ScanFlat(d, gap + [':'] + sep, rest);
  }

  lemma ScanChar(d: Decoder, c: char, rest: string)
    requires c != '"'
    ensures ImageScan(d, [c] + rest) == ImageScan(d, rest)
  {
    ScanFlat(d, [c], rest);
  }

  lemma ScanString(d: Decoder, ps: seq<Piece>, rest: string)
    requires PiecesOk(ps)
    ensures ImageScan(d, Quoted(ps) + rest) == (Hit(d, Quoted(ps), rest) || ImageScan(d, rest))
  {
    hide Hit, StringLen, Quoted;
    StringSpan(ps, rest);
    QuotedFirst(ps);
    var s := Quoted(ps) + rest;
    assert s[..|Quoted(ps)|] == Quoted(ps) && s[|Quoted(ps)|..] == rest;
  }

  lemma QuotedFirst(ps: seq<Piece>)
    ensures Quoted(ps) != [] && Quoted(ps)[0] == '"'
  {
  }

  lemma BlankThen(pad: string, rest: string)
    requires Blank(pad) && rest != [] && rest[0] in {',', ']', '}'}
    ensures NotColon(pad + rest)
  {
    BlankSkipped(pad, rest);
  }

  /** A key, its colon and the text of its value: the scan decides as the tree does. */
  lemma KeyAnnounces(d: Decoder, key: seq<Piece>, sep: string, v: Value, rest: string)
    requires Faithful(d) && PiecesOk(key) && Blank(sep) && ValueOk(v)
    ensures Announces(d, Quoted(key), sep + (Print(v) + rest)) <==> MemberAnnounces(d, key, v)
  {
    hide Decode, Marker, Faithful, StringLen;
    var text := sep + (Print(v) + rest);
    FirstByte(v, rest);
    BlankSkipped(sep, Print(v) + rest);
    assert text[|sep|..] == Print(v) + rest;
    MarkersOfKey(d, key);
    if v.Text? {
      StringSpan(v.pieces, rest);
      assert (Print(v) + rest)[..|Print(v)|] == Print(v);
      MarkersOfKey(d, v.pieces);
    }
  }

  lemma FirstByte(v: Value, rest: string)
    requires ValueOk(v)
    ensures var s := Print(v) + rest; s != [] && !IsSpace(s[0]) && (s[0] == '"' <==> v.Text?)
  {
    if v.Scalar? {
      ScalarInert(v.text);
    }
  }

  lemma MarkersOfKey(d: Decoder, ps: seq<Piece>)
    requires Faithful(d) && PiecesOk(ps)
    ensures Marker(d, Quoted(ps)) in IMAGE_KEYS <==> Decode(d, ps) in IMAGE_KEYS
    ensures Marker(d, Quoted(ps)) in IMAGE_KINDS <==> Decode(d, ps) in IMAGE_KINDS
    ensures Marker(d, Quoted(ps)) == "type" <==> Decode(d, ps) == "type"
  {
    hide Decode, Marker, Faithful, Quoted;
    forall w | w in MARKERS ensures Marker(d, Quoted(ps)) == w <==> Decode(d, ps) == w {
      MarkerIsDecode(d, ps, w);
    }
    assert IMAGE_KEYS + IMAGE_KINDS + {"type"} == MARKERS;
  }

  lemma {:induction false} ScanValue(d: Decoder, v: Value, rest: string)
    requires Faithful(d) && ValueOk(v) && NotColon(rest)
    ensures ImageScan(d, Print(v) + rest) <==> TreeHasImage(d, v) || ImageScan(d, rest)
    decreases v, 1
  {
    hide ImageScan, Blank, Announces, Quoted, Decode, Faithful;
    match v
    case Text(ps) => ScanString(d, ps, rest);
    case Scalar(text) => ScanScalar(d, text, rest);
    case Array(pad, items) =>
      var close := [']'] + rest;
      assert Print(v) + rest == ['['] + ((if items.NoItems? then pad else PrintItems(items)) + close);
      ScanChar(d, '[', (if items.NoItems? then pad else PrintItems(items)) + close);
      if items.NoItems? {
        ScanBlank(d, pad, close);
      } else {
        ScanItems(d, items, close);
      }
      ScanChar(d, ']', rest);
    case Object(pad, members) =>
      var close := ['}'] + rest;
      assert Print(v) + rest == ['{'] + (PrintMembers(pad, members) + close);
      ScanChar(d, '{', PrintMembers(pad, members) + close);
      ScanMembers(d, pad, members, close);
      ScanChar(d, '}', rest);
  }

  lemma ScanScalar(d: Decoder, text: string, rest: string)
    requires IsScalar(text)
    ensures ImageScan(d, text + rest) == ImageScan(d, rest)
  {
    ScalarInert(text);
    ScanFlat(d, text, rest);
  }

  lemma {:induction false} ScanItems(d: Decoder, items: Items, rest: string)
    requires Faithful(d) && ItemsOk(items) && rest != [] && rest[0] in {']', '}'}
    ensures ImageScan(d, PrintItems(items) + rest) <==> ItemsHaveImage(d, items) || ImageScan(d, rest)
    decreases items
  {
    hide ImageScan, Blank, Print, ValueOk, NotColon, Faithful;
    match items
    case NoItems => assert PrintItems(items) + rest == rest;
    case Item(before, v, after, more) =>
      var tail := (if more.NoItems? then [] else [','] + PrintItems(more)) + rest;
      assert PrintItems(items) + rest == before + (Print(v) + (after + tail));
      ScanBlank(d, before, Print(v) + (after + tail));
      BlankThen(after, tail);
      ScanValue(d, v, after + tail);
      ScanBlank(d, after, tail);
      if !more.NoItems? {
        assert tail == [','] + (PrintItems(more) + rest);
        ScanChar(d, ',', PrintItems(more) + rest);
        ScanItems(d, more, rest);
      } else {
        assert tail == rest;
      }
  }

  lemma {:induction false} ScanMembers(d: Decoder, pad: string, members: Members, rest: string)
    requires Faithful(d) && Blank(pad) && MembersOk(members) && rest != [] && rest[0] in {']', '}'}
    ensures ImageScan(d, PrintMembers(pad, members) + rest) <==> MembersHaveImage(d, members) || ImageScan(d, rest)
    decreases members
  {
    hide ImageScan, Blank, Print, ValueOk, NotColon, Faithful, Quoted, PiecesOk, MemberAnnounces;
    match members
    case NoMembers => ScanBlank(d, pad, rest);
    case Member(before, key, gap, sep, v, after, more) =>
      var tail := (if more.NoMembers? then [] else [','] + PrintMembers([], more)) + rest;
      var fromValue := Print(v) + (after + tail);
      MemberText(pad, members, rest, fromValue, tail);
      ScanBlank(d, before, Quoted(key) + (gap + [':'] + sep + fromValue));
      ScanKey(d, key, gap, sep, v, after + tail);
      BlankThen(after, tail);
      ScanValue(d, v, after + tail);
      ScanBlank(d, after, tail);
      if !more.NoMembers? {
        assert tail == [','] + (PrintMembers([], more) + rest);
        ScanChar(d, ',', PrintMembers([], more) + rest);
        EmptyIsBlank();
        ScanMembers(d, [], more, rest);
      } else {
        assert tail == rest;
      }
  }

  lemma ScanKey(d: Decoder, key: seq<Piece>, gap: string, sep: string, v: Value, rest: string)
    requires Faithful(d) && PiecesOk(key) && Blank(gap) && Blank(sep) && ValueOk(v)
    ensures ImageScan(d, Quoted(key) + (gap + [':'] + sep + (Print(v) + rest)))
       <==> MemberAnnounces(d, key, v) || ImageScan(d, Print(v) + rest)
  {
    hide ImageScan, Blank, Print, ValueOk, Faithful, Quoted, PiecesOk, MemberAnnounces, Announces;
    var fromValue := Print(v) + rest;
    var behind := gap + [':'] + sep + fromValue;
    ScanString(d, key, behind);
    assert behind == gap + ([':'] + (sep + fromValue));
    BlankSkipped(gap, [':'] + (sep + fromValue));
    assert behind[|gap|+1..] == sep + fromValue;
    KeyAnnounces(d, key, sep, v, rest);
    ScanColon(d, gap, sep, fromValue);
  }

  /** On the raw span of any well-formed value the scan reports an image exactly when the tree has
      one, whatever the nesting, blanks and escapes. */
  lemma ImageFoundIff(d: Decoder, v: Value, after: string)
    requires Faithful(d) && ValueOk(v) && Blank(after)
    ensures ImageFound(d, Print(v) + Trail(v, after)) <==> TreeHasImage(d, v)
  {
    hide ImageScan, Gate, Print, ValueOk, Faithful;
    assert NotColon([]);
    ScanValue(d, v, []);
    assert Print(v) + [] == Print(v);
    if v.Scalar? {
      TrailingBlank(after);
      ScanValue(d, v, after);
      ScanBlank(d, after, []);
      assert after + [] == after;
    }
    NothingScanned(d);
    if TreeHasImage(d, v) {
      TreePassesGate(d, v);
    }
  }

  lemma TrailingBlank(s: string)
    requires Blank(s)
    ensures NotColon(s)
  {
    BlankSkipped(s, []);
    assert s + [] == s;
  }

  lemma NothingScanned(d: Decoder)
    ensures !ImageScan(d, [])
  {
  }

  // ----- the vision flag of a request -----

  /** Some member with a conversation key holds an image. */
  ghost predicate ConversationHasImage(d: Decoders, m: Members) {
    match m
    case NoMembers => false
    case Member(_, key, _, _, v, _, rest) => (InConversation(d, Quoted(key)) && TreeHasImage(d.text, v)) || ConversationHasImage(d, rest)
  }

  predicate InConversation(d: Decoders, raw: string) {
    Spells(d, raw, "messages") || Spells(d, raw, "contents") || Spells(d, raw, "input")
  }

  lemma {:induction false} ConversationFields(d: Decoders, m: Members, at: nat)
    requires Faithful(d.text) && MembersOk(m) && forall s :: d.image(s) == ImageFound(d.text, s)
    ensures AnySets(d, FieldsOf(m, at), Conversation) <==> ConversationHasImage(d, m)
    decreases m
  {
    hide Faithful, ImageFound, Spells, Print, Quoted, ValueOk, TreeHasImage;
    if m.Member? {
      MemberParts(m);
      ImageFoundIff(d.text, m.value, m.after);
      ConversationFields(d, m.rest, NextAt(m, at));
      SomeSplit(d, FieldsOf(m, at), Conversation);
      assert FieldsOf(m, at)[1..] == FieldsOf(m.rest, NextAt(m, at));
    }
  }

  /** A request needs vision exactly when one of its conversation members holds an image. */
  lemma VisionExact(d: Decoders, doc: Document)
    requires DocumentOk(doc) && Faithful(d.text) && (forall s :: d.image(s) == ImageFound(d.text, s))
    requires Inspected(d, doc).Ok?
    ensures doc.value.Object? && (Inspected(d, doc).value.flags.vision <==> ConversationHasImage(d, doc.value.members))
  {
    hide Faithful, ImageFound, Fold, Print, ConversationHasImage, FieldsOf, MembersOk, AnySets;
    ObjectParts(doc);
    ConversationFields(d, doc.value.members, |doc.before| + 1);
    FlagsMean(d, Scan(EMPTY, false), FieldsOf(doc.value.members, |doc.before| + 1));
  }
}
