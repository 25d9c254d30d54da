/** The byte scanner: blanks, string ends and value ends. */
module Scanner {
  import opened Json

  // ----- what the scanner should do, on the text that is left -----

  function SpaceLen(s: string): (n: nat)
    ensures n <= |s| && Blank(s[..n]) && (n < |s| ==> !IsSpace(s[n]))
  {
    if s == [] || !IsSpace(s[0]) then 0
    else
      var n := SpaceLen(s[1..]);
      assert s[..n+1] == [s[0]] + s[1..][..n];
      n + 1
  }

  /** The forward escape automaton: the length up to and including the closing quote, or all of it
      when the string does not close. */
  function Closing(s: string): (n: nat)
    ensures n <= |s|
  {
    if s == [] then 0
    else if s[0] == '"' then 1
    else if s[0] != '\\' then 1 + Closing(s[1..])
    else if |s| == 1 then 1
    else 2 + Closing(s[2..])
  }

  function StringLen(s: string): (n: nat)
    requires s != []
    ensures 1 <= n <= |s|
  {
    1 + Closing(s[1..])
  }

  /** The depth scan that finds the end of a value. */
  function DepthLen(s: string, depth: nat): (n: nat)
    ensures n <= |s|
  {
    if s == [] then 0
    else if s[0] == '"' then StringLen(s) + DepthLen(s[StringLen(s)..], depth)
    else if s[0] == '[' || s[0] == '{' then 1 + DepthLen(s[1..], depth + 1)
    else if s[0] == ']' || s[0] == '}' then
      if depth == 0 then 0 else if depth == 1 then 1 else 1 + DepthLen(s[1..], depth - 1)
    else if s[0] == ',' && depth == 0 then 0
    else 1 + DepthLen(s[1..], depth)
  }

  function ValueLen(s: string): (n: nat)
    requires s != []
    ensures n <= |s|
  {
    if s[0] == '"' then StringLen(s) else DepthLen(s, 0)
  }

  // ----- the backward parity test agrees with the forward automaton -----

  /** Whether the automaton is inside an escape after `s`. */
  function Escaped(s: string): bool {
    s != [] && s[|s|-1] == '\\' && !Escaped(s[..|s|-1])
  }

  function TrailingSlashes(s: string): nat {
    if s == [] || s[|s|-1] != '\\' then 0 else 1 + TrailingSlashes(s[..|s|-1])
  }

  lemma {:induction false} ParityIsEscape(s: string)
    ensures Escaped(s) <==> TrailingSlashes(s) % 2 == 1
  {
    if s != [] && s[|s|-1] == '\\' {
      ParityIsEscape(s[..|s|-1]);
    }
  }

  /** Running the automaton over a prefix without quotes. */
  lemma {:induction false} ClosingAfter(s: string, n: nat)
    requires n <= |s| && forall k :: 0 <= k < n ==> s[k] != '"'
    ensures Escaped(s[..n]) && n < |s| ==> Closing(s) == n + 1 + Closing(s[n+1..])
    ensures Escaped(s[..n]) && n == |s| ==> Closing(s) == n
    ensures !Escaped(s[..n]) ==> Closing(s) == n + Closing(s[n..])
  {
    if n > 0 {
      ClosingAfter(s, n - 1);
      assert s[..n][..n-1] == s[..n-1];
      if n < |s| {
        assert s[n-1..][1..] == s[n..] && s[n-1..][2..] == s[n+1..];
      }
    }
  }

  // ----- the loops -----

  method Space(b: string, i: nat) returns (j: nat)
    requires i <= |b|
    ensures j == i + SpaceLen(b[i..])
  {
    j := i;
    while j < |b| && IsSpace(b[j])
      invariant i <= j <= |b| && j + SpaceLen(b[j..]) == i + SpaceLen(b[i..])
    {
      assert b[j..][1..] == b[j+1..];
      j := j + 1;
    }
  }

  /** Position of the next quote, if any. */
  method NextQuote(b: string, i: nat) returns (q: nat)
    requires i <= |b|
    ensures i <= q <= |b| && (q < |b| ==> b[q] == '"') && forall k :: i <= k < q ==> b[k] != '"'
  {
    q := i;
    while q < |b| && b[q] != '"'
      invariant i <= q <= |b| && forall k :: i <= k < q ==> b[k] != '"'
    {
      q := q + 1;
    }
  }

  method CountSlashes(b: string, i: nat, end: nat) returns (n: nat)
    requires i <= end <= |b|
    ensures n == TrailingSlashes(b[i..end])
  {
    n := 0;
    var j := end;
    while j > i && b[j-1] == '\\'
      invariant i <= j <= end && n + TrailingSlashes(b[i..j]) == TrailingSlashes(b[i..end])
    {
      assert b[i..j][..j-1-i] == b[i..j-1];
      n, j := n + 1, j - 1;
    }
  }

  /** Jump from quote to quote, counting backslashes backwards. On every input, closed or not, the
      result is that of the forward automaton. */
  method StringEnd(b: string, start: nat) returns (end: nat)
    requires start < |b|
    ensures end == start + StringLen(b[start..])
  {
    hide Closing, TrailingSlashes;
    var i := start + 1;
    assert b[start..][1..] == b[i..];
    NoClosing();
    while i < |b|
      invariant start < i <= |b| && i + Closing(b[i..]) == start + StringLen(b[start..])
    {
      var q := NextQuote(b, i);
      QuoteDecides(b, i, q);
      if q == |b| {
        return |b|;
      }
      var backslashes := CountSlashes(b, i, q);
      if backslashes % 2 == 0 {
        return q + 1;
      }
      i := q + 1;
    }
    assert b[i..] == [];
    end := i;
  }

  lemma NoClosing()
    ensures Closing([]) == 0
  {
  }

  /** What the next quote means for the automaton, by the parity of the backslashes before it. */
  lemma QuoteDecides(b: string, i: nat, q: nat)
    requires i <= q <= |b| && (q < |b| ==> b[q] == '"') && forall k :: i <= k < q ==> b[k] != '"'
    ensures q == |b| ==> i + Closing(b[i..]) == |b|
    ensures q < |b| ==> i + Closing(b[i..]) == q + 1 + if TrailingSlashes(b[i..q]) % 2 == 0 then 0 else Closing(b[q+1..])
  {
    hide TrailingSlashes, Escaped;
    var s, n := b[i..], q - i;
    assert forall k :: 0 <= k < n ==> s[k] == b[i+k];
    ClosingAfter(s, n);
    ParityIsEscape(b[i..q]);
    assert s[..n] == b[i..q];
    if q < |b| {
      assert s[n..] == b[q..] && s[n+1..] == b[q+1..];
      QuoteCloses(b[q..]);
    } else {
      assert s[n..] == [];
    }
  }

  lemma QuoteCloses(s: string)
    requires s != [] && s[0] == '"'
    ensures Closing(s) == 1
  {
  }

  method ValueEnd(b: string, start: nat) returns (end: nat)
    requires start < |b|
    ensures end == start + ValueLen(b[start..])
  {
    if b[start] == '"' {
      end := StringEnd(b, start);
      return;
    }
    var i, depth := start, 0;
    while i < |b|
      invariant start <= i <= |b| && depth >= 0
      invariant i + DepthLen(b[i..], depth) == start + ValueLen(b[start..])
    {
      assert b[i..][1..] == b[i+1..];
      if b[i] == '"' {
        var next := StringEnd(b, i);
        assert b[i..][next-i..] == b[next..];
        i := next;
        continue;
      }
      if b[i] == '[' || b[i] == '{' {
        depth := depth + 1;
      } else if b[i] == ']' || b[i] == '}' {
        if depth == 0 {
          return i;
        }
        depth := depth - 1;
        if depth == 0 {
          return i + 1;
        }
      } else if b[i] == ',' && depth == 0 {
        return i;
      }
      i := i + 1;
    }
    end := i;
  }
}
