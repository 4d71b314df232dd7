/**
 * String helpers the portal takes from JavaScript's `String` prototype:
 * `toLowerCase`, `includes`, `startsWith`, `endsWith`, `trim`, `split`,
 * and the decimal rendering of a number inside a template string.
 */
module Text {

  /** Upper-case letters the case fold knows: ASCII A-Z and the Polish capitals. */
  predicate IsUpper(c: char) {
    ('A' <= c <= 'Z') || c in "ĄĆĘŁŃÓŚŹŻ"
  }

  /** `toLowerCase` on one character, for ASCII and the Polish alphabet. */
  function LowerChar(c: char): char {
    if 'A' <= c <= 'Z' then (c as int + 32) as char
    else if c == 'Ą' then 'ą'
    else if c == 'Ć' then 'ć'
    else if c == 'Ę' then 'ę'
    else if c == 'Ł' then 'ł'
    else if c == 'Ń' then 'ń'
    else if c == 'Ó' then 'ó'
    else if c == 'Ś' then 'ś'
    else if c == 'Ź' then 'ź'
    else if c == 'Ż' then 'ż'
    else c
  }

  /** `s.toLowerCase()`. */
  function Lower(s: string): (r: string)
    ensures |r| == |s|
    ensures forall i :: 0 <= i < |s| ==> r[i] == LowerChar(s[i])
  {
    seq(|s|, i requires 0 <= i < |s| => LowerChar(s[i]))
  }

  /** The fold leaves no known capital behind and changes nothing else. */
  lemma LowerCharFolds(c: char)
    ensures !IsUpper(LowerChar(c))
    ensures !IsUpper(c) ==> LowerChar(c) == c
    ensures IsUpper(c) ==> LowerChar(c) != c
  {
  }

  lemma LowerIdempotent(s: string)
    ensures Lower(Lower(s)) == Lower(s)
  {
    forall i | 0 <= i < |s| ensures Lower(Lower(s))[i] == Lower(s)[i] {
      LowerCharFolds(s[i]);
    }
  }

  /** `s.startsWith(p)`. */
  predicate StartsWith(s: string, p: string) {
    |p| <= |s| && s[..|p|] == p
  }

  /** `s.endsWith(p)`. */
  predicate EndsWith(s: string, p: string) {
    |p| <= |s| && s[|s| - |p|..] == p
  }

  /** `t` occurs in `s` at position `i`. */
  ghost predicate OccursAt(s: string, t: string, i: int) {
    0 <= i && i + |t| <= |s| && s[i..i + |t|] == t
  }

  /** `s.includes(t)`: tries every start position from the left. */
  predicate Contains(s: string, t: string)
    decreases |s|
  {
    StartsWith(s, t) || (|s| > 0 && Contains(s[1..], t))
  }

  /** `Contains` is exactly "occurs at some position". */
  lemma ContainsIff(s: string, t: string)
    ensures Contains(s, t) <==> exists i :: OccursAt(s, t, i)
  {
    if Contains(s, t) {
      var i := ContainsWitness(s, t);
    }
    forall i | OccursAt(s, t, i) ensures Contains(s, t) {
      OccursContains(s, t, i);
    }
  }

  lemma {:induction false} ContainsWitness(s: string, t: string) returns (i: int)
    requires Contains(s, t)
    ensures OccursAt(s, t, i)
    decreases |s|
  {
    if StartsWith(s, t) {
      i := 0;
    } else {
      var j := ContainsWitness(s[1..], t);
      assert s[1..][j..j + |t|] == s[j + 1..j + 1 + |t|];
      i := j + 1;
    }
  }

  lemma {:induction false} OccursContains(s: string, t: string, i: int)
    requires OccursAt(s, t, i)
    ensures Contains(s, t)
    decreases |s|
  {
    if i > 0 {
      assert s[1..][i - 1..i - 1 + |t|] == s[i..i + |t|];
      OccursContains(s[1..], t, i - 1);
    }
  }

  /** Every string contains the empty string and itself. */
  lemma ContainsTrivial(s: string)
    ensures Contains(s, "") && Contains(s, s)
  {
    assert StartsWith(s, "");
    assert s[..|s|] == s;
  }

  /** A string that contains `t` is at least as long as `t`. */
  lemma {:induction false} ContainsLength(s: string, t: string)
    requires Contains(s, t)
    ensures |t| <= |s|
    decreases |s|
  {
    if !StartsWith(s, t) {
      ContainsLength(s[1..], t);
    }
  }

  /** `\s` of JavaScript regular expressions, which is also what `trim` removes. */
  predicate IsSpace(c: char) {
    c == ' ' || c == '\t' || c == '\n' || c == '\r' || c == '\U{B}' || c == '\U{C}'
    || c == '\U{A0}' || c == '\U{1680}' || ('\U{2000}' <= c <= '\U{200A}')
    || c == '\U{2028}' || c == '\U{2029}' || c == '\U{202F}' || c == '\U{205F}'
    || c == '\U{3000}' || c == '\U{FEFF}'
  }

  function TrimStart(s: string): (r: string)
    decreases |s|
  {
    if |s| > 0 && IsSpace(s[0]) then TrimStart(s[1..]) else s
  }

  function TrimEnd(s: string): (r: string)
    decreases |s|
  {
    if |s| > 0 && IsSpace(s[|s| - 1]) then TrimEnd(s[..|s| - 1]) else s
  }

  /** `s.trim()`. */
  function Trim(s: string): string {
    TrimEnd(TrimStart(s))
  }

  /** What `trimStart` cuts: the leading spaces, up to the first non-space. */
  lemma {:induction false} TrimStartCut(s: string) returns (k: nat)
    ensures k <= |s| && TrimStart(s) == s[k..]
    ensures forall i :: 0 <= i < k ==> IsSpace(s[i])
    ensures k < |s| ==> !IsSpace(s[k])
    decreases |s|
  {
    if |s| > 0 && IsSpace(s[0]) {
      var tail := s[1..];
      var m := TrimStartCut(tail);
      k := m + 1;
      assert tail[m..] == s[k..];
      forall i | 0 <= i < k ensures IsSpace(s[i]) {
        if i > 0 { assert s[i] == tail[i - 1]; }
      }
    } else {
      k := 0;
      assert s[0..] == s;
    }
  }

  /** What `trimEnd` cuts: the trailing spaces, back to the last non-space. */
  lemma {:induction false} TrimEndCut(s: string) returns (k: nat)
    ensures k <= |s| && TrimEnd(s) == s[..k]
    ensures forall i :: k <= i < |s| ==> IsSpace(s[i])
    ensures k > 0 ==> !IsSpace(s[k - 1])
    decreases |s|
  {
    if |s| > 0 && IsSpace(s[|s| - 1]) {
      var init := s[..|s| - 1];
      k := TrimEndCut(init);
      assert init[..k] == s[..k];
      forall i | k <= i < |s| ensures IsSpace(s[i]) {
        if i < |init| { assert s[i] == init[i]; }
      }
    } else {
      k := |s|;
      assert s[..|s|] == s;
    }
  }

  /** A string trims to nothing exactly when every character is a space. */
  lemma TrimEmptyIff(s: string)
    ensures Trim(s) == "" <==> forall i :: 0 <= i < |s| ==> IsSpace(s[i])
  {
    var k := TrimStartCut(s);
    var t := s[k..];
    var m := TrimEndCut(t);
    assert forall j :: 0 <= j < |t| ==> t[j] == s[k + j];
    if Trim(s) == "" {
      assert m == 0;
    } else {
      assert m > 0 && !IsSpace(s[k + m - 1]);
    }
  }

  /** The trimmed string is a slice of the original. */
  lemma TrimIsSlice(s: string) returns (i: nat, j: nat)
    ensures i <= j <= |s| && Trim(s) == s[i..j]
  {
    i := TrimStartCut(s);
    var t := s[i..];
    var m := TrimEndCut(t);
    j := i + m;
    assert t[..m] == s[i..j];
  }

  /** Spaces before a text that starts and ends with a non-space are trimmed
      away without touching it, whatever follows it. */
  lemma {:induction false} TrimKeepsPrefix(lead: string, p: string, rest: string)
    requires forall i :: 0 <= i < |lead| ==> IsSpace(lead[i])
    requires |p| > 0 && !IsSpace(p[0]) && !IsSpace(p[|p| - 1])
    ensures StartsWith(Trim(lead + p + rest), p)
    decreases |lead|
  {
    var s := lead + p + rest;
    if lead == [] {
      assert s == p + rest && s[0] == p[0];
      var k := TrimEndCut(s);
      assert s[|p| - 1] == p[|p| - 1];
      assert k >= |p|;
      assert Trim(s)[..|p|] == s[..|p|] == p;
    } else {
      TrimKeepsPrefix(lead[1..], p, rest);
      assert s[1..] == lead[1..] + p + rest;
    }
  }

  /** A string with a non-space character does not trim to "". */
  lemma TrimNonBlank(s: string, i: int)
    requires 0 <= i < |s| && !IsSpace(s[i])
    ensures Trim(s) != ""
  {
    TrimEmptyIff(s);
  }

  /** `s.split(d)` for a one-character separator: the pieces between the separators,
      "" included, so there is always at least one piece. */
  function Split(s: string, d: char): (r: seq<string>)
    ensures |r| >= 1
    decreases |s|
  {
    if |s| == 0 then [""]
    else if s[0] == d then [""] + Split(s[1..], d)
    else
      var t := Split(s[1..], d);
      [[s[0]] + t[0]] + t[1..]
  }

  /** `pieces.join(d)`. */
  function Join(pieces: seq<string>, d: char): string
    requires |pieces| >= 1
    decreases |pieces|
  {
    if |pieces| == 1 then pieces[0] else pieces[0] + [d] + Join(pieces[1..], d)
  }

  /** Splitting loses nothing: joining the pieces gives the string back. */
  lemma {:induction false} JoinOfSplit(s: string, d: char)
    ensures Join(Split(s, d), d) == s
    decreases |s|
  {
    if |s| == 0 {
    } else if s[0] == d {
      JoinOfSplit(s[1..], d);
      assert Split(s, d)[1..] == Split(s[1..], d);
      assert [d] + s[1..] == s;
    } else {
      JoinOfSplit(s[1..], d);
      var t := Split(s[1..], d);
      var r := Split(s, d);
      assert r[0] == [s[0]] + t[0];
      if |t| == 1 {
        assert Join(r, d) == [s[0]] + t[0] == [s[0]] + s[1..];
      } else {
        assert r[1..] == t[1..];
        assert Join(r, d) == [s[0]] + t[0] + [d] + Join(t[1..], d);
        assert Join(t, d) == t[0] + [d] + Join(t[1..], d);
      }
      assert [s[0]] + s[1..] == s;
    }
  }

  /** No piece of a split holds the separator. */
  lemma {:induction false} SplitPiecesLackSeparator(s: string, d: char)
    ensures forall k :: 0 <= k < |Split(s, d)| ==> d !in Split(s, d)[k]
    decreases |s|
  {
    if |s| == 0 {
    } else if s[0] == d {
      SplitPiecesLackSeparator(s[1..], d);
      assert Split(s, d)[1..] == Split(s[1..], d);
    } else {
      SplitPiecesLackSeparator(s[1..], d);
      var t := Split(s[1..], d);
      var r := Split(s, d);
      assert r[0] == [s[0]] + t[0];
      forall k | 0 <= k < |r| ensures d !in r[k] {
        if k > 0 { assert r[k] == t[k]; }
      }
    }
  }

  /** Both facts about a split together. */
  lemma SplitJoin(s: string, d: char)
    ensures Join(Split(s, d), d) == s
    ensures forall k :: 0 <= k < |Split(s, d)| ==> d !in Split(s, d)[k]
  {
    JoinOfSplit(s, d);
    SplitPiecesLackSeparator(s, d);
  }

  /** When `s` is `a + [d] + b` and `a` has no separator, the first piece is `a`
      and the pieces after it are those of `b`. */
  lemma {:induction false} SplitAtFirst(a: string, d: char, b: string)
    requires d !in a
    ensures Split(a + [d] + b, d) == [a] + Split(b, d)
    decreases |a|
  {
    var s := a + [d] + b;
    if |a| == 0 {
      assert s[0] == d && s[1..] == b;
    } else {
      assert s[0] == a[0] && s[1..] == a[1..] + [d] + b;
      SplitAtFirst(a[1..], d, b);
      assert [a[0]] + a[1..] == a;
    }
  }

  /** Joining pieces that hold no separator and splitting again gives the
      pieces back. */
  lemma {:induction false} JoinSplit(pieces: seq<string>, d: char)
    requires |pieces| >= 1
    requires forall k :: 0 <= k < |pieces| ==> d !in pieces[k]
    ensures Split(Join(pieces, d), d) == pieces
    decreases |pieces|
  {
    if |pieces| == 1 {
      SplitNoSeparator(pieces[0], d);
    } else {
      JoinSplit(pieces[1..], d);
      SplitAtFirst(pieces[0], d, Join(pieces[1..], d));
      assert [pieces[0]] + pieces[1..] == pieces;
    }
  }

  /** A string without the separator is a single piece. */
  lemma {:induction false} SplitNoSeparator(s: string, d: char)
    requires d !in s
    ensures Split(s, d) == [s]
    decreases |s|
  {
    if |s| > 0 {
      SplitNoSeparator(s[1..], d);
      assert [s[0]] + s[1..] == s;
    }
  }

  /** The text before the first `d` (all of `s` when there is none): `s.split(d)[0]`. */
  function BeforeFirst(s: string, d: char): (r: string)
    ensures |r| <= |s| && d !in r && r == s[..|r|]
    ensures |r| < |s| ==> s[|r|] == d
    decreases |s|
  {
    if |s| == 0 || s[0] == d then "" else [s[0]] + BeforeFirst(s[1..], d)
  }

  /** `BeforeFirst` is the first piece of the split. */
  lemma {:induction false} BeforeFirstIsFirstPiece(s: string, d: char)
    ensures Split(s, d)[0] == BeforeFirst(s, d)
    decreases |s|
  {
    if |s| > 0 && s[0] != d {
      BeforeFirstIsFirstPiece(s[1..], d);
    }
  }

  /** A string holding the separator is the text before its first copy, the
      separator and the rest; the split goes on with the rest. */
  lemma CutAtFirst(s: string, d: char) returns (after: string)
    requires d in s
    ensures s == BeforeFirst(s, d) + [d] + after
    ensures Split(s, d) == [BeforeFirst(s, d)] + Split(after, d)
  {
    var name := BeforeFirst(s, d);
    after := s[|name| + 1..];
    assert s == s[..|name|] + [s[|name|]] + after;
    SplitAtFirst(name, d, after);
  }

  /** The second piece of a split that has one: the text between the first
      and the second separator. */
  lemma SecondPiece(s: string, d: char) returns (name: string, rest: string)
    requires d in s
    ensures |Split(s, d)| >= 2
    ensures s == name + [d] + Split(s, d)[1] + rest
    ensures d !in name && (rest == [] || rest[0] == d)
  {
    name := BeforeFirst(s, d);
    var after := CutAtFirst(s, d);
    var v := BeforeFirst(after, d);
    rest := after[|v|..];
    assert Split(s, d)[1] == v by {
      BeforeFirstIsFirstPiece(after, d);
    }
    PiecesRegroup(s, name + [d], after, v, rest);
  }

  /** Regrouping `head + (v + rest)` as `head + v + rest`. */
  lemma PiecesRegroup(s: string, head: string, after: string, v: string, rest: string)
    requires s == head + after && |v| <= |after| && v == after[..|v|] && rest == after[|v|..]
    ensures s == head + v + rest
  {
    assert after == v + rest;
  }

  function DigitChar(d: nat): char
    requires d < 10
  {
    "0123456789"[d]
  }

  /** `String(n)` for a natural number: decimal, no leading zeros. */
  function NatToString(n: nat): (s: string)
    ensures |s| >= 1
    decreases n
  {
    if n < 10 then [DigitChar(n)] else NatToString(n / 10) + [DigitChar(n % 10)]
  }

  /** Reads a string of decimal digits back into the number it spells. */
  function DigitsValue(s: string): nat
    decreases |s|
  {
    if |s| == 0 then 0
    else DigitsValue(s[..|s| - 1]) * 10 + DigitValue(s[|s| - 1])
  }

  function DigitValue(c: char): nat {
    if '0' <= c <= '9' then c as int - '0' as int else 0
  }

  /** Round trip: reading the rendered number gives the number back. */
  lemma {:induction false} NatToStringRoundTrip(n: nat)
    ensures DigitsValue(NatToString(n)) == n
    decreases n
  {
    var s := NatToString(n);
    if n >= 10 {
      NatToStringRoundTrip(n / 10);
      assert s[..|s| - 1] == NatToString(n / 10);
    }
  }

  /** Two numbers render to the same text only if they are equal. */
  lemma NatToStringInjective(a: nat, b: nat)
    requires NatToString(a) == NatToString(b)
    ensures a == b
  {
    NatToStringRoundTrip(a);
    NatToStringRoundTrip(b);
  }

  /** Three-digit numbers render to three characters. */
  lemma ThreeDigits(n: nat)
    requires 100 <= n <= 999
    ensures |NatToString(n)| == 3
  {
    var q := n / 10;
    assert 10 <= q < 100;
    assert |NatToString(q / 10)| == 1 by { assert q / 10 < 10; }
  }
}
