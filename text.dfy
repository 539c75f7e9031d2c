/**
 * The parts of Go's `strings` package that the decoding core relies on,
 * written out with Go's edge cases: `strings.Split` returns `[""]` for an
 * empty input and one piece per character for an empty separator,
 * `strings.IndexByte` gives -1 when the byte is absent, and
 * `strings.TrimSpace` trims Unicode white space.
 */
module Text {

  /** `sep` occurs in `s` at position `j`. */
  predicate OccursAt(s: string, sep: string, j: int) {
    0 <= j && j + |sep| <= |s| && s[j..j + |sep|] == sep
  }

  /** `s` contains `sep` somewhere. */
  ghost predicate Contains(s: string, sep: string) {
    exists j :: OccursAt(s, sep, j)
  }

  /** `strings.Index`: the first position where `sep` occurs in `s`, or -1. */
  function IndexOf(s: string, sep: string): (r: int)
    requires sep != []
    ensures r == -1 || 0 <= r <= |s| - |sep|
    ensures r >= 0 ==> OccursAt(s, sep, r)
    ensures forall j :: 0 <= j && (r < 0 || j < r) ==> !OccursAt(s, sep, j)
    decreases |s|
  {
    if |s| < |sep| then -1
    else if s[..|sep|] == sep then 0
    else
      var k := IndexOf(s[1..], sep);
      assert forall j :: 1 <= j ==> (OccursAt(s, sep, j) <==> OccursAt(s[1..], sep, j - 1)) by {
        forall j | 1 <= j
          ensures OccursAt(s, sep, j) <==> OccursAt(s[1..], sep, j - 1)
        {
          if j + |sep| <= |s| {
            assert s[1..][j - 1..j - 1 + |sep|] == s[j..j + |sep|];
          }
        }
      }
      if k < 0 then -1 else k + 1
  }

  /** Go's `strings.Split` on an empty separator: one piece per character. */
  function Explode(s: string): (r: seq<string>)
    ensures |r| == |s|
    ensures forall i :: 0 <= i < |s| ==> r[i] == [s[i]]
  {
    seq(|s|, i requires 0 <= i < |s| => [s[i]])
  }

  /** Go's `strings.Split(s, sep)`. */
  function Split(s: string, sep: string): (r: seq<string>)
    ensures sep != [] ==> |r| >= 1
    decreases |s|
  {
    if sep == [] then Explode(s)
    else
      var i := IndexOf(s, sep);
      if i < 0 then [s] else [s[..i]] + Split(s[i + |sep|..], sep)
  }

  /** Go's `strings.Join(pieces, sep)`. */
  function Join(pieces: seq<string>, sep: string): string {
    if |pieces| == 0 then []
    else if |pieces| == 1 then pieces[0]
    else pieces[0] + sep + Join(pieces[1..], sep)
  }

  /** Splitting on a non-empty separator loses nothing: joining the pieces restores the input. */
  lemma {:induction false} SplitJoin(s: string, sep: string)
    requires sep != []
    ensures Join(Split(s, sep), sep) == s
    decreases |s|
  {
    var i := IndexOf(s, sep);
    if i >= 0 {
      var rest := s[i + |sep|..];
      SplitJoin(rest, sep);
      var t := Split(rest, sep);
      SplitFound(s, sep);
      JoinCons(s[..i], t, sep);
      Reassemble(s, sep, i);
    }
  }

  /** One step of `Split` when the separator occurs. */
  lemma SplitFound(s: string, sep: string)
    requires sep != [] && IndexOf(s, sep) >= 0
    ensures Split(s, sep) == [s[..IndexOf(s, sep)]] + Split(s[IndexOf(s, sep) + |sep|..], sep)
  {
  }

  lemma Reassemble(s: string, sep: string, i: int)
    requires OccursAt(s, sep, i)
    ensures s[..i] + sep + s[i + |sep|..] == s
  {
    assert s == s[..i] + s[i..i + |sep|] + s[i + |sep|..];
  }

  lemma JoinCons(a: string, t: seq<string>, sep: string)
    requires |t| >= 1
    ensures Join([a] + t, sep) == a + sep + Join(t, sep)
  {
    assert ([a] + t)[1..] == t;
  }

  /** No piece of a split contains the separator. */
  lemma {:induction false} SplitPiecesAvoidSeparator(s: string, sep: string)
    requires sep != []
    ensures forall p :: p in Split(s, sep) ==> !Contains(p, sep)
    decreases |s|
  {
    var i := IndexOf(s, sep);
    if i >= 0 {
      var rest := s[i + |sep|..];
      SplitPiecesAvoidSeparator(rest, sep);
      SplitFound(s, sep);
      forall j | OccursAt(s[..i], sep, j) ensures false {
        assert s[..i][j..j + |sep|] == s[j..j + |sep|];
        assert OccursAt(s, sep, j);
      }
      forall p | p in Split(s, sep) ensures !Contains(p, sep) {
        if p != s[..i] {
          assert p in Split(rest, sep);
        }
      }
    } else {
      assert Split(s, sep) == [s];
    }
  }

  /** Number of occurrences of the character `c` in `s`. */
  function Count(s: string, c: char): nat {
    if s == [] then 0 else (if s[0] == c then 1 else 0) + Count(s[1..], c)
  }

  lemma {:induction false} CountAppend(a: string, b: string, c: char)
    ensures Count(a + b, c) == Count(a, c) + Count(b, c)
  {
    if a == [] {
      assert a + b == b;
    } else {
      CountAppend(a[1..], b, c);
      assert (a + b)[0] == a[0];
      assert (a + b)[1..] == a[1..] + b;
    }
  }

  lemma {:induction false} CountAbsent(s: string, c: char)
    requires forall j :: 0 <= j < |s| ==> s[j] != c
    ensures Count(s, c) == 0
  {
    if s != [] {
      CountAbsent(s[1..], c);
    }
  }

  /** Splitting on one character gives one more piece than there are occurrences of it. */
  lemma {:induction false} SplitCharCount(s: string, c: char)
    ensures |Split(s, [c])| == Count(s, c) + 1
    decreases |s|
  {
    var i := IndexOf(s, [c]);
    if i < 0 {
      forall j | 0 <= j < |s| ensures s[j] != c {
        assert !OccursAt(s, [c], j);
        assert s[j..j + 1] == [s[j]];
      }
      CountAbsent(s, c);
    } else {
      var rest := s[i + 1..];
      SplitCharCount(rest, c);
      forall j | 0 <= j < i ensures s[..i][j] != c {
        assert !OccursAt(s, [c], j);
        assert s[j..j + 1] == [s[j]];
      }
      CountAbsent(s[..i], c);
      assert s[i..i + 1] == [c];
      assert s == s[..i] + [c] + rest;
      CountAppend(s[..i], [c], c);
      CountAppend(s[..i] + [c], rest, c);
    }
  }

  /** `strings.IndexByte(s, c)`: the first position of `c` in `s`, or -1. */
  function IndexByte(s: string, c: char): (r: int)
    ensures -1 <= r < |s|
    ensures r >= 0 ==> s[r] == c
    ensures forall j :: 0 <= j < |s| && (r < 0 || j < r) ==> s[j] != c
  {
    if s == [] then -1
    else if s[0] == c then 0
    else
      var k := IndexByte(s[1..], c);
      if k < 0 then -1 else k + 1
  }

  /** `prefix` is a prefix of `s`. */
  predicate HasPrefix(s: string, prefix: string) {
    |prefix| <= |s| && s[..|prefix|] == prefix
  }

  /** `unicode.IsSpace`: the characters Go's `strings.TrimSpace` removes. */
  predicate IsSpace(c: char) {
    c == '\t' || c == '\n' || c == '\U{0B}' || c == '\U{0C}' || c == '\r' || c == ' '
    || c == '\U{85}' || c == '\U{A0}' || c == '\U{1680}'
    || ('\U{2000}' <= c <= '\U{200A}')
    || c == '\U{2028}' || c == '\U{2029}' || c == '\U{202F}' || c == '\U{205F}' || c == '\U{3000}'
  }

  function TrimLeft(s: string): (r: string)
    ensures |r| <= |s| && r == s[|s| - |r|..]
    ensures r == [] || !IsSpace(r[0])
    ensures forall j :: 0 <= j < |s| - |r| ==> IsSpace(s[j])
  {
    if s != [] && IsSpace(s[0]) then TrimLeft(s[1..]) else s
  }

  function TrimRight(s: string): (r: string)
    ensures |r| <= |s| && r == s[..|r|]
    ensures r == [] || !IsSpace(r[|r| - 1])
    ensures forall j :: |r| <= j < |s| ==> IsSpace(s[j])
  {
    if s != [] && IsSpace(s[|s| - 1]) then TrimRight(s[..|s| - 1]) else s
  }

  /** `r` is `s[i..j]`, and everything of `s` outside `[i, j)` is white space. */
  ghost predicate TrimmedSlice(s: string, r: string, i: int, j: int) {
    0 <= i <= j <= |s| && r == s[i..j] && forall k :: 0 <= k < i || j <= k < |s| ==> IsSpace(s[k])
  }

  /** `strings.TrimSpace`: `s` without leading and trailing white space. */
  function TrimSpace(s: string): (r: string)
    ensures r == [] || (!IsSpace(r[0]) && !IsSpace(r[|r| - 1]))
    ensures exists i, j :: TrimmedSlice(s, r, i, j)
  {
    var l := TrimLeft(s);
    var r := TrimRight(l);
    TrimSpaceSpan(s, l, r);
    r
  }

  /** Cutting white space from the left (`l`) and then from the right (`r`) leaves a slice of `s`. */
  lemma TrimSpaceSpan(s: string, l: string, r: string)
    requires |l| <= |s| && l == s[|s| - |l|..] && forall k :: 0 <= k < |s| - |l| ==> IsSpace(s[k])
    requires |r| <= |l| && r == l[..|r|] && forall k :: |r| <= k < |l| ==> IsSpace(l[k])
    requires (l == [] || !IsSpace(l[0])) && (r == [] || !IsSpace(r[|r| - 1]))
    ensures r == [] || (!IsSpace(r[0]) && !IsSpace(r[|r| - 1]))
    ensures TrimmedSlice(s, r, |s| - |l|, |s| - |l| + |r|)
  {
    assert r != [] ==> r[0] == l[0];
    var i := |s| - |l|;
    var j := i + |r|;
    assert r == s[i..j];
    forall k | j <= k < |s|
      ensures IsSpace(s[k])
    {
      assert s[k] == l[k - i];
    }
  }

  predicate IsAsciiUpper(c: char) { 'A' <= c <= 'Z' }
  predicate IsAsciiLower(c: char) { 'a' <= c <= 'z' }
  predicate IsAsciiDigit(c: char) { '0' <= c <= '9' }
  predicate IsAsciiAlnum(c: char) { IsAsciiUpper(c) || IsAsciiLower(c) || IsAsciiDigit(c) }

  function UpperChar(c: char): char {
    if IsAsciiLower(c) then (c as int - 32) as char else c
  }

  function LowerChar(c: char): char {
    if IsAsciiUpper(c) then (c as int + 32) as char else c
  }

  /** `strings.ToLower`, on the ASCII letters. */
  function ToLower(s: string): (r: string)
    ensures |r| == |s|
    ensures forall j :: 0 <= j < |r| ==> r[j] == LowerChar(s[j])
  {
    seq(|s|, j requires 0 <= j < |s| => LowerChar(s[j]))
  }

  /** The separator test of Go's `strings.Title`: ASCII letters, digits and `_` are not separators, other ASCII is; beyond ASCII only white space is. */
  predicate IsSeparator(c: char) {
    if c as int <= 0x7F then !(IsAsciiAlnum(c) || c == '_') else IsSpace(c)
  }

  /** `strings.Title` with the previous character's separator status given. */
  function TitleFrom(s: string, afterSeparator: bool): (r: string)
    ensures |r| == |s|
  {
    if s == [] then []
    else [if afterSeparator then UpperChar(s[0]) else s[0]] + TitleFrom(s[1..], IsSeparator(s[0]))
  }

  /** Character by character: `Title` upper-cases exactly the characters that follow a separator. */
  lemma {:induction false} TitleChars(s: string, afterSeparator: bool)
    ensures s != [] ==> TitleFrom(s, afterSeparator)[0] == if afterSeparator then UpperChar(s[0]) else s[0]
    ensures forall j :: 0 < j < |s| ==> TitleFrom(s, afterSeparator)[j] == if IsSeparator(s[j - 1]) then UpperChar(s[j]) else s[j]
  {
    if s != [] {
      var t := TitleFrom(s[1..], IsSeparator(s[0]));
      TitleChars(s[1..], IsSeparator(s[0]));
      assert TitleFrom(s, afterSeparator)[1..] == t;
      forall j | 1 < j < |s|
        ensures TitleFrom(s, afterSeparator)[j] == if IsSeparator(s[j - 1]) then UpperChar(s[j]) else s[j]
      {
        assert t[j - 1] == if IsSeparator(s[1..][j - 2]) then UpperChar(s[1..][j - 1]) else s[1..][j - 1];
      }
    }
  }

  /** `strings.Title`: every letter that starts a word is upper-cased. */
  function Title(s: string): (r: string)
    ensures |r| == |s|
    ensures s != [] ==> r[0] == UpperChar(s[0])
  {
    TitleFrom(s, true)
  }

  /** `strings.ReplaceAll(s, string(a), string(b))` for single characters. */
  function ReplaceChar(s: string, a: char, b: char): (r: string)
    ensures |r| == |s|
    ensures forall j :: 0 <= j < |s| ==> r[j] == if s[j] == a then b else s[j]
  {
    seq(|s|, j requires 0 <= j < |s| => if s[j] == a then b else s[j])
  }

  /** `strings.ReplaceAll(s, string(a), "")`. */
  function RemoveChar(s: string, a: char): string {
    if s == [] then [] else (if s[0] == a then [] else [s[0]]) + RemoveChar(s[1..], a)
  }

  /** `RemoveChar` leaves no `a` behind, and removes no other character. */
  lemma {:induction false} RemoveCharSpec(s: string, a: char, c: char)
    ensures c in RemoveChar(s, a) <==> c in s && c != a
  {
    if s != [] {
      RemoveCharSpec(s[1..], a, c);
      assert s == [s[0]] + s[1..];
    }
  }
}
