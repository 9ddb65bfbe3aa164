/** String helpers with Python's meaning: ASCII case mapping, `isalnum`,
    `isspace`, substring search (`in`), stripping one character, joining,
    whitespace splitting, and the order Python uses to compare `str` values. */
module Text {

  predicate IsLowerLetter(c: char) { 'a' <= c <= 'z' }
  predicate IsUpperLetter(c: char) { 'A' <= c <= 'Z' }
  predicate IsDigit(c: char) { '0' <= c <= '9' }

  /** `str.isalnum` restricted to ASCII. */
  predicate IsAlnum(c: char) { IsLowerLetter(c) || IsUpperLetter(c) || IsDigit(c) }

  /** `str.isspace`: the characters Python treats as whitespace. */
  predicate IsSpace(c: char)
  {
    ('\U{0009}' <= c <= '\U{000D}') || ('\U{001C}' <= c <= '\U{0020}')
    || c == '\U{0085}' || c == '\U{00A0}' || c == '\U{1680}'
    || ('\U{2000}' <= c <= '\U{200A}') || c == '\U{2028}' || c == '\U{2029}'
    || c == '\U{202F}' || c == '\U{205F}' || c == '\U{3000}'
  }

  function UpperChar(c: char): char
  {
    if IsLowerLetter(c) then (c as int - 32) as char else c
  }

  function LowerChar(c: char): char
  {
    if IsUpperLetter(c) then (c as int + 32) as char else c
  }

  /** `str.upper` on ASCII letters. */
  function Upper(s: string): (r: string)
    ensures |r| == |s|
    ensures forall i :: 0 <= i < |s| ==> r[i] == UpperChar(s[i])
  {
    if s == [] then [] else [UpperChar(s[0])] + Upper(s[1..])
  }

  /** `str.lower` on ASCII letters. */
  function Lower(s: string): (r: string)
    ensures |r| == |s|
    ensures forall i :: 0 <= i < |s| ==> r[i] == LowerChar(s[i])
  {
    if s == [] then [] else [LowerChar(s[0])] + Lower(s[1..])
  }

  /** Upper-casing ignores the case the input was written in. */
  lemma UpperOfLower(s: string)
    ensures Upper(Lower(s)) == Upper(s)
  {
    assert forall i :: 0 <= i < |s| ==> Upper(Lower(s))[i] == Upper(s)[i];
  }

  /** Upper-casing leaves a string without lower-case letters unchanged. */
  lemma UpperIdentity(s: string)
    requires forall c :: c in s ==> !IsLowerLetter(c)
    ensures Upper(s) == s
  {
    assert forall i :: 0 <= i < |s| ==> s[i] in s;
  }

  /** Python's `sub in s` for strings. */
  predicate Contains(s: string, sub: string)
  {
    exists i | 0 <= i <= |s| :: OccursAt(s, sub, i)
  }

  /** `sub` occurs in `s` starting at index `i`. */
  predicate OccursAt(s: string, sub: string, i: int)
  {
    0 <= i && i + |sub| <= |s| && s[i..i + |sub|] == sub
  }

  /** `s.rstrip(c)`: drops every trailing `c`. */
  function TrimRight(s: string, c: char): (r: string)
    ensures |r| <= |s| && r == s[..|r|]
    ensures r == [] || r[|r| - 1] != c
    ensures forall i :: |r| <= i < |s| ==> s[i] == c
  {
    if s != [] && s[|s| - 1] == c then TrimRight(s[..|s| - 1], c) else s
  }

  /** `s.lstrip(c)`: drops every leading `c`. */
  function TrimLeft(s: string, c: char): (r: string)
    ensures |r| <= |s| && r == s[|s| - |r|..]
    ensures r == [] || r[0] != c
    ensures forall i :: 0 <= i < |s| - |r| ==> s[i] == c
  {
    if s != [] && s[0] == c then TrimLeft(s[1..], c) else s
  }

  /** `sep.join(parts)`. */
  function Join(sep: string, parts: seq<string>): string
  {
    if parts == [] then ""
    else if |parts| == 1 then parts[0]
    else parts[0] + sep + Join(sep, parts[1..])
  }

  /** Joining one more part appends the separator and the part. */
  lemma {:induction false} JoinAppend(sep: string, parts: seq<string>, p: string)
    ensures Join(sep, parts + [p]) == if parts == [] then p else Join(sep, parts) + sep + p
  {
    if |parts| == 1 {
      assert parts + [p] == [parts[0], p];
    } else if |parts| > 1 {
      assert (parts + [p])[1..] == parts[1..] + [p];
      JoinAppend(sep, parts[1..], p);
    }
  }

  /** `s.split(c)`: the pieces between occurrences of `c`, so always one
      more piece than `s` has separators. */
  function Split(s: string, c: char): (r: seq<string>)
    ensures |r| >= 1
    ensures forall p :: p in r ==> c !in p
  {
    if s == [] then [""]
    else
      var rest := Split(s[1..], c);
      if s[0] == c then [""] + rest
      else [[s[0]] + rest[0]] + rest[1..]
  }

  /** Joining the pieces of a split with the separator gives back the string. */
  lemma {:induction false} JoinOfSplit(s: string, c: char)
    ensures Join([c], Split(s, c)) == s
  {
    if s != [] {
      var rest := Split(s[1..], c);
      JoinOfSplit(s[1..], c);
      if s[0] == c {
        assert Join([c], Split(s, c)) == "" + [c] + Join([c], rest);
        assert s == [s[0]] + s[1..];
      } else {
        var r := [[s[0]] + rest[0]] + rest[1..];
        if |rest| == 1 {
          assert Join([c], r) == [s[0]] + rest[0];
        } else {
          assert r[1..] == rest[1..];
          assert Join([c], rest) == rest[0] + [c] + Join([c], rest[1..]);
          assert Join([c], r) == [s[0]] + rest[0] + [c] + Join([c], rest[1..]);
        }
        assert s == [s[0]] + s[1..];
      }
    }
  }

  /** `s.replace(c, r)` for a single character `c`. */
  function ReplaceChar(s: string, c: char, r: string): (t: string)
    ensures c !in r ==> c !in t
    ensures c !in s ==> t == s
  {
    if s == [] then []
    else (if s[0] == c then r else [s[0]]) + ReplaceChar(s[1..], c, r)
  }

  /** `s.split()` for a string whose only whitespace is the space character:
      the maximal runs of non-space characters, in order. */
  function Words(s: string): (r: seq<string>)
    ensures forall w :: w in r ==> w != [] && ' ' !in w
    ensures forall w, c :: w in r && c in w ==> c in s
    decreases |s|
  {
    if s == [] then []
    else if s[0] == ' ' then
      var r := Words(s[1..]);
      assert forall c :: c in s[1..] ==> c in s;
      r
    else
      var n := RunLength(s);
      var rest := Words(s[n..]);
      assert forall c :: c in s[n..] ==> c in s;
      assert forall c :: c in s[..n] ==> c in s;
      [s[..n]] + rest
  }

  /** Length of the run of non-space characters that starts `s`. */
  function RunLength(s: string): (n: nat)
    ensures n <= |s|
    ensures forall i :: 0 <= i < n ==> s[i] != ' '
    ensures n == |s| || s[n] == ' '
  {
    if s == [] || s[0] == ' ' then 0 else 1 + RunLength(s[1..])
  }

  /** Words of a space-joined pair are the words of each side. */
  lemma {:induction false} WordsOfJoin(a: string, b: string)
    ensures Words(a + " " + b) == Words(a) + Words(b)
    decreases |a|
  {
    if a == [] {
      assert a + " " + b == [' '] + b;
      assert (a + " " + b)[1..] == b;
    } else if a[0] == ' ' {
      assert (a + " " + b)[1..] == a[1..] + " " + b;
      WordsOfJoin(a[1..], b);
    } else {
      var s := a + " " + b;
      var n := RunLength(a);
      RunLengthOfJoin(a, b);
      assert s[..n] == a[..n];
      assert s[n..] == a[n..] + " " + b;
      if n < |a| {
        WordsOfJoin(a[n..], b);
      } else {
        assert a[n..] == [];
        assert s[n..] == " " + b;
        assert (" " + b)[1..] == b;
        assert Words(s[n..]) == Words(b);
        assert Words(a[n..]) == [];
      }
    }
  }

  lemma {:induction false} RunLengthOfJoin(a: string, b: string)
    requires a != [] && a[0] != ' '
    ensures RunLength(a + " " + b) == RunLength(a)
    decreases |a|
  {
    var s := a + " " + b;
    if |a| == 1 {
      assert s[1..] == " " + b;
    } else if a[1] == ' ' {
      assert s[1..][0] == ' ';
    } else {
      assert s[1..] == a[1..] + " " + b;
      RunLengthOfJoin(a[1..], b);
    }
  }

  /** A run of non-space characters standing between spaces (or the ends of
      the string) is one of its words. */
  lemma WordBetweenSpaces(x: string, w: string, y: string)
    requires w != [] && ' ' !in w
    requires x == [] || x[|x| - 1] == ' '
    requires y == [] || y[0] == ' '
    ensures w in Words(x + w + y)
  {
    if x == [] {
      assert x + w + y == w + y;
      WordAtStart(w, y);
    } else {
      var x' := x[..|x| - 1];
      assert x + w + y == x' + " " + (w + y);
      WordsOfJoin(x', w + y);
      WordAtStart(w, y);
    }
  }

  lemma WordAtStart(w: string, y: string)
    requires w != [] && ' ' !in w
    requires y == [] || y[0] == ' '
    ensures Words(w + y)[0] == w
  {
    var s := w + y;
    assert s[0] == w[0] && w[0] in w;
    RunLengthOfWord(w, y);
    assert s[..|w|] == w;
  }

  lemma {:induction false} RunLengthOfWord(w: string, y: string)
    requires ' ' !in w
    requires y == [] || y[0] == ' '
    ensures RunLength(w + y) == |w|
  {
    if w != [] {
      assert (w + y)[1..] == w[1..] + y;
      RunLengthOfWord(w[1..], y);
    }
  }

  /** Python's `<` on `str`: lexicographic by code point, a proper prefix first. */
  predicate LexLess(a: string, b: string)
  {
    if a == [] then b != []
    else if b == [] then false
    else if a[0] != b[0] then a[0] < b[0]
    else LexLess(a[1..], b[1..])
  }

  lemma {:induction false} LexLessIrreflexive(a: string)
    ensures !LexLess(a, a)
  {
    if a != [] { LexLessIrreflexive(a[1..]); }
  }

  lemma {:induction false} LexLessTransitive(a: string, b: string, c: string)
    requires LexLess(a, b) && LexLess(b, c)
    ensures LexLess(a, c)
  {
    if a != [] && b != [] && c != [] && a[0] == b[0] && b[0] == c[0] {
      LexLessTransitive(a[1..], b[1..], c[1..]);
    }
  }

  lemma {:induction false} LexLessTotal(a: string, b: string)
    requires a != b
    ensures LexLess(a, b) || LexLess(b, a)
  {
    if a != [] && b != [] && a[0] == b[0] {
      assert a == [a[0]] + a[1..] && b == [b[0]] + b[1..];
      LexLessTotal(a[1..], b[1..]);
    }
  }

  lemma {:induction false} LexLessAsymmetric(a: string, b: string)
    requires LexLess(a, b)
    ensures !LexLess(b, a)
  {
    if LexLess(b, a) {
      LexLessTransitive(a, b, a);
      LexLessIrreflexive(a);
    }
  }
}
