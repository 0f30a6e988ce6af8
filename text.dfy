/** The few Python built-ins on strings and dictionaries that the core's
    decisions depend on, each stated by what it computes. Strings are
    Python 2 byte strings, modelled as `seq<char>`. */
module Text {
  import opened Wrappers

  /** Python 2 `str.isspace()` on one character. */
  predicate IsSpace(c: char)
    ensures IsSpace(c) <==> c == ' ' || '\t' <= c <= '\r'
  {
    c == ' ' || c == '\t' || c == '\n' || c == '\r' || c == '\U{000B}' || c == '\U{000C}'
  }

  predicate NoSpace(s: string) {
    forall i :: 0 <= i < |s| ==> !IsSpace(s[i])
  }

  /** Length of the longest prefix of `s` that holds no whitespace. */
  function WordLength(s: string): (n: nat)
    ensures n <= |s|
    ensures NoSpace(s[..n])
    ensures n < |s| ==> IsSpace(s[n])
  {
    if s == [] || IsSpace(s[0]) then 0 else 1 + WordLength(s[1..])
  }

  /** Every character of `s` is whitespace. */
  predicate AllSpace(s: string) {
    forall i :: 0 <= i < |s| ==> IsSpace(s[i])
  }

  /** `s.split()`: the maximal runs of non-whitespace, in order. */
  function Tokens(s: string): (r: seq<string>)
    ensures forall i :: 0 <= i < |r| ==> r[i] != [] && NoSpace(r[i])
    ensures r == [] <==> AllSpace(s)
    decreases |s|
  {
    if s == [] then []
    else if IsSpace(s[0]) then
      assert AllSpace(s) <==> AllSpace(s[1..]) by {
        assert forall i :: 0 < i < |s| ==> s[i] == s[1..][i - 1];
      }
      Tokens(s[1..])
    else
      var n := WordLength(s);
      [s[..n]] + Tokens(s[n..])
  }

  lemma {:induction false} WordLengthOfWord(w: string, rest: string)
    requires NoSpace(w)
    requires rest == [] || IsSpace(rest[0])
    ensures WordLength(w + rest) == |w|
  {
    if w != [] {
      assert (w + rest)[1..] == w[1..] + rest;
      WordLengthOfWord(w[1..], rest);
    }
  }

  /** Leading whitespace yields no token. */
  lemma {:induction false} TokensSkipSpace(w: string, s: string)
    requires AllSpace(w)
    ensures Tokens(w + s) == Tokens(s)
  {
    if w == [] {
      assert w + s == s;
    } else {
      assert (w + s)[0] == w[0];
      assert (w + s)[1..] == w[1..] + s;
      assert AllSpace(w[1..]) by {
        assert forall i :: 0 <= i < |w[1..]| ==> w[1..][i] == w[i + 1];
      }
      TokensSkipSpace(w[1..], s);
    }
  }

  /** A word ended by whitespace or by the end of the string is one token. */
  lemma TokensOfWordThen(a: string, rest: string)
    requires a != [] && NoSpace(a)
    requires rest == [] || IsSpace(rest[0])
    ensures Tokens(a + rest) == [a] + Tokens(rest)
  {
    WordLengthOfWord(a, rest);
    var s := a + rest;
    assert s[0] == a[0];
    assert s[..|a|] == a && s[|a|..] == rest;
  }

  /** Five strings concatenated left to right are the same grouped to the
      right. */
  lemma ConcatRight(w1: string, a: string, w2: string, b: string, w3: string)
    ensures w1 + a + w2 + b + w3 == w1 + (a + (w2 + (b + w3)))
  {
  }

  /** The same five strings, the last three grouped first. */
  lemma ConcatNest(w1: string, a: string, w2: string, b: string, w3: string)
    ensures w1 + a + (w2 + b + w3) == w1 + a + w2 + b + w3
  {
  }

  /** Two words with any whitespace before, between (at least one character)
      and after them split into exactly those two words. */
  lemma TokensOfTwo(w1: string, a: string, w2: string, b: string, w3: string)
    requires AllSpace(w1) && AllSpace(w2) && AllSpace(w3) && w2 != []
    requires a != [] && NoSpace(a) && b != [] && NoSpace(b)
    ensures Tokens(w1 + a + w2 + b + w3) == [a, b]
  {
    var t3 := b + w3;
    var t2 := w2 + t3;
    var t1 := a + t2;
    ConcatRight(w1, a, w2, b, w3);
    assert Tokens(w3) == [];
    TokensOfWordThen(b, w3);
    assert Tokens(t3) == [b];
    TokensSkipSpace(w2, t3);
    assert t2[0] == w2[0];
    TokensOfWordThen(a, t2);
    assert Tokens(t1) == [a, b];
    TokensSkipSpace(w1, t1);
  }

  /** The first token of `s` is preceded by whitespace only, and followed by
      whitespace or the end of `s`, whose remainder splits into the rest. */
  lemma {:induction false} TokensHead(s: string) returns (w: string, rest: string)
    requires Tokens(s) != []
    ensures AllSpace(w) && (rest == [] || IsSpace(rest[0]))
    ensures s == w + Tokens(s)[0] + rest
    ensures Tokens(rest) == Tokens(s)[1..]
    decreases |s|
  {
    if IsSpace(s[0]) {
      var w';
      w', rest := TokensHead(s[1..]);
      w := TokensHeadSpace(s, w', rest);
    } else {
      rest := TokensHeadWord(s);
      w := [];
    }
  }

  /** `TokensHead` when `s` starts with whitespace: the head of `s[1..]`
      extended by that character. */
  lemma TokensHeadSpace(s: string, w': string, rest: string) returns (w: string)
    requires s != [] && IsSpace(s[0]) && Tokens(s[1..]) != []
    requires AllSpace(w') && s[1..] == w' + Tokens(s[1..])[0] + rest
    ensures w == [s[0]] + w' && AllSpace(w)
    ensures Tokens(s) == Tokens(s[1..]) && s == w + Tokens(s)[0] + rest
  {
    w := [s[0]] + w';
    TokensSpaceStep(s);
    AllSpaceCons(s[0], w');
    assert s == [s[0]] + s[1..];
    ConcatCons(s[0], w', Tokens(s[1..])[0], rest);
  }

  /** A leading whitespace character is skipped. */
  lemma TokensSpaceStep(s: string)
    requires s != [] && IsSpace(s[0])
    ensures Tokens(s) == Tokens(s[1..])
  {
  }

  /** Whitespace followed by a whitespace run is a whitespace run. */
  lemma AllSpaceCons(c: char, w: string)
    requires IsSpace(c) && AllSpace(w)
    ensures AllSpace([c] + w)
  {
    assert forall i :: 0 < i < |[c] + w| ==> ([c] + w)[i] == w[i - 1];
  }

  /** Prepending a character to three concatenated strings. */
  lemma ConcatCons(c: char, x: string, y: string, z: string)
    ensures [c] + (x + y + z) == [c] + x + y + z
  {
  }

  /** `TokensHead` when `s` starts with its first token. */
  lemma TokensHeadWord(s: string) returns (rest: string)
    requires s != [] && !IsSpace(s[0])
    ensures rest == [] || IsSpace(rest[0])
    ensures Tokens(s) != [] && s == [] + Tokens(s)[0] + rest
    ensures Tokens(rest) == Tokens(s)[1..]
  {
    var n := WordLength(s);
    assert Tokens(s) == [s[..n]] + Tokens(s[n..]);
    rest := s[n..];
    assert s == [] + s[..n] + s[n..];
  }

  /** Conversely, a string that splits into two tokens is those two words
      with whitespace before, between (at least one character) and after. */
  lemma TokensOfTwoShape(s: string) returns (w1: string, w2: string, w3: string)
    requires |Tokens(s)| == 2
    ensures AllSpace(w1) && AllSpace(w2) && AllSpace(w3) && w2 != []
    ensures s == w1 + Tokens(s)[0] + w2 + Tokens(s)[1] + w3
  {
    var t := Tokens(s);
    var r1, r2;
    w1, r1 := TokensHead(s);
    assert Tokens(r1) == [t[1]];
    w2, r2 := TokensHead(r1);
    w3 := r2;
    assert Tokens(w3) == [];
    assert r1 != [] && IsSpace(r1[0]);
    assert w2 != [] by {
      assert !IsSpace(t[1][0]);
    }
    ConcatNest(w1, t[0], w2, t[1], w3);
  }

  /** The words and separators of the example below. */
  lemma ExampleParts()
    ensures NoSpace("Basic") && NoSpace("ab")
    ensures AllSpace(" ") && AllSpace("\t")
  {
  }

  /** A tab, and spaces at either end, separate tokens like a single space. */
  lemma TokensExample()
    ensures Tokens(" Basic\tab ") == ["Basic", "ab"]
  {
    ExampleParts();
    TokensOfTwo(" ", "Basic", "\t", "ab", " ");
    assert " " + "Basic" + "\t" + "ab" + " " == " Basic\tab ";
  }

  /** `s.split(sep, 1)` when it yields two parts: the text before the first
      `sep` and everything after it; `None` when `sep` does not occur. */
  function SplitFirst(s: string, sep: char): (r: Option<(string, string)>)
    ensures r.Some? <==> sep in s
    ensures r.Some? ==> r.value.0 + [sep] + r.value.1 == s && sep !in r.value.0
  {
    if s == [] then None
    else if s[0] == sep then Some(([], s[1..]))
    else
      match SplitFirst(s[1..], sep)
      case None => None
      case Some(parts) => Some(([s[0]] + parts.0, parts.1))
  }

  /** Splitting at the first separator keeps every later separator in the
      second part. */
  lemma {:induction false} SplitFirstAt(a: string, sep: char, b: string)
    requires sep !in a
    ensures SplitFirst(a + [sep] + b, sep) == Some((a, b))
  {
    if a == [] {
      assert a + [sep] + b == [sep] + b;
    } else {
      assert (a + [sep] + b)[1..] == a[1..] + [sep] + b;
      SplitFirstAt(a[1..], sep, b);
      assert [a[0]] + a[1..] == a;
    }
  }

  /** Python's `sub in s` on strings. */
  predicate Contains(s: string, sub: string) {
    sub <= s || (s != [] && Contains(s[1..], sub))
  }

  /** `sub` occurs in `s` starting at index `i`. */
  predicate OccursAt(s: string, sub: string, i: nat) {
    i + |sub| <= |s| && s[i..i + |sub|] == sub
  }

  /** A slice of the tail is the slice of `s` one further on. */
  lemma SliceOfTail(s: string, i: nat, n: nat)
    requires s != [] && i + n <= |s| - 1
    ensures s[1..][i..i + n] == s[i + 1..i + 1 + n]
  {
  }

  /** `Contains` holds exactly when `sub` occurs at some index of `s`. */
  lemma ContainsIff(s: string, sub: string)
    ensures Contains(s, sub) <==> exists i: nat :: OccursAt(s, sub, i)
  {
    if Contains(s, sub) {
      var i := ContainsOccurs(s, sub);
    }
    if exists i: nat :: OccursAt(s, sub, i) {
      var i: nat :| OccursAt(s, sub, i);
      OccursContains(s, sub, i);
    }
  }

  /** A substring that is `in` a string occurs at some index. */
  lemma {:induction false} ContainsOccurs(s: string, sub: string) returns (i: nat)
    requires Contains(s, sub)
    ensures OccursAt(s, sub, i)
    decreases |s|
  {
    if sub <= s {
      i := 0;
    } else {
      var j := ContainsOccurs(s[1..], sub);
      SliceOfTail(s, j, |sub|);
      i := j + 1;
    }
  }

  /** A substring that occurs at some index is `in` the string. */
  lemma {:induction false} OccursContains(s: string, sub: string, i: nat)
    requires OccursAt(s, sub, i)
    ensures Contains(s, sub)
    decreases i
  {
    if i == 0 {
      assert sub == s[..|sub|];
    } else {
      SliceOfTail(s, i - 1, |sub|);
      OccursContains(s[1..], sub, i - 1);
    }
  }

  /** `m.get(k)`. */
  function Get<K, V>(m: map<K, V>, k: K): (r: Option<V>)
    ensures r.Some? <==> k in m
    ensures r.Some? ==> r.value == m[k]
  {
    if k in m then Some(m[k]) else None
  }

  /** `m.get(k, default)`: a present key wins even when its value is empty. */
  function GetDefault<K, V>(m: map<K, V>, k: K, default: V): (r: V)
    ensures k in m ==> r == m[k]
    ensures k !in m ==> r == default
  {
    if k in m then m[k] else default
  }

  /** Python truthiness of an optional string: `None` and `''` are false. */
  predicate Truthy(s: Option<string>)
    ensures !Truthy(s) <==> s == None || s == Some("")
  {
    s.Some? && s.value != []
  }

  /** Python's `a or b` on optional strings. */
  function Or(a: Option<string>, b: Option<string>): (r: Option<string>)
    ensures Truthy(a) ==> r == a
    ensures !Truthy(a) ==> r == b
  {
    if Truthy(a) then a else b
  }
}
