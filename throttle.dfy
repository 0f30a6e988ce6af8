/** `BaseThrottle` of `piecrust/throttle.py`: its constructor defaults, the
    cache-key sanitiser, and the no-op throttling decision. */
module Throttle {
  import opened Wrappers

  const DefaultThrottleAt: int := 150
  const DefaultTimeframe: int := 3600
  /** One week, in seconds: what an `expiration` of `None` becomes. */
  const DefaultExpiration: int := 604800
  const KeySuffix: string := "_accesses"

  /** Python's `int()` on a number: truncation toward zero. */
  function PyInt(x: real): (n: int)
    ensures x >= 0.0 ==> 0 <= n && n as real <= x < n as real + 1.0
    ensures x < 0.0 ==> n <= 0 && n as real - 1.0 < x <= n as real
  {
    if x >= 0.0 then x.Floor else -((-x).Floor)
  }

  /** A character `convert_identifier_to_key` keeps: an ASCII letter or
      digit (Python 2 `str.isalnum()`), `_`, `.` or `-`. */
  predicate IsAllowed(c: char)
    ensures c == '_' || c == '.' || c == '-' ==> IsAllowed(c)
    ensures IsAllowed(c) ==> '-' <= c <= 'z'
  {
    ('a' <= c <= 'z') || ('A' <= c <= 'Z') || ('0' <= c <= '9') || c == '_' || c == '.' || c == '-'
  }

  predicate AllAllowed(s: string) {
    forall i :: 0 <= i < |s| ==> IsAllowed(s[i])
  }

  /** The allowed characters of `s`, in their original order. */
  function Sanitized(s: string): (r: string)
    ensures |r| <= |s|
    ensures AllAllowed(r)
  {
    if s == [] then []
    else
      var c := s[|s| - 1];
      Sanitized(s[..|s| - 1]) + (if IsAllowed(c) then [c] else [])
  }

  /** `a` is a subsequence of `b`: `a` is `b` with some characters removed,
      the rest kept in order. */
  predicate IsSubsequence(a: string, b: string) {
    if a == [] then true
    else if b == [] then false
    else (a[0] == b[0] && IsSubsequence(a[1..], b[1..])) || IsSubsequence(a, b[1..])
  }

  /** Filtering distributes over concatenation. */
  lemma {:induction false} SanitizedAppend(a: string, b: string)
    ensures Sanitized(a + b) == Sanitized(a) + Sanitized(b)
    decreases |b|
  {
    if b != [] {
      var b' := b[..|b| - 1];
      assert (a + b)[..|a + b| - 1] == a + b';
      SanitizedAppend(a, b');
    } else {
      assert a + b == a;
    }
  }

  /** Filtering one character keeps it exactly when it is allowed. */
  lemma SanitizedChar(c: char)
    ensures Sanitized([c]) == if IsAllowed(c) then [c] else []
  {
    assert [c][..0] == [];
  }

  /** The filter's front-first reading: the first character is kept or
      dropped, then the rest is filtered. */
  lemma SanitizedCons(s: string)
    requires s != []
    ensures Sanitized(s) == (if IsAllowed(s[0]) then [s[0]] else []) + Sanitized(s[1..])
  {
    assert s == [s[0]] + s[1..];
    SanitizedAppend([s[0]], s[1..]);
    SanitizedChar(s[0]);
  }

  /** The key's prefix is a subsequence of the identifier. */
  lemma {:induction false} SanitizedIsSubsequence(s: string)
    ensures IsSubsequence(Sanitized(s), s)
  {
    var r := Sanitized(s);
    if s == [] {
      assert r == [];
    } else {
      SanitizedCons(s);
      SanitizedIsSubsequence(s[1..]);
      if IsAllowed(s[0]) {
        assert r[0] == s[0] && r[1..] == Sanitized(s[1..]);
      } else {
        assert r == Sanitized(s[1..]);
        SubsequenceDropHead(r, s);
      }
    }
  }

  lemma SubsequenceDropHead(a: string, b: string)
    requires b != [] && IsSubsequence(a, b[1..])
    ensures IsSubsequence(a, b)
  {
  }

  /** Every allowed character is kept as often as it occurs, and no other
      character is kept: with the subsequence lemma this pins the prefix down
      to exactly the allowed characters in order. */
  lemma {:induction false} SanitizedCounts(s: string, c: char)
    ensures multiset(Sanitized(s))[c] == if IsAllowed(c) then multiset(s)[c] else 0
  {
    if s != [] {
      var init := s[..|s| - 1];
      var last := s[|s| - 1];
      assert s == init + [last];
      SanitizedCounts(init, c);
      assert multiset(s) == multiset(init) + multiset{last};
    }
  }

  /** An identifier made only of allowed characters is kept whole. */
  lemma {:induction false} SanitizedAllAllowed(s: string)
    requires AllAllowed(s)
    ensures Sanitized(s) == s
  {
    if s != [] {
      var init := s[..|s| - 1];
      assert AllAllowed(init) by {
        forall i | 0 <= i < |init| ensures IsAllowed(init[i]) {
          assert init[i] == s[i];
        }
      }
      SanitizedAllAllowed(init);
      assert s == init + [s[|s| - 1]];
    }
  }

  /** Sanitising an already-sanitised prefix changes nothing. */
  lemma SanitizedIdempotent(s: string)
    ensures Sanitized(Sanitized(s)) == Sanitized(s)
  {
    SanitizedAllAllowed(Sanitized(s));
  }

  /** The key built for `identifier`. */
  function KeyFor(identifier: string): (key: string)
    ensures |key| >= |KeySuffix| && key[|key| - |KeySuffix|..] == KeySuffix
    ensures key[..|key| - |KeySuffix|] == Sanitized(identifier)
  {
    Sanitized(identifier) + KeySuffix
  }

  /** Concatenating two allowed-only strings gives an allowed-only string. */
  lemma AllAllowedAppend(a: string, b: string)
    requires AllAllowed(a) && AllAllowed(b)
    ensures AllAllowed(a + b)
  {
    forall i | 0 <= i < |a + b| ensures IsAllowed((a + b)[i]) {
      if i >= |a| {
        assert (a + b)[i] == b[i - |a|];
      }
    }
  }

  /** Every character of the suffix `_accesses` is allowed. */
  lemma SuffixAllowed()
    ensures AllAllowed(KeySuffix)
  {
    assert KeySuffix == ['_'] + "accesses";
    assert AllAllowed("accesses");
    AllAllowedAppend(['_'], "accesses");
  }

  /** Every character of a key, suffix included, is allowed. */
  lemma KeyAlphabet(identifier: string)
    ensures AllAllowed(KeyFor(identifier))
  {
    SuffixAllowed();
    AllAllowedAppend(Sanitized(identifier), KeySuffix);
  }

  /** The empty identifier maps to the bare suffix; an allowed-only
      identifier maps to itself plus the suffix. */
  lemma KeyForSpecialCases(identifier: string)
    ensures KeyFor("") == KeySuffix
    ensures AllAllowed(identifier) ==> KeyFor(identifier) == identifier + KeySuffix
  {
    if AllAllowed(identifier) {
      SanitizedAllAllowed(identifier);
    }
  }

  /** A string with no allowed character is dropped entirely. */
  lemma {:induction false} SanitizedNoneAllowed(s: string)
    requires forall i :: 0 <= i < |s| ==> !IsAllowed(s[i])
    ensures Sanitized(s) == []
  {
    if s != [] {
      SanitizedNoneAllowed(s[..|s| - 1]);
    }
  }

  /** An injected run of disallowed characters between two clean parts
      vanishes from the key: the key differs from the clean identifier's only
      by the stripped characters (for instance `10.0.0.1; DROP` and
      `10.0.0.1DROP`). */
  lemma InjectionStripped(before: string, junk: string, after: string)
    requires AllAllowed(before) && AllAllowed(after)
    requires forall i :: 0 <= i < |junk| ==> !IsAllowed(junk[i])
    ensures Sanitized(before + junk + after) == before + after
    ensures KeyFor(before + junk + after) == before + after + KeySuffix
  {
    var front := before + junk;
    assert Sanitized(front) == before by {
      SanitizedAllAllowed(before);
      SanitizedNoneAllowed(junk);
      SanitizedAppend(before, junk);
    }
    assert Sanitized(after) == after by {
      SanitizedAllAllowed(after);
    }
    SanitizedAppend(front, after);
  }

  /** The address and the word of the injection example are clean. */
  lemma ExampleCleanParts()
    ensures AllAllowed("10.0.0.1") && AllAllowed("DROP")
  {
  }

  /** The separator of the injection example is dropped entirely. */
  lemma ExampleJunk()
    ensures forall i :: 0 <= i < |"; "| ==> !IsAllowed("; "[i])
  {
    assert !IsAllowed(';') && !IsAllowed(' ');
  }

  /** The injected separator is stripped: `10.0.0.1; DROP` and `10.0.0.1DROP`
      share one key. */
  lemma InjectedAddressExample()
    ensures KeyFor("10.0.0.1; DROP") == "10.0.0.1DROP_accesses"
  {
    var ip, junk, word := "10.0.0.1", "; ", "DROP";
    ExampleCleanParts();
    ExampleJunk();
    InjectionStripped(ip, junk, word);
    assert ip + junk + word == "10.0.0.1; DROP";
    assert ip + word + KeySuffix == "10.0.0.1DROP_accesses";
  }

  /** A plain address keeps all its characters. */
  lemma PlainAddressExample()
    ensures KeyFor("10.0.0.1") == "10.0.0.1_accesses"
  {
    ExampleCleanParts();
    KeyForSpecialCases("10.0.0.1");
  }

  /** A `BaseThrottle` after construction. */
  datatype BaseThrottle = BaseThrottle(throttleAt: int, timeframe: int, expiration: int)
  {
    /** `convert_identifier_to_key`: keep the allowed characters in order,
        then append `_accesses`. */
    method ConvertIdentifierToKey(identifier: string) returns (key: string)
      ensures key == KeyFor(identifier)
    {
      var bits: string := [];
      for i := 0 to |identifier|
        invariant bits == Sanitized(identifier[..i])
      {
        var c := identifier[i];
        if IsAllowed(c) {
          bits := bits + [c];
        }
        assert identifier[..i + 1][..i] == identifier[..i];
      }
      assert identifier[..|identifier|] == identifier;
      key := bits + KeySuffix;
    }

    /** This throttle never throttles anyone. */
    function ShouldBeThrottled(identifier: string): (throttled: bool)
      ensures !throttled
    {
      false
    }

    /** Recording an access leaves the throttle as it was. */
    function Accessed(identifier: string): (t: BaseThrottle)
      ensures t == this
    {
      this
    }
  }

  /** `BaseThrottle(throttle_at=150, timeframe=3600, expiration=None)`:
      `expiration` defaults to a week and is stored through `int()`. */
  function NewBaseThrottle(throttleAt: int := DefaultThrottleAt, timeframe: int := DefaultTimeframe,
                           expiration: Option<real> := None): (t: BaseThrottle)
    ensures t.throttleAt == throttleAt && t.timeframe == timeframe
    ensures expiration.None? ==> t.expiration == DefaultExpiration
    ensures expiration.Some? ==> t.expiration == PyInt(expiration.value)
  {
    BaseThrottle(throttleAt, timeframe,
      if expiration.None? then DefaultExpiration else PyInt(expiration.value))
  }

  /** The defaults of a throttle built with no arguments. */
  lemma DefaultThrottle()
    ensures NewBaseThrottle() == BaseThrottle(150, 3600, 604800)
    ensures NewBaseThrottle(expiration := Some(86400.9)).expiration == 86400
  {
  }

  /** Whatever happens, the no-op throttle lets the next request through. */
  lemma NeverThrottles(t: BaseThrottle, accesses: seq<string>, identifier: string)
    ensures !RecordAll(t, accesses).ShouldBeThrottled(identifier)
    ensures RecordAll(t, accesses) == t
  {
    RecordAllUnchanged(t, accesses);
  }

  /** The throttle after recording each identifier in turn. */
  function RecordAll(t: BaseThrottle, accesses: seq<string>): BaseThrottle {
    if accesses == [] then t else RecordAll(t.Accessed(accesses[0]), accesses[1..])
  }

  lemma {:induction false} RecordAllUnchanged(t: BaseThrottle, accesses: seq<string>)
    ensures RecordAll(t, accesses) == t
  {
    if accesses != [] {
      RecordAllUnchanged(t.Accessed(accesses[0]), accesses[1..]);
    }
  }
}
