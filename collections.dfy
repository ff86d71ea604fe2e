/**
  Order-keeping filters over sequences of ids, shared by the request
  generator and the mail handler.
*/
module Collections {

  /** `s` without the occurrences of `x`, order kept. */
  function Without(s: seq<string>, x: string): seq<string> {
    if |s| == 0 then []
    else Without(s[..|s| - 1], x) + (if s[|s| - 1] != x then [s[|s| - 1]] else [])
  }

  /** `Without` drops exactly the copies of `x`: every other element keeps
      its multiplicity, and nothing new appears. */
  lemma {:induction false} WithoutContents(s: seq<string>, x: string)
    ensures x !in Without(s, x)
    ensures forall y :: y != x ==> multiset(Without(s, x))[y] == multiset(s)[y]
    ensures |Without(s, x)| == |s| - multiset(s)[x]
  {
    if |s| > 0 {
      var init := s[..|s| - 1];
      var last := s[|s| - 1];
      WithoutContents(init, x);
      var extra := if last != x then [last] else [];
      assert s == init + [last];
      assert multiset(s) == multiset(init) + multiset{last};
      assert multiset(Without(s, x)) == multiset(Without(init, x)) + multiset(extra);
    }
  }

  /** An element of `Without(s, x)` is an element of `s`. */
  lemma WithoutSubset(s: seq<string>, x: string, y: string)
    requires y in Without(s, x)
    ensures y in s && y != x
  {
    WithoutContents(s, x);
    assert multiset(Without(s, x))[y] > 0;
  }

  /** Filtering a prefix gives a prefix of the filtered sequence. */
  lemma {:induction false} WithoutPrefix(s: seq<string>, i: int, x: string)
    requires 0 <= i <= |s|
    ensures |Without(s[..i], x)| <= |Without(s, x)|
    ensures Without(s, x)[..|Without(s[..i], x)|] == Without(s[..i], x)
    decreases |s| - i
  {
    if i < |s| {
      WithoutPrefix(s, i + 1, x);
      assert s[..i + 1][..i] == s[..i];
    } else {
      assert s[..i] == s;
    }
  }

  /** One more element of `s`: it is dropped when it is `x`, and otherwise
      it is the next element of `Without(s, x)`. */
  lemma NextKept(s: seq<string>, i: int, x: string)
    requires 0 <= i < |s|
    ensures var w := |Without(s[..i], x)|;
      && w <= |Without(s, x)|
      && (s[i] == x ==> Without(s[..i + 1], x) == Without(s[..i], x))
      && (s[i] != x ==> w < |Without(s, x)| && Without(s, x)[w] == s[i] && |Without(s[..i + 1], x)| == w + 1)
  {
    WithoutPrefix(s, i, x);
    WithoutPrefix(s, i + 1, x);
    assert s[..i + 1][..i] == s[..i];
    if s[i] != x {
      var w := |Without(s[..i], x)|;
      assert Without(s, x)[..w + 1][w] == s[i];
    }
  }
}
