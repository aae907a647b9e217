/** The prefixes under which a document's search tokens are looked up. */
module SearchPrefixes {
  /** Every token, and every non-empty prefix of a token. */
  ghost predicate Covered(tokens: seq<string>, p: string) {
    exists i :: 0 <= i < |tokens| && (p == tokens[i] || (p != "" && p <= tokens[i]))
  }

  /** A set that has the non-empty prefixes of its members has nothing to add for a member. */
  ghost predicate PrefixClosed(s: set<string>) {
    forall t, p :: t in s && p != "" && p <= t ==> p in s
  }

  lemma CoveredSnoc(tokens: seq<string>, t: string, p: string)
    ensures Covered(tokens + [t], p) <==> Covered(tokens, p) || p == t || (p != "" && p <= t)
  {
    var all := tokens + [t];
    if Covered(tokens, p) {
      var i :| 0 <= i < |tokens| && (p == tokens[i] || (p != "" && p <= tokens[i]));
      assert all[i] == tokens[i];
    }
    assert all[|tokens|] == t;
  }

  /** The token, then its proper prefixes, shortest first. */
  method AddPrefixes(before: set<string>, token: string) returns (prefixes: set<string>)
    ensures forall p :: p in prefixes <==> p in before || p == token || (p != "" && p <= token)
  {
    prefixes := before + {token};
    var i := 1;
    while i < |token|
      invariant i >= 1
      invariant forall p :: p in prefixes <==> p in before || p == token || (p != "" && p <= token && |p| < i)
    {
      prefixes := prefixes + {token[..i]};
      assert forall p: string :: p <= token && |p| == i ==> p == token[..i];
      i := i + 1;
    }
    assert forall p: string :: p <= token && |p| >= |token| ==> p == token;
  }

  lemma CoveredClosed(tokens: seq<string>, prefixes: set<string>)
    requires forall p :: p in prefixes <==> Covered(tokens, p)
    ensures PrefixClosed(prefixes)
  {
  }

  /**
   Looking a non-empty search term up in the result is matching it as a prefix against the tokens.
   Skipping a token that is already there, as the code does, leaves nothing out.
   */
  method CalculatePrefixes(tokens: seq<string>) returns (prefixes: set<string>)
    ensures forall p :: p in prefixes <==> Covered(tokens, p)
    ensures forall s :: s != "" ==> (s in prefixes <==> exists i :: 0 <= i < |tokens| && s <= tokens[i])
  {
    prefixes := {};
    for n := 0 to |tokens|
      invariant forall p :: p in prefixes <==> Covered(tokens[..n], p)
    {
      var token := tokens[n];
      CoveredClosed(tokens[..n], prefixes);
      if token !in prefixes {
        prefixes := AddPrefixes(prefixes, token);
      }
      forall p ensures p in prefixes <==> Covered(tokens[..n + 1], p) {
        CoveredSnoc(tokens[..n], token, p);
        assert tokens[..n + 1] == tokens[..n] + [token];
      }
    }
    assert tokens[..|tokens|] == tokens;
  }
}
