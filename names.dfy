/** Java's `String.startsWith` on binary class names such as `java/lang/Class`. */
module Names {

  /** `s.startsWith(prefix)`: compare character by character from the front. */
  predicate StartsWith(s: string, prefix: string)
    decreases prefix
  {
    prefix == [] || (s != [] && s[0] == prefix[0] && StartsWith(s[1..], prefix[1..]))
  }

  /** The character-by-character test agrees with the slice definition of a prefix. */
  lemma {:induction false} StartsWithIsPrefix(s: string, prefix: string)
    ensures StartsWith(s, prefix) <==> |prefix| <= |s| && s[..|prefix|] == prefix
    decreases prefix
  {
    if prefix != [] && s != [] {
      StartsWithIsPrefix(s[1..], prefix[1..]);
      if |prefix| <= |s| {
        assert s[..|prefix|] == [s[0]] + s[1..][..|prefix| - 1];
        assert prefix == [prefix[0]] + prefix[1..];
      }
    }
  }

  /** Every string starts with itself. */
  lemma {:induction false} StartsWithSelf(s: string)
    ensures StartsWith(s, s)
  {
    StartsWithIsPrefix(s, s);
  }

  /** Appending to a string keeps every prefix it had. */
  lemma {:induction false} StartsWithExtended(s: string, prefix: string, suffix: string)
    requires StartsWith(s, prefix)
    ensures StartsWith(s + suffix, prefix)
  {
    StartsWithIsPrefix(s, prefix);
    StartsWithIsPrefix(s + suffix, prefix);
    assert (s + suffix)[..|prefix|] == s[..|prefix|];
  }

  /** Prefixes compose: a string starting with `p`, where `p` starts with `q`, starts with `q`. */
  lemma {:induction false} StartsWithTransitive(s: string, p: string, q: string)
    requires StartsWith(s, p) && StartsWith(p, q)
    ensures StartsWith(s, q)
  {
    StartsWithIsPrefix(s, p);
    StartsWithIsPrefix(p, q);
    StartsWithIsPrefix(s, q);
    assert s[..|q|] == s[..|p|][..|q|];
  }
}
