/**
 * The test the scan callback applies to every advertisement: the advertised
 * address with its `:` separators removed must equal the configured address,
 * ignoring letter case. Addresses are their textual form (for an
 * advertisement, the colon-separated hexadecimal string the library prints).
 */
module AddressMatch {

  /** Every `:` removed, every other character kept in order. */
  function StripColons(s: string): (r: string)
    ensures ':' !in r
    ensures |r| <= |s|
  {
    if s == [] then []
    else
      assert s == [s[0]] + s[1..];
      if s[0] == ':' then StripColons(s[1..]) else [s[0]] + StripColons(s[1..])
  }

  /**
   * `x` and `y` are the same character up to case: equal, or one is an ASCII
   * upper-case letter and the other the same letter in lower case.
   */
  predicate SameCharUpToCase(x: char, y: char)
  {
    || x == y
    || ('A' <= x <= 'Z' && y as int - x as int == 'a' as int - 'A' as int)
    || ('A' <= y <= 'Z' && x as int - y as int == 'a' as int - 'A' as int)
  }

  /** `a` and `b` have the same length and the same character up to case at every position. */
  predicate SameUpToCase(a: string, b: string)
  {
    |a| == |b| && forall i :: 0 <= i < |a| ==> SameCharUpToCase(a[i], b[i])
  }

  /**
   * Case folding of one character: ASCII upper-case letters become lower case.
   * The result is the same character up to case and is not an upper-case
   * letter, so an upper-case letter becomes its own lower-case letter and
   * every other character is left as it is.
   */
  function FoldChar(c: char): (r: char)
    ensures SameCharUpToCase(c, r)
    ensures !('A' <= r <= 'Z')
    ensures !('A' <= c <= 'Z') ==> r == c
  {
    if 'A' <= c <= 'Z' then (c as int - 'A' as int + 'a' as int) as char else c
  }

  /** Lower-casing of a whole string, character by character. */
  function Lower(s: string): (r: string)
    ensures |r| == |s|
  {
    seq(|s|, i requires 0 <= i < |s| => FoldChar(s[i]))
  }

  /**
   * Lower-casing leaves no upper-case letter, and keeps every position the
   * same up to case.
   */
  lemma LowerFolds(s: string)
    ensures forall i :: 0 <= i < |s| ==> !('A' <= Lower(s)[i] <= 'Z')
    ensures forall i :: 0 <= i < |s| ==> FoldChar(Lower(s)[i]) == FoldChar(s[i])
  {
  }

  /**
   * Case-insensitive equality, compared character by character until one side
   * runs out; then both must have run out. It is equality after lower-casing
   * both sides.
   */
  function EqualFold(s: string, t: string): (r: bool)
    ensures r <==> Lower(s) == Lower(t)
  {
    if s == [] || t == [] then s == t
    else
      LowerCons(s);
      LowerCons(t);
      assert Lower(s) == Lower(t) ==> Lower(s)[1..] == Lower(t)[1..];
      FoldChar(s[0]) == FoldChar(t[0]) && EqualFold(s[1..], t[1..])
  }

  /** The advertised address matches the configured one. */
  function Matches(advertised: string, configured: string): (r: bool)
    ensures r <==> Lower(StripColons(advertised)) == Lower(configured)
  {
    LowerIdempotent(configured);
    EqualFold(StripColons(advertised), Lower(configured))
  }

  lemma LowerCons(s: string)
    requires s != []
    ensures Lower(s) == [FoldChar(s[0])] + Lower(s[1..])
  {
  }

  lemma LowerIdempotent(s: string)
    ensures Lower(Lower(s)) == Lower(s)
  {
  }

  /** Removing separators keeps every other character, as often as it occurs. */
  lemma {:induction false} StripColonsKeepsOthers(s: string)
    ensures multiset(StripColons(s)) == multiset(s)[':' := 0]
  {
    if s != [] {
      assert s == [s[0]] + s[1..];
      StripColonsKeepsOthers(s[1..]);
    }
  }

  /** Removing separators keeps the order of the rest: it distributes over concatenation. */
  lemma {:induction false} StripColonsAppend(a: string, b: string)
    ensures StripColons(a + b) == StripColons(a) + StripColons(b)
  {
    if a == [] {
      assert a + b == b;
    } else {
      assert (a + b)[0] == a[0];
      assert (a + b)[1..] == a[1..] + b;
      StripColonsAppend(a[1..], b);
    }
  }

  /** A string without separators is left as it is. */
  lemma {:induction false} StripColonsWithoutColons(s: string)
    requires ':' !in s
    ensures StripColons(s) == s
  {
    if s != [] {
      assert ':' !in s[1..];
      StripColonsWithoutColons(s[1..]);
    }
  }

  /** Removing separators and lower-casing can be done in either order. */
  lemma {:induction false} StripColonsLowerCommute(s: string)
    ensures StripColons(Lower(s)) == Lower(StripColons(s))
  {
    if s != [] {
      LowerCons(s);
      StripColonsLowerCommute(s[1..]);
      if s[0] != ':' {
        LowerCons([s[0]] + StripColons(s[1..]));
        assert ([s[0]] + StripColons(s[1..]))[1..] == StripColons(s[1..]);
      }
    }
  }

  /**
   * Only the advertised side loses its separators: a configured address that
   * contains a `:` matches no advertisement at all.
   */
  lemma ColonInConfiguredNeverMatches(advertised: string, configured: string)
    requires ':' in configured
    ensures !Matches(advertised, configured)
  {
    var i :| 0 <= i < |configured| && configured[i] == ':';
    assert Lower(configured)[i] == ':';
    var stripped := StripColons(advertised);
    assert ':' !in Lower(stripped) by {
      assert forall j :: 0 <= j < |stripped| ==> stripped[j] != ':';
    }
  }

  /**
   * The match is exact, not a suffix match: the configured address must have
   * as many characters as the advertised one once its separators are removed.
   */
  lemma MatchIsExact(advertised: string, configured: string)
    ensures Matches(advertised, configured) ==> |configured| == |StripColons(advertised)|
  {
    if Matches(advertised, configured) {
      assert |Lower(configured)| == |configured|;
      assert |Lower(StripColons(advertised))| == |StripColons(advertised)|;
    }
  }

  /** Separators in the advertised address never change the result. */
  lemma SeparatorsIgnored(advertised: string, configured: string)
    ensures Matches(StripColons(advertised), configured) == Matches(advertised, configured)
  {
    StripColonsWithoutColons(StripColons(advertised));
  }

  /** Two strings lower-case to the same string exactly when they are the same up to case. */
  lemma LowerEqualIff(a: string, b: string)
    ensures Lower(a) == Lower(b) <==> SameUpToCase(a, b)
  {
    if SameUpToCase(a, b) {
      forall i | 0 <= i < |a| ensures Lower(a)[i] == Lower(b)[i] {
        assert SameCharUpToCase(a[i], b[i]);
      }
    }
    if Lower(a) == Lower(b) {
      forall i | 0 <= i < |a| ensures SameCharUpToCase(a[i], b[i]) {
        assert FoldChar(a[i]) == Lower(a)[i] == Lower(b)[i] == FoldChar(b[i]);
      }
    }
  }

  /** Changing the letter case of either address never changes the result. */
  lemma MatchIgnoresCase(advertised: string, advertised': string, configured: string, configured': string)
    requires SameUpToCase(advertised, advertised')
    requires SameUpToCase(configured, configured')
    ensures Matches(advertised, configured) == Matches(advertised', configured')
  {
    LowerEqualIff(advertised, advertised');
    LowerEqualIff(configured, configured');
    StripColonsLowerCommute(advertised);
    StripColonsLowerCommute(advertised');
  }
}
