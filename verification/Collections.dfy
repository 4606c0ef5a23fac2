/** Facts about sequences and sets that several components share. */
module Collections {

  ghost predicate Distinct<T>(s: seq<T>) {
    forall i, j :: 0 <= i < j < |s| ==> s[i] != s[j]
  }

  /** The last n elements, or all of them. */
  function LastOf<T>(s: seq<T>, n: nat): (r: seq<T>)
    ensures |r| <= n && |r| <= |s| && r == s[|s| - |r|..]
  {
    if |s| <= n then s else s[|s| - n..]
  }

  lemma LastOfSuffix<T>(s: seq<T>, k: nat, n: nat)
    requires k + n <= |s|
    ensures LastOf(s[k..], n) == LastOf(s, n)
  {
    assert s[k..][|s| - k - n..] == s[|s| - n..];
  }

  lemma LastOfShort<T>(s: seq<T>, n: nat)
    requires |s| <= n
    ensures LastOf(s, n) == s
  {
  }

  lemma LastOfLong<T>(s: seq<T>, n: nat)
    requires |s| > n
    ensures LastOf(s, n) == s[|s| - n..]
  {
  }

  /** Forgetting early changes nothing about what is remembered later. */
  lemma LastOfAppend<T>(s: seq<T>, t: seq<T>, n: nat)
    ensures LastOf(LastOf(s, n) + t, n) == LastOf(s + t, n)
  {
    hide LastOf;
    if |s| <= n {
      LastOfShort(s, n);
    } else {
      var k := |s| - n;
      LastOfLong(s, n);
      assert s[k..] + t == (s + t)[k..];
      LastOfSuffix(s + t, k, n);
    }
  }

  /** Taking one more in, whether the oldest goes before or after. */
  lemma LastOfOneMore<T>(s: seq<T>, x: T, n: nat)
    requires n > 0
    ensures var ring := LastOf(s, n);
            && LastOf(s + [x], n) == (if |ring| >= n then ring[1..] else ring) + [x]
            && LastOf(s + [x], n) == (if |ring + [x]| > n then (ring + [x])[1..] else ring + [x])
  {
    if |s| >= n {
      var k := |s| - n;
      assert LastOf(s, n) == s[k..];
      assert LastOf(s + [x], n) == (s + [x])[k + 1..] == s[k + 1..] + [x];
      assert s[k..][1..] == s[k + 1..] && (s[k..] + [x])[1..] == s[k + 1..] + [x];
    }
  }

  lemma SubsetIsSmaller<T>(a: set<T>, b: set<T>)
    requires a <= b
    ensures |a| <= |b|
  {
    assert b == a + (b - a);
  }
}
