/**
 * The category filter and the featured/regular split that the projects page and the
 * gallery page both apply: `list.filter(x => key(x) === want)` and the `'all'` sentinel.
 * The functions are generic in the record type; the key is passed as a function.
 */
module Listing {

  /** `s.filter(x => key(x) === want)`. */
  function Keep<T, K(==)>(s: seq<T>, key: T -> K, want: K): (r: seq<T>)
    ensures |r| <= |s|
    ensures forall i :: 0 <= i < |r| ==> key(r[i]) == want
  {
    if s == [] then []
    else (if key(s[0]) == want then [s[0]] else []) + Keep(s[1..], key, want)
  }

  /** The filter keeps exactly the elements whose key is `want`. */
  lemma {:induction false} KeepMembers<T, K>(s: seq<T>, key: T -> K, want: K)
    ensures forall x :: x in Keep(s, key, want) <==> x in s && key(x) == want
  {
    if s != [] {
      KeepMembers(s[1..], key, want);
      assert s == [s[0]] + s[1..];
    }
  }

  /** `r` is `s` with some elements left out and the rest in their original order. */
  ghost predicate IsSubsequence<T>(r: seq<T>, s: seq<T>)
    decreases |s|
  {
    if r == [] then true
    else if s == [] then false
    else if r[0] == s[0] then IsSubsequence(r[1..], s[1..])
    else IsSubsequence(r, s[1..])
  }

  /** One step of the filter: the head, when it passes, followed by the filtered tail. */
  lemma KeepCons<T, K>(x: T, t: seq<T>, key: T -> K, want: K)
    ensures Keep([x] + t, key, want) == (if key(x) == want then [x] else []) + Keep(t, key, want)
  {
    assert ([x] + t)[0] == x && ([x] + t)[1..] == t;
  }

  lemma {:induction false} KeepIsSubsequence<T, K>(s: seq<T>, key: T -> K, want: K)
    ensures IsSubsequence(Keep(s, key, want), s)
  {
    if s != [] {
      KeepIsSubsequence(s[1..], key, want);
      var rest := Keep(s[1..], key, want);
      if key(s[0]) == want {
        assert Keep(s, key, want) == [s[0]] + rest;
        assert ([s[0]] + rest)[1..] == rest;
      } else {
        assert Keep(s, key, want) == rest;
        SubsequenceOfTail(rest, s);
      }
    }
  }

  /** A subsequence of the tail is a subsequence of the whole. */
  lemma {:induction false} SubsequenceOfTail<T>(r: seq<T>, s: seq<T>)
    requires s != [] && IsSubsequence(r, s[1..])
    ensures IsSubsequence(r, s)
    decreases |s|, 0
  {
    if r != [] && r[0] == s[0] {
      SubsequenceFromHead(r, s[1..]);
    }
  }

  /** Dropping the head of a non-empty subsequence keeps it a subsequence. */
  lemma {:induction false} SubsequenceFromHead<T>(r: seq<T>, s: seq<T>)
    requires r != [] && IsSubsequence(r, s)
    ensures IsSubsequence(r[1..], s)
    decreases |s|, 1
  {
    if r[0] == s[0] {
      SubsequenceOfTail(r[1..], s);
    } else {
      SubsequenceFromHead(r, s[1..]);
      SubsequenceOfTail(r[1..], s);
    }
  }

  /** Filtering twice by the same key is filtering once. */
  lemma {:induction false} KeepIdempotent<T, K>(s: seq<T>, key: T -> K, want: K)
    ensures Keep(Keep(s, key, want), key, want) == Keep(s, key, want)
  {
    if s != [] {
      KeepIdempotent(s[1..], key, want);
      var rest := Keep(s[1..], key, want);
      if key(s[0]) == want {
        assert Keep(s, key, want) == [s[0]] + rest;
        KeepCons(s[0], rest, key, want);
      } else {
        assert Keep(s, key, want) == [] + rest;
        assert [] + rest == rest;
      }
    }
  }

  /** The filter returns its input exactly when every element already passes. */
  lemma {:induction false} KeepWhole<T, K>(s: seq<T>, key: T -> K, want: K)
    ensures Keep(s, key, want) == s <==> forall i :: 0 <= i < |s| ==> key(s[i]) == want
  {
    if s != [] {
      KeepWhole(s[1..], key, want);
      if key(s[0]) != want {
        assert |Keep(s, key, want)| <= |s[1..]| < |s|;
      } else {
        assert Keep(s, key, want) == [s[0]] + Keep(s[1..], key, want);
        if Keep(s, key, want) == s {
          assert Keep(s[1..], key, want) == s[1..];
        }
        if forall i :: 0 <= i < |s| ==> key(s[i]) == want {
          assert forall i :: 0 <= i < |s[1..]| ==> key(s[1..][i]) == want by {
            forall i | 0 <= i < |s[1..]| ensures key(s[1..][i]) == want {
              assert s[1..][i] == s[i + 1];
            }
          }
        }
        if Keep(s[1..], key, want) == s[1..] {
          assert s == [s[0]] + s[1..];
        }
      }
    }
  }

  /**
   * Splitting by a boolean key: the two halves hold every element of the input exactly
   * as often as the input does, in total.
   */
  lemma {:induction false} KeepPartition<T>(s: seq<T>, flag: T -> bool)
    ensures |Keep(s, flag, true)| + |Keep(s, flag, false)| == |s|
    ensures multiset(Keep(s, flag, true)) + multiset(Keep(s, flag, false)) == multiset(s)
  {
    KeepSplitsMultiset(s, flag);
    assert |multiset(Keep(s, flag, true)) + multiset(Keep(s, flag, false))| == |multiset(s)|;
  }

  lemma {:induction false} KeepSplitsMultiset<T>(s: seq<T>, flag: T -> bool)
    ensures multiset(Keep(s, flag, true)) + multiset(Keep(s, flag, false)) == multiset(s)
  {
    if s != [] {
      var yes, no := Keep(s[1..], flag, true), Keep(s[1..], flag, false);
      KeepSplitsMultiset(s[1..], flag);
      var head := [s[0]];
      assert s == head + s[1..];
      if flag(s[0]) {
        assert Keep(s, flag, true) == head + yes;
        assert Keep(s, flag, false) == no;
      } else {
        assert Keep(s, flag, true) == yes;
        assert Keep(s, flag, false) == head + no;
      }
    }
  }

  /**
   * The filter keeps every passing element exactly as often as the input holds it, and
   * no other element at all.
   */
  lemma {:induction false} KeepCount<T, K>(s: seq<T>, key: T -> K, want: K)
    ensures forall x :: multiset(Keep(s, key, want))[x] == if key(x) == want then multiset(s)[x] else 0
  {
    if s != [] {
      KeepCount(s[1..], key, want);
      var head := if key(s[0]) == want then [s[0]] else [];
      assert Keep(s, key, want) == head + Keep(s[1..], key, want);
      assert s == [s[0]] + s[1..];
      assert multiset(s) == multiset([s[0]]) + multiset(s[1..]);
    }
  }

  /** No element passes: the filter returns nothing. */
  lemma {:induction false} KeepNone<T, K>(s: seq<T>, key: T -> K, want: K)
    requires forall i :: 0 <= i < |s| ==> key(s[i]) != want
    ensures Keep(s, key, want) == []
  {
    if s != [] {
      assert forall i :: 0 <= i < |s[1..]| ==> s[1..][i] == s[i + 1];
      KeepNone(s[1..], key, want);
    }
  }

  /** When the passing elements are exactly a prefix, the filter returns that prefix. */
  lemma {:induction false} KeepPrefix<T, K>(s: seq<T>, key: T -> K, want: K, k: nat)
    requires k <= |s|
    requires forall i :: 0 <= i < k ==> key(s[i]) == want
    requires forall i :: k <= i < |s| ==> key(s[i]) != want
    ensures Keep(s, key, want) == s[..k]
  {
    if k == 0 {
      KeepNone(s, key, want);
    } else {
      var t := s[1..];
      assert forall i :: 0 <= i < |t| ==> t[i] == s[i + 1];
      KeepPrefix(t, key, want, k - 1);
      assert s[..k] == [s[0]] + t[..k - 1];
    }
  }

  /** When the passing elements are exactly a suffix, the filter returns that suffix. */
  lemma {:induction false} KeepSuffix<T, K>(s: seq<T>, key: T -> K, want: K, k: nat)
    requires k <= |s|
    requires forall i :: 0 <= i < k ==> key(s[i]) != want
    requires forall i :: k <= i < |s| ==> key(s[i]) == want
    ensures Keep(s, key, want) == s[k..]
  {
    if k == 0 {
      KeepWhole(s, key, want);
    } else {
      var t := s[1..];
      assert forall i :: 0 <= i < |t| ==> t[i] == s[i + 1];
      KeepSuffix(t, key, want, k - 1);
      assert s[k..] == t[k - 1..];
    }
  }

  /** `s.slice(0, n)`. */
  function Take<T>(s: seq<T>, n: nat): seq<T>
  {
    if |s| <= n then s else s[..n]
  }

  /** A slice from the start keeps the first `min(n, |s|)` elements, in order. */
  lemma TakePrefix<T>(s: seq<T>, n: nat)
    ensures |Take(s, n)| == (if |s| <= n then |s| else n)
    ensures Take(s, n) == s[..|Take(s, n)|]
    ensures forall i :: 0 <= i < |Take(s, n)| ==> Take(s, n)[i] == s[i]
  {
  }

  /** The category filter: the sentinel 'all' keeps everything, any other value keeps exact matches. */
  function CategoryFilter<T>(s: seq<T>, category: T -> string, selected: string): seq<T>
  {
    if selected == "all" then s else Keep(s, category, selected)
  }

  /** `filtered.filter(x => x.featured)`. */
  function Featured<T>(s: seq<T>, flag: T -> bool): seq<T>
  {
    Keep(s, flag, true)
  }

  /** `filtered.filter(x => !x.featured)`. */
  function Regular<T>(s: seq<T>, flag: T -> bool): seq<T>
  {
    Keep(s, flag, false)
  }

  /**
   * What the category filter returns: the whole list for 'all'; for anything else, the
   * order-preserving subsequence of exactly those elements whose category equals it, each
   * as often as the list holds it.
   */
  lemma CategoryFilterExact<T>(s: seq<T>, category: T -> string, selected: string)
    ensures var r := CategoryFilter(s, category, selected);
            && (selected == "all" ==> r == s)
            && (selected != "all" ==>
                  && IsSubsequence(r, s)
                  && (forall x :: x in r <==> x in s && category(x) == selected)
                  && (forall x :: multiset(r)[x] == if category(x) == selected then multiset(s)[x] else 0)
                  && (r == s <==> forall i :: 0 <= i < |s| ==> category(s[i]) == selected))
  {
    if selected != "all" {
      KeepMembers(s, category, selected);
      KeepCount(s, category, selected);
      KeepIsSubsequence(s, category, selected);
      KeepWhole(s, category, selected);
    }
  }

  /**
   * Featured and regular partition the filtered list: both keep its order, their lengths
   * add up to its length, they share no element, and together they hold each element
   * as often as the list does.
   */
  lemma FeaturedRegularPartition<T>(s: seq<T>, flag: T -> bool)
    ensures IsSubsequence(Featured(s, flag), s) && IsSubsequence(Regular(s, flag), s)
    ensures forall x :: x in Featured(s, flag) <==> x in s && flag(x)
    ensures forall x :: x in Regular(s, flag) <==> x in s && !flag(x)
    ensures |Featured(s, flag)| + |Regular(s, flag)| == |s|
    ensures multiset(Featured(s, flag)) + multiset(Regular(s, flag)) == multiset(s)
    ensures forall x :: multiset(Featured(s, flag))[x] == if flag(x) then multiset(s)[x] else 0
    ensures forall x :: multiset(Regular(s, flag))[x] == if flag(x) then 0 else multiset(s)[x]
  {
    KeepCount(s, flag, true);
    KeepCount(s, flag, false);
    KeepIsSubsequence(s, flag, true);
    KeepIsSubsequence(s, flag, false);
    KeepPartition(s, flag);
    KeepMembers(s, flag, true);
    KeepMembers(s, flag, false);
  }
}
