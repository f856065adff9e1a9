/** The two GLib string services the signing algorithm relies on:
    `g_strcmp0` on non-NULL strings (which behaves like `strcmp`), and
    `g_list_sort` of a list of strings under that comparison.

    Strings are sequences of Unicode characters. Comparing code points one by
    one orders strings exactly as `strcmp` orders their UTF-8 bytes, because
    UTF-8 preserves code-point order. */
module GlibStrings {
  import opened Wrappers

  /** `g_strcmp0 (a, b)` for non-NULL `a` and `b`: negative, zero or positive
      as `a` sorts before, equal to or after `b`; a proper prefix sorts first. */
  function Compare(a: string, b: string): (r: int)
    ensures -1 <= r <= 1
    decreases |a|
  {
    if a == [] then (if b == [] then 0 else -1)
    else if b == [] then 1
    else if a[0] < b[0] then -1
    else if a[0] > b[0] then 1
    else Compare(a[1..], b[1..])
  }

  /** The comparison is zero exactly on equal strings, so `g_strcmp0 (a, b) == 0`
      is string equality. */
  lemma {:induction false} CompareZeroIffEqual(a: string, b: string)
    ensures Compare(a, b) == 0 <==> a == b
    decreases |a|
  {
    if a != [] && b != [] && a[0] == b[0] {
      CompareZeroIffEqual(a[1..], b[1..]);
      assert a == [a[0]] + a[1..] && b == [b[0]] + b[1..];
    }
  }

  /** `g_strcmp0` itself, which also accepts NULL and sorts it before every
      string. Zero means "equal, or both NULL". */
  function StrCmp0(a: Option<string>, b: Option<string>): (r: int)
    ensures r == 0 <==> a == b
  {
    match (a, b)
    case (None, None) => 0
    case (None, Some(_)) => -1
    case (Some(_), None) => 1
    case (Some(x), Some(y)) =>
      CompareZeroIffEqual(x, y);
      Compare(x, y)
  }

  /** Swapping the arguments flips the sign. */
  lemma {:induction false} CompareAntisymmetric(a: string, b: string)
    ensures Compare(a, b) == -Compare(b, a)
    decreases |a|
  {
    if a != [] && b != [] && a[0] == b[0] {
      CompareAntisymmetric(a[1..], b[1..]);
    }
  }

  /** "Sorts strictly before" is transitive. */
  lemma {:induction false} CompareTransitive(a: string, b: string, c: string)
    requires Compare(a, b) < 0 && Compare(b, c) < 0
    ensures Compare(a, c) < 0
    decreases |a|
  {
    if a != [] && b != [] && c != [] && a[0] == b[0] && b[0] == c[0] {
      CompareTransitive(a[1..], b[1..], c[1..]);
    }
  }

  /** "Sorts before or equal to" is transitive. */
  lemma CompareAtMostTransitive(a: string, b: string, c: string)
    requires Compare(a, b) <= 0 && Compare(b, c) <= 0
    ensures Compare(a, c) <= 0
  {
    CompareZeroIffEqual(a, b);
    CompareZeroIffEqual(b, c);
    if Compare(a, b) < 0 && Compare(b, c) < 0 {
      CompareTransitive(a, b, c);
    }
  }

  /** Ascending order under `g_strcmp0`. */
  predicate Sorted(s: seq<string>)
  {
    forall i, j | 0 <= i < j < |s| :: Compare(s[i], s[j]) <= 0
  }

  /** Prepending an element no greater than any member keeps a sequence ascending. */
  lemma ConsSorted(h: string, t: seq<string>)
    requires Sorted(t)
    requires forall y | y in t :: Compare(h, y) <= 0
    ensures Sorted([h] + t)
  {
    forall i, j | 0 <= i < j < |[h] + t| ensures Compare(([h] + t)[i], ([h] + t)[j]) <= 0 {
      if i > 0 {
        assert ([h] + t)[i] == t[i - 1] && ([h] + t)[j] == t[j - 1];
      } else {
        assert ([h] + t)[j] in t;
      }
    }
  }

  /** Inserting into an ascending sequence. */
  function Insert(x: string, s: seq<string>): (r: seq<string>)
    requires Sorted(s)
    ensures Sorted(r)
    ensures multiset(r) == multiset(s) + multiset{x}
  {
    if s == [] then [x]
    else if Compare(x, s[0]) <= 0 then
      forall y | y in s ensures Compare(x, y) <= 0 {
        var j :| 0 <= j < |s| && s[j] == y;
        if j > 0 { CompareAtMostTransitive(x, s[0], s[j]); }
      }
      ConsSorted(x, s);
      [x] + s
    else
      assert s == [s[0]] + s[1..];
      var tail := Insert(x, s[1..]);
      CompareAntisymmetric(x, s[0]);
      forall y | y in tail ensures Compare(s[0], y) <= 0 {
        assert y in multiset(tail);
        if y != x {
          assert y in multiset(s[1..]);
          var j :| 0 <= j < |s[1..]| && s[1..][j] == y;
          assert s[j + 1] == y;
        }
      }
      ConsSorted(s[0], tail);
      [s[0]] + tail
  }

  /** `g_list_sort (keys, g_strcmp0)`. GLib merge-sorts; any algorithm that
      returns an ascending permutation gives the same list (see SortedUnique),
      so insertion sort stands in for it. */
  function Sort(s: seq<string>): (r: seq<string>)
    ensures Sorted(r)
    ensures multiset(r) == multiset(s)
  {
    if s == [] then []
    else
      assert s == [s[0]] + s[1..];
      Insert(s[0], Sort(s[1..]))
  }

  /** The first element of an ascending sequence is no greater than any element. */
  lemma HeadIsLeast(s: seq<string>, x: string)
    requires Sorted(s) && x in multiset(s)
    ensures |s| > 0 && Compare(s[0], x) <= 0
  {
    var j :| 0 <= j < |s| && s[j] == x;
    CompareZeroIffEqual(x, x);
  }

  /** The tail of an ascending sequence is ascending. */
  lemma SortedTail(s: seq<string>)
    requires Sorted(s) && s != []
    ensures Sorted(s[1..])
  {
    var t := s[1..];
    forall i, j | 0 <= i < j < |t| ensures Compare(t[i], t[j]) <= 0 {
      assert t[i] == s[i + 1] && t[j] == s[j + 1];
    }
  }

  /** Equal multisets with equal first elements have equal tails. */
  lemma MultisetTail(a: seq<string>, b: seq<string>)
    requires a != [] && b != [] && a[0] == b[0]
    requires multiset(a) == multiset(b)
    ensures multiset(a[1..]) == multiset(b[1..])
  {
    assert a == [a[0]] + a[1..] && b == [b[0]] + b[1..];
    assert multiset(a) == multiset{a[0]} + multiset(a[1..]);
    assert multiset(b) == multiset{b[0]} + multiset(b[1..]);
    assert multiset(a[1..]) == multiset(a) - multiset{a[0]};
    assert multiset(b[1..]) == multiset(b) - multiset{b[0]};
  }

  /** Two ascending sequences over the same multiset start alike. */
  lemma SortedSameHead(a: seq<string>, b: seq<string>)
    requires Sorted(a) && Sorted(b) && a != []
    requires multiset(a) == multiset(b)
    ensures b != [] && a[0] == b[0]
  {
    assert a[0] in multiset(a);
    assert a[0] in multiset(b) && b[0] in multiset(a);
    HeadIsLeast(b, a[0]);
    HeadIsLeast(a, b[0]);
    CompareAntisymmetric(a[0], b[0]);
    CompareZeroIffEqual(a[0], b[0]);
  }

  /** An ascending permutation of a multiset of strings is unique. */
  lemma {:induction false} SortedUnique(a: seq<string>, b: seq<string>)
    requires Sorted(a) && Sorted(b)
    requires multiset(a) == multiset(b)
    ensures a == b
    decreases |a|
  {
    if a != [] {
      SortedSameHead(a, b);
      MultisetTail(a, b);
      SortedTail(a);
      SortedTail(b);
      SortedUnique(a[1..], b[1..]);
      assert a == [a[0]] + a[1..] && b == [b[0]] + b[1..];
    } else {
      assert |multiset(b)| == 0;
    }
  }

  /** Sorting forgets the order of its input: two enumerations of the same
      keys sort to the same list. This is why the order in which a hash table
      hands out its keys cannot change a signature. */
  lemma SortIgnoresInputOrder(a: seq<string>, b: seq<string>)
    requires multiset(a) == multiset(b)
    ensures Sort(a) == Sort(b)
  {
    SortedUnique(Sort(a), Sort(b));
  }

  /** Adding `y` to a set whose least element is `m`: the smaller of the two
      is least. */
  lemma LeastWithOneMore(s: set<string>, y: string, m: string)
    requires y in s && m in s && m != y
    requires forall x | x in s - {y} :: Compare(m, x) <= 0
    ensures exists w | w in s :: forall x | x in s :: Compare(w, x) <= 0
  {
    if Compare(y, m) <= 0 {
      forall x | x in s ensures Compare(y, x) <= 0 {
        if x == y {
          CompareZeroIffEqual(y, y);
        } else {
          assert x in s - {y};
          CompareAtMostTransitive(y, m, x);
        }
      }
    } else {
      CompareAntisymmetric(y, m);
      forall x | x in s ensures Compare(m, x) <= 0 {
        if x != y {
          assert x in s - {y};
        }
      }
    }
  }

  /** A finite non-empty set of strings has a least element. */
  lemma {:induction false} LeastExists(s: set<string>)
    requires s != {}
    ensures exists m | m in s :: forall x | x in s :: Compare(m, x) <= 0
    decreases s
  {
    var y :| y in s;
    if s == {y} {
      CompareZeroIffEqual(y, y);
      assert forall x | x in s :: Compare(y, x) <= 0;
    } else {
      LeastExists(s - {y});
      var m :| m in s - {y} && forall x | x in s - {y} :: Compare(m, x) <= 0;
      LeastWithOneMore(s, y, m);
    }
  }

  /** The members of a set in ascending order: a declarative reference for
      "sort the keys", independent of any sorting algorithm. Its properties
      are `AscendingSortedPermutation`. */
  ghost function Ascending(s: set<string>): seq<string>
    decreases s
  {
    if s == {} then []
    else
      LeastExists(s);
      var m :| m in s && forall x | x in s :: Compare(m, x) <= 0;
      [m] + Ascending(s - {m})
  }

  /** `Ascending(s)` lists every member of `s` once, in ascending order. */
  lemma {:induction false} AscendingSortedPermutation(s: set<string>)
    ensures Sorted(Ascending(s))
    ensures multiset(Ascending(s)) == multiset(s)
    decreases s
  {
    if s != {} {
      var m := Ascending(s)[0];
      var rest := Ascending(s - {m});
      assert Ascending(s) == [m] + rest;
      assert m in s && forall x | x in s :: Compare(m, x) <= 0;
      AscendingSortedPermutation(s - {m});
      forall y | y in rest ensures Compare(m, y) <= 0 {
        assert y in multiset(rest);
      }
      ConsSorted(m, rest);
      assert multiset(s) == multiset(s - {m}) + multiset{m};
    }
  }

  /** Sorting any enumeration of a set yields the set in ascending order. */
  lemma SortIsAscending(keys: seq<string>, s: set<string>)
    requires multiset(keys) == multiset(s)
    ensures Sort(keys) == Ascending(s)
  {
    AscendingSortedPermutation(s);
    SortedUnique(Sort(keys), Ascending(s));
  }
}
