/** List primitives the modelled code relies on: Python's `sorted()`, `Trivial.list_dedup` and the
    sort-and-deduplicate step of `ArgParse.parse_int_list`. */
module Lists {

  predicate NoDups<T(==)>(s: seq<T>) {
    forall i, j :: 0 <= i < j < |s| ==> s[i] != s[j]
  }

  predicate Sorted(s: seq<nat>) {
    forall i, j :: 0 <= i < j < |s| ==> s[i] <= s[j]
  }

  predicate StrictlyIncreasing(s: seq<nat>) {
    forall i, j :: 0 <= i < j < |s| ==> s[i] < s[j]
  }

  /** Concatenation of a list of lists. */
  function Concat<T>(ss: seq<seq<T>>): seq<T> {
    if ss == [] then [] else Concat(ss[..|ss| - 1]) + ss[|ss| - 1]
  }

  /** `Trivial.list_dedup`: every element once, at the place of its first occurrence. */
  function Dedup(s: seq<nat>): (r: seq<nat>)
    ensures forall x :: x in r <==> x in s
    ensures NoDups(r)
    ensures |r| <= |s|
  {
    if s == [] then []
    else
      var init := s[..|s| - 1];
      if s[|s| - 1] in init then Dedup(init) else Dedup(init) + [s[|s| - 1]]
  }

  /** A list without duplicates is left as it is. */
  lemma {:induction false} DedupOfNoDups(s: seq<nat>)
    requires NoDups(s)
    ensures Dedup(s) == s
  {
    if s != [] {
      var init := s[..|s| - 1];
      assert NoDups(init);
      DedupOfNoDups(init);
      assert s[|s| - 1] !in init;
      assert init + [s[|s| - 1]] == s;
    }
  }

  /** What one more element adds to the de-duplicated list. */
  lemma DedupSnoc(c: seq<nat>, k: nat)
    ensures Dedup(c + [k]) == if k in c then Dedup(c) else Dedup(c) + [k]
    ensures k in Dedup(c) <==> k in c
  {
    assert (c + [k])[..|c|] == c;
  }

  /** De-duplicating a suffix first changes nothing. */
  lemma {:induction false} DedupOfDedup(a: seq<nat>, b: seq<nat>)
    ensures Dedup(a + Dedup(b)) == Dedup(a + b)
    decreases |b|
  {
    if b != [] {
      var init := b[..|b| - 1];
      var x := b[|b| - 1];
      DedupOfDedup(a, init);
      assert b == init + [x];
      assert a + b == (a + init) + [x];
      DedupSnoc(init, x);
      DedupSnoc(a + init, x);
      if x !in init {
        assert a + Dedup(b) == (a + Dedup(init)) + [x];
        DedupSnoc(a + Dedup(init), x);
      }
    }
  }

  /** Dedup keeps the relative order of first occurrences: appending elements never reorders
      what is already there. */
  lemma {:induction false} DedupPrefix(a: seq<nat>, b: seq<nat>)
    ensures |Dedup(a)| <= |Dedup(a + b)| && Dedup(a + b)[..|Dedup(a)|] == Dedup(a)
    decreases |b|
  {
    if b == [] {
      assert a + b == a;
    } else {
      var b' := b[..|b| - 1];
      DedupPrefix(a, b');
      assert (a + b)[..|a + b| - 1] == a + b';
    }
  }

  function Insert(x: nat, s: seq<nat>): (r: seq<nat>)
    requires Sorted(s)
    ensures Sorted(r)
    ensures multiset(r) == multiset(s) + multiset{x}
    ensures |r| == |s| + 1 && (r[0] == x || (|s| > 0 && r[0] == s[0]))
  {
    if s == [] || x <= s[0] then
      [x] + s
    else
      var rest := Insert(x, s[1..]);
      assert s == [s[0]] + s[1..];
      [s[0]] + rest
  }

  /** Python's `sorted()` on a list of integers: an ascending permutation. */
  function Sort(s: seq<nat>): (r: seq<nat>)
    ensures Sorted(r)
    ensures multiset(r) == multiset(s)
  {
    if s == [] then []
    else
      assert s == [s[0]] + s[1..];
      Insert(s[0], Sort(s[1..]))
  }

  /** A list has no duplicates exactly when no element occurs twice in its multiset. */
  lemma {:induction false} NoDupsMultiplicity<T>(s: seq<T>)
    ensures NoDups(s) <==> forall x :: multiset(s)[x] <= 1
  {
    if s != [] {
      var init := s[..|s| - 1];
      var y := s[|s| - 1];
      assert s == init + [y];
      NoDupsMultiplicity(init);
      if NoDups(s) {
        assert NoDups(init);
        assert y !in init;
        assert multiset(init)[y] == 0;
      }
      if forall x :: multiset(s)[x] <= 1 {
        assert forall x :: multiset(init)[x] <= multiset(s)[x];
        assert multiset(init)[y] == 0;
        forall i, j | 0 <= i < j < |s| ensures s[i] != s[j] {
          if j == |s| - 1 {
            assert s[i] in init;
          } else {
            assert init[i] != init[j];
          }
        }
      }
    }
  }

  /** Sorting a list without duplicates gives a strictly increasing list. */
  lemma SortNoDups(s: seq<nat>)
    requires NoDups(s)
    ensures StrictlyIncreasing(Sort(s))
  {
    var r := Sort(s);
    NoDupsMultiplicity(s);
    NoDupsMultiplicity(r);
    forall i, j | 0 <= i < j < |r| ensures r[i] < r[j] {
      assert r[i] <= r[j];
    }
  }

  /** The sort-and-deduplicate step of `ArgParse.parse_int_list(..., dedup=True, sort=True)`,
      also Python's `sorted(set(xs))`. */
  function SortedUnique(s: seq<nat>): (r: seq<nat>)
    ensures StrictlyIncreasing(r)
    ensures forall x :: x in r <==> x in s
  {
    var d := Dedup(s);
    SortNoDups(d);
    assert forall x :: x in Sort(d) <==> x in multiset(d);
    Sort(d)
  }

  /** Two strictly increasing lists with the same elements are equal. */
  lemma {:induction false} StrictlyIncreasingUnique(a: seq<nat>, b: seq<nat>)
    requires StrictlyIncreasing(a) && StrictlyIncreasing(b)
    requires forall x :: x in a <==> x in b
    ensures a == b
  {
    assert a != [] ==> a[0] in b;
    assert b != [] ==> b[0] in a;
    if a != [] && b != [] {
      SameTails(a, b);
      StrictlyIncreasingUnique(a[1..], b[1..]);
      assert a == [a[0]] + a[1..] && b == [b[0]] + b[1..];
    }
  }

  /** Two ascending lists with the same members start alike and their tails have the same
      members. */
  lemma SameTails(a: seq<nat>, b: seq<nat>)
    requires StrictlyIncreasing(a) && StrictlyIncreasing(b) && a != [] && b != []
    requires forall x :: x in a <==> x in b
    ensures a[0] == b[0] && StrictlyIncreasing(a[1..]) && StrictlyIncreasing(b[1..])
    ensures forall x :: x in a[1..] <==> x in b[1..]
  {
    assert a[0] in b && b[0] in a;
    var j :| 0 <= j < |b| && b[j] == a[0];
    var i :| 0 <= i < |a| && a[i] == b[0];
    assert a[0] <= a[i] && b[0] <= b[j];
    forall x ensures x in a[1..] <==> x in b[1..] {
      if x in a[1..] {
        var k :| 0 <= k < |a[1..]| && a[1..][k] == x;
        assert a[k + 1] == x && x in b && x != b[0];
      }
      if x in b[1..] {
        var k :| 0 <= k < |b[1..]| && b[1..][k] == x;
        assert b[k + 1] == x && x in a && x != a[0];
      }
    }
  }

  /** The first element of an ascending list is its least. */
  lemma SortedHead(a: seq<nat>, x: nat)
    requires Sorted(a) && x in a
    ensures a[0] <= x
  {
  }

  /** Two ascending lists with the same elements, counted with multiplicity, are equal: the
      result of `sorted()` depends only on the multiset of its input. */
  lemma {:induction false} SortedByMultiset(a: seq<nat>, b: seq<nat>)
    requires Sorted(a) && Sorted(b) && multiset(a) == multiset(b)
    ensures a == b
    decreases |a|
  {
    assert |a| == |multiset(a)| == |multiset(b)| == |b|;
    if a != [] {
      SortedTails(a, b);
      SortedByMultiset(a[1..], b[1..]);
      assert a == [a[0]] + a[1..] && b == [b[0]] + b[1..];
    }
  }

  /** Two ascending lists with the same multiset start alike, and their tails are ascending
      with the same multiset. */
  lemma SortedTails(a: seq<nat>, b: seq<nat>)
    requires Sorted(a) && Sorted(b) && multiset(a) == multiset(b) && a != [] && b != []
    ensures a[0] == b[0] && Sorted(a[1..]) && Sorted(b[1..])
    ensures multiset(a[1..]) == multiset(b[1..])
  {
    var a', b' := a[1..], b[1..];
    assert a[0] == b[0] by {
      assert a[0] in multiset(b) && b[0] in multiset(a);
      SortedHead(a, b[0]);
      SortedHead(b, a[0]);
    }
    assert multiset(a) == multiset{a[0]} + multiset(a') by { assert a == [a[0]] + a'; }
    assert multiset(b) == multiset{a[0]} + multiset(b') by { assert b == [b[0]] + b'; }
    forall x ensures multiset(a')[x] == multiset(b')[x] {
      assert multiset(a)[x] == multiset(b)[x];
    }
  }

  /** One more element of a prefix. */
  lemma TakeSnoc<T>(s: seq<T>, i: nat)
    requires i < |s|
    ensures s[..i + 1] == s[..i] + [s[i]]
  {
  }

  /** `x in Concat(ss)` exactly when `x` occurs in one of the lists. */
  lemma {:induction false} InConcat<T>(ss: seq<seq<T>>, x: T)
    ensures x in Concat(ss) <==> exists i :: 0 <= i < |ss| && x in ss[i]
  {
    if ss != [] {
      var init := ss[..|ss| - 1];
      InConcat(init, x);
      assert forall i :: 0 <= i < |init| ==> ss[i] == init[i];
    }
  }

  lemma {:induction false} ConcatAppend<T>(a: seq<seq<T>>, b: seq<seq<T>>)
    ensures Concat(a + b) == Concat(a) + Concat(b)
    decreases |b|
  {
    if b == [] {
      assert a + b == a;
    } else {
      var b' := b[..|b| - 1];
      ConcatAppend(a, b');
      assert (a + b)[..|a + b| - 1] == a + b';
    }
  }
}
