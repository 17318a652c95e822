/** Grouping of ID lists into runs of consecutive numbers and their range tokens ("3", "0-7"), as
    `get_cpu_geometry` builds the `*_grouped` and `*_ranges` entries (pepclibs/CPUInfo.py:393-407). */
module Ranges {
  import opened Base
  import opened Lists

  /** Every element is its predecessor plus one. */
  predicate Consecutive(g: seq<nat>) {
    forall i :: 0 <= i < |g| - 1 ==> g[i + 1] == g[i] + 1
  }

  /** The key of `groupby(enumerate(xs), lambda elt: int(elt[1]) - elt[0])`. */
  function RunKey(s: seq<nat>, i: nat): int
    requires i < |s|
  {
    s[i] - i
  }

  /** `groupby` with that key: the element at position i joins the group of position i - 1
      exactly when both have the same key. */
  function Runs(s: seq<nat>): (r: seq<seq<nat>>)
    ensures (r == []) == (s == [])
  {
    if s == [] then []
    else
      var n := |s| - 1;
      var groups := Runs(s[..n]);
      if n > 0 && RunKey(s, n) == RunKey(s, n - 1) then
        groups[..|groups| - 1] + [groups[|groups| - 1] + [s[n]]]
      else
        groups + [[s[n]]]
  }

  /** `groups` split `s` into maximal runs: concatenated they give `s` back, every run is
      non-empty and consecutive, and no run continues into the next one. */
  ghost predicate Partitions(groups: seq<seq<nat>>, s: seq<nat>) {
    && Concat(groups) == s
    && (forall k :: 0 <= k < |groups| ==> |groups[k]| > 0 && Consecutive(groups[k]))
    && (forall k :: 0 <= k < |groups| - 1 ==> groups[k][|groups[k]| - 1] + 1 != groups[k + 1][0])
  }

  lemma LastOfPartition(groups: seq<seq<nat>>, s: seq<nat>)
    requires Partitions(groups, s) && groups != []
    ensures s != [] && s[|s| - 1] == groups[|groups| - 1][|groups[|groups| - 1]| - 1]
  {
    var m := |groups| - 1;
    assert groups == groups[..m] + [groups[m]];
    ConcatAppend(groups[..m], [groups[m]]);
    assert Concat([groups[m]]) == groups[m];
  }

  /** One more element that continues the last run joins that run. */
  lemma JoinStep(groups: seq<seq<nat>>, s: seq<nat>, x: nat)
    requires Partitions(groups, s) && groups != [] && x == s[|s| - 1] + 1
    ensures
      var m := |groups| - 1;
      Partitions(groups[..m] + [groups[m] + [x]], s + [x])
  {
    var m := |groups| - 1;
    LastOfPartition(groups, s);
    var g := groups[m] + [x];
    var r := groups[..m] + [g];
    assert groups == groups[..m] + [groups[m]];
    ConcatAppend(groups[..m], [groups[m]]);
    ConcatAppend(groups[..m], [g]);
    assert Concat([groups[m]]) == groups[m] && Concat([g]) == g;
    assert Consecutive(g);
    forall k | 0 <= k < |r| - 1
      ensures r[k][|r[k]| - 1] + 1 != r[k + 1][0]
    {
      assert r[k] == groups[k];
      assert r[k + 1][0] == groups[k + 1][0];
    }
  }

  /** One more element that does not continue the last run starts a run of its own. */
  lemma NewStep(groups: seq<seq<nat>>, s: seq<nat>, x: nat)
    requires Partitions(groups, s)
    requires groups != [] ==> x != s[|s| - 1] + 1
    ensures Partitions(groups + [[x]], s + [x])
  {
    var r := groups + [[x]];
    ConcatAppend(groups, [[x]]);
    assert Concat([[x]]) == [x];
    if groups != [] {
      LastOfPartition(groups, s);
    }
    forall k | 0 <= k < |r| - 1
      ensures r[k][|r[k]| - 1] + 1 != r[k + 1][0]
    {
      assert r[k] == groups[k];
    }
  }

  /** The runs partition the input into maximal runs of consecutive numbers. */
  lemma {:induction false} RunsPartition(s: seq<nat>)
    ensures Partitions(Runs(s), s)
  {
    if s != [] {
      var n := |s| - 1;
      var init, x := s[..n], s[n];
      var groups := Runs(init);
      RunsPartition(init);
      assert s == init + [x];
      if n > 0 && RunKey(s, n) == RunKey(s, n - 1) {
        assert Runs(s) == groups[..|groups| - 1] + [groups[|groups| - 1] + [x]];
        assert x == init[|init| - 1] + 1;
        JoinStep(groups, init, x);
      } else {
        assert Runs(s) == groups + [[x]];
        assert groups != [] ==> x != init[|init| - 1] + 1;
        NewStep(groups, init, x);
      }
    }
  }

  /** A non-empty consecutive list is the interval from its first to its last element. */
  function Interval(lo: nat, hi: nat): (r: seq<nat>)
    requires lo <= hi
    ensures |r| == hi - lo + 1
  {
    seq(hi - lo + 1, i requires 0 <= i <= hi - lo => lo + i)
  }

  lemma {:induction false} ConsecutiveIsInterval(g: seq<nat>)
    requires |g| > 0 && Consecutive(g)
    ensures g[0] <= g[|g| - 1] && g == Interval(g[0], g[|g| - 1])
  {
    var k := 0;
    while k < |g| - 1
      invariant 0 <= k < |g|
      invariant forall i :: 0 <= i <= k ==> g[i] == g[0] + i
    {
      assert g[k + 1] == g[k] + 1;
      k := k + 1;
    }
    assert forall i :: 0 <= i < |g| ==> g[i] == Interval(g[0], g[|g| - 1])[i];
  }

  // ----- decimal rendering, Python's str() on a non-negative int -----

  predicate IsDigit(c: char) {
    48 <= c as int <= 57
  }

  function DigitChar(d: nat): (c: char)
    requires d < 10
    ensures IsDigit(c) && c as int - 48 == d
  {
    (48 + d) as char
  }

  function NatToString(n: nat): (r: string)
    ensures |r| > 0
    ensures forall i :: 0 <= i < |r| ==> IsDigit(r[i])
  {
    if n < 10 then [DigitChar(n)] else NatToString(n / 10) + [DigitChar(n % 10)]
  }

  /** The value of a non-empty string of decimal digits. */
  function DigitsValue(s: string): nat
    requires |s| > 0 && forall i :: 0 <= i < |s| ==> IsDigit(s[i])
  {
    assert IsDigit(s[|s| - 1]);
    var d := s[|s| - 1] as int - 48;
    if |s| == 1 then d else DigitsValue(s[..|s| - 1]) * 10 + d
  }

  /** Python's int() on a decimal string without sign: None where it would raise. */
  function ParseNat(s: string): Option<nat> {
    if |s| > 0 && forall i :: 0 <= i < |s| ==> IsDigit(s[i]) then Some(DigitsValue(s)) else None
  }

  lemma {:induction false} ParseNatToString(n: nat)
    ensures ParseNat(NatToString(n)) == Some(n)
  {
    if n >= 10 {
      ParseNatToString(n / 10);
      var s := NatToString(n);
      assert s[..|s| - 1] == NatToString(n / 10);
    }
  }

  // ----- range tokens -----

  /** The range token of one group: "<first>" for a single element, "<first>-<last>" otherwise. */
  function Token(g: seq<nat>): string
    requires |g| > 0
  {
    if |g| == 1 then NatToString(g[0])
    else NatToString(g[0]) + "-" + NatToString(g[|g| - 1])
  }

  function Tokens(groups: seq<seq<nat>>): (r: seq<string>)
    requires forall k :: 0 <= k < |groups| ==> |groups[k]| > 0
    ensures |r| == |groups|
  {
    seq(|groups|, k requires 0 <= k < |groups| => Token(groups[k]))
  }

  /** Reads a range token back: a number, or two numbers around the first '-'. */
  function ParseToken(t: string): Option<seq<nat>> {
    if '-' in t then
      var i := IndexOfDash(t);
      match (ParseNat(t[..i]), ParseNat(t[i + 1..]))
      case (Some(lo), Some(hi)) => if lo <= hi then Some(Interval(lo, hi)) else None
      case _ => None
    else
      match ParseNat(t)
      case Some(v) => Some([v])
      case None => None
  }

  function IndexOfDash(t: string): (i: nat)
    requires '-' in t
    ensures i < |t| && t[i] == '-' && '-' !in t[..i]
  {
    if t[0] == '-' then 0 else 1 + IndexOfDash(t[1..])
  }

  lemma NoDashInDigits(a: string)
    requires forall i :: 0 <= i < |a| ==> IsDigit(a[i])
    ensures '-' !in a
  {
    forall i | 0 <= i < |a| ensures a[i] != '-' {
      assert IsDigit(a[i]);
    }
  }

  /** In "<digits>-<rest>" the first '-' is the one after the digits. */
  lemma {:induction false} IndexOfDashAfterDigits(a: string, b: string)
    requires forall i :: 0 <= i < |a| ==> IsDigit(a[i])
    ensures IndexOfDash(a + "-" + b) == |a|
  {
    var t := a + "-" + b;
    if a != [] {
      assert IsDigit(a[0]) && t[0] == a[0];
      assert t[1..] == a[1..] + "-" + b;
      IndexOfDashAfterDigits(a[1..], b);
    }
  }

  /** Every token reads back as the group it was made from, so the tokens lose nothing. */
  lemma ParseTokenOfToken(g: seq<nat>)
    requires |g| > 0 && Consecutive(g)
    ensures ParseToken(Token(g)) == Some(g)
  {
    var a := NatToString(g[0]);
    ParseNatToString(g[0]);
    if |g| == 1 {
      NoDashInDigits(a);
      assert g == [g[0]];
    } else {
      var b := NatToString(g[|g| - 1]);
      ParseNatToString(g[|g| - 1]);
      var t := a + "-" + b;
      assert t[|a|] == '-';
      IndexOfDashAfterDigits(a, b);
      assert t[..|a|] == a && t[|a| + 1..] == b;
      ConsecutiveIsInterval(g);
    }
  }

  /** Decoding a token list: every token read back and the groups concatenated. */
  function ExpandTokens(ts: seq<string>): Option<seq<nat>> {
    if ts == [] then Some([])
    else
      match (ExpandTokens(ts[..|ts| - 1]), ParseToken(ts[|ts| - 1]))
      case (Some(xs), Some(g)) => Some(xs + g)
      case _ => None
  }

  /** Tokens of consecutive groups expand back to the groups' concatenation. */
  lemma {:induction false} ExpandTokensOfGroups(groups: seq<seq<nat>>)
    requires forall k :: 0 <= k < |groups| ==> |groups[k]| > 0 && Consecutive(groups[k])
    ensures ExpandTokens(Tokens(groups)) == Some(Concat(groups))
  {
    if groups != [] {
      var n := |groups| - 1;
      ExpandTokensOfGroups(groups[..n]);
      assert Tokens(groups)[..n] == Tokens(groups[..n]);
      ParseTokenOfToken(groups[n]);
    }
  }

  /** Range compression is a left inverse of expansion: expanding the tokens of the runs of any
      ID list gives the list back. */
  lemma ExpandTokensOfRuns(s: seq<nat>)
    ensures forall k :: 0 <= k < |Runs(s)| ==> |Runs(s)[k]| > 0
    ensures ExpandTokens(Tokens(Runs(s))) == Some(s)
  {
    RunsPartition(s);
    ExpandTokensOfGroups(Runs(s));
  }

  /** `Human.rangify` as this model renders it: the range tokens joined with commas. */
  function Rangify(nums: seq<nat>): string {
    RunsPartition(nums);
    Join(Tokens(Runs(nums)))
  }

  function Join(ts: seq<string>): string {
    if ts == [] then ""
    else if |ts| == 1 then ts[0]
    else Join(ts[..|ts| - 1]) + "," + ts[|ts| - 1]
  }

  /** The loop that groups a sorted ID list (pepclibs/CPUInfo.py:401-402). */
  method GroupConsecutive(s: seq<nat>) returns (groups: seq<seq<nat>>)
    ensures groups == Runs(s)
    ensures Concat(groups) == s
    ensures forall k :: 0 <= k < |groups| ==> |groups[k]| > 0 && Consecutive(groups[k])
  {
    groups := [];
    var i := 0;
    while i < |s|
      invariant 0 <= i <= |s|
      invariant groups == Runs(s[..i])
    {
      assert s[..i + 1][..i] == s[..i];
      if i > 0 && RunKey(s, i) == RunKey(s, i - 1) {
        groups := groups[..|groups| - 1] + [groups[|groups| - 1] + [s[i]]];
      } else {
        groups := groups + [[s[i]]];
      }
      i := i + 1;
    }
    assert s[..i] == s;
    RunsPartition(s);
  }

  /** The loop that renders each group as a range token (pepclibs/CPUInfo.py:403-407). */
  method RangeTokens(groups: seq<seq<nat>>) returns (ranges: seq<string>)
    requires forall k :: 0 <= k < |groups| ==> |groups[k]| > 0 && Consecutive(groups[k])
    ensures ranges == Tokens(groups)
    ensures forall k :: 0 <= k < |ranges| ==> ParseToken(ranges[k]) == Some(groups[k])
  {
    ranges := [];
    for k := 0 to |groups|
      invariant ranges == Tokens(groups[..k])
    {
      if |groups[k]| == 1 {
        ranges := ranges + [NatToString(groups[k][0])];
      } else {
        ranges := ranges + [NatToString(groups[k][0]) + "-" + NatToString(groups[k][|groups[k]| - 1])];
      }
    }
    assert groups[..|groups|] == groups;
    forall k | 0 <= k < |ranges| ensures ParseToken(ranges[k]) == Some(groups[k]) {
      ParseTokenOfToken(groups[k]);
    }
  }
}
