/** The selection helpers of the `pepc` command line tool (pepclibs/pepc.py): the extraction of
    the SSH options from the arguments the sub-command parser did not recognise, the CPU
    selection of `--cpus`, `--cores` and `--packages`, the sibling rule of `cpu-hotplug offline`,
    the scope message and the yes/no formatter. */
module Pepc {
  import opened Base
  import opened Lists
  import opened Ranges
  import opened Lscpu
  import opened Levels
  import opened Topology
  import opened Hierarchy
  import opened Flattening
  import opened PartialHierarchy
  import opened CpuGeometry
  import opened CpuInfo

  // ----- SSH options among the unknown arguments (pepclibs/pepc.py:44-69) -----

  /** One entry of `ArgParse.SSH_OPTIONS`: its short and long spelling and the attribute of the
      parsed arguments it sets. */
  datatype SshOption = SshOption(short: string, long: string, dest: string)

  /** The parsed arguments, as the attributes `setattr` writes. */
  type Args = map<string, string>

  predicate StartsWithDash(s: string) {
    |s| > 0 && s[0] == '-'
  }

  /** `uargs.index(x)`: the position of the first occurrence. */
  function IndexOf(s: seq<string>, x: string): (i: nat)
    requires x in s
    ensures i < |s| && s[i] == x && x !in s[..i]
  {
    if s[0] == x then 0
    else
      var j := IndexOf(s[1..], x);
      assert s[..j + 1] == [s[0]] + s[1..][..j];
      j + 1
  }

  /** `uargs.remove(x)`: drop the first occurrence (the model leaves a list without `x` as it
      is; the modelled code only removes elements that are present). */
  function RemoveFirst(s: seq<string>, x: string): (r: seq<string>)
    ensures multiset(r) == multiset(s) - multiset{x}
    ensures x in s ==> |r| == |s| - 1
    ensures x in s ==>
              exists i :: 0 <= i < |s| && s[i] == x && x !in s[..i] && r == s[..i] + s[i + 1..]
    ensures x !in s ==> r == s
    ensures x in s ==> multiset(s) == multiset(r) + multiset{x}
  {
    if x !in s then s
    else
      var i := IndexOf(s, x);
      assert s == s[..i] + [x] + s[i + 1..];
      s[..i] + s[i + 1..]
  }

  /** The destinations of the options. */
  function Dests(opts: seq<SshOption>): set<string> {
    set o | o in opts :: o.dest
  }

  /** The spellings of the options. */
  function Names(opts: seq<SshOption>): set<string> {
    (set o | o in opts :: o.short) + (set o | o in opts :: o.long)
  }

  /** After its value is removed, the option name is still there to be removed. */
  lemma NameStays(uargs: seq<string>, name: string)
    requires name in uargs && IndexOf(uargs, name) + 1 < |uargs|
    ensures name in RemoveFirst(uargs, uargs[IndexOf(uargs, name) + 1])
  {
    var i := IndexOf(uargs, name) + 1;
    var v := uargs[i];
    var u := RemoveFirst(uargs, v);
    if v == name {
      assert IndexOf(uargs, v) == i - 1;
      assert u == uargs[..i - 1] + uargs[i..];
      assert u[i - 1] == uargs[i];
    } else {
      assert multiset(u)[name] == multiset(uargs)[name];
    }
  }

  /** Removing two elements one after the other removes both. */
  lemma RemoveTwo(s: seq<string>, v: string, name: string)
    ensures multiset(RemoveFirst(RemoveFirst(s, v), name)) == multiset(s) - multiset{v, name}
  {
    MinusTwo(multiset(s), v, name);
  }

  lemma MinusTwo<T>(m: multiset<T>, a: T, b: T)
    ensures m - multiset{a} - multiset{b} == m - multiset{a, b}
  {
    forall y ensures (m - multiset{a} - multiset{b})[y] == (m - multiset{a, b})[y] {
      if a == b {
        assert multiset{a, b}[y] == (if y == a then 2 else 0);
      }
    }
  }

  /** The loop body once the option is found as `name` in `uargs`: store the token that follows
      it and remove the value and then the name. A missing value, or one that looks like an
      option, is an error. */
  function TakeValue(args: Args, uargs: seq<string>, name: string, dest: string): (r: Result<(Args, seq<string>)>)
    requires name in uargs
    ensures var i := IndexOf(uargs, name) + 1;
            r.Err? <==> i == |uargs| || StartsWithDash(uargs[i])
    ensures r.Err? ==> r.error == ValueRequired(name)
    ensures r.Ok? ==>
              var v := uargs[IndexOf(uargs, name) + 1];
              && r.value.0 == args[dest := v]
              && !StartsWithDash(v)
              && multiset(r.value.1) == multiset(uargs) - multiset{v, name}
              && |r.value.1| == |uargs| - 2
              && r.value.1 == RemoveFirst(RemoveFirst(uargs, v), name)
  {
    var i := IndexOf(uargs, name) + 1;
    if |uargs| <= i || StartsWithDash(uargs[i]) then Err(ValueRequired(name))
    else
      var v := uargs[i];
      NameStays(uargs, name);
      RemoveTwo(uargs, v, name);
      Ok((args[dest := v], RemoveFirst(RemoveFirst(uargs, v), name)))
  }

  /** One iteration of the option loop: the short spelling is looked for first, then the long
      one; an option that is absent changes nothing. */
  function StepOption(args: Args, uargs: seq<string>, o: SshOption): Result<(Args, seq<string>)> {
    if o.short in uargs then TakeValue(args, uargs, o.short, o.dest)
    else if o.long in uargs then TakeValue(args, uargs, o.long, o.dest)
    else Ok((args, uargs))
  }

  /** The option loop over `opts`: each option in turn, stopping at the first failure. */
  function Extraction(args: Args, uargs: seq<string>, opts: seq<SshOption>): Result<(Args, seq<string>)> {
    if opts == [] then Ok((args, uargs))
    else
      match Extraction(args, uargs, opts[..|opts| - 1])
      case Err(e) => Err(e)
      case Ok((a, u)) => StepOption(a, u, opts[|opts| - 1])
  }

  /** `a` agrees with `args` outside the keys `ds`. */
  ghost predicate Kept(args: Args, a: Args, ds: set<string>) {
    forall k :: k !in ds ==> (k in a <==> k in args) && (k in args ==> a[k] == args[k])
  }

  /** Each key of `ds` in `a` keeps its value from `args` or holds one of `uargs` that does not
      start with a dash. */
  ghost predicate Taken(args: Args, a: Args, uargs: seq<string>, ds: set<string>) {
    forall k :: k in a && k in ds ==>
      (k in args && a[k] == args[k]) || (a[k] in uargs && !StartsWithDash(a[k]))
  }

  /** One option takes away its name and value, or nothing. */
  lemma StepSize(a: Args, u: seq<string>, o: SshOption)
    ensures var r := StepOption(a, u, o);
            r.Ok? ==> multiset(r.value.1) <= multiset(u) &&
                      (|r.value.1| == |u| || |r.value.1| + 2 == |u|)
  {
    var name := if o.short in u then o.short else o.long;
    if name in u && StepOption(a, u, o).Ok? {
      var q := TakeValue(a, u, name, o.dest).value;
      var v := u[IndexOf(u, name) + 1];
      assert multiset(q.1) == multiset(u) - multiset{v, name};
    }
  }

  /** One option sets only its destination, to an argument that does not start with a dash. */
  lemma StepMap(a: Args, u: seq<string>, o: SshOption)
    ensures var r := StepOption(a, u, o);
            r.Ok? ==> Kept(a, r.value.0, {o.dest}) && Taken(a, r.value.0, u, {o.dest})
  {
    var name := if o.short in u then o.short else o.long;
    if name in u && StepOption(a, u, o).Ok? {
      var v := u[IndexOf(u, name) + 1];
      assert v in u;
    }
  }

  /** One option fails only for a missing value after its name. */
  lemma StepErr(a: Args, u: seq<string>, o: SshOption)
    ensures var r := StepOption(a, u, o);
            r.Err? ==> r.error.ValueRequired? && r.error.option in {o.short, o.long}
  {
  }

  /** The destinations and spellings of all the options: those of all but the last, and the
      last one's. */
  lemma DestsSnoc(opts: seq<SshOption>)
    requires opts != []
    ensures var o := opts[|opts| - 1];
            Dests(opts) == Dests(opts[..|opts| - 1]) + {o.dest} &&
            Names(opts) == Names(opts[..|opts| - 1]) + {o.short, o.long}
  {
    var init := opts[..|opts| - 1];
    var o := opts[|opts| - 1];
    assert opts == init + [o];
    assert o in opts;
    assert forall p :: p in opts <==> p in init || p == o;
  }

  /** An element of a sub-multiset is an element of the whole. */
  lemma SubIn(u: seq<string>, w: seq<string>, x: string)
    requires multiset(u) <= multiset(w) && x in u
    ensures x in w
  {
    assert x in multiset(u);
  }

  /** Setting one more key on top of a kept-and-taken map keeps it so for one more key. */
  lemma KeptTakenStep(args: Args, a: Args, a2: Args, u: seq<string>, uargs: seq<string>,
                      ds: set<string>, d: string)
    requires Kept(args, a, ds) && Taken(args, a, uargs, ds)
    requires Kept(a, a2, {d}) && Taken(a, a2, u, {d}) && multiset(u) <= multiset(uargs)
    ensures Kept(args, a2, ds + {d}) && Taken(args, a2, uargs, ds + {d})
  {
    forall k | k in a2 && k in ds + {d}
      ensures (k in args && a2[k] == args[k]) || (a2[k] in uargs && !StartsWithDash(a2[k]))
    {
      if k == d && !(k in a && a2[k] == a[k]) {
        SubIn(u, uargs, a2[k]);
      }
    }
  }

  /** The loop after one more option, when it got that far. */
  lemma ExtractionSnoc(args: Args, uargs: seq<string>, opts: seq<SshOption>)
    requires opts != []
    ensures var p := Extraction(args, uargs, opts[..|opts| - 1]);
            Extraction(args, uargs, opts) ==
              if p.Err? then Err(p.error) else StepOption(p.value.0, p.value.1, opts[|opts| - 1])
  {
  }

  /** The option loop, on success: every option takes away a name and its value or nothing,
      so the remaining arguments are a sub-multiset of the given ones, shorter by an even number
      and by at most two per option. */
  lemma {:induction false} ExtractionSize(args: Args, uargs: seq<string>, opts: seq<SshOption>)
    requires Extraction(args, uargs, opts).Ok?
    ensures var rest := Extraction(args, uargs, opts).value.1;
            && multiset(rest) <= multiset(uargs)
            && |rest| <= |uargs| && (|uargs| - |rest|) % 2 == 0
            && |uargs| - |rest| <= 2 * |opts|
  {
    if opts != [] {
      var init := opts[..|opts| - 1];
      var o := opts[|opts| - 1];
      ExtractionSnoc(args, uargs, opts);
      ExtractionSize(args, uargs, init);
      var p := Extraction(args, uargs, init).value;
      StepSize(p.0, p.1, o);
      var q := Extraction(args, uargs, opts).value;
      SubTrans(multiset(q.1), multiset(p.1), multiset(uargs));
      EvenStep(|uargs|, |p.1|, |q.1|, |init|);
    }
  }

  /** The option loop, on success: only the options' destinations change, each to a given
      argument that does not start with a dash. */
  lemma {:induction false} ExtractionMap(args: Args, uargs: seq<string>, opts: seq<SshOption>)
    requires Extraction(args, uargs, opts).Ok?
    ensures var a := Extraction(args, uargs, opts).value.0;
            Kept(args, a, Dests(opts)) && Taken(args, a, uargs, Dests(opts))
  {
    if opts != [] {
      var init := opts[..|opts| - 1];
      var o := opts[|opts| - 1];
      ExtractionSnoc(args, uargs, opts);
      DestsSnoc(opts);
      ExtractionMap(args, uargs, init);
      ExtractionSize(args, uargs, init);
      var p := Extraction(args, uargs, init).value;
      StepMap(p.0, p.1, o);
      var q := Extraction(args, uargs, opts).value;
      KeptTakenStep(args, p.0, q.0, p.1, uargs, Dests(init), o.dest);
    }
  }

  lemma SubTrans<T>(a: multiset<T>, b: multiset<T>, c: multiset<T>)
    requires a <= b && b <= c
    ensures a <= c
  {
  }

  lemma EvenStep(n: int, m: int, l: int, c: int)
    requires m <= n && (n - m) % 2 == 0 && n - m <= 2 * c
    requires l == m || l + 2 == m
    ensures l <= n && (n - l) % 2 == 0 && n - l <= 2 * (c + 1)
  {
  }

  /** A failure of the option loop is a missing value after one of the options' names. */
  lemma {:induction false} ExtractionErr(args: Args, uargs: seq<string>, opts: seq<SshOption>)
    requires Extraction(args, uargs, opts).Err?
    ensures var e := Extraction(args, uargs, opts).error;
            e.ValueRequired? && e.option in Names(opts)
  {
    var init := opts[..|opts| - 1];
    var o := opts[|opts| - 1];
    assert opts == init + [o];
    DestsSnoc(opts);
    if Extraction(args, uargs, init).Err? {
      ExtractionErr(args, uargs, init);
    } else {
      var (a, u) := Extraction(args, uargs, init).value;
      StepErr(a, u, o);
    }
  }

  /** `PepcArgsParser.parse_args` after `parse_known_args`: the namespace unchanged when
      nothing is unknown, otherwise the SSH options taken out and an error for anything else. */
  function ParseUnknown(args: Args, uargs: seq<string>, opts: seq<SshOption>): Result<Args> {
    if uargs == [] then Ok(args)
    else
      match Extraction(args, uargs, opts)
      case Err(e) => Err(e)
      case Ok((a, rest)) => if rest != [] then Err(Unrecognized(rest)) else Ok(a)
  }

  /** What the parser accepts: no unknown arguments at all, or option/value pairs that use up
      every unknown argument, at most one pair per SSH option. What it rejects is a missing
      value or some leftover arguments, all of them among the unknown ones. */
  lemma ParseUnknownSpec(args: Args, uargs: seq<string>, opts: seq<SshOption>)
    ensures uargs == [] ==> ParseUnknown(args, uargs, opts) == Ok(args)
    ensures ParseUnknown(args, uargs, opts).Ok? ==>
              |uargs| % 2 == 0 && |uargs| <= 2 * |opts|
    ensures var r := ParseUnknown(args, uargs, opts);
            r.Ok? ==> Kept(args, r.value, Dests(opts)) && Taken(args, r.value, uargs, Dests(opts))
    ensures var r := ParseUnknown(args, uargs, opts);
            r.Err? ==>
              || (r.error.ValueRequired? && r.error.option in Names(opts))
              || (r.error.Unrecognized? && r.error.args != [] &&
                  multiset(r.error.args) <= multiset(uargs))
  {
    if uargs != [] {
      var e := Extraction(args, uargs, opts);
      if e.Ok? {
        ExtractionSize(args, uargs, opts);
        ExtractionMap(args, uargs, opts);
      } else {
        ExtractionErr(args, uargs, opts);
      }
    }
  }

  /** No two options set the same attribute. */
  predicate DistinctDests(opts: seq<SshOption>) {
    forall i, j :: 0 <= i < j < |opts| ==> opts[i].dest != opts[j].dest
  }

  /** `x` is the value now held by the destination of one of the options. */
  ghost predicate Stored(a: Args, opts: seq<SshOption>, x: string) {
    exists o :: o in opts && o.dest in a && a[o.dest] == x
  }

  /** One option either leaves the arguments as they are or takes away its name and the value
      it stores. */
  lemma StepUses(a: Args, u: seq<string>, o: SshOption, x: string)
    requires StepOption(a, u, o).Ok? && x in u
    ensures var q := StepOption(a, u, o).value;
            x in q.1 || x in {o.short, o.long} || (o.dest in q.0 && q.0[o.dest] == x)
  {
    if o.short in u {
      TakeUses(a, u, o.short, o.dest, x);
    } else if o.long in u {
      TakeUses(a, u, o.long, o.dest, x);
    }
  }

  /** Taking an option's value leaves every other argument in place. */
  lemma TakeUses(a: Args, u: seq<string>, name: string, dest: string, x: string)
    requires name in u && TakeValue(a, u, name, dest).Ok? && x in u
    ensures var q := TakeValue(a, u, name, dest).value;
            x in q.1 || x == name || (dest in q.0 && q.0[dest] == x)
  {
    var q := TakeValue(a, u, name, dest).value;
    var v := u[IndexOf(u, name) + 1];
    if x != name && x != v {
      StaysAfterRemoving(u, q.1, v, name, x);
    }
  }

  lemma StaysAfterRemoving(u: seq<string>, r: seq<string>, v: string, name: string, x: string)
    requires multiset(r) == multiset(u) - multiset{v, name} && x in u && x != v && x != name
    ensures x in r
  {
    assert multiset(r)[x] == multiset(u)[x] > 0;
  }

  /** The option loop, on success: every unknown argument is left over, is the name of an
      option, or is the value one option's destination now holds. */
  lemma {:induction false} ExtractionUses(args: Args, uargs: seq<string>, opts: seq<SshOption>, x: string)
    requires DistinctDests(opts) && Extraction(args, uargs, opts).Ok? && x in uargs
    ensures var q := Extraction(args, uargs, opts).value;
            x in q.1 || x in Names(opts) || Stored(q.0, opts, x)
  {
    if opts != [] {
      var init := opts[..|opts| - 1];
      var o := opts[|opts| - 1];
      ExtractionSnoc(args, uargs, opts);
      DestsSnoc(opts);
      assert DistinctDests(init);
      ExtractionUses(args, uargs, init, x);
      var p := Extraction(args, uargs, init).value;
      var q := Extraction(args, uargs, opts).value;
      assert q == StepOption(p.0, p.1, o).value;
      assert o in opts;
      if x in p.1 {
        StepUses(p.0, p.1, o, x);
      } else if Stored(p.0, init, x) {
        var o' :| o' in init && o'.dest in p.0 && p.0[o'.dest] == x;
        var j :| 0 <= j < |init| && init[j] == o';
        assert opts[j] == o' && opts[|opts| - 1] == o;
        StepMap(p.0, p.1, o);
        assert o' in opts && o'.dest in q.0 && q.0[o'.dest] == x;
      }
    }
  }

  /** The (option, name, value) triple one option takes out of `u`: none when neither of its
      names is there or no value follows. */
  function Fires(u: seq<string>, o: SshOption): (r: seq<(SshOption, string, string)>)
    ensures |r| <= 1
  {
    var name := if o.short in u then o.short else o.long;
    if name in u && IndexOf(u, name) + 1 < |u| then [(o, name, u[IndexOf(u, name) + 1])] else []
  }

  /** The (option, name, value) triples the option loop took out, in order. */
  function Consumed(args: Args, uargs: seq<string>, opts: seq<SshOption>): seq<(SshOption, string, string)>
    requires Extraction(args, uargs, opts).Ok?
  {
    if opts == [] then []
    else
      var init := opts[..|opts| - 1];
      assert Extraction(args, uargs, init).Ok?;
      Consumed(args, uargs, init) + Fires(Extraction(args, uargs, init).value.1, opts[|opts| - 1])
  }

  /** The names and values of the triples, each pair in order. */
  function Tokens(ts: seq<(SshOption, string, string)>): seq<string> {
    if ts == [] then [] else
      var t := ts[|ts| - 1];
      Tokens(ts[..|ts| - 1]) + [t.1, t.2]
  }

  /** Taking out one more triple adds its name and value. */
  lemma TokensSnoc(ts: seq<(SshOption, string, string)>, f: seq<(SshOption, string, string)>)
    requires |f| <= 1
    ensures multiset(Tokens(ts + f)) ==
            multiset(Tokens(ts)) + (if f == [] then multiset{} else multiset{f[0].1, f[0].2})
  {
    if f == [] {
      assert ts + f == ts;
    } else {
      assert (ts + f)[..|ts + f| - 1] == ts;
    }
  }

  /** Taking an option's value removes exactly its name and that value. */
  lemma TakeAccounts(a: Args, u: seq<string>, name: string, dest: string)
    requires name in u && TakeValue(a, u, name, dest).Ok?
    ensures var q := TakeValue(a, u, name, dest).value;
            var v := u[IndexOf(u, name) + 1];
            multiset(u) == multiset(q.1) + multiset{name, v} && q.0 == a[dest := v] &&
            !StartsWithDash(v)
  {
    var v := u[IndexOf(u, name) + 1];
    NameStays(u, name);
    RemoveTwoAccounts(u, v, name);
  }

  lemma RemoveTwoAccounts(u: seq<string>, v: string, name: string)
    requires v in u && name in RemoveFirst(u, v)
    ensures multiset(u) == multiset(RemoveFirst(RemoveFirst(u, v), name)) + multiset{name, v}
  {
    var u1 := RemoveFirst(u, v);
    var u2 := RemoveFirst(u1, name);
    assert multiset(u) == multiset(u1) + multiset{v};
    assert multiset(u1) == multiset(u2) + multiset{name};
    assert multiset{name} + multiset{v} == multiset{name, v};
  }

  /** One option: the arguments it removes are exactly the name and value it takes, and the
      value is what its destination now holds. */
  lemma StepAccounts(a: Args, u: seq<string>, o: SshOption)
    requires StepOption(a, u, o).Ok?
    ensures var q := StepOption(a, u, o).value;
            var f := Fires(u, o);
            && multiset(u) == multiset(q.1) + (if f == [] then multiset{} else multiset{f[0].1, f[0].2})
            && (f == [] ==> q.0 == a)
            && (f != [] ==> f[0].0 == o && (f[0].1 == o.short || f[0].1 == o.long) &&
                            !StartsWithDash(f[0].2) && q.0 == a[o.dest := f[0].2])
  {
    if o.short in u || o.long in u {
      var name := if o.short in u then o.short else o.long;
      StepFires(a, u, o);
      TakeAccounts(a, u, name, o.dest);
      FiresFound(u, o, name);
    }
  }

  /** An option found among the arguments takes its value. */
  lemma StepFires(a: Args, u: seq<string>, o: SshOption)
    requires StepOption(a, u, o).Ok? && (o.short in u || o.long in u)
    ensures var name := if o.short in u then o.short else o.long;
            StepOption(a, u, o) == TakeValue(a, u, name, o.dest)
  {
  }

  /** `Fires` records the name found and the value after it. */
  lemma FiresFound(u: seq<string>, o: SshOption, name: string)
    requires name == (if o.short in u then o.short else o.long) && name in u
    requires IndexOf(u, name) + 1 < |u|
    ensures Fires(u, o) == [(o, name, u[IndexOf(u, name) + 1])]
  {
  }



  /** The option loop from no arguments at all takes nothing and changes nothing. */
  lemma {:induction false} ExtractionOfNothing(args: Args, opts: seq<SshOption>)
    ensures Extraction(args, [], opts) == Ok((args, []))
  {
    if opts != [] {
      ExtractionOfNothing(args, opts[..|opts| - 1]);
    }
  }

  /** What the loop over all the options took: what it took over all but the last, and what the
      last one took from the arguments left by then. */
  lemma ConsumedSnoc(args: Args, uargs: seq<string>, opts: seq<SshOption>)
    requires opts != [] && Extraction(args, uargs, opts).Ok?
    ensures Extraction(args, uargs, opts[..|opts| - 1]).Ok?
    ensures var p := Extraction(args, uargs, opts[..|opts| - 1]).value;
            && Extraction(args, uargs, opts) == StepOption(p.0, p.1, opts[|opts| - 1])
            && Consumed(args, uargs, opts) ==
                 Consumed(args, uargs, opts[..|opts| - 1]) + Fires(p.1, opts[|opts| - 1])
  {
    ExtractionSnoc(args, uargs, opts);
  }

  /** The option loop, on success: the unknown arguments are exactly the leftovers plus the
      names and values it took out. */
  lemma {:induction false} ExtractionTokens(args: Args, uargs: seq<string>, opts: seq<SshOption>)
    requires Extraction(args, uargs, opts).Ok?
    ensures var q := Extraction(args, uargs, opts).value;
            multiset(uargs) == multiset(q.1) + multiset(Tokens(Consumed(args, uargs, opts)))
  {
    if opts != [] {
      var init := opts[..|opts| - 1];
      var o := opts[|opts| - 1];
      ConsumedSnoc(args, uargs, opts);
      ExtractionTokens(args, uargs, init);
      var p := Extraction(args, uargs, init).value;
      StepAccounts(p.0, p.1, o);
      TokensSnoc(Consumed(args, uargs, init), Fires(p.1, o));
    }
  }

  /** Each triple the loop took names one of the options by one of its spellings, with a value
      that does not start with a dash. */
  lemma {:induction false} ConsumedNames(args: Args, uargs: seq<string>, opts: seq<SshOption>)
    requires Extraction(args, uargs, opts).Ok?
    ensures forall t :: t in Consumed(args, uargs, opts) ==>
              t.0 in opts && (t.1 == t.0.short || t.1 == t.0.long) && !StartsWithDash(t.2)
  {
    if opts != [] {
      var init := opts[..|opts| - 1];
      var o := opts[|opts| - 1];
      ConsumedSnoc(args, uargs, opts);
      ConsumedNames(args, uargs, init);
      var p := Extraction(args, uargs, init).value;
      StepAccounts(p.0, p.1, o);
      NamesStep(Consumed(args, uargs, init), Fires(p.1, o), opts);
    }
  }

  lemma NamesStep(ci: seq<(SshOption, string, string)>, f: seq<(SshOption, string, string)>,
                  opts: seq<SshOption>)
    requires opts != []
    requires var o := opts[|opts| - 1];
             |f| <= 1 &&
             (f != [] ==> (f[0].0 == o && (f[0].1 == o.short || f[0].1 == o.long) &&
                           !StartsWithDash(f[0].2)))
    requires forall t :: t in ci ==>
               t.0 in opts[..|opts| - 1] && (t.1 == t.0.short || t.1 == t.0.long) &&
               !StartsWithDash(t.2)
    ensures forall t :: t in ci + f ==>
              t.0 in opts && (t.1 == t.0.short || t.1 == t.0.long) && !StartsWithDash(t.2)
  {
    assert opts == opts[..|opts| - 1] + [opts[|opts| - 1]];
  }

  /** With distinct destinations, each value the loop took is what its option's destination
      holds at the end. */
  lemma {:induction false} ConsumedStored(args: Args, uargs: seq<string>, opts: seq<SshOption>)
    requires Extraction(args, uargs, opts).Ok? && DistinctDests(opts)
    ensures var q := Extraction(args, uargs, opts).value;
            forall t :: t in Consumed(args, uargs, opts) ==> t.0.dest in q.0 && q.0[t.0.dest] == t.2
  {
    if opts != [] {
      var init := opts[..|opts| - 1];
      var o := opts[|opts| - 1];
      ConsumedSnoc(args, uargs, opts);
      assert DistinctDests(init);
      ConsumedStored(args, uargs, init);
      ConsumedNames(args, uargs, init);
      var p := Extraction(args, uargs, init).value;
      StepAccounts(p.0, p.1, o);
      var ci := Consumed(args, uargs, init);
      DestsDiffer(ci, opts);
      StoredStep(p.0, StepOption(p.0, p.1, o).value.0, ci, Fires(p.1, o), o);
    }
  }

  /** With distinct destinations, the options before the last set other attributes than it. */
  lemma DestsDiffer(ci: seq<(SshOption, string, string)>, opts: seq<SshOption>)
    requires opts != [] && DistinctDests(opts)
    requires forall t :: t in ci ==> t.0 in opts[..|opts| - 1]
    ensures forall t :: t in ci ==> t.0.dest != opts[|opts| - 1].dest
  {
    forall t | t in ci ensures t.0.dest != opts[|opts| - 1].dest {
      var k :| 0 <= k < |opts| - 1 && opts[..|opts| - 1][k] == t.0;
      assert opts[k] == t.0;
    }
  }

  /** Setting one more destination, different from those set before, keeps the earlier values. */
  lemma StoredStep(a: Args, a2: Args, ci: seq<(SshOption, string, string)>,
                   f: seq<(SshOption, string, string)>, o: SshOption)
    requires |f| <= 1 && (f == [] ==> a2 == a) && (f != [] ==> f[0].0 == o && a2 == a[o.dest := f[0].2])
    requires forall t :: t in ci ==> t.0.dest != o.dest && t.0.dest in a && a[t.0.dest] == t.2
    ensures forall t :: t in ci + f ==> t.0.dest in a2 && a2[t.0.dest] == t.2
  {
    forall t | t in ci + f ensures t.0.dest in a2 && a2[t.0.dest] == t.2 {
      if t !in ci {
        assert t == f[0];
      }
    }
  }


  /** The parser accepts the unknown arguments only when the SSH options use all of them up:
      they are exactly the names and values the loop took out, each value taken in this run
      (whatever the namespace held before); with distinct destinations each value is what its
      option's destination holds in the result. */
  lemma ParseUnknownUsesAll(args: Args, uargs: seq<string>, opts: seq<SshOption>)
    ensures var r := ParseUnknown(args, uargs, opts);
            r.Ok? ==> Extraction(args, uargs, opts).Ok? &&
                      multiset(uargs) == multiset(Tokens(Consumed(args, uargs, opts)))
    ensures var r := ParseUnknown(args, uargs, opts);
            r.Ok? ==> Extraction(args, uargs, opts).Ok? &&
                      forall t :: t in Consumed(args, uargs, opts) ==>
                        t.0 in opts && (t.1 == t.0.short || t.1 == t.0.long)
    ensures var r := ParseUnknown(args, uargs, opts);
            r.Ok? && DistinctDests(opts) ==>
              (Extraction(args, uargs, opts).Ok? &&
               forall t :: t in Consumed(args, uargs, opts) ==>
                 t.0.dest in r.value && r.value[t.0.dest] == t.2)
  {
    var r := ParseUnknown(args, uargs, opts);
    if r.Ok? {
      if uargs == [] {
        ExtractionOfNothing(args, opts);
      }
      ExtractionTokens(args, uargs, opts);
      ConsumedNames(args, uargs, opts);
      if DistinctDests(opts) {
        ConsumedStored(args, uargs, opts);
      }
    }
  }


  /** The loop over the first `i + 1` options is one more step after the first `i`. */
  lemma ExtractionNext(args: Args, uargs: seq<string>, opts: seq<SshOption>, i: nat)
    requires i < |opts| && Extraction(args, uargs, opts[..i]).Ok?
    ensures var p := Extraction(args, uargs, opts[..i]).value;
            Extraction(args, uargs, opts[..i + 1]) == StepOption(p.0, p.1, opts[i])
  {
    ExtractionSnoc(args, uargs, opts[..i + 1]);
    assert opts[..i + 1][..i] == opts[..i];
  }

  /** A failure in the loop is final. */
  lemma {:induction false} ExtractionErrStays(args: Args, uargs: seq<string>, opts: seq<SshOption>, i: nat)
    requires i <= |opts| && Extraction(args, uargs, opts[..i]).Err?
    ensures Extraction(args, uargs, opts) == Extraction(args, uargs, opts[..i])
    decreases |opts| - i
  {
    if i < |opts| {
      assert opts[..i + 1][..i] == opts[..i];
      ExtractionErrStays(args, uargs, opts, i + 1);
    } else {
      assert opts[..i] == opts;
    }
  }

  /** The body of the option loop of `PepcArgsParser.parse_args` (pepclibs/pepc.py:51-66) for
      one option. */
  method TakeOption(a: Args, u: seq<string>, o: SshOption) returns (r: Result<(Args, seq<string>)>)
    ensures r == StepOption(a, u, o)
  {
    var name;
    if o.short in u {
      name := o.short;
    } else if o.long in u {
      name := o.long;
    } else {
      return Ok((a, u));
    }
    assert StepOption(a, u, o) == TakeValue(a, u, name, o.dest);
    var vi := IndexOf(u, name) + 1;
    if |u| <= vi || StartsWithDash(u[vi]) {
      return Err(ValueRequired(name));
    }
    var u' := RemoveFirst(u, u[vi]);
    u' := RemoveFirst(u', name);
    r := Ok((a[o.dest := u[vi]], u'));
    assert r == TakeValue(a, u, name, o.dest);
  }

  /** `PepcArgsParser.parse_args` (pepclibs/pepc.py:44-69), from the point where
      `parse_known_args` has split the arguments into `args` and `uargs`. */
  method ParseArgs(args: Args, uargs: seq<string>, opts: seq<SshOption>) returns (r: Result<Args>)
    ensures r == ParseUnknown(args, uargs, opts)
  {
    if uargs == [] {
      return Ok(args);
    }
    var a, u := args, uargs;
    for i := 0 to |opts|
      invariant Extraction(args, uargs, opts[..i]) == Ok((a, u))
    {
      ExtractionNext(args, uargs, opts, i);
      var s := TakeOption(a, u, opts[i]);
      if s.Err? {
        ExtractionErrStays(args, uargs, opts, i + 1);
        return Err(s.error);
      }
      a, u := s.value.0, s.value.1;
    }
    assert opts[..|opts|] == opts;
    if u != [] {
      return Err(Unrecognized(u));
    }
    return Ok(a);
  }

  // ----- the CPU selection (pepclibs/pepc.py:104-133) -----

  /** The `--cpus`, `--cores` and `--packages` options; `None` when an option is not given. */
  datatype Selection = Selection(cpus: Option<Nums>, cores: Option<Nums>, packages: Option<Nums>)

  /** The CPUs `--cpus` names, checked to be online. */
  function CpusPart(lines: seq<Line>, sel: Selection): Result<seq<nat>> {
    if sel.cpus.Some? then CpuList(lines, sel.cpus.value) else Ok([])
  }

  /** The online CPUs of the cores `--cores` names. */
  function CoresPart(lines: seq<Line>, sel: Selection): Result<seq<nat>> {
    if sel.cores.Some? then LevelQuery(lines, Core, Cpu, sel.cores.value) else Ok([])
  }

  /** The online CPUs of the packages `--packages` names. */
  function PkgsPart(lines: seq<Line>, sel: Selection): Result<seq<nat>> {
    if sel.packages.Some? then LevelQuery(lines, Pkg, Cpu, sel.packages.value) else Ok([])
  }

  /** The CPUs of the three options in that order, before de-duplication. */
  function Requests(lines: seq<Line>, sel: Selection): Result<seq<nat>> {
    var a :- CpusPart(lines, sel);
    var b :- CoresPart(lines, sel);
    var c :- PkgsPart(lines, sel);
    Ok(a + b + c)
  }

  /** `get_cpus(args, proc, default_cpus)`: the requested CPUs de-duplicated, or the default CPU
      list when nothing was requested and a default is given. */
  function Selected(lines: seq<Line>, sel: Selection, default: Option<Nums>): (r: Result<seq<nat>>)
    ensures Requests(lines, sel).Err? ==> r == Err(Requests(lines, sel).error)
    ensures r.Ok? ==> NoDups(r.value)
  {
    var all :- Requests(lines, sel);
    if all == [] && default.Some? then
      var d :- CpuList(lines, default.value);
      Ok(Dedup(d))
    else Ok(Dedup(all))
  }

  /** Every CPU of a successful query for CPUs is online. */
  lemma QueryOnline(lines: seq<Line>, s: Level, nums: Nums, x: nat)
    requires LevelQuery(lines, s, Cpu, nums).Ok? && x in LevelQuery(lines, s, Cpu, nums).value
    ensures x in Column(lines, Cpu)
  {
    LevelQueryOk(lines, s, Cpu, nums, x);
    var i :| 0 <= i < |lines| && lines[i].Online? &&
             Coord(lines[i], s) in Requested(lines, s, nums) && Coord(lines[i], Cpu) == x;
    InColumn(lines, Cpu, x);
  }

  /** Every CPU of a successful CPU list is online. */
  lemma CpuListOnline(lines: seq<Line>, nums: Nums, x: nat)
    requires CpuList(lines, nums).Ok? && x in CpuList(lines, nums).value
    ensures x in Column(lines, Cpu)
  {
    ValidateIdsSpec(lines, Cpu, nums);
  }

  /** The selection lists each CPU once, and only online CPUs. */
  lemma SelectedOnline(lines: seq<Line>, sel: Selection, default: Option<Nums>, x: nat)
    requires Selected(lines, sel, default).Ok?
    ensures NoDups(Selected(lines, sel, default).value)
    ensures x in Selected(lines, sel, default).value ==> x in Column(lines, Cpu)
  {
    var all := Requests(lines, sel).value;
    if x in Selected(lines, sel, default).value {
      if all == [] && default.Some? {
        CpuListOnline(lines, default.value, x);
      } else {
        var a := if sel.cpus.Some? then CpuList(lines, sel.cpus.value).value else [];
        var b := if sel.cores.Some? then LevelQuery(lines, Core, Cpu, sel.cores.value).value else [];
        var c := if sel.packages.Some? then LevelQuery(lines, Pkg, Cpu, sel.packages.value).value else [];
        assert all == a + b + c;
        if x in a {
          CpuListOnline(lines, sel.cpus.value, x);
        } else if x in b {
          QueryOnline(lines, Core, sel.cores.value, x);
        } else {
          QueryOnline(lines, Pkg, sel.packages.value, x);
        }
      }
    }
  }

  /** A successful CPU list is the requested list. */
  lemma CpuListRequested(lines: seq<Line>, nums: Nums)
    requires CpuList(lines, nums).Ok?
    ensures CpuList(lines, nums).value == Requested(lines, Cpu, nums)
  {
  }

  /** A successful CPU list holds every requested CPU. */
  lemma CpuListCovers(lines: seq<Line>, nums: Nums, x: nat)
    requires CpuList(lines, nums).Ok? && x in Requested(lines, Cpu, nums)
    ensures x in CpuList(lines, nums).value
  {
    CpuListRequested(lines, nums);
  }

  /** The requests succeed only when each given option does, and then hold the CPUs of each. */
  lemma InRequests(lines: seq<Line>, sel: Selection, x: nat)
    requires Requests(lines, sel).Ok?
    ensures sel.cpus.Some? ==> CpuList(lines, sel.cpus.value).Ok?
    ensures sel.cores.Some? ==> LevelQuery(lines, Core, Cpu, sel.cores.value).Ok?
    ensures sel.packages.Some? ==> LevelQuery(lines, Pkg, Cpu, sel.packages.value).Ok?
    ensures x in Requests(lines, sel).value <==>
            || (sel.cpus.Some? && x in CpuList(lines, sel.cpus.value).value)
            || (sel.cores.Some? && x in LevelQuery(lines, Core, Cpu, sel.cores.value).value)
            || (sel.packages.Some? && x in LevelQuery(lines, Pkg, Cpu, sel.packages.value).value)
  {
    var a := if sel.cpus.Some? then CpuList(lines, sel.cpus.value) else Ok([]);
    var b := if sel.cores.Some? then LevelQuery(lines, Core, Cpu, sel.cores.value) else Ok([]);
    var c := if sel.packages.Some? then LevelQuery(lines, Pkg, Cpu, sel.packages.value) else Ok([]);
    assert a.Ok? && b.Ok? && c.Ok?;
    assert Requests(lines, sel).value == a.value + b.value + c.value;
  }

  /** A successful query for CPUs holds the CPU of every online line with a requested number. */
  lemma QueryCovers(lines: seq<Line>, s: Level, nums: Nums, i: nat)
    requires LevelQuery(lines, s, Cpu, nums).Ok? && i < |lines| && lines[i].Online?
    requires Coord(lines[i], s) in Requested(lines, s, nums)
    ensures lines[i].cpu in LevelQuery(lines, s, Cpu, nums).value
  {
    LevelQueryOk(lines, s, Cpu, nums, lines[i].cpu);
  }

  /** Every CPU named by an option, directly or through its core or package, is requested. */
  lemma RequestsCover(lines: seq<Line>, sel: Selection, i: nat)
    requires Requests(lines, sel).Ok? && i < |lines| && lines[i].Online?
    requires || (sel.cpus.Some? && lines[i].cpu in Requested(lines, Cpu, sel.cpus.value))
             || (sel.cores.Some? && lines[i].core in Requested(lines, Core, sel.cores.value))
             || (sel.packages.Some? && lines[i].pkg in Requested(lines, Pkg, sel.packages.value))
    ensures lines[i].cpu in Requests(lines, sel).value
  {
    InRequests(lines, sel, lines[i].cpu);
    if sel.cpus.Some? && lines[i].cpu in Requested(lines, Cpu, sel.cpus.value) {
      CpuListCovers(lines, sel.cpus.value, lines[i].cpu);
    } else if sel.cores.Some? && lines[i].core in Requested(lines, Core, sel.cores.value) {
      QueryCovers(lines, Core, sel.cores.value, i);
    } else {
      QueryCovers(lines, Pkg, sel.packages.value, i);
    }
  }

  /** Nothing is lost: every CPU named by `--cpus` and every online CPU of a core or package
      named by `--cores` or `--packages` is selected. */
  lemma SelectedCovers(lines: seq<Line>, sel: Selection, default: Option<Nums>, i: nat)
    requires Selected(lines, sel, default).Ok? && i < |lines| && lines[i].Online?
    requires || (sel.cpus.Some? && lines[i].cpu in Requested(lines, Cpu, sel.cpus.value))
             || (sel.cores.Some? && lines[i].core in Requested(lines, Core, sel.cores.value))
             || (sel.packages.Some? && lines[i].pkg in Requested(lines, Pkg, sel.packages.value))
    ensures lines[i].cpu in Selected(lines, sel, default).value
  {
    assert Requests(lines, sel).Ok?;
    RequestsCover(lines, sel, i);
    SelectedFrom(lines, sel, default);
  }

  /** The selection once the requests are known. */
  lemma SelectedFrom(lines: seq<Line>, sel: Selection, default: Option<Nums>)
    requires Requests(lines, sel).Ok?
    ensures var all := Requests(lines, sel).value;
            Selected(lines, sel, default) ==
              if all == [] && default.Some? then
                if CpuList(lines, default.value).Ok? then Ok(Dedup(CpuList(lines, default.value).value))
                else Err(CpuList(lines, default.value).error)
              else Ok(Dedup(all))
  {
  }

  /** With no option given, the selection is the default CPU list, or nothing without a
      default. */
  lemma SelectedDefault(lines: seq<Line>, default: Option<Nums>)
    ensures Selected(lines, Selection(None, None, None), default) ==
            if default.Some? then CpuList(lines, default.value) else Ok([])
  {
    if default.Some? && CpuList(lines, default.value).Ok? {
      var d := CpuList(lines, default.value).value;
      ValidateIdsSpec(lines, Cpu, default.value);
      if default.value.All? {
        DedupOfDedup([], Column(lines, Cpu));
        assert [] + Column(lines, Cpu) == Column(lines, Cpu);
        assert [] + Keys(lines, Cpu) == Keys(lines, Cpu);
      }
      assert NoDups(d);
      DedupOfNoDups(d);
    }
  }

  /** Neither a CPU, core or package option nor a default is given, so `get_cpus` asks
      `CPUInfo` nothing. */
  predicate NoQuery(sel: Selection, default: Option<Nums>) {
    sel.cpus.None? && sel.cores.None? && sel.packages.None? && default.None?
  }

  /** `get_cpus(args, proc, default_cpus, cpuinfo)` (pepclibs/pepc.py:104-133). */
  method GetCpus(info: CPUInfo, sel: Selection, default: Option<Nums>) returns (r: Result<seq<nat>>)
    requires info.Valid()
    modifies info
    ensures info.Valid() && info.cpugeom == old(info.cpugeom)
    ensures r == Selected(info.lscpuOutput, sel, default)
    ensures NoQuery(sel, default) ==>
              info.lscpuCache == old(info.lscpuCache) && info.lscpuRuns == old(info.lscpuRuns)
    ensures !NoQuery(sel, default) ==> info.ReadOutput(old(info.lscpuCache), old(info.lscpuRuns))
  {
    var lines := info.lscpuOutput;
    var a: Result<seq<nat>> := Ok([]);
    if sel.cpus.Some? {
      a := info.GetCpuList(sel.cpus.value);
    }
    assert a == CpusPart(lines, sel);
    if a.Err? {
      return Err(a.error);
    }
    var b: Result<seq<nat>> := Ok([]);
    if sel.cores.Some? {
      b := info.CoresToCpus(sel.cores.value);
    }
    assert b == CoresPart(lines, sel);
    if b.Err? {
      return Err(b.error);
    }
    var c: Result<seq<nat>> := Ok([]);
    if sel.packages.Some? {
      c := info.PkgsToCpus(sel.packages.value);
    }
    assert c == PkgsPart(lines, sel);
    if c.Err? {
      return Err(c.error);
    }
    var cpus := a.value + b.value + c.value;
    assert Requests(lines, sel) == Ok(cpus);
    SelectedFrom(lines, sel, default);
    if cpus == [] && default.Some? {
      var d := info.GetCpuList(default.value);
      if d.Err? {
        return Err(d.error);
      }
      cpus := d.value;
    }
    return Ok(Dedup(cpus));
  }

  // ----- the sibling rule of `cpu-hotplug offline` (pepclibs/pepc.py:152-163) -----

  /** `siblings[1:]`. */
  function Rest(l: seq<nat>): seq<nat> {
    if l == [] then [] else l[1..]
  }

  /** Every CPU of the core lists but the first of each list, in list order. */
  function Siblings(cores: seq<seq<nat>>): seq<nat> {
    if cores == [] then [] else Siblings(cores[..|cores| - 1]) + Rest(cores[|cores| - 1])
  }

  /** `x` is a CPU of some core list other than the list's first. */
  ghost predicate IsSibling(cores: seq<seq<nat>>, x: nat) {
    exists k, j :: 0 <= k < |cores| && 1 <= j < |cores[k]| && cores[k][j] == x
  }

  lemma InRest(l: seq<nat>, x: nat)
    ensures x in Rest(l) <==> exists j :: 1 <= j < |l| && l[j] == x
  {
    if x in Rest(l) {
      var j :| 0 <= j < |Rest(l)| && Rest(l)[j] == x;
      assert l[j + 1] == x;
    }
    if exists j :: 1 <= j < |l| && l[j] == x {
      var j :| 1 <= j < |l| && l[j] == x;
      assert Rest(l)[j - 1] == x;
    }
  }

  /** A sibling among the core lists is one among all but the last, or one of the last. */
  lemma SiblingSnoc(cores: seq<seq<nat>>, x: nat)
    requires cores != []
    ensures var n := |cores| - 1;
            IsSibling(cores, x) <==>
              IsSibling(cores[..n], x) || exists j :: 1 <= j < |cores[n]| && cores[n][j] == x
  {
    var n := |cores| - 1;
    var init := cores[..n];
    if IsSibling(cores, x) {
      var k, j :| 0 <= k < |cores| && 1 <= j < |cores[k]| && cores[k][j] == x;
      if k < n {
        assert init[k] == cores[k];
      }
    }
    if IsSibling(init, x) {
      var k, j :| 0 <= k < |init| && 1 <= j < |init[k]| && init[k][j] == x;
      assert cores[k] == init[k];
    }
  }

  /** The siblings are exactly the CPUs that are not first in their core list. */
  lemma {:induction false} InSiblings(cores: seq<seq<nat>>, x: nat)
    ensures x in Siblings(cores) <==> IsSibling(cores, x)
  {
    if cores != [] {
      var n := |cores| - 1;
      InSiblings(cores[..n], x);
      InRest(cores[n], x);
      SiblingSnoc(cores, x);
    }
  }

  /** The sibling block of `cpu_hotplug_offline_command`: the selected CPUs that are not the first
      CPU of their core's list (`cores` holds the values of `cpugeom["cores"]` in key order). */
  method SiblingsToOffline(cpus: seq<nat>, cores: seq<seq<nat>>) returns (s: set<nat>)
    ensures forall x :: x in s <==> x in cpus && IsSibling(cores, x)
  {
    var sibs: seq<nat> := [];
    for i := 0 to |cores|
      invariant sibs == Siblings(cores[..i])
    {
      assert cores[..i + 1][..i] == cores[..i];
      sibs := sibs + Rest(cores[i]);
    }
    assert cores[..|cores|] == cores;
    s := (set x | x in cpus) * (set x | x in sibs);
    forall x ensures x in s <==> x in cpus && x in Siblings(cores) {
    }
    forall x ensures x in Siblings(cores) <==> IsSibling(cores, x) {
      InSiblings(cores, x);
    }
  }

  /** Every sibling is a CPU of some core list. */
  lemma SiblingsInConcat(cores: seq<seq<nat>>, x: nat)
    ensures x in Siblings(cores) ==> x in Concat(cores)
  {
    InSiblings(cores, x);
    if x in Siblings(cores) {
      var k, j :| 0 <= k < |cores| && 1 <= j < |cores[k]| && cores[k][j] == x;
      InConcat(cores, x);
    }
  }

  /** A list without duplicates splits into two such lists with no common element. */
  lemma NoDupsSplit(a: seq<nat>, b: seq<nat>)
    requires NoDups(a + b)
    ensures NoDups(a) && NoDups(b) && forall x :: x in a ==> x !in b
  {
    forall x | x in a ensures x !in b {
      var i :| 0 <= i < |a| && a[i] == x;
      forall j | 0 <= j < |b| ensures b[j] != x {
        assert (a + b)[i] == a[i] && (a + b)[|a| + j] == b[j];
      }
    }
    forall i, j | 0 <= i < j < |a| ensures a[i] != a[j] {
      assert (a + b)[i] == a[i] && (a + b)[j] == a[j];
    }
    forall i, j | 0 <= i < j < |b| ensures b[i] != b[j] {
      assert (a + b)[|a| + i] == b[i] && (a + b)[|a| + j] == b[j];
    }
  }

  /** When every CPU is in one core list only, the first CPU of each core list stays online. */
  lemma {:induction false} FirstSiblingStays(cores: seq<seq<nat>>, k: nat)
    requires NoDups(Concat(cores)) && k < |cores| && cores[k] != []
    ensures cores[k][0] !in Siblings(cores)
  {
    var n := |cores| - 1;
    var init := cores[..n];
    var x := cores[k][0];
    NoDupsSplit(Concat(init), cores[n]);
    SiblingsInConcat(init, x);
    InRest(cores[n], x);
    if k < n {
      assert init[k] == cores[k];
      FirstSiblingStays(init, k);
      InConcat(init, x);
      assert x in Concat(init);
    } else {
      forall j | 0 <= j < |Rest(cores[n])| ensures Rest(cores[n])[j] != x {
        assert Rest(cores[n])[j] == cores[n][j + 1];
      }
    }
  }

  /** The values of `cpugeom["cores"]` in key order: the CPU list of every core number. */
  function CoreLists(cores: Tree): seq<seq<nat>> {
    if cores.Leaf? then [] else ListsOf(cores.keys, cores.kids)
  }

  /** The lists stored under the keys `ks`, in the order of `ks`. */
  function ListsOf(ks: seq<nat>, kids: map<nat, Tree>): (r: seq<seq<nat>>)
    ensures |r| == |ks|
    ensures forall i :: 0 <= i < |ks| && ks[i] in kids && kids[ks[i]].Leaf? ==> r[i] == kids[ks[i]].cpus
  {
    if ks == [] then []
    else
      var k := ks[|ks| - 1];
      ListsOf(ks[..|ks| - 1], kids) + [if k in kids && kids[k].Leaf? then kids[k].cpus else []]
  }

  /** Every key of `cpugeom["cores"]` has a value. */
  lemma CoreKeysHaveValues(lines: seq<Line>, x: nat)
    requires Flatten(TreeOf(lines), 2).Dict? && x in Flatten(TreeOf(lines), 2).keys
    ensures x in Flatten(TreeOf(lines), 2).kids
  {
    var t := TreeOf(lines);
    var es := Entries(t, 2);
    TreeOfFull(lines);
    FlattenIsFromEntries(t, 3, 2);
    FromEntriesSpec(es, x);
    var i :| 0 <= i < |EntryKeys(es)| && EntryKeys(es)[i] == x;
    assert es[i].0 == x;
  }

  /** Each list of `cpugeom["cores"]` is, in input order, the CPUs of the online lines of one
      (package, node, core) path. */
  lemma CoreListOfLines(lines: seq<Line>, k: nat)
    requires k < |CoreLists(Flatten(TreeOf(lines), 2))|
    ensures exists p :: p in Prefixes(lines, 3) &&
                        CoreLists(Flatten(TreeOf(lines), 2))[k] == CpusUnder(lines, p)
  {
    var cores := Flatten(TreeOf(lines), 2);
    FlattenedKeys(lines, 2);
    var x := cores.keys[k];
    CoreKeysHaveValues(lines, x);
    FlattenedValue(lines, 2, x);
    var p :| p in Prefixes(lines, 3) && p[2] == x && cores.kids[x] == SubTree(lines, p);
    assert |p| == 3;
  }

  /** What `cpu-hotplug offline` goes on to do with the selected CPUs. */
  datatype Offlining =
    | OfflineSelected(cpus: seq<nat>)       // no `--siblings`: offline the selection
    | OfflineSiblingSet(siblings: set<nat>) // offline these siblings
    | NoSiblings(cpus: seq<nat>)            // only a warning: no sibling among the selection

  /** With `--siblings`: the selected CPUs that are not first in a core list, or the warning. */
  function SiblingChoice(cpus: seq<nat>, lists: seq<seq<nat>>): Offlining {
    var s := set x | x in cpus && x in Siblings(lists);
    if s == {} then NoSiblings(cpus) else OfflineSiblingSet(s)
  }

  /** The decision of `cpu_hotplug_offline_command`: the selection with every CPU as default; with
      `--siblings`, its members that are not the first CPU of a list of `cpugeom["cores"]`. */
  function OfflinePlan(lines: seq<Line>, sel: Selection, siblings: bool): (r: Result<Offlining>)
    ensures r.Ok? <==> Selected(lines, sel, Some(All)).Ok?
    ensures r.Err? ==> r.error == Selected(lines, sel, Some(All)).error
    ensures !siblings && r.Ok? ==> r.value == OfflineSelected(Selected(lines, sel, Some(All)).value)
    ensures siblings && r.Ok? ==> !r.value.OfflineSelected?
  {
    match Selected(lines, sel, Some(All))
    case Err(e) => Err(e)
    case Ok(cpus) =>
      if !siblings then Ok(OfflineSelected(cpus))
      else Ok(SiblingChoice(cpus, CoreLists(GeometryOf(lines).cores)))
  }

  /** With `--siblings`, the plan is the sibling choice among the lists of `cpugeom["cores"]`. */
  lemma SiblingPlan(lines: seq<Line>, sel: Selection)
    requires Selected(lines, sel, Some(All)).Ok?
    ensures OfflinePlan(lines, sel, true) ==
            Ok(SiblingChoice(Selected(lines, sel, Some(All)).value, CoreLists(Flatten(TreeOf(lines), 2))))
  {
    assert GeometryOf(lines).cores == Flatten(TreeOf(lines), 2);
  }

  /** The sibling choice picks exactly the selected CPUs that are not first in a core list,
      and warns exactly when there is none. */
  lemma SiblingChoiceSpec(cpus: seq<nat>, lists: seq<seq<nat>>, x: nat)
    ensures SiblingChoice(cpus, lists).OfflineSiblingSet? ==>
              (x in SiblingChoice(cpus, lists).siblings <==> x in cpus && IsSibling(lists, x))
    ensures SiblingChoice(cpus, lists).NoSiblings? <==>
              SiblingChoice(cpus, lists) == NoSiblings(cpus) && forall y :: y in cpus ==> y !in Siblings(lists)
  {
    InSiblings(lists, x);
    var s := set y | y in cpus && y in Siblings(lists);
    if s == {} {
      forall y | y in cpus ensures y !in Siblings(lists) {
        assert y !in s;
      }
    } else {
      var y :| y in s;
    }
  }

  /** Every CPU the sibling rule offlines was selected, is online, and is not the first CPU in
      the list of its (package, node, core) path: it sits at index 1 or later. */
  lemma SiblingPlanSpec(lines: seq<Line>, sel: Selection, x: nat)
    requires Selected(lines, sel, Some(All)).Ok?
    requires OfflinePlan(lines, sel, true).value.OfflineSiblingSet?
    requires x in OfflinePlan(lines, sel, true).value.siblings
    ensures x in Selected(lines, sel, Some(All)).value && x in Column(lines, Cpu)
    ensures exists p, j :: p in Prefixes(lines, 3) && 1 <= j < |CpusUnder(lines, p)| &&
                           CpusUnder(lines, p)[j] == x
  {
    SiblingPlan(lines, sel);
    var lists := CoreLists(Flatten(TreeOf(lines), 2));
    var cpus := Selected(lines, sel, Some(All)).value;
    SiblingChoiceSpec(cpus, lists, x);
    SelectedOnline(lines, sel, Some(All), x);
    var k, j :| 0 <= k < |lists| && 1 <= j < |lists[k]| && lists[k][j] == x;
    CoreListOfLines(lines, k);
    var p :| p in Prefixes(lines, 3) && lists[k] == CpusUnder(lines, p);
    assert CpusUnder(lines, p)[j] == x;
  }

  /** The sibling choice made by the loop of `SiblingsToOffline`. */
  method ChooseSiblings(cpus: seq<nat>, lists: seq<seq<nat>>) returns (o: Offlining)
    ensures o == SiblingChoice(cpus, lists)
  {
    var s := SiblingsToOffline(cpus, lists);
    forall x ensures x in s <==> x in cpus && x in Siblings(lists) {
      InSiblings(lists, x);
    }
    assert s == set x | x in cpus && x in Siblings(lists);
    if s == {} {
      return NoSiblings(cpus);
    }
    return OfflineSiblingSet(s);
  }

  /** `cpu_hotplug_offline_command` (pepclibs/pepc.py:141-163) up to the calls into `CPUOnline`,
      which are not part of this model. */
  method HotplugOffline(info: CPUInfo, sel: Selection, siblings: bool) returns (r: Result<Offlining>)
    requires info.Valid() && info.GeometryValid()
    modifies info
    ensures info.Valid() && info.GeometryValid()
    ensures r == OfflinePlan(info.lscpuOutput, sel, siblings)
    ensures info.ReadOutput(old(info.lscpuCache), old(info.lscpuRuns))
    ensures siblings && r.Ok? ==> info.cpugeom == Some(GeometryOf(info.lscpuOutput))
    ensures !(siblings && r.Ok?) ==> info.cpugeom == old(info.cpugeom)
  {
    var cpus := GetCpus(info, sel, Some(All));
    if cpus.Err? {
      return Err(cpus.error);
    }
    if !siblings {
      return Ok(OfflineSelected(cpus.value));
    }
    var g := info.GetCpuGeometry();
    var o := ChooseSiblings(cpus.value, CoreLists(g.cores));
    return Ok(o);
  }

  // ----- the scope message (pepclibs/pepc.py:84-102) -----

  /** `str.lower()` on ASCII letters. */
  function Lower(s: string): (r: string)
    ensures |r| == |s|
    ensures forall i :: 0 <= i < |s| ==>
              r[i] == if 'A' <= s[i] <= 'Z' then (s[i] as int + 32) as char else s[i]
  {
    if s == [] then []
    else
      var c := s[0];
      [if 'A' <= c <= 'Z' then (c as int + 32) as char else c] + Lower(s[1..])
  }

  const Scopes: seq<string> := ["cpu", "core", "package"]

  /** The level a valid lower-case scope names. */
  function ScopeLevel(scope: string): Level
    requires scope in Scopes
  {
    if scope == "cpu" then Cpu else if scope == "core" then Core else Pkg
  }

  /** `getattr(cpuinfo, f"get_{scope}s")()` for a valid lower-case scope: `get_cpus()`,
      `get_cores()` or `get_packages()`, which list every online ID of the scope's level once,
      in order of first appearance. */
  function AllOf(lines: seq<Line>, scope: string): (r: seq<nat>)
    requires scope in Scopes
    ensures NoDups(r)
    ensures forall x :: x in r <==> x in Column(lines, ScopeLevel(scope))
  {
    var lvl := ScopeLevel(scope);
    Keys(lines, lvl)
  }

  /** `get_scope_msg(proc, cpuinfo, nums, scope)`: `hostmsg` is the host part of the message. */
  function ScopeMsg(lines: seq<Line>, hostmsg: string, nums: Nums, scope: string): (r: Result<string>)
    ensures r.Err? <==> Lower(scope) !in Scopes
    ensures r.Err? ==> r.error == BadScope(scope)
  {
    var low := Lower(scope);
    if low !in Scopes then Err(BadScope(scope))
    else if nums.All? || nums.raw == AllOf(lines, low) then Ok(hostmsg + " for all " + scope + "s")
    else Ok(hostmsg + " for " + scope + "(s): " + Rangify(nums.raw))
  }

  /** Lower-casing twice is lower-casing once. */
  lemma LowerIdempotent(s: string)
    ensures Lower(Lower(s)) == Lower(s)
  {
    forall i | 0 <= i < |s| ensures Lower(Lower(s))[i] == Lower(s)[i] {
    }
  }

  /** The scope is matched without regard to case: a scope and its lower-case spelling are
      accepted or rejected together, and name the same IDs. */
  lemma ScopeCaseInsensitive(lines: seq<Line>, hostmsg: string, nums: Nums, scope: string)
    ensures ScopeMsg(lines, hostmsg, nums, scope).Ok? <==>
            ScopeMsg(lines, hostmsg, nums, Lower(scope)).Ok?
  {
    LowerIdempotent(scope);
  }

  /** With no list, or with the list of every ID of the scope, the message reports all of
      them, spelled as the caller spelled the scope. */
  lemma ScopeMsgAll(lines: seq<Line>, hostmsg: string, scope: string)
    requires Lower(scope) in Scopes
    ensures ScopeMsg(lines, hostmsg, All, scope) == Ok(hostmsg + " for all " + scope + "s")
    ensures ScopeMsg(lines, hostmsg, NumList(AllOf(lines, Lower(scope))), scope) ==
            Ok(hostmsg + " for all " + scope + "s")
  {
  }

  /** A list that is not the full list of the scope is reported by its ranges. */
  lemma ScopeMsgPartial(lines: seq<Line>, hostmsg: string, raw: seq<nat>, scope: string)
    requires Lower(scope) in Scopes && raw != AllOf(lines, Lower(scope))
    ensures ScopeMsg(lines, hostmsg, NumList(raw), scope) ==
            Ok(hostmsg + " for " + scope + "(s): " + Rangify(raw))
  {
  }

  /** With the default scope "CPU", the default call reports every CPU. */
  lemma ScopeMsgDefault(lines: seq<Line>, hostmsg: string)
    ensures ScopeMsg(lines, hostmsg, All, "CPU") == Ok(hostmsg + " for all CPUs")
  {
    var l := Lower("CPU");
    assert l[0] == 'c' && l[1] == 'p' && l[2] == 'u';
    assert l == "cpu";
    assert hostmsg + " for all " + "CPU" + "s" == hostmsg + " for all CPUs";
  }

  // ----- yes/no (pepclibs/pepc.py:328-331) -----

  /** `bool_fmt(val)`. */
  function BoolFmt(val: bool): (r: string)
    ensures r == "yes" <==> val
    ensures r == "no" <==> !val
  {
    if val then "yes" else "no"
  }
}
