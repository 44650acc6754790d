/** The named-function data pipeline (`DataPipeline`): a registry from names
    to functions with declared argument names, an ordered selection of output
    names, and a call that runs, in dependency order and each at most once,
    exactly the registered functions the selected outputs depend on. */
module Pipeline {
  import opened Outcomes

  type Name = string

  /** A registered function: the names of its positional arguments and the
      callable itself, an opaque map from the argument values to one value. */
  datatype Func<!V> = Func(argnames: seq<Name>, call: seq<V> -> V)

  type Registry<!V> = map<Name, Func<V>>

  // ---------------------------------------------------------------------
  // Acyclicity
  // ---------------------------------------------------------------------

  /** `rank` numbers the registered names below `|reg|` so that every
      registered argument of a function has a smaller number than the
      function itself. */
  ghost predicate RankedBy<V>(reg: Registry<V>, rank: map<Name, nat>) {
    forall n :: n in reg ==>
      && n in rank && rank[n] < |reg|
      && forall a :: a in reg[n].argnames && a in reg ==> a in rank && rank[a] < rank[n]
  }

  /** No registered name depends, directly or transitively, on itself. */
  ghost predicate Acyclic<V>(reg: Registry<V>) {
    exists rank :: RankedBy(reg, rank)
  }

  /** `m` is reached from `n` by following argument edges of registered
      functions in at most `k` steps. */
  ghost predicate DependsOn<V>(reg: Registry<V>, n: Name, m: Name, k: nat)
    decreases k
  {
    n in reg && k > 0 &&
    exists a :: a in reg[n].argnames && (a == m || DependsOn(reg, a, m, k - 1))
  }

  /** A ranked registry has no dependency cycle of any length. */
  lemma {:induction false} RankedNoCycle<V>(reg: Registry<V>, rank: map<Name, nat>, n: Name, m: Name, k: nat)
    requires RankedBy(reg, rank) && DependsOn(reg, n, m, k)
    ensures m in reg ==> rank[m] < rank[n]
    ensures n != m
    decreases k
  {
    var a :| a in reg[n].argnames && (a == m || DependsOn(reg, a, m, k - 1));
    if a != m {
      RankedNoCycle(reg, rank, a, m, k - 1);
    }
  }

  /** Two functions that take each other as argument admit no ranking. */
  lemma MutualPairCyclic<V>(reg: Registry<V>)
    requires "a" in reg && "b" in reg
    requires "b" in reg["a"].argnames && "a" in reg["b"].argnames
    ensures !Acyclic(reg)
  {
  }

  // ---------------------------------------------------------------------
  // The required closure
  // ---------------------------------------------------------------------

  /** The names needed to produce `n`, following argument edges at most `k`
      deep: `n` itself and, when `n` is registered, the closures of its
      arguments. Unregistered names in it are the input leaves. */
  ghost function Closure<V>(reg: Registry<V>, n: Name, k: nat): set<Name>
    decreases k, 0
  {
    {n} + if n in reg && k > 0 then ClosureOf(reg, reg[n].argnames, k - 1) else {}
  }

  ghost function ClosureOf<V>(reg: Registry<V>, ns: seq<Name>, k: nat): set<Name>
    decreases k, 1
  {
    set a, m | a in ns && m in Closure(reg, a, k) :: m
  }

  /** The names, derived and input, that the selection `outs` requires. */
  ghost function Required<V>(reg: Registry<V>, outs: seq<Name>): set<Name> {
    ClosureOf(reg, outs, |reg|)
  }

  /** An argument of a registered name in a closure is in that closure too. */
  lemma {:induction false} ClosureStep<V>(reg: Registry<V>, rank: map<Name, nat>, x: Name, k: nat, m: Name, a: Name)
    requires RankedBy(reg, rank) && (x in reg ==> rank[x] < k)
    requires m in Closure(reg, x, k) && m in reg && a in reg[m].argnames
    ensures a in Closure(reg, x, k)
    decreases k
  {
    assert a in Closure(reg, a, k - 1);
    if m != x {
      var b :| b in reg[x].argnames && m in Closure(reg, b, k - 1);
      ClosureStep(reg, rank, b, k - 1, m, a);
    }
  }

  /** The required closure is closed under taking arguments. */
  lemma RequiredStep<V>(reg: Registry<V>, rank: map<Name, nat>, outs: seq<Name>, m: Name, a: Name)
    requires RankedBy(reg, rank)
    requires m in Required(reg, outs) && m in reg && a in reg[m].argnames
    ensures a in Required(reg, outs)
  {
    var o :| o in outs && m in Closure(reg, o, |reg|);
    ClosureStep(reg, rank, o, |reg|, m, a);
  }

  /** A set that holds `n` (when registered) and the registered arguments of
      each of its registered members holds every registered name of the
      closure of `n`. */
  lemma {:induction false} ClosureWithin<V>(reg: Registry<V>, s: set<Name>, n: Name, k: nat)
    requires n in reg ==> n in s
    requires forall x, a :: x in s && x in reg && a in reg[x].argnames && a in reg ==> a in s
    ensures forall m :: m in Closure(reg, n, k) && m in reg ==> m in s
    decreases k
  {
    if n in reg && k > 0 {
      forall m | m in ClosureOf(reg, reg[n].argnames, k - 1) && m in reg
        ensures m in s
      {
        var a :| a in reg[n].argnames && m in Closure(reg, a, k - 1);
        ClosureWithin(reg, s, a, k - 1);
      }
    }
  }

  /** The inputs cover the required leaves when every unregistered argument
      name and every unregistered output name is an input. */
  lemma {:induction false} LeavesCovered<V>(reg: Registry<V>, outs: seq<Name>, inputs: map<Name, V>)
    requires forall n, a :: n in reg && a in reg[n].argnames ==> a in reg || a in inputs
    requires forall o :: o in outs ==> o in reg || o in inputs
    ensures forall m :: m in Required(reg, outs) && m !in reg ==> m in inputs
  {
    forall m | m in Required(reg, outs) && m !in reg ensures m in inputs {
      var o :| o in outs && m in Closure(reg, o, |reg|);
      LeafOfClosure(reg, inputs, o, |reg|, m);
    }
  }

  lemma {:induction false} LeafOfClosure<V>(reg: Registry<V>, inputs: map<Name, V>, n: Name, k: nat, m: Name)
    requires forall x, a :: x in reg && a in reg[x].argnames ==> a in reg || a in inputs
    requires n in reg || n in inputs
    requires m in Closure(reg, n, k) && m !in reg
    ensures m in inputs
    decreases k
  {
    if m != n {
      var a :| a in reg[n].argnames && m in Closure(reg, a, k - 1);
      LeafOfClosure(reg, inputs, a, k - 1, m);
    }
  }

  // ---------------------------------------------------------------------
  // The value of a name: the reference semantics
  // ---------------------------------------------------------------------

  /** The value a name stands for, unfolding registered functions at most
      `k` deep: an unregistered name is the input of that name, a registered
      one is its function applied to the values of its arguments (so a
      registered name shadows an input of the same name). None when an input
      leaf is missing or `k` runs out. */
  ghost function Eval<V>(reg: Registry<V>, inputs: map<Name, V>, n: Name, k: nat): Option<V>
    decreases k, 0
  {
    if n !in reg then (if n in inputs then Some(inputs[n]) else None)
    else if k == 0 then None
    else
      match EvalArgs(reg, inputs, reg[n].argnames, k - 1)
      case None => None
      case Some(xs) => Some(reg[n].call(xs))
  }

  /** The values of a list of names, when each has one. */
  ghost function EvalArgs<V>(reg: Registry<V>, inputs: map<Name, V>, names: seq<Name>, k: nat): Option<seq<V>>
    decreases k, 1, |names|
  {
    if names == [] then Some([])
    else
      match (Eval(reg, inputs, names[0], k), EvalArgs(reg, inputs, names[1..], k))
      case (Some(x), Some(xs)) => Some([x] + xs)
      case _ => None
  }

  /** The argument values exist exactly when each name has a value, and are
      those values in order. */
  lemma {:induction false} EvalArgsValues<V>(reg: Registry<V>, inputs: map<Name, V>, names: seq<Name>, k: nat)
    ensures EvalArgs(reg, inputs, names, k).Some? <==>
      forall j :: 0 <= j < |names| ==> Eval(reg, inputs, names[j], k).Some?
    ensures EvalArgs(reg, inputs, names, k).Some? ==>
      && |EvalArgs(reg, inputs, names, k).value| == |names|
      && forall j :: 0 <= j < |names| ==> Eval(reg, inputs, names[j], k) == Some(EvalArgs(reg, inputs, names, k).value[j])
    decreases |names|
  {
    if names != [] {
      EvalArgsValues(reg, inputs, names[1..], k);
      forall j | 1 <= j < |names| ensures names[j] == names[1..][j - 1] { }
    }
  }

  /** The value of `n` for the call with `inputs`. */
  ghost function Value<V>(reg: Registry<V>, inputs: map<Name, V>, n: Name): Option<V> {
    Eval(reg, inputs, n, |reg|)
  }

  /** Once the depth bound exceeds the rank, the value does not depend on it. */
  lemma {:induction false} EvalFuel<V>(reg: Registry<V>, rank: map<Name, nat>, inputs: map<Name, V>, n: Name, k1: nat, k2: nat)
    requires RankedBy(reg, rank)
    requires n in reg ==> rank[n] < k1 && rank[n] < k2
    ensures Eval(reg, inputs, n, k1) == Eval(reg, inputs, n, k2)
    decreases k1, 0
  {
    if n in reg {
      EvalArgsFuel(reg, rank, inputs, n, reg[n].argnames, k1 - 1, k2 - 1);
    }
  }

  /** The same for the argument list of the registered name `n`, one
      argument at a time. */
  lemma {:induction false} EvalArgsFuel<V>(reg: Registry<V>, rank: map<Name, nat>, inputs: map<Name, V>, n: Name, names: seq<Name>, k1: nat, k2: nat)
    requires RankedBy(reg, rank)
    requires n in reg && rank[n] <= k1 && rank[n] <= k2
    requires forall a :: a in names ==> a in reg[n].argnames
    ensures EvalArgs(reg, inputs, names, k1) == EvalArgs(reg, inputs, names, k2)
    decreases k1, 1, |names|
  {
    if names != [] {
      assert names[0] in reg[n].argnames;
      EvalFuel(reg, rank, inputs, names[0], k1, k2);
      EvalArgsFuel(reg, rank, inputs, n, names[1..], k1, k2);
    }
  }

  // ---------------------------------------------------------------------
  // The execution plan
  // ---------------------------------------------------------------------

  /** Depth-first, dependencies first: schedule the registered arguments of
      `n` (in argument order), then `n`, skipping names already in `done`. */
  function Visit<V>(reg: Registry<V>, n: Name, k: nat, done: seq<Name>): seq<Name>
    decreases k, 0
  {
    if n !in reg || n in done || k == 0 then done
    else VisitAll(reg, reg[n].argnames, k - 1, done) + [n]
  }

  function VisitAll<V>(reg: Registry<V>, ns: seq<Name>, k: nat, done: seq<Name>): seq<Name>
    decreases k, 1, |ns|
  {
    if ns == [] then done
    else VisitAll(reg, ns[1..], k, Visit(reg, ns[0], k, done))
  }

  /** The order in which a call runs the registered functions for the
      selection `outs`. */
  function Plan<V>(reg: Registry<V>, outs: seq<Name>): seq<Name> {
    VisitAll(reg, outs, |reg|, [])
  }

  ghost predicate NoDup(s: seq<Name>) {
    forall i, j :: 0 <= i < j < |s| ==> s[i] != s[j]
  }

  /** Every name of `s` is registered, and each of its registered arguments
      comes before it. */
  ghost predicate Scheduled<V>(reg: Registry<V>, s: seq<Name>) {
    forall i :: 0 <= i < |s| ==>
      s[i] in reg && forall a :: a in reg[s[i]].argnames && a in reg ==> a in s[..i]
  }

  /** `r` continues `done` with distinct, registered names drawn from `S`
      and ranked below `b`, keeping every registered function after its
      registered arguments. */
  ghost predicate Extends<V>(reg: Registry<V>, rank: map<Name, nat>, done: seq<Name>, r: seq<Name>, S: set<Name>, b: nat) {
    && |done| <= |r| && r[..|done|] == done
    && NoDup(r) && Scheduled(reg, r)
    && forall i :: |done| <= i < |r| ==> r[i] in S && r[i] in rank && rank[r[i]] < b
  }

  lemma ExtendsTrans<V>(reg: Registry<V>, rank: map<Name, nat>, done: seq<Name>, d: seq<Name>, r: seq<Name>, S1: set<Name>, S2: set<Name>, S: set<Name>, b: nat)
    requires Extends(reg, rank, done, d, S1, b) && Extends(reg, rank, d, r, S2, b)
    requires S1 <= S && S2 <= S
    ensures Extends(reg, rank, done, r, S, b)
  {
    assert r[..|d|][..|done|] == r[..|done|];
    forall i | |done| <= i < |r| ensures r[i] in S && r[i] in rank && rank[r[i]] < b {
      if i < |d| { assert r[i] == r[..|d|][i]; }
    }
  }

  lemma PrefixKeeps(d: seq<Name>, r: seq<Name>, n: Name)
    requires |d| <= |r| && r[..|d|] == d && n in d
    ensures n in r
  {
    var j :| 0 <= j < |d| && d[j] == n;
    assert r[j] == r[..|d|][j];
  }

  lemma ClosureOfHas<V>(reg: Registry<V>, ns: seq<Name>, k: nat)
    requires ns != []
    ensures Closure(reg, ns[0], k) <= ClosureOf(reg, ns, k)
    ensures ClosureOf(reg, ns[1..], k) <= ClosureOf(reg, ns, k)
  {
    forall m | m in ClosureOf(reg, ns[1..], k) ensures m in ClosureOf(reg, ns, k) {
      var a :| a in ns[1..] && m in Closure(reg, a, k);
      assert a in ns;
    }
  }

  lemma AppendOne<V>(reg: Registry<V>, rank: map<Name, nat>, done: seq<Name>, d: seq<Name>, n: Name, S: set<Name>, b: nat)
    requires Extends(reg, rank, done, d, S, b)
    requires n !in done && n in reg && n in rank && rank[n] < b + 1 && n in S
    requires forall a :: a in reg[n].argnames && a in reg ==> a in d
    requires forall i :: |done| <= i < |d| ==> d[i] != n
    ensures Extends(reg, rank, done, d + [n], S, b + 1)
  {
    var r := d + [n];
    assert r[..|d|] == d;
    assert r[..|done|] == done by { assert r[..|d|][..|done|] == r[..|done|]; }
    assert n !in d by {
      forall i | 0 <= i < |d| ensures d[i] != n {
        if i < |done| { assert d[i] == done[i]; }
      }
    }
    forall i | 0 <= i < |r|
      ensures r[i] in reg && forall a :: a in reg[r[i]].argnames && a in reg ==> a in r[..i]
    {
      if i < |d| { assert r[..i] == d[..i]; } else { assert r[..i] == d; }
    }
  }

  lemma {:induction false} VisitSpec<V>(reg: Registry<V>, rank: map<Name, nat>, n: Name, k: nat, done: seq<Name>)
    requires RankedBy(reg, rank) && (n in reg ==> rank[n] < k)
    requires NoDup(done) && Scheduled(reg, done)
    ensures n in reg ==> n in Visit(reg, n, k, done)
    ensures Extends(reg, rank, done, Visit(reg, n, k, done), Closure(reg, n, k), if n in reg then rank[n] + 1 else 0)
    decreases k, 0
  {
    var b := if n in reg then rank[n] + 1 else 0;
    if n !in reg || n in done || k == 0 {
      assert done[..|done|] == done;
    } else {
      var args := reg[n].argnames;
      VisitAllSpec(reg, rank, args, k - 1, done, rank[n]);
      var d := VisitAll(reg, args, k - 1, done);
      forall a | a in args && a in reg ensures a in d {
        VisitAllHas(reg, rank, args, k - 1, done, rank[n], a);
      }
      assert ClosureOf(reg, args, k - 1) <= Closure(reg, n, k);
      ExtendsWeaken(reg, rank, done, d, ClosureOf(reg, args, k - 1), Closure(reg, n, k), rank[n]);
      AppendOne(reg, rank, done, d, n, Closure(reg, n, k), rank[n]);
    }
  }

  lemma ExtendsWeaken<V>(reg: Registry<V>, rank: map<Name, nat>, done: seq<Name>, r: seq<Name>, S1: set<Name>, S: set<Name>, b: nat)
    requires Extends(reg, rank, done, r, S1, b) && S1 <= S
    ensures Extends(reg, rank, done, r, S, b)
  {
  }

  lemma {:induction false} VisitAllSpec<V>(reg: Registry<V>, rank: map<Name, nat>, ns: seq<Name>, k: nat, done: seq<Name>, b: nat)
    requires RankedBy(reg, rank)
    requires forall a :: a in ns && a in reg ==> rank[a] < k && rank[a] < b
    requires NoDup(done) && Scheduled(reg, done)
    ensures Extends(reg, rank, done, VisitAll(reg, ns, k, done), ClosureOf(reg, ns, k), b)
    decreases k, 1, |ns|
  {
    if ns == [] {
      assert done[..|done|] == done;
    } else {
      var d := Visit(reg, ns[0], k, done);
      VisitSpec(reg, rank, ns[0], k, done);
      var b0 := if ns[0] in reg then rank[ns[0]] + 1 else 0;
      assert Extends(reg, rank, done, d, Closure(reg, ns[0], k), b) by {
        assert b0 <= b;
      }
      VisitAllSpec(reg, rank, ns[1..], k, d, b);
      ClosureOfHas(reg, ns, k);
      ExtendsTrans(reg, rank, done, d, VisitAll(reg, ns[1..], k, d),
        Closure(reg, ns[0], k), ClosureOf(reg, ns[1..], k), ClosureOf(reg, ns, k), b);
    }
  }

  /** Every registered name of `ns` is scheduled by `VisitAll`. */
  lemma {:induction false} VisitAllHas<V>(reg: Registry<V>, rank: map<Name, nat>, ns: seq<Name>, k: nat, done: seq<Name>, b: nat, a: Name)
    requires RankedBy(reg, rank)
    requires forall x :: x in ns && x in reg ==> rank[x] < k && rank[x] < b
    requires NoDup(done) && Scheduled(reg, done)
    requires a in ns && a in reg
    ensures a in VisitAll(reg, ns, k, done)
    decreases k, 1, |ns|
  {
    var d := Visit(reg, ns[0], k, done);
    VisitSpec(reg, rank, ns[0], k, done);
    VisitAllSpec(reg, rank, ns[1..], k, d, b);
    if a == ns[0] {
      PrefixKeeps(d, VisitAll(reg, ns[1..], k, d), a);
    } else {
      assert a in ns[1..];
      VisitAllHas(reg, rank, ns[1..], k, d, b, a);
    }
  }

  /** `calls` holds the registered names the selection requires, and no
      other name. */
  ghost predicate RunsRequired<V>(reg: Registry<V>, outs: seq<Name>, calls: seq<Name>) {
    forall m :: m in calls <==> m in reg && m in Required(reg, outs)
  }

  /** The plan runs each required registered function exactly once, never
      one that no selected output depends on, and every function after the
      registered functions it takes as arguments. */
  lemma PlanSpec<V>(reg: Registry<V>, outs: seq<Name>)
    requires Acyclic(reg)
    ensures NoDup(Plan(reg, outs))
    ensures Scheduled(reg, Plan(reg, outs))
    ensures RunsRequired(reg, outs, Plan(reg, outs))
  {
    var rank :| RankedBy(reg, rank);
    var p := Plan(reg, outs);
    VisitAllSpec(reg, rank, outs, |reg|, [], |reg|);
    var s := set i | 0 <= i < |p| :: p[i];
    forall x, a | x in s && x in reg && a in reg[x].argnames && a in reg ensures a in s {
      var i :| 0 <= i < |p| && p[i] == x;
      assert a in p[..i];
    }
    forall m | m in reg && m in Required(reg, outs) ensures m in p {
      var o :| o in outs && m in Closure(reg, o, |reg|);
      if o in reg { VisitAllHas(reg, rank, outs, |reg|, [], |reg|, o); }
      ClosureWithin(reg, s, o, |reg|);
    }
  }

  /** Laziness: a registered function that no selected output depends on is
      never run, even when all of its arguments are available. */
  lemma NotRequiredNotRun<V>(reg: Registry<V>, outs: seq<Name>, f: Name)
    requires Acyclic(reg)
    requires f !in Required(reg, outs)
    ensures f !in Plan(reg, outs)
  {
    PlanSpec(reg, outs);
  }

  // ---------------------------------------------------------------------
  // Running the plan
  // ---------------------------------------------------------------------

  /** The values of the named arguments in a frame of computed values. */
  function ArgValues<V>(names: seq<Name>, frame: map<Name, V>): (r: seq<V>)
    requires forall a :: a in names ==> a in frame
    ensures |r| == |names|
    ensures forall j :: 0 <= j < |names| ==> r[j] == frame[names[j]]
  {
    seq(|names|, j requires 0 <= j < |names| => frame[names[j]])
  }

  /** The frame holds every input, unchanged unless a registered function of
      the same name has overwritten it, and the value of every name run so
      far. */
  ghost predicate FrameAgrees<V>(reg: Registry<V>, inputs: map<Name, V>, frame: map<Name, V>, done: seq<Name>) {
    && (forall x :: x in inputs ==> x in frame)
    && (forall x :: x in inputs && x !in reg ==> frame[x] == inputs[x])
    && forall j :: 0 <= j < |done| ==> done[j] in frame && Value(reg, inputs, done[j]) == Some(frame[done[j]])
  }

  /** Running a function whose registered arguments have already run and
      whose other arguments are inputs stores its value in the frame. */
  lemma StepAgrees<V>(reg: Registry<V>, rank: map<Name, nat>, inputs: map<Name, V>, frame: map<Name, V>, done: seq<Name>, n: Name)
    requires RankedBy(reg, rank) && FrameAgrees(reg, inputs, frame, done) && n in reg
    requires forall a :: a in reg[n].argnames ==> (a in reg ==> a in done) && (a !in reg ==> a in inputs)
    ensures forall a :: a in reg[n].argnames ==> a in frame
    ensures var v := reg[n].call(ArgValues(reg[n].argnames, frame));
      && Value(reg, inputs, n) == Some(v)
      && FrameAgrees(reg, inputs, frame[n := v], done + [n])
  {
    ArgsAgree(reg, rank, inputs, frame, done, n);
    var v := reg[n].call(ArgValues(reg[n].argnames, frame));
    var f := frame[n := v];
    var d := done + [n];
    forall j | 0 <= j < |d| ensures d[j] in f && Value(reg, inputs, d[j]) == Some(f[d[j]]) {
      if j < |done| { assert d[j] == done[j]; }
    }
  }

  /** The arguments of such a function have their values in the frame. */
  lemma ArgsAgree<V>(reg: Registry<V>, rank: map<Name, nat>, inputs: map<Name, V>, frame: map<Name, V>, done: seq<Name>, n: Name)
    requires RankedBy(reg, rank) && FrameAgrees(reg, inputs, frame, done) && n in reg
    requires forall a :: a in reg[n].argnames ==> (a in reg ==> a in done) && (a !in reg ==> a in inputs)
    ensures forall a :: a in reg[n].argnames ==> a in frame
    ensures Value(reg, inputs, n) == Some(reg[n].call(ArgValues(reg[n].argnames, frame)))
  {
    var names := reg[n].argnames;
    var K := |reg|;
    forall j | 0 <= j < |names|
      ensures names[j] in frame
      ensures Eval(reg, inputs, names[j], K - 1) == Some(frame[names[j]])
    {
      var a := names[j];
      assert a in names;
      if a in reg {
        var i :| 0 <= i < |done| && done[i] == a;
        RankOfArg(reg, rank, n, j);
        EvalFuel(reg, rank, inputs, a, K, K - 1);
      }
    }
    EvalArgsOf(reg, inputs, names, K - 1, ArgValues(names, frame));
  }

  /** A list of names whose values are `xs` has argument values `xs`. */
  lemma {:induction false} EvalArgsOf<V>(reg: Registry<V>, inputs: map<Name, V>, names: seq<Name>, k: nat, xs: seq<V>)
    requires |xs| == |names|
    requires forall j :: 0 <= j < |names| ==> Eval(reg, inputs, names[j], k) == Some(xs[j])
    ensures EvalArgs(reg, inputs, names, k) == Some(xs)
    decreases |names|
  {
    if names != [] {
      EvalArgsOf(reg, inputs, names[1..], k, xs[1..]);
      assert [xs[0]] + xs[1..] == xs;
    }
  }

  lemma RankOfArg<V>(reg: Registry<V>, rank: map<Name, nat>, n: Name, i: nat)
    requires RankedBy(reg, rank) && n in reg && i < |reg[n].argnames|
    ensures reg[n].argnames[i] in reg ==> reg[n].argnames[i] in rank && rank[reg[n].argnames[i]] < rank[n]
  {
    assert reg[n].argnames[i] in reg[n].argnames;
  }

  /** Every function of `plan` is registered, and each of its arguments is
      either a function earlier in the plan or an input. */
  ghost predicate Runnable<V>(reg: Registry<V>, inputs: map<Name, V>, plan: seq<Name>) {
    forall i :: 0 <= i < |plan| ==>
      && plan[i] in reg
      && forall a :: a in reg[plan[i]].argnames ==> (a in reg ==> a in plan[..i]) && (a !in reg ==> a in inputs)
  }

  /** A plan that runs only required functions in dependency order can run
      once the required input leaves are present. */
  lemma PlanRunnable<V>(reg: Registry<V>, rank: map<Name, nat>, outs: seq<Name>, inputs: map<Name, V>, plan: seq<Name>)
    requires RankedBy(reg, rank)
    requires forall m :: m in Required(reg, outs) && m !in reg ==> m in inputs
    requires Scheduled(reg, plan) && RunsRequired(reg, outs, plan)
    ensures Runnable(reg, inputs, plan)
  {
    forall i, a | 0 <= i < |plan| && a in reg[plan[i]].argnames && a !in reg ensures a in inputs {
      RequiredStep(reg, rank, outs, plan[i], a);
    }
  }

  /** The loop of a call: runs each function of the plan in turn on the
      values of its arguments in the frame, and stores the result under the
      function's name. `log` records each function as it is applied. */
  method RunPlan<V>(reg: Registry<V>, ghost rank: map<Name, nat>, inputs: map<Name, V>, plan: seq<Name>)
    returns (frame: map<Name, V>, log: seq<Name>)
    requires RankedBy(reg, rank) && Runnable(reg, inputs, plan)
    ensures FrameAgrees(reg, inputs, frame, plan)
    ensures log == plan
  {
    frame := inputs;
    log := [];
    var i := 0;
    while i < |plan|
      invariant 0 <= i <= |plan|
      invariant FrameAgrees(reg, inputs, frame, plan[..i])
      invariant log == plan[..i]
    {
      var n := plan[i];
      StepAgrees(reg, rank, inputs, frame, plan[..i], n);
      var v := reg[n].call(ArgValues(reg[n].argnames, frame));
      log := log + [n];
      frame := frame[n := v];
      assert plan[..i + 1] == plan[..i] + [n];
      i := i + 1;
    }
    assert plan[..|plan|] == plan;
  }

  /** After the whole plan has run, every selected name has its value in
      the frame. */
  lemma OutputsAgree<V>(reg: Registry<V>, outs: seq<Name>, inputs: map<Name, V>, frame: map<Name, V>, plan: seq<Name>)
    requires forall m :: m in Required(reg, outs) && m !in reg ==> m in inputs
    requires RunsRequired(reg, outs, plan) && FrameAgrees(reg, inputs, frame, plan)
    ensures forall o :: o in outs ==> o in frame && Value(reg, inputs, o) == Some(frame[o])
  {
    forall o | o in outs ensures o in frame && Value(reg, inputs, o) == Some(frame[o]) {
      assert o in Closure(reg, o, |reg|);
      if o in reg {
        var j :| 0 <= j < |plan| && plan[j] == o;
      }
    }
  }

  // ---------------------------------------------------------------------
  // The pipeline object
  // ---------------------------------------------------------------------

  class DataPipeline<V> {
    /** The registry: each name bound to its argument names and function. */
    var funcs: Registry<V>
    /** The selected output names, in order. */
    var outputNames: seq<Name>

    /** `DataPipeline()`: nothing registered, nothing selected. */
    constructor ()
      ensures funcs == map[] && outputNames == []
    {
      funcs := map[];
      outputNames := [];
    }

    /** `DataPipeline.from_configuration(funcs, output_names)`. */
    constructor FromConfiguration(funcs: Registry<V>, outputNames: seq<Name>)
      ensures this.funcs == funcs && this.outputNames == outputNames
    {
      this.funcs := funcs;
      this.outputNames := outputNames;
    }

    /** `add_func(name, func, argnames)`: binds `name`, replacing any function
        registered under it before; the selection is untouched. */
    method AddFunc(name: Name, call: seq<V> -> V, argnames: seq<Name>)
      modifies this
      ensures funcs == old(funcs)[name := Func(argnames, call)]
      ensures outputNames == old(outputNames)
    {
      funcs := funcs[name := Func(argnames, call)];
    }

    /** `output_names.append(name)`. */
    method AppendOutputName(name: Name)
      modifies this
      ensures outputNames == old(outputNames) + [name]
      ensures funcs == old(funcs)
    {
      outputNames := outputNames + [name];
    }

    /** `set_output_names(names)`: replaces the selection, leaving the
        registry as it was. */
    method SetOutputNames(names: seq<Name>)
      modifies this
      ensures outputNames == names
      ensures funcs == old(funcs)
    {
      outputNames := names;
    }

    /** `pipeline(inputs)`: runs the plan over a frame seeded with the inputs,
        storing each result under its function's name, and returns the frame
        restricted to the selected names. `calls` logs the functions run, in
        order. */
    method Call(inputs: map<Name, V>) returns (result: map<Name, V>, calls: seq<Name>)
      requires Acyclic(funcs)
      requires forall m :: m in Required(funcs, outputNames) && m !in funcs ==> m in inputs
      ensures result.Keys == set o | o in outputNames
      ensures forall o :: o in outputNames ==> Value(funcs, inputs, o) == Some(result[o])
      ensures calls == Plan(funcs, outputNames)
      ensures NoDup(calls) && Scheduled(funcs, calls)
    {
      ghost var rank :| RankedBy(funcs, rank);
      var reg := funcs;
      var outs := outputNames;
      var plan := Plan(reg, outs);
      PlanSpec(reg, outs);
      PlanRunnable(reg, rank, outs, inputs, plan);
      var frame, log := RunPlan(reg, rank, inputs, plan);
      OutputsAgree(reg, outs, inputs, frame, plan);
      result := map o | o in outs :: frame[o];
      calls := log;
    }
  }
}
