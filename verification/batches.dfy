/** The control structure both `run_all` loops share: run the items of a list
    one after the other, threading the orchestrator's state through, and stop
    at the first item that raises. It is stated over an arbitrary state and an
    arbitrary step so that its properties are proved once, about the loop
    alone; each copy of the wrapper then shows that its own step meets the
    hypotheses. */
module Batches {
  import opened Results
  import opened Errors

  /** Where an item (or a whole batch) left the state, and whether it raised. */
  datatype Outcome<S> = Outcome(state: S, result: Result<(), Error>)

  /** Items `i` to `n - 1`, in order, stopping at the first raise. */
  function Loop<S>(step: (S, nat) -> Outcome<S>, st: S, i: nat, n: nat): Outcome<S>
    decreases n - i
  {
    if n <= i then Outcome(st, Success(()))
    else
      var x := step(st, i);
      if x.result.Failure? then x else Loop(step, x.state, i + 1, n)
  }

  /** From any state in `inv`, item `j` raises `res(j)` and stays in `inv`:
      what an item raises depends on its position only. */
  ghost predicate Determined<S(!new)>(step: (S, nat) -> Outcome<S>, inv: S -> bool, res: nat -> Result<(), Error>,
                                      i: nat, n: nat)
  {
    forall st, j {:trigger step(st, j)} | i <= j < n && inv(st) ::
      inv(step(st, j).state) && step(st, j).result == res(j)
  }

  /** Every item from `i` on goes through. */
  ghost predicate AllSucceed(res: nat -> Result<(), Error>, i: nat, n: nat) {
    forall j | i <= j < n :: res(j).Success?
  }

  /** Item `k` is the first from `i` on that raises. */
  ghost predicate FirstFailure(res: nat -> Result<(), Error>, i: nat, n: nat, k: nat) {
    && i <= k < n
    && (forall j | i <= j < k :: res(j).Success?)
    && res(k).Failure?
  }

  /** The loop keeps `inv`, and it goes through exactly when every item does. */
  lemma {:induction false} LoopSucceedsIff<S(!new)>(step: (S, nat) -> Outcome<S>, inv: S -> bool,
                                                    res: nat -> Result<(), Error>, st: S, i: nat, n: nat)
    requires Determined(step, inv, res, i, n) && inv(st)
    ensures inv(Loop(step, st, i, n).state)
    ensures Loop(step, st, i, n).result.Success? <==> AllSucceed(res, i, n)
    decreases n - i
  {
    if i < n {
      var x := step(st, i);
      if x.result.Success? {
        LoopSucceedsIff(step, inv, res, x.state, i + 1, n);
        assert AllSucceed(res, i + 1, n) <==> AllSucceed(res, i, n);
      }
    }
  }

  /** The loop raises what its first failing item raises. */
  lemma {:induction false} LoopFailsAt<S(!new)>(step: (S, nat) -> Outcome<S>, inv: S -> bool,
                                                res: nat -> Result<(), Error>, st: S, i: nat, n: nat, k: nat)
    requires Determined(step, inv, res, i, n) && inv(st)
    requires FirstFailure(res, i, n, k)
    ensures Loop(step, st, i, n).result == res(k)
    decreases k - i
  {
    if i < k {
      var x := step(st, i);
      assert res(i).Success?;
      assert FirstFailure(res, i + 1, n, k);
      LoopFailsAt(step, inv, res, x.state, i + 1, n, k);
    }
  }

  /** A list in which some item raises has a first such item. */
  lemma {:induction false} FirstFailureExists(res: nat -> Result<(), Error>, i: nat, n: nat)
    requires !AllSucceed(res, i, n)
    ensures exists k: nat :: FirstFailure(res, i, n, k)
    decreases n - i
  {
    if res(i).Success? {
      assert !AllSucceed(res, i + 1, n);
      FirstFailureExists(res, i + 1, n);
      var k: nat :| FirstFailure(res, i + 1, n, k);
      assert FirstFailure(res, i, n, k);
    } else {
      assert FirstFailure(res, i, n, i);
    }
  }

  /** `item(i)`, ..., `item(i + m - 1)`. */
  function Items<T>(item: nat -> T, i: nat, m: nat): seq<T>
    decreases m
  {
    if m == 0 then [] else [item(i)] + Items(item, i + 1, m - 1)
  }

  /** `Items` holds `m` entries, the `t`-th being `item(i + t)`. */
  lemma {:induction false} ItemsIndexed<T>(item: nat -> T, i: nat, m: nat)
    ensures |Items(item, i, m)| == m
    ensures forall t | 0 <= t < m :: Items(item, i, m)[t] == item(i + t)
    decreases m
  {
    if m > 0 {
      ItemsIndexed(item, i + 1, m - 1);
      var rest := Items(item, i + 1, m - 1);
      assert Items(item, i, m) == [item(i)] + rest;
      forall t | 0 < t < m
        ensures Items(item, i, m)[t] == item(i + t)
      {
        assert Items(item, i, m)[t] == rest[t - 1];
      }
    }
  }

  /** `weight(i) + ... + weight(i + m - 1)`. */
  function Sum(weight: nat -> nat, i: nat, m: nat): nat
    decreases m
  {
    if m == 0 then 0 else weight(i) + Sum(weight, i + 1, m - 1)
  }

  /** Every item that goes through is one that records. */
  ghost predicate Covers(res: nat -> Result<(), Error>, adds: nat -> bool, i: nat, n: nat) {
    forall j | i <= j < n :: res(j).Success? ==> adds(j)
  }

  /** From any state in `inv`, item `j` appends `item(j)` to the trace when
      `adds(j)` and leaves it alone otherwise. */
  ghost predicate Records<S(!new), T>(step: (S, nat) -> Outcome<S>, inv: S -> bool,
                                      adds: nat -> bool, trace: S -> seq<T>, item: nat -> T, i: nat, n: nat)
  {
    forall st, j {:trigger step(st, j)} | i <= j < n && inv(st) ::
      trace(step(st, j).state) == trace(st) + if adds(j) then [item(j)] else []
  }

  /** From any state in `inv`, item `j` adds `weight(j)` to the counter when
      `adds(j)` and nothing otherwise. */
  ghost predicate Weighs<S(!new)>(step: (S, nat) -> Outcome<S>, inv: S -> bool, adds: nat -> bool,
                                  count: S -> nat, weight: nat -> nat, i: nat, n: nat)
  {
    forall st, j {:trigger step(st, j)} | i <= j < n && inv(st) ::
      count(step(st, j).state) == count(st) + if adds(j) then weight(j) else 0
  }

  lemma AppendAssoc<T>(a: seq<T>, b: seq<T>, c: seq<T>)
    ensures (a + b) + c == a + (b + c)
  {
  }

  /** A batch in which every item goes through appends every item, in order. */
  lemma {:induction false} LoopTraceAll<S(!new), T>(step: (S, nat) -> Outcome<S>, inv: S -> bool,
                                                    res: nat -> Result<(), Error>, adds: nat -> bool,
                                                    trace: S -> seq<T>, item: nat -> T, st: S, i: nat, n: nat)
    requires i <= n
    requires Determined(step, inv, res, i, n) && Records(step, inv, adds, trace, item, i, n) && inv(st)
    requires Covers(res, adds, i, n)
    requires AllSucceed(res, i, n)
    ensures trace(Loop(step, st, i, n).state) == trace(st) + Items(item, i, n - i)
    decreases n - i
  {
    if i < n {
      var x := step(st, i);
      assert trace(x.state) == trace(st) + [item(i)];
      LoopTraceAll(step, inv, res, adds, trace, item, x.state, i + 1, n);
      AppendAssoc(trace(st), [item(i)], Items(item, i + 1, n - i - 1));
    }
  }

  /** A batch that stops at item `k` appends the items before it, in order,
      and then whatever item `k` itself appended. */
  lemma {:induction false} LoopTraceAt<S(!new), T>(step: (S, nat) -> Outcome<S>, inv: S -> bool,
                                                   res: nat -> Result<(), Error>, adds: nat -> bool,
                                                   trace: S -> seq<T>, item: nat -> T, st: S, i: nat, n: nat, k: nat)
    requires Determined(step, inv, res, i, n) && Records(step, inv, adds, trace, item, i, n) && inv(st)
    requires Covers(res, adds, i, n)
    requires FirstFailure(res, i, n, k)
    ensures trace(Loop(step, st, i, n).state)
         == trace(st) + Items(item, i, k - i) + if adds(k) then [item(k)] else []
    decreases k - i
  {
    var x := step(st, i);
    var last: seq<T> := if adds(k) then [item(k)] else [];
    if i < k {
      assert res(i).Success?;
      assert trace(x.state) == trace(st) + [item(i)];
      assert FirstFailure(res, i + 1, n, k);
      LoopTraceAt(step, inv, res, adds, trace, item, x.state, i + 1, n, k);
      AppendAssoc(trace(st), [item(i)], Items(item, i + 1, k - i - 1));
      AppendAssoc(trace(st), Items(item, i, k - i), last);
      AppendAssoc(trace(st) + [item(i)], Items(item, i + 1, k - i - 1), last);
    } else {
      assert Items(item, i, 0) == [];
      assert trace(st) + Items(item, i, 0) == trace(st);
    }
  }

  /** A batch in which every item goes through adds up every item's weight. */
  lemma {:induction false} LoopCountAll<S(!new)>(step: (S, nat) -> Outcome<S>, inv: S -> bool,
                                                 res: nat -> Result<(), Error>, adds: nat -> bool,
                                                 count: S -> nat, weight: nat -> nat, st: S, i: nat, n: nat)
    requires i <= n
    requires Determined(step, inv, res, i, n) && Weighs(step, inv, adds, count, weight, i, n) && inv(st)
    requires Covers(res, adds, i, n)
    requires AllSucceed(res, i, n)
    ensures count(Loop(step, st, i, n).state) == count(st) + Sum(weight, i, n - i)
    decreases n - i
  {
    if i < n {
      var x := step(st, i);
      assert count(x.state) == count(st) + weight(i);
      LoopCountAll(step, inv, res, adds, count, weight, x.state, i + 1, n);
    }
  }

  /** A batch that stops at item `k` adds the weights of the items before it
      and, if item `k` counted, its weight too. */
  lemma {:induction false} LoopCountAt<S(!new)>(step: (S, nat) -> Outcome<S>, inv: S -> bool,
                                                res: nat -> Result<(), Error>, adds: nat -> bool,
                                                count: S -> nat, weight: nat -> nat, st: S, i: nat, n: nat, k: nat)
    requires Determined(step, inv, res, i, n) && Weighs(step, inv, adds, count, weight, i, n) && inv(st)
    requires Covers(res, adds, i, n)
    requires FirstFailure(res, i, n, k)
    ensures count(Loop(step, st, i, n).state)
         == count(st) + Sum(weight, i, k - i) + if adds(k) then weight(k) else 0
    decreases k - i
  {
    var x := step(st, i);
    var last := if adds(k) then weight(k) else 0;
    if i < k {
      assert x.result == res(i) && res(i).Success? && adds(i);
      assert Loop(step, st, i, n) == Loop(step, x.state, i + 1, n);
      assert count(x.state) == count(st) + weight(i);
      assert FirstFailure(res, i + 1, n, k);
      LoopCountAt(step, inv, res, adds, count, weight, x.state, i + 1, n, k);
      assert Sum(weight, i, k - i) == weight(i) + Sum(weight, i + 1, k - (i + 1));
    } else {
      assert x.result == res(k) && res(k).Failure?;
      assert Loop(step, st, i, n) == x;
      assert count(x.state) == count(st) + last;
      assert Sum(weight, i, 0) == 0;
    }
  }

  /** Two steps that agree on every item give the same batch. */
  lemma {:induction false} LoopAgrees<S>(step1: (S, nat) -> Outcome<S>, step2: (S, nat) -> Outcome<S>,
                                         st: S, i: nat, n: nat)
    requires forall s, j | i <= j < n :: step1(s, j) == step2(s, j)
    ensures Loop(step1, st, i, n) == Loop(step2, st, i, n)
    decreases n - i
  {
    if i < n {
      LoopAgrees(step1, step2, step1(st, i).state, i + 1, n);
    }
  }
}
