/**
 * The compute-once cell behind an actor's unique id. Only its sequential
 * behaviour is modelled: `get` calls the delegate while `initialized` is
 * false and otherwise returns the stored value.
 *
 * The delegate is a `Supplier` that may throw: its answers are `Result`s.
 * When it throws, the exception leaves `get` before `value` and
 * `initialized` are written, so the next `get` calls the delegate again. A
 * ghost counter records how many times the delegate has been called.
 *
 * The cell model below lets the delegate answer differently on each call:
 * `d(n)` is the answer of its `n`-th call (counting from 0). This is what
 * tells memoization apart from recomputing on every `get`.
 */
module Memoizing {
  import opened Lang

  /** The observable state of a supplier: the two fields and the call counter. */
  datatype Cell<T> = Cell(initialized: bool, value: Option<T>, calls: nat)

  /**
   * The invariant a supplier keeps with its delegate `d`: every delegate
   * call but the last has thrown; the last one returned exactly when the
   * cell is initialized, and then the stored value is what it returned.
   * So the delegate has returned at most once, and `value` is `null` until
   * it has.
   */
  ghost predicate Coherent<T>(c: Cell<T>, d: nat -> Result<T>) {
    && (forall j: nat :: j + 1 < c.calls ==> d(j).Err?)
    && (c.initialized ==> c.calls >= 1 && d(c.calls - 1).Ok? && c.value == Some(d(c.calls - 1).value))
    && (!c.initialized ==> c.value.None? && (c.calls >= 1 ==> d(c.calls - 1).Err?))
  }

  /**
   * One `get`: the new state of the cell and what the call gives back.
   * An initialized cell is left as it is and answers its stored value
   * without calling the delegate; otherwise the delegate is called once,
   * and the cell is initialized with its answer if it returns.
   */
  function GetStep<T>(c: Cell<T>, d: nat -> Result<T>): (step: (Cell<T>, Result<T>))
    requires Coherent(c, d)
    ensures Coherent(step.0, d)
    ensures c.initialized ==> step.0 == c && step.1 == Ok(c.value.value)
    ensures !c.initialized ==> step.1 == d(c.calls) && step.0.calls == c.calls + 1
    ensures step.0.initialized <==> c.initialized || step.1.Ok?
    ensures step.1.Ok? ==> step.0.initialized && step.0.value == Some(step.1.value)
  {
    if !c.initialized then
      var t := d(c.calls);
      if t.Ok? then (Cell(true, Some(t.value), c.calls + 1), t)
      else (Cell(false, c.value, c.calls + 1), t)
    else
      (c, Ok(c.value.value))
  }

  /**
   * `k` successive calls of `get`: the final cell and each call's result,
   * in order. Its own contract only fixes the length; what a run of calls
   * does is stated and proved in `RepeatedGets`.
   */
  function GetMany<T>(c: Cell<T>, d: nat -> Result<T>, k: nat): (run: (Cell<T>, seq<Result<T>>))
    requires Coherent(c, d)
    ensures |run.1| == k
    decreases k
  {
    if k == 0 then (c, [])
    else
      var (c1, r) := GetStep(c, d);
      var (c2, rs) := GetMany(c1, d, k - 1);
      (c2, [r] + rs)
  }

  /**
   * Over any run of `k` calls of `get`:
   * - the cell stays coherent, so the delegate returns at most once in all;
   * - every call that returns gives the same value, the one finally stored,
   *   even if the delegate would answer differently when called again;
   * - after the first call that returns, the delegate is not called again;
   * - an initialized cell is left unchanged and answers its stored value;
   * - while the delegate keeps throwing, it is called once per `get`.
   */
  lemma {:induction false} RepeatedGets<T>(c: Cell<T>, d: nat -> Result<T>, k: nat)
    requires Coherent(c, d)
    ensures Coherent(GetMany(c, d, k).0, d)
    ensures forall i :: 0 <= i < k && GetMany(c, d, k).1[i].Ok? ==>
      GetMany(c, d, k).0.initialized && GetMany(c, d, k).1[i] == Ok(GetMany(c, d, k).0.value.value)
    ensures forall i :: 0 <= i < k && GetMany(c, d, k).1[i].Ok? ==> GetMany(c, d, k).0.calls <= c.calls + i + 1
    ensures c.initialized ==> GetMany(c, d, k).0 == c
    ensures c.initialized ==> forall i :: 0 <= i < k ==> GetMany(c, d, k).1[i] == Ok(c.value.value)
    ensures !GetMany(c, d, k).0.initialized ==> GetMany(c, d, k).0.calls == c.calls + k
    ensures GetMany(c, d, k).0.calls <= c.calls + k
    decreases k
  {
    if k > 0 {
      var (c1, r) := GetStep(c, d);
      RepeatedGets(c1, d, k - 1);
      var (c2, rs) := GetMany(c1, d, k - 1);
      assert GetMany(c, d, k) == (c2, [r] + rs);
      assert forall i :: 0 < i < k ==> GetMany(c, d, k).1[i] == rs[i - 1];
    }
  }

  /**
   * A delegate whose first call returns 1 and whose second call would
   * return 2: two calls of `get` on a fresh cell both answer 1 and call the
   * delegate once, where recomputing would answer 2 the second time.
   */
  lemma MemoizedNotRecomputed(d: nat -> Result<int>)
    requires d(0) == Ok(1) && d(1) == Ok(2)
    ensures GetMany(Cell(false, None, 0), d, 2) == (Cell(true, Some(1), 1), [Ok(1), Ok(1)])
  {
    var c0: Cell<int> := Cell(false, None, 0);
    var c1: Cell<int> := Cell(true, Some(1), 1);
    // The first call stores 1; the second answers it without calling `d`.
    assert GetStep(c0, d) == (c1, Ok(1));
    assert GetStep(c1, d) == (c1, Ok(1));
    assert GetMany(c1, d, 1) == (c1, [Ok(1)] + []);
    var (s1, r1) := GetStep(c0, d);
    var (s2, rs) := GetMany(s1, d, 1);
    assert GetMany(c0, d, 2) == (s2, [r1] + rs);
    assert [r1] + rs == [Ok(1), Ok(1)];
  }

  /** A delegate that answers the same on every call. */
  function Constant<T>(f: () -> Result<T>): nat -> Result<T> {
    (_: nat) => f()
  }

  /** A delegate that answers the same on every call and returns has been called at most once. */
  lemma ConstantCalledOnce<T>(c: Cell<T>, f: () -> Result<T>)
    requires Coherent(c, Constant(f)) && f().Ok?
    ensures c.calls <= 1 && (c.initialized <==> c.calls == 1)
  {
    assert Constant(f)(0) == f();
  }

  /** `MemoizingSupplier<T>`, over a delegate that answers the same on every call. */
  class MemoizingSupplier<T> {
    const delegate: () -> Result<T>
    var initialized: bool
    var value: Option<T>  // `null` until the first successful call
    ghost var calls: nat

    ghost function State(): Cell<T>
      reads this
    {
      Cell(initialized, value, calls)
    }

    ghost predicate Valid()
      reads this
    {
      Coherent(State(), Constant(delegate))
    }

    /** A fresh supplier is uninitialized and has not called its delegate. */
    constructor (delegate: () -> Result<T>)
      ensures this.delegate == delegate
      ensures !initialized && value.None? && calls == 0
      ensures Valid()
    {
      this.delegate := delegate;
      initialized := false;
      value := None;
      calls := 0;
    }

    /**
     * `MemoizingSupplier.memoize`: a new, uninitialized supplier, or a
     * `NullPointerException` when the delegate is `null`.
     */
    static method Memoize(delegate: Option<() -> Result<T>>) returns (r: Result<MemoizingSupplier<T>>)
      ensures r.Err? <==> delegate.None?
      ensures r.Err? ==> r.error == NullPointer
      ensures r.Ok? ==> fresh(r.value) && r.value.Valid() && r.value.delegate == delegate.value
      ensures r.Ok? ==> !r.value.initialized && r.value.calls == 0
    {
      if delegate.None? {
        return Err(NullPointer);
      }
      var s := new MemoizingSupplier(delegate.value);
      r := Ok(s);
    }

    /**
     * `get`: calls the delegate only while uninitialized, stores a
     * successful result before setting the flag, and always answers the
     * delegate's value.
     */
    method Get() returns (r: Result<T>)
      requires Valid()
      modifies this
      ensures Valid()
      ensures (State(), r) == GetStep(old(State()), Constant(delegate))
      ensures r == delegate()
      ensures old(initialized) ==> initialized && value == old(value) && calls == old(calls)
      ensures delegate().Ok? ==> initialized && calls == 1
      ensures delegate().Err? ==> !initialized && calls == old(calls) + 1
    {
      if !initialized {
        var t := delegate();
        calls := calls + 1;
        if t.Ok? {
          value := Some(t.value);
          initialized := true;
        }
        return t;
      }
      if delegate().Ok? {
        ConstantCalledOnce(State(), delegate);
      }
      return Ok(value.value);
    }
  }
}
