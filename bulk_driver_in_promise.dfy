/**
 * A bulk continuation whose per-index loop is run by a pluggable driver.
 *
 * An `InputPromise` holds a transform, an `int` accumulator, a fixed shape,
 * an optional input value, an optional recorded exception and the output
 * promise it finally completes. A driver decides WHEN the loop over the
 * indices `0 .. shape-1` (followed by one `Done`) runs: the eager
 * `DefaultDriverImpl` runs it in `Start`, the deferred `EndDriverImpl` in
 * `End`. Two executors bind a continuation to a fresh output slot and run
 * `SetValue; Start; End`.
 *
 * Ghost bookkeeping (`executed`, `doneCount`, `writes`) records which indices
 * reached `ExecuteAt`, how often `Done` ran and how often the output slot was
 * written, so that "exactly once, in increasing order" can be stated.
 */
module BulkDriverInPromise {

  datatype Option<T> = None | Some(value: T)

  /** An exception is an opaque token: only its presence matters. */
  datatype ExceptionToken = ExceptionToken(id: nat)

  /** The transform `f(input, idx, acc)`, returning the new accumulator. */
  type Transform = (int, int, int) -> int

  // ---------------------------------------------------------------------------
  // Specification: the left fold of the transform over an index range
  // ---------------------------------------------------------------------------

  /** The indices a `for (int i = 0; i < shape; ++i)` loop visits, in order. */
  function Indices(shape: int): (r: seq<int>)
    ensures |r| == if shape <= 0 then 0 else shape
    ensures forall k :: 0 <= k < |r| ==> r[k] == k
    decreases shape
  {
    if shape <= 0 then [] else Indices(shape - 1) + [shape - 1]
  }

  /** Applies `f` to each index of `indices`, first to last, threading the accumulator. */
  function FoldLeft(f: Transform, input: int, acc: int, indices: seq<int>): int
    decreases |indices|
  {
    if indices == [] then acc
    else FoldLeft(f, input, f(input, indices[0], acc), indices[1..])
  }

  /**
   * The accumulator after the loop over `Indices(shape)` has called
   * `ExecuteAt` for every index: without an input every call is a no-op.
   */
  function Accumulate(f: Transform, input: Option<int>, acc: int, shape: int): (r: int)
    ensures input.None? ==> r == acc
    ensures shape <= 0 ==> r == acc
  {
    match input
    case None => acc
    case Some(x) => FoldLeft(f, x, acc, Indices(shape))
  }

  /** Folding over a concatenation folds over the second part from where the first stopped. */
  lemma {:induction false} FoldLeftAppend(f: Transform, input: int, acc: int, s: seq<int>, t: seq<int>)
    ensures FoldLeft(f, input, acc, s + t) == FoldLeft(f, input, FoldLeft(f, input, acc, s), t)
    decreases |s|
  {
    if s == [] {
      assert s + t == t;
    } else {
      assert (s + t)[0] == s[0];
      assert (s + t)[1..] == s[1..] + t;
      FoldLeftAppend(f, input, f(input, s[0], acc), s[1..], t);
    }
  }

  /** One more loop iteration is one more `ExecuteAt` step on the accumulator. */
  lemma AccumulateStep(f: Transform, input: Option<int>, acc: int, i: nat)
    ensures Accumulate(f, input, acc, i + 1)
         == match input
            case None => Accumulate(f, input, acc, i)
            case Some(x) => f(x, i, Accumulate(f, input, acc, i))
  {
    if input.Some? {
      var x := input.value;
      assert Indices(i + 1) == Indices(i) + [i];
      FoldLeftAppend(f, x, acc, Indices(i), [i]);
      assert [i][1..] == [];
    }
  }

  // ---------------------------------------------------------------------------
  // The output promise
  // ---------------------------------------------------------------------------

  datatype SlotState = Unset | Value(value: int) | Failed(error: ExceptionToken)

  /** The output promise: receives the value or the exception from `Done`. */
  class ResultSlot {
    var state: SlotState
    /** How many times the slot has been written. */
    ghost var writes: nat

    constructor ()
      ensures state == Unset && writes == 0
    {
      state := Unset;
      writes := 0;
    }

    method SetValue(value: int)
      modifies this
      ensures state == Value(value)
      ensures writes == old(writes) + 1
    {
      state := Value(value);
      writes := writes + 1;
    }

    method SetException(e: ExceptionToken)
      modifies this
      ensures state == Failed(e)
      ensures writes == old(writes) + 1
    {
      state := Failed(e);
      writes := writes + 1;
    }
  }

  // ---------------------------------------------------------------------------
  // The bulk continuation
  // ---------------------------------------------------------------------------

  /** Which driver policy a continuation is bound to. */
  datatype DriverFactory = DefaultDriver | EndDriver

  class InputPromise {
    const f: Transform
    const outputPromise: ResultSlot
    const shape: int
    const bulkDriver: DriverFactory
    var inputValue: Option<int>
    var outputException: Option<ExceptionToken>
    var result: int
    /** The indices `ExecuteAt` was called with, in call order. */
    ghost var executed: seq<int>
    /** How many times `Done` ran. */
    ghost var doneCount: nat

    constructor (f: Transform, outputPromise: ResultSlot, initialResult: int, shape: int,
                 bulkDriver: DriverFactory)
      ensures this.f == f && this.outputPromise == outputPromise
      ensures this.shape == shape && this.bulkDriver == bulkDriver
      ensures result == initialResult
      ensures inputValue == None && outputException == None
      ensures executed == [] && doneCount == 0
    {
      this.f := f;
      this.outputPromise := outputPromise;
      this.shape := shape;
      this.bulkDriver := bulkDriver;
      result := initialResult;
      inputValue := None;
      outputException := None;
      executed := [];
      doneCount := 0;
    }

    method SetValue(value: int)
      modifies this`inputValue
      ensures inputValue == Some(value)
    {
      inputValue := Some(value);
    }

    method SetException(e: ExceptionToken)
      modifies this`outputException
      ensures outputException == Some(e)
    {
      outputException := Some(e);
    }

    function GetShape(): int
    {
      shape
    }

    /** Creates the driver the bound factory produces, wired to this continuation. */
    method BulkDriver() returns (d: Driver)
      ensures d.Promise() == this
      ensures d.Eager? <==> bulkDriver == DefaultDriver
      ensures fresh(d.Impl())
    {
      match bulkDriver
      case DefaultDriver =>
        var impl := new DefaultDriverImpl(this);
        d := Eager(impl);
      case EndDriver =>
        var impl := new EndDriverImpl(this);
        d := Deferred(impl);
    }

    /** Applies the transform at `idx`, but only once an input value is present. */
    method ExecuteAt(idx: int)
      modifies this`result, this`executed
      ensures executed == old(executed) + [idx]
      ensures inputValue.None? ==> result == old(result)
      ensures inputValue.Some? ==> result == f(inputValue.value, idx, old(result))
    {
      if inputValue.Some? {
        result := f(inputValue.value, idx, result);
      }
      executed := executed + [idx];
    }

    /** Completes the output promise: a recorded exception wins over the accumulator. */
    method Done()
      modifies this`doneCount, outputPromise
      ensures doneCount == old(doneCount) + 1
      ensures outputPromise.writes == old(outputPromise.writes) + 1
      ensures outputException.Some? ==> outputPromise.state == Failed(outputException.value)
      ensures outputException.None? ==> outputPromise.state == Value(result)
    {
      if outputException.Some? {
        outputPromise.SetException(outputException.value);
      } else {
        outputPromise.SetValue(result);
      }
      doneCount := doneCount + 1;
    }
  }

  /**
   * Between the old and the current state, `p` ran its loop exactly once:
   * `ExecuteAt` saw exactly the indices `0 .. shape-1` in increasing order,
   * the accumulator is the fold over them, `Done` ran once, the output slot
   * was written once, and a recorded exception took precedence over the value.
   */
  twostate predicate RanOnce(p: InputPromise)
    reads p, p.outputPromise
  {
    && p.executed == old(p.executed) + Indices(p.shape)
    && p.result == Accumulate(p.f, p.inputValue, old(p.result), p.shape)
    && p.doneCount == old(p.doneCount) + 1
    && p.outputPromise.writes == old(p.outputPromise.writes) + 1
    && (p.outputException.Some? ==> p.outputPromise.state == Failed(p.outputException.value))
    && (p.outputException.None? ==> p.outputPromise.state == Value(p.result))
  }

  // ---------------------------------------------------------------------------
  // Drivers
  // ---------------------------------------------------------------------------

  /** The eager driver: the whole loop runs in `Start`. */
  class DefaultDriverImpl {
    const promise: InputPromise

    constructor (promise: InputPromise)
      ensures this.promise == promise
    {
      this.promise := promise;
    }

    method Start()
      modifies promise`result, promise`executed, promise`doneCount, promise.outputPromise
      ensures RanOnce(promise)
    {
      var n := promise.GetShape();
      var i := 0;
      while i < n
        invariant 0 <= i && (i <= n || i == 0)
        invariant promise.executed == old(promise.executed) + Indices(i)
        invariant promise.result == Accumulate(promise.f, promise.inputValue, old(promise.result), i)
        invariant promise.doneCount == old(promise.doneCount)
        invariant unchanged(promise.outputPromise)
      {
        AccumulateStep(promise.f, promise.inputValue, old(promise.result), i);
        promise.ExecuteAt(i);
        i := i + 1;
      }
      promise.Done();
    }

    method End()
      ensures unchanged(promise, promise.outputPromise)
    {
    }
  }

  /**
   * The deferred driver: `Start` does nothing and the loop runs in `End`
   * through the continuation's shape, per-index and completion callbacks.
   */
  class EndDriverImpl {
    const promise: InputPromise

    constructor (promise: InputPromise)
      ensures this.promise == promise
    {
      this.promise := promise;
    }

    method Start()
      ensures unchanged(promise, promise.outputPromise)
    {
    }

    method End()
      modifies promise`result, promise`executed, promise`doneCount, promise.outputPromise
      ensures RanOnce(promise)
    {
      var n := promise.GetShape();
      var i := 0;
      while i < n
        invariant 0 <= i && (i <= n || i == 0)
        invariant promise.executed == old(promise.executed) + Indices(i)
        invariant promise.result == Accumulate(promise.f, promise.inputValue, old(promise.result), i)
        invariant promise.doneCount == old(promise.doneCount)
        invariant unchanged(promise.outputPromise)
      {
        AccumulateStep(promise.f, promise.inputValue, old(promise.result), i);
        promise.ExecuteAt(i);
        i := i + 1;
      }
      promise.Done();
    }
  }

  /** A driver of either policy, as `InputPromise.BulkDriver` returns it. */
  datatype Driver = Eager(eager: DefaultDriverImpl) | Deferred(deferred: EndDriverImpl)
  {
    function Promise(): InputPromise
    {
      match this
      case Eager(d) => d.promise
      case Deferred(d) => d.promise
    }

    function Impl(): object
    {
      match this
      case Eager(d) => d
      case Deferred(d) => d
    }

    method Start()
      modifies Promise()`result, Promise()`executed, Promise()`doneCount, Promise().outputPromise
      ensures Eager? ==> RanOnce(Promise())
      ensures Deferred? ==> unchanged(Promise(), Promise().outputPromise)
    {
      match this
      case Eager(d) => d.Start();
      case Deferred(d) => d.Start();
    }

    method End()
      modifies Promise()`result, Promise()`executed, Promise()`doneCount, Promise().outputPromise
      ensures Eager? ==> unchanged(Promise(), Promise().outputPromise)
      ensures Deferred? ==> RanOnce(Promise())
    {
      match this
      case Eager(d) => d.End();
      case Deferred(d) => d.End();
    }
  }

  // ---------------------------------------------------------------------------
  // The continuation factory
  // ---------------------------------------------------------------------------

  /**
   * What `bulk_then_value` captures: the transform, the shape and the
   * accumulator factory. `Bind` is the returned builder's call operator.
   */
  datatype Continuation = BulkThenValue(f: Transform, shape: int, resultFactory: () -> int)
  {
    method Bind(outputPromise: ResultSlot, bulkDriver: DriverFactory) returns (p: InputPromise)
      ensures fresh(p)
      ensures p.f == f && p.shape == shape && p.result == resultFactory()
      ensures p.outputPromise == outputPromise && p.bulkDriver == bulkDriver
      ensures p.inputValue == None && p.outputException == None
      ensures p.executed == [] && p.doneCount == 0
    {
      p := new InputPromise(f, outputPromise, resultFactory(), shape, bulkDriver);
    }
  }

  // ---------------------------------------------------------------------------
  // Executors
  // ---------------------------------------------------------------------------

  /** Runs continuations with the eager driver. */
  class SimpleExecutor {
    constructor () {}

    /**
     * Binds `cont` to a fresh output slot and the eager driver, feeds it
     * `inputFuture`, runs `Start` then `End`, and reads the slot.
     */
    method ThenExecute(cont: Continuation, inputFuture: int) returns (r: int)
      ensures r == FoldLeft(cont.f, inputFuture, cont.resultFactory(), Indices(cont.shape))
    {
      var slot := new ResultSlot();
      var boundCont := cont.Bind(slot, DefaultDriver);
      var driver := boundCont.BulkDriver();
      boundCont.SetValue(inputFuture);
      driver.Start();
      driver.End();
      r := slot.state.value;
    }
  }

  /** Runs continuations with the deferred driver. */
  class BulkExecutor {
    constructor () {}

    /** As `SimpleExecutor.ThenExecute`, but the loop runs in the driver's `End`. */
    method ThenExecute(cont: Continuation, inputFuture: int) returns (r: int)
      ensures r == FoldLeft(cont.f, inputFuture, cont.resultFactory(), Indices(cont.shape))
    {
      var slot := new ResultSlot();
      var boundCont := cont.Bind(slot, EndDriver);
      var driver := boundCont.BulkDriver();
      boundCont.SetValue(inputFuture);
      driver.Start();
      driver.End();
      r := slot.state.value;
    }
  }

  // ---------------------------------------------------------------------------
  // The demonstration scenario
  // ---------------------------------------------------------------------------

  /** The demonstration transform: add the input to the accumulator, ignore the index. */
  function AddInput(a: int, idx: int, out: int): int
  {
    out + a
  }

  /** Folding `AddInput` over `n` indices adds the input `n` times. */
  lemma {:induction false} AddInputFold(a: int, acc: int, n: nat)
    ensures FoldLeft(AddInput, a, acc, Indices(n)) == acc + n * a
  {
    if n > 0 {
      AddInputFold(a, acc, n - 1);
      assert Indices(n) == Indices(n - 1) + [n - 1];
      FoldLeftAppend(AddInput, a, acc, Indices(n - 1), [n - 1]);
      assert [n - 1][1..] == [];
    }
  }

  /** Shape 20, factory 0, input 2: both executors produce 40. */
  method AddScenario() returns (simple: int, bulk: int)
    ensures simple == 40 && bulk == 40
  {
    var cont := BulkThenValue(AddInput, 20, () => 0);
    AddInputFold(2, 0, 20);
    var e1 := new SimpleExecutor();
    simple := e1.ThenExecute(cont, 2);
    var cont2 := BulkThenValue(AddInput, 20, () => 0);
    var e2 := new BulkExecutor();
    bulk := e2.ThenExecute(cont2, 2);
  }
}
