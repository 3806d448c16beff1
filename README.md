# Bulk continuation with a pluggable driver

This project models `continuation_experiments/bulk_driver_in_promise.cpp`, in
the module `BulkDriverInPromise` (`bulk_driver_in_promise.dfy`). The C++ file
is a small experiment in bulk continuations:

- `InputPromise` is a continuation. It holds a transform `f(input, idx, acc)`,
  an `int` accumulator seeded from a result factory, a fixed shape, an
  optional input value, an optional recorded exception and an output promise.
- A driver policy decides *when* the loop `ExecuteAt(0) … ExecuteAt(shape-1)`
  and the following `Done()` run. The eager `DefaultDriverImpl` runs them in
  `start()`. The deferred `EndDriverImpl` runs them in `end()`.
- `bulk_then_value` captures the transform, the shape and the factory. It
  returns a builder that binds them to an output promise and a driver.
- `SimpleExecutor` (eager driver) and `BulkExecutor` (deferred driver) run
  `bind; bulk_driver; set_value; start; end` and return the stored result.

The model keeps the source's form:

- `InputPromise` is a class with the source's fields.
- Each driver is a class whose `Start`/`End` contains the source's `for` loop.
- The output promise is a `ResultSlot` class.
- `bulk_then_value` is the datatype constructor `BulkThenValue`. The builder
  it returns is that datatype's `Bind` method.
- `bulk_driver()` returns a `Driver` value, either `Eager` or `Deferred`.

The loop's meaning comes from three specification functions:

- `Indices(shape)` is the sequence `0, 1, …, shape-1`, empty when
  `shape <= 0`, as `for (int i = 0; i < shape; ++i)` visits it.
- `FoldLeft` is the left fold of the transform over a sequence of indices.
- `Accumulate` is that fold, or the unchanged accumulator when no input is
  present.

Ghost counters record the indices passed to `ExecuteAt` (`executed`), the
calls to `Done` (`doneCount`) and the writes to the output slot (`writes`).
The two-state predicate `RanOnce` uses them to say "the loop ran exactly once".
It means:

- `ExecuteAt` saw exactly `Indices(shape)`, in increasing order.
- The accumulator is the fold over those indices.
- `Done` ran once and the slot was written once.
- A recorded exception reached the slot instead of the value.

The eager `Start`, the deferred `End` and `Driver.Start`/`Driver.End`
ensure `RanOnce`. The other phase of each driver leaves the continuation and
the slot unchanged. As a result, `start(); end();` runs the loop and `done()`
exactly once whichever driver is used. Both executors are proved to return
`FoldLeft(f, input, resultFactory(), Indices(shape))`, so they agree.
`InputPromise.GetShape` is a plain accessor (`get_shape`, lines 103-105). It
carries no contract of its own.

## Model

| member | source | states |
|---|---|---|
| BulkDriverInPromise.Indices | continuation_experiments/bulk_driver_in_promise.cpp:11-13 | the loop visits exactly `max(shape, 0)` indices and the k-th visited index is k (strictly increasing from 0); a negative shape visits none |
| BulkDriverInPromise.Accumulate | continuation_experiments/bulk_driver_in_promise.cpp:107-111 | with no input value the accumulator is left untouched, and with `shape <= 0` it is the initial value |
| BulkDriverInPromise.FoldLeftAppend | continuation_experiments/bulk_driver_in_promise.cpp:11-13 | running the transform over `s + t` equals running it over `s` and then continuing over `t` from the accumulator reached |
| BulkDriverInPromise.AccumulateStep | continuation_experiments/bulk_driver_in_promise.cpp:107-111 | one more loop iteration applies `f(input, i, acc)` to the accumulator if an input is present and leaves it alone otherwise |
| BulkDriverInPromise.ResultSlot.constructor | continuation_experiments/bulk_driver_in_promise.cpp:152-154 | a new output slot holds nothing and has never been written |
| BulkDriverInPromise.ResultSlot.SetValue | continuation_experiments/bulk_driver_in_promise.cpp:156-158 | the slot holds the value; one more write |
| BulkDriverInPromise.ResultSlot.SetException | continuation_experiments/bulk_driver_in_promise.cpp:160-162 | the slot holds the exception; one more write |
| BulkDriverInPromise.InputPromise.constructor | continuation_experiments/bulk_driver_in_promise.cpp:68-74 | the transform, output promise, shape and driver are the given ones, the accumulator is the initial result, and no input or exception is present |
| BulkDriverInPromise.InputPromise.SetValue | continuation_experiments/bulk_driver_in_promise.cpp:76-78 | the input value is present and equal to the argument; nothing else changes |
| BulkDriverInPromise.InputPromise.SetException | continuation_experiments/bulk_driver_in_promise.cpp:80-82 | the exception is recorded; nothing else changes |
| BulkDriverInPromise.InputPromise.BulkDriver | continuation_experiments/bulk_driver_in_promise.cpp:84-90 | returns a new driver bound to this continuation, eager exactly when the bound factory is `DefaultDriver` |
| BulkDriverInPromise.InputPromise.ExecuteAt | continuation_experiments/bulk_driver_in_promise.cpp:107-111 | no-op on the accumulator without an input; otherwise the accumulator becomes `f(input, idx, old acc)`; shape, input and exception are unchanged; the call is recorded |
| BulkDriverInPromise.InputPromise.Done | continuation_experiments/bulk_driver_in_promise.cpp:113-119 | a recorded exception is delivered to the output promise and the value is not; otherwise the accumulator is delivered; exactly one write |
| BulkDriverInPromise.DefaultDriverImpl.constructor | continuation_experiments/bulk_driver_in_promise.cpp:23-32 | the eager driver refers to the given continuation |
| BulkDriverInPromise.DefaultDriverImpl.Start | continuation_experiments/bulk_driver_in_promise.cpp:9-15 | `ExecuteAt(0..shape-1)` in increasing order, accumulator is the left fold from its old value, then `Done` exactly once (`RanOnce`) |
| BulkDriverInPromise.DefaultDriverImpl.End | continuation_experiments/bulk_driver_in_promise.cpp:17-18 | the eager driver's end phase changes nothing |
| BulkDriverInPromise.EndDriverImpl.constructor | continuation_experiments/bulk_driver_in_promise.cpp:54-63 | the deferred driver's callbacks are bound to the given continuation |
| BulkDriverInPromise.EndDriverImpl.Start | continuation_experiments/bulk_driver_in_promise.cpp:37-38 | the deferred driver's start phase changes nothing |
| BulkDriverInPromise.EndDriverImpl.End | continuation_experiments/bulk_driver_in_promise.cpp:40-46 | reads the shape, runs `ExecuteAt(0..shape-1)` in order, then `Done` exactly once (`RanOnce`) |
| BulkDriverInPromise.Driver.Start | continuation_experiments/bulk_driver_in_promise.cpp:7-52 | the eager driver runs the whole loop once; the deferred one changes nothing |
| BulkDriverInPromise.Driver.End | continuation_experiments/bulk_driver_in_promise.cpp:7-52 | the eager driver changes nothing; the deferred one runs the whole loop once |
| BulkDriverInPromise.Continuation.Bind | continuation_experiments/bulk_driver_in_promise.cpp:123-147 | each call yields a fresh continuation whose accumulator is `resultFactory()`, whose shape is the captured shape and which has no input and no exception |
| BulkDriverInPromise.SimpleExecutor.ThenExecute | continuation_experiments/bulk_driver_in_promise.cpp:149-184 | with the eager driver, the result is the left fold of `f` over `0..shape-1` from `resultFactory()` |
| BulkDriverInPromise.BulkExecutor.ThenExecute | continuation_experiments/bulk_driver_in_promise.cpp:187-220 | with the deferred driver, the result is the same left fold, so both executors agree |
| BulkDriverInPromise.AddInputFold | continuation_experiments/bulk_driver_in_promise.cpp:227 | folding `out += a` over `n` indices from `acc` gives `acc + n * a` |
| BulkDriverInPromise.AddScenario | continuation_experiments/bulk_driver_in_promise.cpp:223-244 | shape 20, factory 0, input 2 gives 40 under both executors |

## Left out

- An exception's payload (`std::exception_ptr`) is not modelled. It is an
  opaque `ExceptionToken`, so only its presence matters.
- The template machinery is not modelled: perfect forwarding, `std::decay_t`,
  the friend declaration and the two `DefaultDriver::operator()` overloads.
  Only the choice of driver variant (`DriverFactory`) is kept.
- The deferred driver's three captured lambdas (shape, at, done) are modelled
  as direct calls to `GetShape`, `ExecuteAt` and `Done` on the captured
  continuation. The lambdas do nothing but forward to those calls.
- The executors' local `Promise` class writes two separate variables:
  `resultStorage` (never initialised) and `exceptionStorage` (never read).
  The model has one `ResultSlot` instead. The executors never call
  `set_exception`, so nothing is claimed about reading the result after a
  failure.
- `ResultSlot.SetValue` and `ResultSlot.SetException` overwrite like the
  source and do not refuse a second write. The `writes` counter exposes such
  a write instead.
- Moving out of the recorded exception in `done()` is not modelled. In C++
  the optional stays engaged and holds a moved-from pointer. The model leaves
  the exception in place.
- The moves in `bulk_then_value` are not modelled. The transform and the
  result factory are immutable function values, and `resultFactory` is a
  pure `() -> int`.
- The transform never throws. The source does not catch exceptions thrown by
  `f` either, and such an exception would escape the driver.
- `int` overflow of the accumulator and of the index is not modelled.
  Integers are mathematical, and the source makes no promise about overflow.
- `main`'s printing to `std::cout` is not modelled. Only the computed values
  are kept, in `AddScenario`.
- Parallel execution and cancellation are not modelled. The source has
  neither, and its loop is strictly sequential.
