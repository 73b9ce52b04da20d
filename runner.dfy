/** The scenario runner `Gerbil`: an object whose counters, tests mapping,
    hooks and queue its methods update in place, with the assertion helpers
    of `Gerbil.prototype`. Each step is proved against its counterpart in
    `RunnerSpec`; the log is kept as a ghost trace of events. */
module Runner {
  import opened Wrappers
  import opened JsValues
  import opened Assertions
  import opened RunnerSpec
  import GerbilQueue

  class Gerbil {
    var success: nat
    var failures: nat
    var count: nat
    var assertions: nat
    // delay, in milliseconds, accumulated by `set_timeout`
    var timeout: int
    const queue: GerbilQueue.Queue<TestRecord>
    const description: string
    var tests: seq<Entry>
    var setup: Callback
    var before: Callback
    var after: Callback
    var cleanup: Callback
    // what the runner has logged, and which hooks and tests it has called
    ghost var trace: seq<Event>

    ghost predicate Valid()
      reads this, queue
    {
      queue.Valid()
    }

    function CurrentHooks(): Hooks
      reads this
    {
      Hooks(setup, before, after, cleanup)
    }

    /** `new Gerbil(description, tests)`. The hooks are no-ops until
        `enqueue` extracts them. */
    constructor (description: string, tests: seq<Entry>)
      ensures Valid() && fresh(queue) && queue.Contents == []
      ensures this.description == description && this.tests == tests
      ensures success == 0 && failures == 0 && count == 0 && assertions == 0 && timeout == 0
      ensures CurrentHooks() == Hooks(NoOp, NoOp, NoOp, NoOp) && trace == []
    {
      success, failures, count, assertions, timeout := 0, 0, 0, 0, 0;
      queue := new GerbilQueue.Queue();
      this.description := description;
      this.tests := tests;
      setup, before, after, cleanup := NoOp, NoOp, NoOp, NoOp;
      trace := [];
    }

    /** `extract_test(key)`: delete the key and return its value, or a no-op
        when it is missing or falsy. */
    method ExtractTest(key: string) returns (hook: Callback)
      modifies this`tests
      ensures hook == HookOrNoOp(Lookup(old(tests), key))
      ensures tests == Remove(old(tests), key)
    {
      var found := Lookup(tests, key);
      tests := Remove(tests, key);
      hook := HookOrNoOp(found);
    }

    /** `enqueue()`: log the banner, extract the four hooks, then queue one
        record per remaining entry in enumeration order, counting each. */
    method Enqueue()
      requires Valid()
      modifies this`tests, this`setup, this`before, this`after, this`cleanup, this`count, this`trace, queue
      ensures Valid()
      ensures CurrentHooks() == HooksOf(old(tests))
      ensures tests == NonHooks(old(tests))
      ensures forall key | IsHookKey(key) :: Lookup(tests, key) == None
      ensures count == old(count) + |tests|
      ensures queue.Contents == old(queue.Contents) + Records(tests)
      ensures trace == old(trace) + [Started(description)]
    {
      trace := trace + [Started(description)];
      ghost var original := tests;
      setup := ExtractTest("setup");
      before := ExtractTest("before");
      after := ExtractTest("after");
      cleanup := ExtractTest("cleanup");
      HooksSurviveExtraction(original);
      StripHooksKeepsNonHooks(original);
      NonHooksIdempotent(original);

      QueueTests();
    }

    /** The `for (var key in this.tests)` loop of `enqueue`: push one record
        per entry, in enumeration order, counting each. */
    method QueueTests()
      requires Valid()
      modifies this`count, queue
      ensures Valid()
      ensures count == old(count) + |tests|
      ensures queue.Contents == old(queue.Contents) + Records(tests)
    {
      ghost var records := Records(tests);
      for i := 0 to |tests|
        invariant queue.Valid()
        invariant count == old(count) + i
        invariant queue.Contents == old(queue.Contents) + records[..i]
      {
        queue.Push(TestRecord(tests[i].key, tests[i].value));
        count := count + 1;
        assert records[..i + 1] == records[..i] + [records[i]];
      }
      assert records[..|tests|] == records;
    }

    /** `ok(name)`. */
    method Ok(name: string)
      modifies this`success, this`trace
      ensures success == old(success) + 1
      ensures trace == old(trace) + [LoggedOk(name, assertions)]
    {
      success := success + 1;
      trace := trace + [LoggedOk(name, assertions)];
    }

    /** `fail(name + " (" + exception + ")")`. */
    method Fail(name: string, error: string)
      modifies this`failures, this`trace
      ensures failures == old(failures) + 1
      ensures trace == old(trace) + [LoggedFail(name, error)]
    {
      failures := failures + 1;
      trace := trace + [LoggedFail(name, error)];
    }

    /** `summary()`. */
    method Summary()
      modifies this`trace
      ensures trace == old(trace) + [LoggedSummary(success, failures, count)]
    {
      trace := trace + [LoggedSummary(success, failures, count)];
    }

    /** `execute(test)`: a raising test becomes a recorded failure and never
        escapes; once every counted test has finished, the summary runs
        immediately. */
    method Execute(t: TestRecord)
      modifies this`success, this`failures, this`trace
      ensures var x := RunnerSpec.Execute(t, old(success), old(failures), count, assertions);
        success == x.success && failures == x.failures && trace == old(trace) + x.events
    {
      trace := trace + [Ran(t.name)];
      match Invoke(t.fn, 0) {
        case Pass => Ok(t.name);
        case Raise(e) => Fail(t.name, e);
      }
      if success + failures == count {
        Summary();
      }
    }

    /** `consume()`: `setup`, then `before`, `execute`, `after` for each test
        pulled from the queue, then `cleanup`. A raising hook is not caught:
        it ends the run, which is returned as `Aborted`. */
    method Consume() returns (r: RunResult)
      requires Valid()
      modifies this`success, this`failures, this`trace, queue
      ensures Valid()
      ensures Run(r, success, failures, trace, queue.Contents)
           == Resumed(old(trace), RunnerSpec.Consume(old(CurrentHooks()), old(queue.Contents), old(success), old(failures), old(count), old(assertions)))
    {
      ghost var h, pending, log := CurrentHooks(), queue.Contents, trace;
      trace := trace + [Called(Setup)];
      var outcome := Invoke(setup, 0);
      if outcome.Raise? {
        return Aborted(Setup, outcome.error);
      }
      ghost var d := Drain(h, pending, 0, success, failures, count, assertions);
      r := DrainQueue();
      ResumedTwice(log, [Called(Setup)], d);
      if r.Aborted? {
        return;
      }
      ghost var started := Resumed([Called(Setup)], d);
      trace := trace + [Called(Cleanup)];
      assert trace == log + (started.events + [Called(Cleanup)]);
      outcome := Invoke(cleanup, 0);
      if outcome.Raise? {
        return Aborted(Cleanup, outcome.error);
      }
    }

    /** The `while (test = this.queue.pull())` loop of `consume`. */
    method DrainQueue() returns (r: RunResult)
      requires Valid()
      modifies this`success, this`failures, this`trace, queue
      ensures Valid()
      ensures Run(r, success, failures, trace, queue.Contents)
           == Resumed(old(trace), Drain(CurrentHooks(), old(queue.Contents), 0, old(success), old(failures), count, assertions))
    {
      ghost var h := CurrentHooks();
      ghost var d0 := Drain(h, queue.Contents, 0, success, failures, count, assertions);
      // the number of tests pulled so far, which numbers the calls of `before` and `after`
      var call: nat := 0;
      while true
        invariant Valid()
        invariant Resumed(trace, Drain(h, queue.Contents, call, success, failures, count, assertions)) == Resumed(old(trace), d0)
        decreases |queue.Contents|
      {
        ghost var pending, log := queue.Contents, trace;
        ghost var st := RunnerSpec.Step(h, if pending == [] then TestRecord("", NoOp) else pending[0], call, success, failures, count, assertions);
        var next := queue.Pull();
        if next.None? {
          assert trace + [] == trace;
          break;
        }
        DrainUnfold(h, pending, call, success, failures, count, assertions);
        r := Step(next.value, call);
        if r.Aborted? {
          assert Run(r, success, failures, trace, queue.Contents) == Resumed(log, st.(remaining := pending[1..]));
          return;
        }
        call := call + 1;
        ResumedTwice(log, st.events, Drain(h, queue.Contents, call, success, failures, count, assertions));
      }
      return Completed;
    }

    /** The body of the drain loop for the test it pulled, with `call` the
        number of tests pulled before: `before`, `execute`, `after`, where a
        raising hook is not caught. */
    method Step(t: TestRecord, call: nat) returns (r: RunResult)
      modifies this`success, this`failures, this`trace
      ensures var st := RunnerSpec.Step(CurrentHooks(), t, call, old(success), old(failures), count, assertions);
        && r == st.result && success == st.success && failures == st.failures
        && trace == old(trace) + st.events
    {
      trace := trace + [Called(Before)];
      var outcome := Invoke(before, call);
      if outcome.Raise? {
        return Aborted(Before, outcome.error);
      }
      Execute(t);
      trace := trace + [Called(After)];
      outcome := Invoke(after, call);
      if outcome.Raise? {
        return Aborted(After, outcome.error);
      }
      return Completed;
    }

    /** `set_timeout(fn, milliseconds)`: only the accumulated delay is
        modelled, not the deferred call of `fn`. */
    method SetTimeout(milliseconds: int)
      modifies this`timeout
      ensures timeout == old(timeout) + milliseconds
    {
      timeout := timeout + milliseconds;
    }

    /** `assert(expectation)`: always counts, fails iff the expectation is
        falsy. */
    method Assert(expectation: JsValue) returns (c: Check)
      modifies this`assertions
      ensures assertions == old(assertions) + 1
      ensures c.Failed? <==> !Truthy(expectation)
      ensures c.Failed? ==> c.failure == AssertionFailed
    {
      assertions := assertions + 1;
      if !Truthy(expectation) {
        return Failed(AssertionFailed);
      }
      return Passed;
    }

    /** `assert_throw(expected_error, fn)`: always counts. It fails when `fn`
        returns, and ALSO when the raised value has the same `typeof` as
        `expected_error`; a raised value of a different `typeof` passes.
        Reading `.name` of an undefined or null operand raises a TypeError:
        inside the `try` it is caught like an exception of `fn`, inside the
        `catch` it escapes. */
    method AssertThrow(expected: JsValue, fn: Effect) returns (c: Check)
      modifies this`assertions
      ensures assertions == old(assertions) + 1
      ensures !Nullish(expected) ==>
                (c == Passed <==> fn.Throws? && TypeOf(fn.value) != TypeOf(expected))
      ensures fn.Returns? && !Nullish(expected) ==> c == Failed(NotRaised)
      ensures fn.Throws? && TypeOf(fn.value) == TypeOf(expected) && !Nullish(expected) && !Nullish(fn.value) ==>
                c == Failed(SameTypeRaised(fn.value))
      ensures fn.Throws? && TypeOf(fn.value) == TypeOf(expected) && (Nullish(expected) || Nullish(fn.value)) ==>
                c == Failed(TypeErrorRaised)
      ensures fn.Throws? && TypeOf(fn.value) != TypeOf(expected) ==> c == Passed
      ensures fn.Returns? && expected.Undefined? ==> c == Passed
      ensures fn.Returns? && expected.Null? ==> c == Failed(TypeErrorRaised)
    {
      assertions := assertions + 1;
      var failure: Option<Failure> := None;
      // the `try` block: the exception it raises, if any
      var raised: Option<JsValue>;
      match fn {
        case Throws(v) =>
          raised := Some(v);
        case Returns =>
          if Nullish(expected) {
            raised := Some(TypeErrorInstance);
          } else {
            raised := None;
            failure := Some(NotRaised);
          }
      }
      // the `catch` block
      if raised.Some? && TypeOf(raised.value) == TypeOf(expected) {
        if Nullish(expected) || Nullish(raised.value) {
          return Failed(TypeErrorRaised);
        }
        failure := Some(SameTypeRaised(raised.value));
      }
      if failure.Some? {
        return Failed(failure.value);
      }
      return Passed;
    }

    /** `assert_equal(first, second)`: an undefined or null operand, or
        operands of different `typeof`, fail before the counter moves;
        otherwise the counter moves by one and the constructor switch
        decides. */
    method AssertEqual(first: JsValue, second: JsValue) returns (c: Check)
      modifies this`assertions
      ensures Nullish(first) || Nullish(second) ==>
                c == Failed(UndefinedOperand(first, second)) && assertions == old(assertions)
      ensures !Nullish(first) && !Nullish(second) && TypeOf(first) != TypeOf(second) ==>
                c == Failed(DifferentType(TypeOf(first), TypeOf(second))) && assertions == old(assertions)
      ensures !Nullish(first) && !Nullish(second) && TypeOf(first) == TypeOf(second) ==>
                assertions == old(assertions) + 1 && Compared(first, second, c)
    {
      if Nullish(first) || Nullish(second) {
        return Failed(UndefinedOperand(first, second));
      }
      if TypeOf(first) != TypeOf(second) {
        return Failed(DifferentType(TypeOf(first), TypeOf(second)));
      }
      assertions := assertions + 1;
      c := CompareByConstructor(first, second);
    }
  }

  /** The first two statements of `scenario`: a runner built on the
      tests mapping, with its hooks extracted and its tests queued. */
  method Prepare(description: string, tests: seq<Entry>) returns (g: Gerbil)
    ensures fresh(g) && fresh(g.queue) && g.Valid()
    ensures g.CurrentHooks() == HooksOf(tests)
    ensures g.queue.Contents == Records(NonHooks(tests)) && g.count == |NonHooks(tests)|
    ensures g.success == 0 && g.failures == 0 && g.assertions == 0
    ensures g.trace == [Started(description)]
  {
    g := new Gerbil(description, tests);
    g.Enqueue();
    assert g.queue.Contents == Records(NonHooks(tests));
  }

  /** `scenario(description, tests)`: construct a runner, `enqueue`, then
      `consume`; the final counters and how the run ended are returned. */
  method Scenario(description: string, tests: seq<Entry>)
    returns (r: RunResult, success: nat, failures: nat, count: nat, ghost log: seq<Event>)
    ensures count == |NonHooks(tests)|
    ensures var run := ScenarioRun(description, tests);
      r == run.result && success == run.success && failures == run.failures && log == run.events
  {
    var g := Prepare(description, tests);
    r := g.Consume();
    success, failures, count, log := g.success, g.failures, g.count, g.trace;
  }
}
