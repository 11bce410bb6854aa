# Stub engine of jasmineTestUtilsService, in Dafny

This project models the part of the `jasmineTestUtilsService` Angular service
that tests use to replace a method of an object with a fake:

- `isValidMethod`: the property under the name is truthy and its `typeof` is
  `"function"`.
- The two error messages: `"The method <name> is not present at the
  specified object"` and `"The key <key> is not valid for the params
  specified"`.
- The five stubbing operations. Each one refuses an invalid method with the
  first message and otherwise installs a spy running one of five fakes:
  - fixed value;
  - resolved promise;
  - promise resolved from a table keyed by the first argument;
  - promise resolved from a sequence indexed by a private call counter;
  - rejected promise.
- `resolveAsyncMethods`: flushes the scheduled promise continuations in order
  until none is left. This includes continuations scheduled while the flush
  runs.
- The falsy guard of `cloneObject`.

`stub_engine.dfy` (module `StubEngine`) holds the model.

- **JavaScript values.** Values are a datatype with JavaScript truthiness,
  `typeof` and string conversion. A missing property or an array slot past
  the end reads as `undefined`.
- **Fakes.** `Respond` is what one call of a fake does to the state of the
  deferred factory. A promise is the index of its deferred. A settlement is
  one-way. A `then` on a settled promise is scheduled at once; on a pending
  one it waits.
- **Flushing.** `Adopt`, `Perform`, `Step` and `Drain` describe a flush as
  values over a `World`: the factory together with the counters of the
  fakes.
- **Classes.** The classes are the stateful side:
  - `Fake`: an installed fake and its counter;
  - `DeferredFactory`: `$q` together with `$rootScope`'s queue;
  - `Target`: an object whose properties are replaced in place;
  - `TestUtilsService`: the service.

  Every method of these classes is proved against the value functions:
  `Fake.Call` against `Respond`, and `DeferredFactory.Flush` against `Drain`.
- **Continuations.** A continuation is a small datatype. It can:
  - ignore the value;
  - record it in a named test variable;
  - call a fake again and attach two further continuations to the promise
    that call returns.

  This is what the tests do inside `then`.

`stub_engine_properties.dfy` (module `StubEngineProperties`) proves the
properties. Among them:

- the validity check is an if-and-only-if;
- both messages can be parsed back and cannot be confused with each other;
- what each kind of fake does over any run of calls;
- a flush keeps the factory well formed and only grows its state;
- continuations that call nothing run in the order they were scheduled, once
  each;
- a resolved promise is seen only after the flush, and a rejected one only by
  the error continuation;
- a second call made by a call-indexed fake's own continuation settles within
  the same flush.

## Model

| member | source | states |
|---|---|---|
| StubEngineProperties.FalsyValues | src/jasmineTestUtilsService.js:9 | a value is falsy exactly when it is one of undefined, null, false, 0, NaN and the empty string; this is the test behind the guard at line 9, the validity check at line 84 and the table lookup at line 41 |
| StubEngineProperties.CloneOfFalsy | src/jasmineTestUtilsService.js:7-13 | cloneObject gives undefined for each of the six falsy values, whatever the round trip would give |
| StubEngineProperties.IsValidMethodIff | src/jasmineTestUtilsService.js:83-85 | a name is a valid method exactly when the object has a property under it holding a function or a spy; a missing key and a non-function field are both invalid |
| StubEngineProperties.MethodMessageParse | src/jasmineTestUtilsService.js:87-89 | a string is the invalid-method message for `name` exactly when reading the name back out of it gives `name` |
| StubEngineProperties.KeyMessageParse | src/jasmineTestUtilsService.js:91-93 | a string is the invalid-param-key message for a key exactly when reading it back gives the key's string form |
| StubEngineProperties.Unframe | src/jasmineTestUtilsService.js:87-93 | putting a text between a prefix and a suffix can be undone, and only a string built that way passes the parser's checks |
| StubEngineProperties.MessageKindsDisjoint | src/jasmineTestUtilsService.js:87-93 | an invalid-param-key message never parses as an invalid-method message, and the other way round |
| StubEngine.TestUtilsService.Install | src/jasmineTestUtilsService.js:15-20 | an invalid method leaves the object unchanged and yields the invalid-method message; a valid one is replaced by a fresh spy with counter 0 running the given fake, and no other property changes |
| StubEngine.TestUtilsService.StubMethodReturningValue | src/jasmineTestUtilsService.js:15-21 | refuses an invalid method with the message and no change; otherwise installs a fixed-value fake under the name |
| StubEngine.TestUtilsService.StubAsyncMethodResolvingValue | src/jasmineTestUtilsService.js:23-33 | the same check, then installs a resolving fake |
| StubEngine.TestUtilsService.StubAsyncMethodResolvingValueWithParameters | src/jasmineTestUtilsService.js:35-50 | the same check, then installs a parameter-keyed fake over the table |
| StubEngine.TestUtilsService.StubAsyncMethodResolvingValueWithParametersBasedOnTimes | src/jasmineTestUtilsService.js:52-64 | the same check, then installs a call-indexed fake over the sequence, with its counter at 0 |
| StubEngine.TestUtilsService.StubAsyncMethodRejectingValue | src/jasmineTestUtilsService.js:66-76 | the same check, then installs a rejecting fake |
| StubEngine.Respond | src/jasmineTestUtilsService.js:19-74 | one call of a fake never settles an already settled deferred, never shows the test anything, and moves no continuation except to schedule it; it creates exactly one deferred unless the fake is fixed-value; only a call-indexed fake advances its counter, by one |
| StubEngine.Fake.Call | src/jasmineTestUtilsService.js:19-74 | the call's result, the new counter and the new factory state are exactly what `Respond` gives for the old counter and state |
| StubEngineProperties.FixedValueEveryCall | src/jasmineTestUtilsService.js:19 | over any run of calls a fixed-value fake returns its value every time, whatever the arguments, and changes neither the factory nor its counter |
| StubEngineProperties.ResolvingCall | src/jasmineTestUtilsService.js:27-31 | a resolving fake returns a new promise and only appends a deferred resolved with its value |
| StubEngineProperties.ParamKeyedCall | src/jasmineTestUtilsService.js:39-47 | when the table entry for the argument's string form is truthy, the fake returns a new promise resolved with it; otherwise, including a present key with a falsy entry, the call throws the invalid-param-key message and leaves a pending deferred behind |
| StubEngineProperties.CallIndexedCall | src/jasmineTestUtilsService.js:56-61 | one call resolves a new promise with the element at the counter, or undefined past the end, and raises the counter by one |
| StubEngineProperties.CallIndexedEveryCall | src/jasmineTestUtilsService.js:56-61 | over a run of n calls the counter rises by n; the i-th call returns the i-th new promise, resolved with element counter+i, or undefined past the end; the factory stays well formed |
| StubEngineProperties.RejectingCall | src/jasmineTestUtilsService.js:70-74 | a rejecting fake returns a new promise and only appends a deferred rejected with its error |
| StubEngineProperties.SettleFresh | src/jasmineTestUtilsService.js:28-29 | creating a deferred and settling it at once appends just that settlement and keeps the factory well formed |
| StubEngine.Deferreds.Settle | src/jasmineTestUtilsService.js:29 | a pending deferred takes exactly the given settlement; a deferred that is already settled is left as it is, and so is the whole state; the outstanding work is kept, waiting continuations only move to the queue, and every settled entry is kept |
| StubEngine.Deferreds.Subscribe | tests/specs/testing/testUtilsServiceSpecs.js:115-119 | `then` on a settled promise appends the task to the queue and leaves the waiting list alone; on a pending promise it appends the task to the waiting list and leaves the queue alone; no settlement changes, and exactly the new continuations' work is added |
| StubEngine.DeferredFactory.Defer | src/jasmineTestUtilsService.js:28 | `$q.defer()` returns the next deferred number, and the new state is `Deferreds.Defer` of the old one: one more pending deferred |
| StubEngine.DeferredFactory.Resolve | src/jasmineTestUtilsService.js:29 | `deferred.resolve` leaves the state `Deferreds.Settle` gives with a resolved settlement |
| StubEngine.DeferredFactory.Reject | src/jasmineTestUtilsService.js:72 | `deferred.reject` leaves the state `Deferreds.Settle` gives with a rejected settlement |
| StubEngine.DeferredFactory.Then | tests/specs/testing/testUtilsServiceSpecs.js:354-359 | `promise.then` leaves the state `Deferreds.Subscribe` gives |
| StubEngine.DeferredFactory.AdoptResult | tests/specs/testing/testUtilsServiceSpecs.js:277-286 | handling the outcome of a call made inside a continuation leaves the state `Adopt` gives |
| StubEngine.DeferredFactory.Run | src/jasmineTestUtilsService.js:79 | running one continuation in place, including a call to a fake, leaves the factory and the fakes' counters exactly as `Perform` gives |
| StubEngine.DeferredFactory.RunFirst | src/jasmineTestUtilsService.js:79 | one step of the digest in place: the factory and the counters are exactly what `Step` gives for the state before |
| StubEngine.Adopt | tests/specs/testing/testUtilsServiceSpecs.js:279-284 | handling the outcome of a call made by a continuation changes no settlement, shows the test at most one more observation and adds at most the work of the two continuations |
| StubEngine.Perform | src/jasmineTestUtilsService.js:78-80 | running one continuation keeps the set of known fakes and leaves less work than before plus the continuation's own size |
| StubEngine.Step | src/jasmineTestUtilsService.js:78-80 | running the first scheduled continuation strictly lowers the outstanding work |
| StubEngine.Drain | src/jasmineTestUtilsService.js:78-80 | a flush ends with nothing scheduled and keeps the set of known fakes |
| StubEngine.DeferredFactory.Flush | src/jasmineTestUtilsService.js:78-80 | the loop ends with an empty queue, and the factory with the fakes' counters is exactly what `Drain` gives for the state before |
| StubEngine.TestUtilsService.ResolveAsyncMethods | src/jasmineTestUtilsService.js:78-80 | the service's flush leaves the state `Drain` gives and nothing scheduled |
| StubEngineProperties.DrainKeepsWellFormed | src/jasmineTestUtilsService.js:78-80 | a flush keeps scheduled continuations on settled deferreds and waiting ones on pending deferreds |
| StubEngineProperties.DrainGrows | src/jasmineTestUtilsService.js:78-80 | over a flush settled deferreds stay settled, observations are only appended, and no fake's counter goes down |
| StubEngineProperties.DrainInOrder | src/jasmineTestUtilsService.js:78-80 | continuations that call nothing run in the order they were scheduled, each exactly once, and the flush changes nothing else |
| StubEngineProperties.ResolvedSeenOnlyAfterFlush | src/jasmineTestUtilsService.js:27-31 | a continuation on a resolving fake's promise has shown nothing before the flush, and after it has shown the value exactly once |
| StubEngineProperties.RejectedSeenByErrorCallbackOnly | src/jasmineTestUtilsService.js:70-74 | after the flush only the error continuation of a rejecting fake's promise has run, once, with the error |
| StubEngineProperties.NestedCallSettlesInSameFlush | tests/specs/testing/testUtilsServiceSpecs.js:266-291 | a call-indexed fake called again from its first promise's continuation has its second promise settled and delivered in the same flush, with the second element, and its counter ends at 2 |

## Left out

- The prototype chain is not modelled. A property lookup on the target object or on the key table sees own properties only: a map from strings to values.
- Numbers are the integers and NaN. Fractions, infinities and -0 are not modelled, and neither is the string form of arrays.
- SpySource: the text a spy converts to is a fixed constant. The exact text of Jasmine's wrapper is not known here.
- Jasmine's `spyOn` is not modelled beyond installing the spy. Its call recording, its "already spied upon" error and restoring the original are left out. Stubbing an already stubbed method replaces the spy.
- Angular's `$q` and `$rootScope` are reduced to one FIFO queue of continuations. The following are not modelled:
  - per-promise grouping of handlers;
  - promises derived from `then`;
  - resolving a deferred with a thenable;
  - `$exceptionHandler`;
  - reports of unhandled rejections;
  - watchers and the digest iteration limit.
- A thrown continuation is recorded as an observation; a continuation's return value is not chained.
- CloneObject: the `JSON.parse(JSON.stringify(...))` round trip is a parameter. Its behaviour on cycles, functions and dates is out of scope. Only the falsy guard is modelled and proved.
- StubEngine.Stub: the parameter-keyed and call-indexed fakes read the caller's object and array each time they are called (src/jasmineTestUtilsService.js:41-42, 59). The model takes a copy of the table and the sequence when the fake is installed. A test that adds a key or pushes an element after stubbing sees the change in JavaScript, but not in the model. This aliasing is not modelled.
- StubEngine.ToStr: `Num(n)` is any integer, and it prints every integer in full decimal. A JavaScript number is a double, so it cannot hold every integer above 2^53 (2^53+1, for one). Above 2^53, JavaScript prints at most 17 significant digits padded with zeros: `String(2**60)` is "1152921504606847000", where the model prints "1152921504606846976". From 1e21 upwards, JavaScript switches to exponent form ("1e+21"). So for numeric keys above 2^53, the model's table lookup (src/jasmineTestUtilsService.js:41) and invalid-key message (line 92) differ from the source's.
- StubEngine.Drain: a flush always ends in the model, because a continuation is a finite value. In JavaScript, `$q` puts `then` handlers on the digest's async queue, and `$rootScope.$digest()` empties that queue in a loop that also runs work added while it runs. A continuation that calls the fake again and attaches itself to the new promise therefore makes the digest, and `resolveAsyncMethods`, never return. That non-terminating case is not modelled.
- StubEngine.Callback: a `CallAgain` continuation holds the fake it calls. The tests' continuations instead look up the method on the object when they run (tests/specs/testing/testUtilsServiceSpecs.js:279), so re-stubbing between scheduling and the flush would call the new spy in JavaScript and the old one in the model.
- StubEngine.DeferredFactory.Flush and StubEngine.TestUtilsService.ResolveAsyncMethods take a ghost set of the spies that scheduled continuations may call. The JavaScript code has no such parameter; it is the frame the proof needs.
- The Angular module registration (src/jasmineTestUtilsService.js:96-98) is not modelled, and neither is the karma configuration.
- Fakes see only their first argument, which is all the source reads.
