/** A model of the stub engine of jasmineTestUtilsService.

    A test replaces a method of an object with a fake in one of five ways
    (fixed value, resolving, parameter-keyed, call-indexed, rejecting).
    Every stubbing operation first checks that the name denotes a function
    of the object and otherwise throws a fixed message.  The asynchronous
    fakes create deferreds and settle them at once; continuations attached
    to them run only when the test flushes the pending work, and the flush
    drains the queue until nothing is left, including work that the
    continuations themselves schedule.

    The host libraries (Jasmine's spyOn, Angular's $q and $rootScope) are
    modelled abstractly: installing a spy replaces the property, and the
    deferred factory is a FIFO queue of settled continuations.
*/
module StubEngine {

  datatype Option<T> = None | Some(value: T)

  // ---------------------------------------------------------------------
  // JavaScript values
  // ---------------------------------------------------------------------

  /** The JavaScript values the engine passes around.  Numbers are the
      integers and NaN; a plain object and a $q promise are told apart by
      an identity; a function carries its source text; a spy is the
      function spyOn installs, and it runs a fake. */
  datatype Value =
    | Undefined
    | Null
    | Bool(b: bool)
    | Num(n: int)
    | NaN
    | Str(s: string)
    | Obj(id: nat)
    | Promise(id: nat)
    | Func(source: string)
    | Spy(fake: Fake)

  /** JavaScript truthiness: undefined, null, false, 0, NaN and "" are falsy. */
  predicate Truthy(v: Value) {
    match v
    case Undefined => false
    case Null => false
    case Bool(b) => b
    case Num(n) => n != 0
    case NaN => false
    case Str(s) => s != ""
    case _ => true
  }

  /** The result of the `typeof` operator. */
  function TypeOf(v: Value): string {
    match v
    case Undefined => "undefined"
    case Null => "object"
    case Bool(_) => "boolean"
    case Num(_) => "number"
    case NaN => "number"
    case Str(_) => "string"
    case Obj(_) => "object"
    case Promise(_) => "object"
    case Func(_) => "function"
    case Spy(_) => "function"
  }

  /** Every spy is made by the same wrapper function expression inside
      Jasmine, so every spy converts to the same text. */
  const SpySource: string := "function () { [spy] }"

  /** Decimal digits of a natural number, most significant first. */
  function Digits(n: nat): string
    decreases n
  {
    var d := (48 + n % 10) as char;
    if n < 10 then [d] else Digits(n / 10) + [d]
  }

  /** String conversion, as string concatenation and property access
      apply it. */
  function ToStr(v: Value): string {
    match v
    case Undefined => "undefined"
    case Null => "null"
    case Bool(b) => if b then "true" else "false"
    case Num(n) => if n < 0 then "-" + Digits(-n) else Digits(n)
    case NaN => "NaN"
    case Str(s) => s
    case Obj(_) => "[object Object]"
    case Promise(_) => "[object Object]"
    case Func(source) => source
    case Spy(_) => SpySource
  }

  /** Reading `table[key]` on a plain object: a missing key reads as undefined. */
  function Get(table: map<string, Value>, key: string): Value {
    if key in table then table[key] else Undefined
  }

  /** Reading `sequence[k]` on an array: past the end reads as undefined. */
  function ElementAt(sequence: seq<Value>, k: nat): Value {
    if k < |sequence| then sequence[k] else Undefined
  }

  /** cloneObject: a falsy input gives undefined; a truthy one goes through
      the host's serialise/parse round trip, which is a parameter here. */
  function CloneObject(x: Value, roundTrip: Value -> Value): (r: Value)
    ensures !Truthy(x) ==> r == Undefined
    ensures Truthy(x) ==> r == roundTrip(x)
  {
    if Truthy(x) then roundTrip(x) else Undefined
  }

  // ---------------------------------------------------------------------
  // Validation and error messages
  // ---------------------------------------------------------------------

  /** The property read under `name` is truthy and its typeof is "function";
      a missing property reads as undefined and fails. */
  predicate IsValidMethod(props: map<string, Value>, name: string) {
    var m := Get(props, name);
    Truthy(m) && TypeOf(m) == "function"
  }

  const MethodPrefix: string := "The method "
  const MethodSuffix: string := " is not present at the specified object"
  const KeyPrefix: string := "The key "
  const KeySuffix: string := " is not valid for the params specified"

  /** The message thrown when a name does not denote a method. */
  function InvalidMethodMessage(name: string): string {
    MethodPrefix + name + MethodSuffix
  }

  /** The message thrown when a parameter-keyed fake gets an unknown key. */
  function InvalidParamKeyMessage(key: Value): string {
    KeyPrefix + ToStr(key) + KeySuffix
  }

  /** Reads the method name back out of an invalid-method message. */
  function MethodNameIn(m: string): Option<string> {
    if |m| >= |MethodPrefix| + |MethodSuffix|
       && m[..|MethodPrefix|] == MethodPrefix
       && m[|m| - |MethodSuffix|..] == MethodSuffix
    then Some(m[|MethodPrefix|..|m| - |MethodSuffix|])
    else None
  }

  /** Reads the key text back out of an invalid-param-key message. */
  function KeyTextIn(m: string): Option<string> {
    if |m| >= |KeyPrefix| + |KeySuffix|
       && m[..|KeyPrefix|] == KeyPrefix
       && m[|m| - |KeySuffix|..] == KeySuffix
    then Some(m[|KeyPrefix|..|m| - |KeySuffix|])
    else None
  }

  // ---------------------------------------------------------------------
  // Stub descriptors and the result of calling a fake
  // ---------------------------------------------------------------------

  /** The five kinds of fake the engine installs. */
  datatype Stub =
    | FixedValue(value: Value)
    | ResolvingValue(value: Value)
    | ResolvingByParam(table: map<string, Value>)
    | ResolvingByCallIndex(sequence: seq<Value>)
    | RejectingValue(error: Value)

  /** A call either returns a value or throws a message synchronously. */
  datatype CallResult = Returned(value: Value) | Threw(message: string)

  // ---------------------------------------------------------------------
  // The deferred factory, as values
  // ---------------------------------------------------------------------

  /** The one-way state of a deferred. */
  datatype Settlement = Pending | Resolved(value: Value) | Rejected(reason: Value)

  /** What a continuation does with the value it receives: nothing, keep it
      in a test variable, or call a fake and attach two continuations to
      the promise that call returns. */
  datatype Callback =
    | Ignore
    | Record(slot: string)
    | CallAgain(fake: Fake, arg: Value, onResolved: Callback, onRejected: Callback)

  /** A pair of continuations attached with `then` to a promise. */
  datatype Task = Task(promise: nat, onResolved: Callback, onRejected: Callback)

  /** What the test sees while continuations run. */
  datatype Observation =
    | Saw(slot: string, value: Value)
    | Raised(message: string)
    | NotThenable(value: Value)

  function Size(cb: Callback): nat {
    match cb
    case CallAgain(_, _, ok, err) => 1 + Size(ok) + Size(err)
    case _ => 1
  }

  /** The continuation work a list of tasks can still cause. */
  function Weight(ts: seq<Task>): nat {
    if ts == [] then 0 else Size(ts[0].onResolved) + Size(ts[0].onRejected) + Weight(ts[1..])
  }

  lemma {:induction false} WeightAppend(a: seq<Task>, b: seq<Task>)
    ensures Weight(a + b) == Weight(a) + Weight(b)
  {
    if a != [] {
      assert (a + b)[1..] == a[1..] + b;
      WeightAppend(a[1..], b);
    } else {
      assert a + b == b;
    }
  }

  /** The tasks of `ts` attached to promise `p`, in order. */
  function TasksFor(ts: seq<Task>, p: nat): (r: seq<Task>)
    ensures forall t :: t in r ==> t in ts && t.promise == p
    ensures forall t :: t in ts && t.promise == p ==> t in r
  {
    if ts == [] then []
    else (if ts[0].promise == p then [ts[0]] else []) + TasksFor(ts[1..], p)
  }

  /** The tasks of `ts` attached to other promises, in order. */
  function TasksNotFor(ts: seq<Task>, p: nat): (r: seq<Task>)
    ensures forall t :: t in r ==> t in ts && t.promise != p
    ensures forall t :: t in ts && t.promise != p ==> t in r
  {
    if ts == [] then []
    else (if ts[0].promise != p then [ts[0]] else []) + TasksNotFor(ts[1..], p)
  }

  lemma {:induction false} WeightSplit(ts: seq<Task>, p: nat)
    ensures Weight(TasksFor(ts, p)) + Weight(TasksNotFor(ts, p)) == Weight(ts)
  {
    if ts != [] {
      WeightSplit(ts[1..], p);
      var head := if ts[0].promise == p then [ts[0]] else [];
      var rest := if ts[0].promise != p then [ts[0]] else [];
      WeightAppend(head, TasksFor(ts[1..], p));
      WeightAppend(rest, TasksNotFor(ts[1..], p));
    }
  }

  /** Settled entries of `s` are unchanged in `s2`, which may be longer. */
  predicate Extends(s: seq<Settlement>, s2: seq<Settlement>) {
    |s| <= |s2| && forall i :: 0 <= i < |s| && !s[i].Pending? ==> s2[i] == s[i]
  }

  /** The state of the deferred factory: the settlement of every deferred
      created so far (a promise is its index), the continuations waiting on
      pending deferreds, the continuations scheduled to run at the next
      flush, and what the continuations have shown the test. */
  datatype Deferreds = Deferreds(
    settlements: seq<Settlement>,
    waiting: seq<Task>,
    queue: seq<Task>,
    observed: seq<Observation>)
  {
    function Load(): nat {
      Weight(waiting) + Weight(queue)
    }

    /** Scheduled continuations hang on settled deferreds, waiting ones on
        pending deferreds. */
    predicate WellFormed() {
      && (forall t :: t in queue ==> t.promise < |settlements| && !settlements[t.promise].Pending?)
      && (forall t :: t in waiting ==> t.promise < |settlements| && settlements[t.promise].Pending?)
    }

    /** `$q.defer()`: a new pending deferred, numbered |settlements|. */
    function Defer(): Deferreds {
      this.(settlements := settlements + [Pending])
    }

    /** `deferred.resolve` / `deferred.reject`: a pending deferred takes the
        settlement and its waiting continuations are scheduled; a settled
        one is left as it is. */
    function Settle(p: nat, s: Settlement): (r: Deferreds)
      requires p < |settlements| && !s.Pending?
      ensures r.Load() == Load()
      ensures forall t :: t in r.queue ==> t in queue || t in waiting
      ensures forall t :: t in r.waiting ==> t in waiting
      ensures Extends(settlements, r.settlements) && r.settlements[p] != Pending
      ensures settlements[p].Pending? ==> r.settlements == settlements[p := s]
      ensures settlements[p].Pending? ==> forall t :: t in waiting && t.promise == p ==> t in r.queue
      ensures settlements[p].Pending? ==> forall t :: t in r.waiting ==> t.promise != p
      ensures !settlements[p].Pending? ==> r == this
      ensures r.observed == observed
    {
      if settlements[p].Pending? then
        WeightSplit(waiting, p);
        WeightAppend(queue, TasksFor(waiting, p));
        Deferreds(settlements[p := s], TasksNotFor(waiting, p), queue + TasksFor(waiting, p), observed)
      else
        this
    }

    /** `promise.then(onResolved, onRejected)`: scheduled at once if the
        deferred is settled, otherwise left waiting for it. */
    function Subscribe(p: nat, onResolved: Callback, onRejected: Callback): (r: Deferreds)
      requires p < |settlements|
      ensures r.Load() == Load() + Size(onResolved) + Size(onRejected)
      ensures forall t :: t in r.queue ==> t in queue || t == Task(p, onResolved, onRejected)
      ensures forall t :: t in r.waiting ==> t in waiting || t == Task(p, onResolved, onRejected)
      ensures r.settlements == settlements && r.observed == observed
      ensures !settlements[p].Pending? ==>
                r.queue == queue + [Task(p, onResolved, onRejected)] && r.waiting == waiting
      ensures settlements[p].Pending? ==>
                r.waiting == waiting + [Task(p, onResolved, onRejected)] && r.queue == queue
    {
      var t := Task(p, onResolved, onRejected);
      assert Weight([t]) == Size(onResolved) + Size(onRejected);
      if settlements[p].Pending? then
        WeightAppend(waiting, [t]);
        this.(waiting := waiting + [t])
      else
        WeightAppend(queue, [t]);
        this.(queue := queue + [t])
    }

    function Observe(o: Observation): Deferreds {
      this.(observed := observed + [o])
    }
  }

  // ---------------------------------------------------------------------
  // What one call of an installed fake does
  // ---------------------------------------------------------------------

  /** The result of a call, the fake's counter after it, and the factory after it. */
  datatype Invocation = Invocation(result: CallResult, counter: nat, deferreds: Deferreds)

  /** One call of the fake installed by `stub`, whose counter is `counter`,
      with first argument `arg`, against factory state `d`. */
  function Respond(stub: Stub, counter: nat, arg: Value, d: Deferreds): (r: Invocation)
    ensures r.deferreds.Load() == d.Load()
    ensures forall t :: t in r.deferreds.queue ==> t in d.queue || t in d.waiting
    ensures forall t :: t in r.deferreds.waiting ==> t in d.waiting
    ensures r.deferreds.observed == d.observed
    ensures Extends(d.settlements, r.deferreds.settlements)
    ensures |r.deferreds.settlements| == |d.settlements| + (if stub.FixedValue? then 0 else 1)
    ensures r.counter == if stub.ResolvingByCallIndex? then counter + 1 else counter
  {
    var p := |d.settlements|;
    match stub
    case FixedValue(v) =>
      Invocation(Returned(v), counter, d)
    case ResolvingValue(v) =>
      Invocation(Returned(Promise(p)), counter, d.Defer().Settle(p, Resolved(v)))
    case ResolvingByParam(table) =>
      var entry := Get(table, ToStr(arg));
      if Truthy(entry) then
        Invocation(Returned(Promise(p)), counter, d.Defer().Settle(p, Resolved(entry)))
      else
        Invocation(Threw(InvalidParamKeyMessage(arg)), counter, d.Defer())
    case ResolvingByCallIndex(sequence) =>
      Invocation(Returned(Promise(p)), counter + 1, d.Defer().Settle(p, Resolved(ElementAt(sequence, counter))))
    case RejectingValue(e) =>
      Invocation(Returned(Promise(p)), counter, d.Defer().Settle(p, Rejected(e)))
  }

  // ---------------------------------------------------------------------
  // Flushing, as values
  // ---------------------------------------------------------------------

  /** The factory together with the counter of every fake a continuation may call. */
  datatype World = World(deferreds: Deferreds, counters: map<Fake, nat>)

  function CallbackFakes(cb: Callback): set<Fake> {
    match cb
    case CallAgain(f, _, ok, err) => {f} + CallbackFakes(ok) + CallbackFakes(err)
    case _ => {}
  }

  function TaskFakes(t: Task): set<Fake> {
    CallbackFakes(t.onResolved) + CallbackFakes(t.onRejected)
  }

  /** Every fake a registered continuation calls is among `fakes`. */
  predicate Covers(d: Deferreds, fakes: set<Fake>) {
    && (forall t :: t in d.queue ==> TaskFakes(t) <= fakes)
    && (forall t :: t in d.waiting ==> TaskFakes(t) <= fakes)
  }

  predicate Covered(w: World) {
    Covers(w.deferreds, w.counters.Keys)
  }

  /** What a continuation that called a fake does with the call's outcome:
      a throw is recorded, a promise of this factory gets the next pair of
      continuations attached, and any other value is recorded as not
      thenable. */
  function Adopt(result: CallResult, ok: Callback, err: Callback, d: Deferreds): (r: Deferreds)
    ensures r.settlements == d.settlements
    ensures d.observed <= r.observed && |r.observed| <= |d.observed| + 1
    ensures r.Load() <= d.Load() + Size(ok) + Size(err)
    ensures forall t :: t in r.queue ==> t in d.queue || (t.onResolved == ok && t.onRejected == err)
    ensures forall t :: t in r.waiting ==> t in d.waiting || (t.onResolved == ok && t.onRejected == err)
  {
    match result
    case Threw(message) => d.Observe(Raised(message))
    case Returned(x) =>
      if x.Promise? && x.id < |d.settlements| then d.Subscribe(x.id, ok, err)
      else d.Observe(NotThenable(x))
  }

  /** Runs continuation `cb` on the value `v` its promise settled with. */
  function Perform(cb: Callback, v: Value, w: World): (r: World)
    requires CallbackFakes(cb) <= w.counters.Keys && Covered(w)
    ensures r.counters.Keys == w.counters.Keys && Covered(r)
    ensures r.deferreds.Load() < w.deferreds.Load() + Size(cb)
  {
    match cb
    case Ignore => w
    case Record(slot) => w.(deferreds := w.deferreds.Observe(Saw(slot, v)))
    case CallAgain(f, arg, ok, err) =>
      var inv := Respond(f.stub, w.counters[f], arg, w.deferreds);
      World(Adopt(inv.result, ok, err, inv.deferreds), w.counters[f := inv.counter])
  }

  /** Runs the first scheduled task: the continuation matching the
      settlement of its promise gets the value. */
  function Step(w: World): (r: World)
    requires w.deferreds.queue != [] && Covered(w)
    ensures r.counters.Keys == w.counters.Keys && Covered(r)
    ensures r.deferreds.Load() < w.deferreds.Load()
  {
    var d := w.deferreds;
    var t := d.queue[0];
    assert t in d.queue;
    assert d.queue == [t] + d.queue[1..];
    WeightAppend([t], d.queue[1..]);
    var w0 := w.(deferreds := d.(queue := d.queue[1..]));
    if t.promise < |d.settlements| then
      match d.settlements[t.promise]
      case Resolved(v) => Perform(t.onResolved, v, w0)
      case Rejected(e) => Perform(t.onRejected, e, w0)
      case Pending => w0
    else
      w0
  }

  /** `$rootScope.$digest()`: runs scheduled tasks in order until none is left. */
  function Drain(w: World): (r: World)
    requires Covered(w)
    ensures r.deferreds.queue == []
    ensures r.counters.Keys == w.counters.Keys && Covered(r)
    decreases w.deferreds.Load()
  {
    if w.deferreds.queue == [] then w else Drain(Step(w))
  }

  // ---------------------------------------------------------------------
  // The stateful model
  // ---------------------------------------------------------------------

  /** A fake installed by spyOn: its behaviour, the factory its closure
      captured, and the private counter of the call-indexed variant. */
  class Fake {
    const stub: Stub
    const q: DeferredFactory
    var counter: nat

    constructor (stub: Stub, q: DeferredFactory)
      ensures this.stub == stub && this.q == q && counter == 0
    {
      this.stub := stub;
      this.q := q;
      counter := 0;
    }

    /** Calls the fake with first argument `arg`. */
    method Call(arg: Value) returns (r: CallResult)
      modifies this, q
      ensures Invocation(r, counter, q.Model()) == Respond(stub, old(counter), arg, old(q.Model()))
    {
      match stub
      case FixedValue(v) =>
        r := Returned(v);
      case ResolvingValue(v) =>
        var p := q.Defer();
        q.Resolve(p, v);
        r := Returned(Promise(p));
      case ResolvingByParam(table) =>
        var p := q.Defer();
        var entry := Get(table, ToStr(arg));
        if Truthy(entry) {
          q.Resolve(p, entry);
          r := Returned(Promise(p));
        } else {
          r := Threw(InvalidParamKeyMessage(arg));
        }
      case ResolvingByCallIndex(sequence) =>
        var p := q.Defer();
        q.Resolve(p, ElementAt(sequence, counter));
        counter := counter + 1;
        r := Returned(Promise(p));
      case RejectingValue(e) =>
        var p := q.Defer();
        q.Reject(p, e);
        r := Returned(Promise(p));
    }
  }

  /** The $q service together with $rootScope's queue of scheduled work. */
  class DeferredFactory {
    var settlements: seq<Settlement>
    var waiting: seq<Task>
    var queue: seq<Task>
    var observed: seq<Observation>

    function Model(): Deferreds
      reads this
    {
      Deferreds(settlements, waiting, queue, observed)
    }

    /** The factory and the counters of the given fakes. */
    function Snapshot(fakes: set<Fake>): World
      reads this, fakes
    {
      World(Model(), map f | f in fakes :: f.counter)
    }

    constructor ()
      ensures Model() == Deferreds([], [], [], [])
    {
      settlements, waiting, queue, observed := [], [], [], [];
    }

    method Defer() returns (p: nat)
      modifies this
      ensures p == |old(settlements)| && Model() == old(Model()).Defer()
    {
      p := |settlements|;
      settlements := settlements + [Pending];
    }

    method Settle(p: nat, s: Settlement)
      requires p < |settlements| && !s.Pending?
      modifies this
      ensures Model() == old(Model()).Settle(p, s)
    {
      if settlements[p].Pending? {
        queue := queue + TasksFor(waiting, p);
        waiting := TasksNotFor(waiting, p);
        settlements := settlements[p := s];
      }
    }

    method Resolve(p: nat, v: Value)
      requires p < |settlements|
      modifies this
      ensures Model() == old(Model()).Settle(p, Resolved(v))
    {
      Settle(p, Resolved(v));
    }

    method Reject(p: nat, e: Value)
      requires p < |settlements|
      modifies this
      ensures Model() == old(Model()).Settle(p, Rejected(e))
    {
      Settle(p, Rejected(e));
    }

    method Then(p: nat, onResolved: Callback, onRejected: Callback)
      requires p < |settlements|
      modifies this
      ensures Model() == old(Model()).Subscribe(p, onResolved, onRejected)
    {
      var t := Task(p, onResolved, onRejected);
      if settlements[p].Pending? {
        waiting := waiting + [t];
      } else {
        queue := queue + [t];
      }
    }

    /** Runs one continuation; the fakes it may call share this factory. */
    method Run(cb: Callback, v: Value, ghost fakes: set<Fake>)
      requires CallbackFakes(cb) <= fakes && Covered(Snapshot(fakes))
      requires forall f :: f in fakes ==> f.q == this
      modifies this, fakes
      ensures Snapshot(fakes) == Perform(cb, v, old(Snapshot(fakes)))
    {
      match cb
      case Ignore =>
      case Record(slot) =>
        observed := observed + [Saw(slot, v)];
      case CallAgain(f, arg, ok, err) =>
        ghost var before := Snapshot(fakes);
        var r := f.Call(arg);
        ghost var inv := Respond(f.stub, before.counters[f], arg, before.deferreds);
        assert Snapshot(fakes) == World(inv.deferreds, before.counters[f := inv.counter]);
        AdoptResult(r, ok, err);
    }

    /** Handles the outcome of a call made by a continuation, as `Adopt` says. */
    method AdoptResult(r: CallResult, ok: Callback, err: Callback)
      modifies this
      ensures Model() == Adopt(r, ok, err, old(Model()))
    {
      match r
      case Threw(message) =>
        observed := observed + [Raised(message)];
      case Returned(x) =>
        if x.Promise? && x.id < |settlements| {
          Then(x.id, ok, err);
        } else {
          observed := observed + [NotThenable(x)];
        }
    }

    /** Runs the first scheduled task: the continuation that matches the
        settlement of its promise gets the value. */
    method RunFirst(ghost fakes: set<Fake>)
      requires queue != [] && Covered(Snapshot(fakes))
      requires forall f :: f in fakes ==> f.q == this
      modifies this, fakes
      ensures Snapshot(fakes) == Step(old(Snapshot(fakes)))
    {
      ghost var before := Snapshot(fakes);
      var t := queue[0];
      assert TaskFakes(t) <= fakes by { assert t in queue; }
      queue := queue[1..];
      ghost var w0 := before.(deferreds := before.deferreds.(queue := before.deferreds.queue[1..]));
      assert Snapshot(fakes) == w0;
      assert Covered(w0) by {
        forall x | x in w0.deferreds.queue ensures TaskFakes(x) <= fakes {
          assert x in before.deferreds.queue;
        }
      }
      if t.promise < |settlements| {
        match settlements[t.promise]
        case Resolved(v) => Run(t.onResolved, v, fakes);
        case Rejected(e) => Run(t.onRejected, e, fakes);
        case Pending =>
      }
    }

    /** `$rootScope.$digest()`: runs the scheduled continuations in order,
        including those scheduled while it runs, until none is left. */
    method Flush(ghost fakes: set<Fake>)
      requires Covered(Snapshot(fakes))
      requires forall f :: f in fakes ==> f.q == this
      modifies this, fakes
      ensures Snapshot(fakes) == Drain(old(Snapshot(fakes)))
      ensures queue == []
    {
      while queue != []
        invariant Covered(Snapshot(fakes))
        invariant Drain(Snapshot(fakes)) == Drain(old(Snapshot(fakes)))
        decreases Snapshot(fakes).deferreds.Load()
      {
        RunFirst(fakes);
      }
    }
  }

  /** An object whose properties the stubbing operations replace in place. */
  class Target {
    var props: map<string, Value>

    constructor (props: map<string, Value>)
      ensures this.props == props
    {
      this.props := props;
    }
  }

  /** What a stubbing operation does: install a spy or throw a message. */
  datatype StubOutcome = Installed(spy: Fake) | Refused(message: string)

  /** The outcome of stubbing `name` of an object whose properties were
      `before` and are `after`: a valid method is replaced by a spy running
      `stub`; otherwise the invalid-method message is thrown and nothing
      changes. */
  ghost predicate StubbedAs(before: map<string, Value>, after: map<string, Value>, name: string,
                            stub: Stub, q: DeferredFactory, r: StubOutcome)
  {
    && (IsValidMethod(before, name) ==>
          r.Installed? && r.spy.stub == stub && r.spy.q == q && after == before[name := Spy(r.spy)])
    && (!IsValidMethod(before, name) ==>
          r == Refused(InvalidMethodMessage(name)) && after == before)
  }

  /** jasmineTestUtilsService, holding the $q and $rootScope it was given. */
  class TestUtilsService {
    const q: DeferredFactory

    constructor (q: DeferredFactory)
      ensures this.q == q
    {
      this.q := q;
    }

    method Install(o: Target, name: string, stub: Stub) returns (r: StubOutcome)
      modifies o
      ensures StubbedAs(old(o.props), o.props, name, stub, q, r)
      ensures r.Installed? ==> fresh(r.spy) && r.spy.counter == 0
    {
      if !IsValidMethod(o.props, name) {
        r := Refused(InvalidMethodMessage(name));
      } else {
        var spy := new Fake(stub, q);
        o.props := o.props[name := Spy(spy)];
        r := Installed(spy);
      }
    }

    method StubMethodReturningValue(o: Target, name: string, valueToReturn: Value) returns (r: StubOutcome)
      modifies o
      ensures StubbedAs(old(o.props), o.props, name, FixedValue(valueToReturn), q, r)
      ensures r.Installed? ==> fresh(r.spy) && r.spy.counter == 0
    {
      r := Install(o, name, FixedValue(valueToReturn));
    }

    method StubAsyncMethodResolvingValue(o: Target, name: string, valueToReturn: Value) returns (r: StubOutcome)
      modifies o
      ensures StubbedAs(old(o.props), o.props, name, ResolvingValue(valueToReturn), q, r)
      ensures r.Installed? ==> fresh(r.spy) && r.spy.counter == 0
    {
      r := Install(o, name, ResolvingValue(valueToReturn));
    }

    method StubAsyncMethodResolvingValueWithParameters(o: Target, name: string, keyValuesToReturn: map<string, Value>)
      returns (r: StubOutcome)
      modifies o
      ensures StubbedAs(old(o.props), o.props, name, ResolvingByParam(keyValuesToReturn), q, r)
      ensures r.Installed? ==> fresh(r.spy) && r.spy.counter == 0
    {
      r := Install(o, name, ResolvingByParam(keyValuesToReturn));
    }

    method StubAsyncMethodResolvingValueWithParametersBasedOnTimes(o: Target, name: string, paramValuesTimesToReturn: seq<Value>)
      returns (r: StubOutcome)
      modifies o
      ensures StubbedAs(old(o.props), o.props, name, ResolvingByCallIndex(paramValuesTimesToReturn), q, r)
      ensures r.Installed? ==> fresh(r.spy) && r.spy.counter == 0
    {
      r := Install(o, name, ResolvingByCallIndex(paramValuesTimesToReturn));
    }

    method StubAsyncMethodRejectingValue(o: Target, name: string, errorToReturn: Value) returns (r: StubOutcome)
      modifies o
      ensures StubbedAs(old(o.props), o.props, name, RejectingValue(errorToReturn), q, r)
      ensures r.Installed? ==> fresh(r.spy) && r.spy.counter == 0
    {
      r := Install(o, name, RejectingValue(errorToReturn));
    }

    /** Flushes the pending deferreds; `fakes` are the spies continuations may call. */
    method ResolveAsyncMethods(ghost fakes: set<Fake>)
      requires Covered(q.Snapshot(fakes))
      requires forall f :: f in fakes ==> f.q == q
      modifies q, fakes
      ensures q.Snapshot(fakes) == Drain(old(q.Snapshot(fakes)))
      ensures q.queue == []
    {
      q.Flush(fakes);
    }
  }
}
