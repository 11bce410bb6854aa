/** Properties of the stub engine model: validation, the two messages, what
    each kind of fake does over a run of calls, and what a flush delivers. */
module StubEngineProperties {
  import opened StubEngine

  // ---------------------------------------------------------------------
  // Validation and messages
  // ---------------------------------------------------------------------

  /** Exactly six values are falsy: undefined, null, false, 0, NaN and the
      empty string. */
  lemma FalsyValues(v: Value)
    ensures !Truthy(v) <==> v in {Undefined, Null, Bool(false), Num(0), NaN, Str("")}
  {
  }

  /** cloneObject gives undefined for each falsy value, whatever the round
      trip would have made of it. */
  lemma CloneOfFalsy(roundTrip: Value -> Value)
    ensures && CloneObject(Undefined, roundTrip) == Undefined
            && CloneObject(Null, roundTrip) == Undefined
            && CloneObject(Bool(false), roundTrip) == Undefined
            && CloneObject(Num(0), roundTrip) == Undefined
            && CloneObject(NaN, roundTrip) == Undefined
            && CloneObject(Str(""), roundTrip) == Undefined
  {
    FalsyValues(Undefined);
    FalsyValues(Null);
    FalsyValues(Bool(false));
    FalsyValues(Num(0));
    FalsyValues(NaN);
    FalsyValues(Str(""));
  }

  /** A name is a valid method exactly when the object has a function under
      it: a missing key and a present non-function field are both invalid. */
  lemma IsValidMethodIff(props: map<string, Value>, name: string)
    ensures IsValidMethod(props, name) <==> name in props && (props[name].Func? || props[name].Spy?)
  {
  }

  /** Framing `x` between `P` and `S` can be undone, and only a framed
      string passes the checks the parsers make. */
  lemma Unframe(m: string, P: string, S: string, x: string)
    ensures (&& |m| >= |P| + |S| && m[..|P|] == P && m[|m| - |S|..] == S
             && m[|P|..|m| - |S|] == x)
        <==> m == P + x + S
  {
    if m == P + x + S {
      assert m[..|P|] == P;
      assert m[|m| - |S|..] == S;
      assert m[|P|..|m| - |S|] == x;
    }
    if |m| >= |P| + |S| && m[..|P|] == P && m[|m| - |S|..] == S && m[|P|..|m| - |S|] == x {
      assert m == m[..|P|] + m[|P|..|m| - |S|] + m[|m| - |S|..];
    }
  }

  /** The invalid-method message determines the name and nothing else
      produces it. */
  lemma MethodMessageParse(m: string, name: string)
    ensures MethodNameIn(m) == Some(name) <==> m == InvalidMethodMessage(name)
  {
    Unframe(m, MethodPrefix, MethodSuffix, name);
  }

  /** The invalid-param-key message determines the text of the key and
      nothing else produces it. */
  lemma KeyMessageParse(m: string, key: Value)
    ensures KeyTextIn(m) == Some(ToStr(key)) <==> m == InvalidParamKeyMessage(key)
  {
    Unframe(m, KeyPrefix, KeySuffix, ToStr(key));
  }

  /** The two kinds of error message can never be confused. */
  lemma MessageKindsDisjoint(name: string, key: Value)
    ensures MethodNameIn(InvalidParamKeyMessage(key)) == None
    ensures KeyTextIn(InvalidMethodMessage(name)) == None
  {
    var km := InvalidParamKeyMessage(key);
    assert km[4] == 'k';
    assert |km| >= |MethodPrefix| ==> km[..|MethodPrefix|][4] == 'k';
    var mm := InvalidMethodMessage(name);
    assert mm[4] == 'm';
    assert mm[..|KeyPrefix|][4] == 'm';
  }

  // ---------------------------------------------------------------------
  // A run of calls to one installed fake
  // ---------------------------------------------------------------------

  /** The results of a run of calls, the counter after it, the factory after it. */
  datatype Calls = Calls(results: seq<CallResult>, counter: nat, deferreds: Deferreds)

  /** Calls the fake installed by `stub` once per argument, in order. */
  function CallEach(stub: Stub, counter: nat, args: seq<Value>, d: Deferreds): Calls
    decreases |args|
  {
    if args == [] then Calls([], counter, d)
    else
      var first := Respond(stub, counter, args[0], d);
      var rest := CallEach(stub, first.counter, args[1..], first.deferreds);
      Calls([first.result] + rest.results, rest.counter, rest.deferreds)
  }

  /** A fixed-value fake returns its value on every call, whatever the
      arguments and however many calls, and creates no deferred. */
  lemma {:induction false} FixedValueEveryCall(v: Value, counter: nat, args: seq<Value>, d: Deferreds)
    ensures var r := CallEach(FixedValue(v), counter, args, d);
      && |r.results| == |args|
      && (forall i :: 0 <= i < |args| ==> r.results[i] == Returned(v))
      && r.deferreds == d && r.counter == counter
    decreases |args|
  {
    if args != [] {
      FixedValueEveryCall(v, counter, args[1..], d);
    }
  }

  lemma {:induction false} NoTasksFor(ts: seq<Task>, p: nat)
    requires forall t :: t in ts ==> t.promise < p
    ensures TasksFor(ts, p) == []
  {
    if ts != [] {
      assert ts[0] in ts;
      NoTasksFor(ts[1..], p);
    }
  }

  lemma {:induction false} AllTasksNotFor(ts: seq<Task>, p: nat)
    requires forall t :: t in ts ==> t.promise < p
    ensures TasksNotFor(ts, p) == ts
  {
    if ts != [] {
      assert ts[0] in ts;
      AllTasksNotFor(ts[1..], p);
      assert ts == [ts[0]] + ts[1..];
    }
  }

  /** Waiting continuations never hang on a deferred not yet created. */
  lemma NoneWaitFor(ts: seq<Task>, p: nat)
    requires forall t :: t in ts ==> t.promise < p
    ensures TasksFor(ts, p) == [] && TasksNotFor(ts, p) == ts
  {
    NoTasksFor(ts, p);
    AllTasksNotFor(ts, p);
  }

  /** Creating a deferred and settling it at once only appends the settlement. */
  lemma SettleFresh(d: Deferreds, s: Settlement)
    requires d.WellFormed() && !s.Pending?
    ensures d.Defer().Settle(|d.settlements|, s) == d.(settlements := d.settlements + [s])
    ensures d.(settlements := d.settlements + [s]).WellFormed()
  {
    var p := |d.settlements|;
    NoneWaitFor(d.waiting, p);
    assert (d.settlements + [Pending])[p := s] == d.settlements + [s];
  }

  /** A resolving fake returns a new promise resolved with its value; no
      continuation is scheduled and nothing is observed before a flush. */
  lemma ResolvingCall(v: Value, counter: nat, arg: Value, d: Deferreds)
    requires d.WellFormed()
    ensures Respond(ResolvingValue(v), counter, arg, d)
         == Invocation(Returned(Promise(|d.settlements|)), counter,
                       d.(settlements := d.settlements + [Resolved(v)]))
  {
    SettleFresh(d, Resolved(v));
  }

  /** A rejecting fake returns a new promise rejected with its error. */
  lemma RejectingCall(e: Value, counter: nat, arg: Value, d: Deferreds)
    requires d.WellFormed()
    ensures Respond(RejectingValue(e), counter, arg, d)
         == Invocation(Returned(Promise(|d.settlements|)), counter,
                       d.(settlements := d.settlements + [Rejected(e)]))
  {
    SettleFresh(d, Rejected(e));
  }

  /** A parameter-keyed fake resolves with the table entry for the key when
      that entry is truthy; otherwise the call itself throws the
      invalid-param-key message, and the deferred it created stays pending
      and is never handed out.  A present key with a falsy entry throws too. */
  lemma ParamKeyedCall(table: map<string, Value>, counter: nat, arg: Value, d: Deferreds)
    requires d.WellFormed()
    ensures var entry := Get(table, ToStr(arg));
            var r := Respond(ResolvingByParam(table), counter, arg, d);
      && (Truthy(entry) ==>
            r == Invocation(Returned(Promise(|d.settlements|)), counter,
                            d.(settlements := d.settlements + [Resolved(entry)])))
      && (!Truthy(entry) ==>
            r == Invocation(Threw(InvalidParamKeyMessage(arg)), counter,
                            d.(settlements := d.settlements + [Pending])))
  {
    var entry := Get(table, ToStr(arg));
    if Truthy(entry) {
      SettleFresh(d, Resolved(entry));
    }
  }

  /** The settlements of `n` calls of a call-indexed fake whose counter
      starts at `counter`: call k resolves with element counter + k of the
      sequence, or with undefined past its end. */
  function Resolutions(sequence: seq<Value>, counter: nat, n: nat): (r: seq<Settlement>)
    ensures |r| == n
    ensures forall k :: 0 <= k < n ==> r[k] == Resolved(ElementAt(sequence, counter + k))
    decreases n
  {
    if n == 0 then [] else [Resolved(ElementAt(sequence, counter))] + Resolutions(sequence, counter + 1, n - 1)
  }

  /** One call of a call-indexed fake returns a new promise resolved with
      the element at the counter (undefined past the end) and moves the
      counter on by one. */
  lemma CallIndexedCall(sequence: seq<Value>, counter: nat, arg: Value, d: Deferreds)
    requires d.WellFormed()
    ensures Respond(ResolvingByCallIndex(sequence), counter, arg, d)
         == Invocation(Returned(Promise(|d.settlements|)), counter + 1,
                       d.(settlements := d.settlements + [Resolved(ElementAt(sequence, counter))]))
  {
    SettleFresh(d, Resolved(ElementAt(sequence, counter)));
  }

  lemma ResolutionsCons(sequence: seq<Value>, counter: nat, n: nat, s: seq<Settlement>)
    requires n > 0
    ensures (s + [Resolved(ElementAt(sequence, counter))]) + Resolutions(sequence, counter + 1, n - 1)
         == s + Resolutions(sequence, counter, n)
  {
  }

  /** The results of `n` calls that each return a new promise, numbered from `p`. */
  function Promises(p: nat, n: nat): (r: seq<CallResult>)
    ensures |r| == n
    ensures forall k :: 0 <= k < n ==> r[k] == Returned(Promise(p + k))
    decreases n
  {
    if n == 0 then [] else [Returned(Promise(p))] + Promises(p + 1, n - 1)
  }

  lemma {:induction false} CallIndexedCounter(sequence: seq<Value>, counter: nat, args: seq<Value>, d: Deferreds)
    ensures CallEach(ResolvingByCallIndex(sequence), counter, args, d).counter == counter + |args|
    decreases |args|
  {
    if args != [] {
      var first := Respond(ResolvingByCallIndex(sequence), counter, args[0], d);
      CallIndexedCounter(sequence, counter + 1, args[1..], first.deferreds);
    }
  }

  lemma {:induction false} CallIndexedResults(sequence: seq<Value>, counter: nat, args: seq<Value>, d: Deferreds)
    ensures CallEach(ResolvingByCallIndex(sequence), counter, args, d).results == Promises(|d.settlements|, |args|)
    decreases |args|
  {
    if args != [] {
      var first := Respond(ResolvingByCallIndex(sequence), counter, args[0], d);
      CallIndexedResults(sequence, counter + 1, args[1..], first.deferreds);
    }
  }

  lemma {:induction false} CallIndexedDeferreds(sequence: seq<Value>, counter: nat, args: seq<Value>, d: Deferreds)
    requires d.WellFormed()
    ensures var r := CallEach(ResolvingByCallIndex(sequence), counter, args, d);
      && r.deferreds == d.(settlements := d.settlements + Resolutions(sequence, counter, |args|))
      && r.deferreds.WellFormed()
    decreases |args|
  {
    if args != [] {
      var d1 := d.(settlements := d.settlements + [Resolved(ElementAt(sequence, counter))]);
      CallIndexedCall(sequence, counter, args[0], d);
      SettleFresh(d, Resolved(ElementAt(sequence, counter)));
      CallIndexedDeferreds(sequence, counter + 1, args[1..], d1);
      ResolutionsCons(sequence, counter, |args|, d.settlements);
    }
  }

  /** Calls of a call-indexed fake each return a new promise, resolved in
      turn with the next element of the sequence (undefined past its end);
      the counter goes up by exactly one per call and nothing else changes. */
  lemma CallIndexedEveryCall(sequence: seq<Value>, counter: nat, args: seq<Value>, d: Deferreds)
    requires d.WellFormed()
    ensures var r := CallEach(ResolvingByCallIndex(sequence), counter, args, d);
      && r.counter == counter + |args|
      && r.results == Promises(|d.settlements|, |args|)
      && r.deferreds == d.(settlements := d.settlements + Resolutions(sequence, counter, |args|))
      && r.deferreds.WellFormed()
  {
    CallIndexedCounter(sequence, counter, args, d);
    CallIndexedResults(sequence, counter, args, d);
    CallIndexedDeferreds(sequence, counter, args, d);
  }

  // ---------------------------------------------------------------------
  // Flushing
  // ---------------------------------------------------------------------

  lemma SettleKeepsWellFormed(d: Deferreds, p: nat, s: Settlement)
    requires d.WellFormed() && p < |d.settlements| && !s.Pending?
    ensures d.Settle(p, s).WellFormed()
  {
  }

  lemma RespondKeepsWellFormed(stub: Stub, counter: nat, arg: Value, d: Deferreds)
    requires d.WellFormed()
    ensures Respond(stub, counter, arg, d).deferreds.WellFormed()
  {
    match stub
    case FixedValue(_) =>
    case ResolvingValue(v) => SettleFresh(d, Resolved(v));
    case ResolvingByParam(table) =>
      var entry := Get(table, ToStr(arg));
      if Truthy(entry) { SettleFresh(d, Resolved(entry)); }
    case ResolvingByCallIndex(sequence) => SettleFresh(d, Resolved(ElementAt(sequence, counter)));
    case RejectingValue(e) => SettleFresh(d, Rejected(e));
  }

  lemma AdoptKeepsWellFormed(result: CallResult, ok: Callback, err: Callback, d: Deferreds)
    requires d.WellFormed()
    ensures Adopt(result, ok, err, d).WellFormed()
  {
  }

  lemma PerformKeepsWellFormed(cb: Callback, v: Value, w: World)
    requires CallbackFakes(cb) <= w.counters.Keys && Covered(w) && w.deferreds.WellFormed()
    ensures Perform(cb, v, w).deferreds.WellFormed()
  {
    if cb.CallAgain? {
      var inv := Respond(cb.fake.stub, w.counters[cb.fake], cb.arg, w.deferreds);
      RespondKeepsWellFormed(cb.fake.stub, w.counters[cb.fake], cb.arg, w.deferreds);
      AdoptKeepsWellFormed(inv.result, cb.onResolved, cb.onRejected, inv.deferreds);
    }
  }

  lemma StepKeepsWellFormed(w: World)
    requires w.deferreds.queue != [] && Covered(w) && w.deferreds.WellFormed()
    ensures Step(w).deferreds.WellFormed()
  {
    var d := w.deferreds;
    var t := d.queue[0];
    assert t in d.queue;
    var w0 := w.(deferreds := d.(queue := d.queue[1..]));
    assert w0.deferreds.WellFormed() by {
      forall x | x in w0.deferreds.queue ensures x in d.queue { }
    }
    assert Covered(w0) by {
      forall x | x in w0.deferreds.queue ensures x in d.queue { }
    }
    match d.settlements[t.promise]
    case Resolved(v) => PerformKeepsWellFormed(t.onResolved, v, w0);
    case Rejected(e) => PerformKeepsWellFormed(t.onRejected, e, w0);
  }

  /** A flush keeps every continuation attached to the right kind of deferred. */
  lemma {:induction false} DrainKeepsWellFormed(w: World)
    requires Covered(w) && w.deferreds.WellFormed()
    ensures Drain(w).deferreds.WellFormed()
    decreases w.deferreds.Load()
  {
    if w.deferreds.queue != [] {
      StepKeepsWellFormed(w);
      DrainKeepsWellFormed(Step(w));
    }
  }

  /** What a flush can only add to: settlements are one-way, what was
      observed stays observed, counters never go down. */
  predicate Grows(w: World, w2: World) {
    && Extends(w.deferreds.settlements, w2.deferreds.settlements)
    && w.deferreds.observed <= w2.deferreds.observed
    && w.counters.Keys <= w2.counters.Keys
    && (forall f :: f in w.counters ==> w.counters[f] <= w2.counters[f])
  }

  lemma RespondGrows(stub: Stub, counter: nat, arg: Value, d: Deferreds)
    ensures var r := Respond(stub, counter, arg, d);
      Extends(d.settlements, r.deferreds.settlements) && r.deferreds.observed == d.observed && counter <= r.counter
  {
  }

  lemma PerformGrows(cb: Callback, v: Value, w: World)
    requires CallbackFakes(cb) <= w.counters.Keys && Covered(w)
    ensures Grows(w, Perform(cb, v, w))
  {
    if cb.CallAgain? {
      RespondGrows(cb.fake.stub, w.counters[cb.fake], cb.arg, w.deferreds);
    }
  }

  lemma StepGrows(w: World)
    requires w.deferreds.queue != [] && Covered(w)
    ensures Grows(w, Step(w))
  {
    var d := w.deferreds;
    var t := d.queue[0];
    assert t in d.queue;
    var w0 := w.(deferreds := d.(queue := d.queue[1..]));
    assert Covered(w0) by {
      forall x | x in w0.deferreds.queue ensures x in d.queue { }
    }
    if t.promise < |d.settlements| {
      match d.settlements[t.promise]
      case Resolved(v) => PerformGrows(t.onResolved, v, w0);
      case Rejected(e) => PerformGrows(t.onRejected, e, w0);
      case Pending =>
    }
  }

  /** Over a whole flush, settlements are one-way, observations are only
      appended, and every fake's counter only grows. */
  lemma {:induction false} DrainGrows(w: World)
    requires Covered(w)
    ensures Grows(w, Drain(w))
    decreases w.deferreds.Load()
  {
    if w.deferreds.queue != [] {
      StepGrows(w);
      DrainGrows(Step(w));
    }
  }

  /** What a continuation that does not call anything shows the test. */
  function Delivered(cb: Callback, v: Value): seq<Observation> {
    match cb
    case Record(slot) => [Saw(slot, v)]
    case _ => []
  }

  /** What one such task shows, given the settlements. */
  function DeliveryOf(t: Task, s: seq<Settlement>): seq<Observation> {
    if t.promise < |s| then
      match s[t.promise]
      case Resolved(v) => Delivered(t.onResolved, v)
      case Rejected(e) => Delivered(t.onRejected, e)
      case Pending => []
    else []
  }

  /** What a list of such tasks shows, one task after the other. */
  function Deliveries(ts: seq<Task>, s: seq<Settlement>): seq<Observation> {
    if ts == [] then [] else DeliveryOf(ts[0], s) + Deliveries(ts[1..], s)
  }

  predicate Plain(t: Task) {
    !t.onResolved.CallAgain? && !t.onRejected.CallAgain?
  }

  /** The world after running a first task whose continuations call nothing. */
  function Delivering(w: World): World
    requires w.deferreds.queue != []
  {
    var d := w.deferreds;
    World(d.(queue := d.queue[1..], observed := d.observed + DeliveryOf(d.queue[0], d.settlements)), w.counters)
  }

  lemma DeliveringFacts(w: World)
    requires w.deferreds.queue != [] && Covered(w) && Plain(w.deferreds.queue[0])
    ensures Step(w) == Delivering(w)
    ensures Covered(Delivering(w))
    ensures Delivering(w).deferreds.Load() < w.deferreds.Load()
    ensures forall x :: x in Delivering(w).deferreds.queue ==> x in w.deferreds.queue
  {
  }

  lemma DrainUnfold(w: World)
    requires w.deferreds.queue != [] && Covered(w)
    ensures Drain(w) == Drain(Step(w))
  {
  }

  lemma DeliveriesHead(d: Deferreds)
    requires d.queue != []
    ensures (d.observed + DeliveryOf(d.queue[0], d.settlements)) + Deliveries(d.queue[1..], d.settlements)
         == d.observed + Deliveries(d.queue, d.settlements)
  {
  }

  /** Continuations that call nothing run in the order they were scheduled,
      each exactly once, and the flush changes nothing else. */
  lemma {:induction false} DrainInOrder(w: World)
    requires Covered(w)
    requires forall t :: t in w.deferreds.queue ==> Plain(t)
    ensures Drain(w).counters == w.counters
    ensures Drain(w).deferreds
         == w.deferreds.(queue := [],
                         observed := w.deferreds.observed + Deliveries(w.deferreds.queue, w.deferreds.settlements))
    decreases w.deferreds.Load()
  {
    if w.deferreds.queue != [] {
      assert w.deferreds.queue[0] in w.deferreds.queue;
      DeliveringFacts(w);
      DrainInOrder(Delivering(w));
      DrainUnfold(w);
      DeliveriesHead(w.deferreds);
    }
  }

  /** A flush of a single continuation that calls nothing shows what that
      continuation records and changes no counter. */
  lemma DrainOnePlain(w: World)
    requires Covered(w) && |w.deferreds.queue| == 1 && Plain(w.deferreds.queue[0])
    ensures Drain(w).counters == w.counters
    ensures Drain(w).deferreds.observed
         == w.deferreds.observed + DeliveryOf(w.deferreds.queue[0], w.deferreds.settlements)
  {
    DrainInOrder(w);
    assert Deliveries(w.deferreds.queue, w.deferreds.settlements)
        == DeliveryOf(w.deferreds.queue[0], w.deferreds.settlements) + Deliveries([], w.deferreds.settlements);
  }

  /** A continuation attached to a resolving fake's promise has not run
      before the flush and runs exactly once, with the value, during it. */
  lemma ResolvedSeenOnlyAfterFlush(v: Value, counter: nat, arg: Value, d: Deferreds,
                                   counters: map<Fake, nat>, slot: string)
    requires d.WellFormed() && d.queue == [] && Covers(d, counters.Keys)
    ensures var call := Respond(ResolvingValue(v), counter, arg, d);
            var p := |d.settlements|;
      && call.result == Returned(Promise(p))
      && var before := call.deferreds.Subscribe(p, Record(slot), Ignore);
         && before.observed == d.observed
         && Covered(World(before, counters))
         && Drain(World(before, counters)).deferreds.observed == d.observed + [Saw(slot, v)]
  {
    ResolvingCall(v, counter, arg, d);
    var p := |d.settlements|;
    var before := Respond(ResolvingValue(v), counter, arg, d).deferreds.Subscribe(p, Record(slot), Ignore);
    assert before.queue == [Task(p, Record(slot), Ignore)];
    DrainOnePlain(World(before, counters));
  }

  /** After a flush only the error continuation of a rejecting fake's
      promise has run, and it got the error. */
  lemma RejectedSeenByErrorCallbackOnly(e: Value, counter: nat, arg: Value, d: Deferreds,
                                        counters: map<Fake, nat>, okSlot: string, errSlot: string)
    requires d.WellFormed() && d.queue == [] && Covers(d, counters.Keys)
    ensures var call := Respond(RejectingValue(e), counter, arg, d);
            var p := |d.settlements|;
      && call.result == Returned(Promise(p))
      && var before := call.deferreds.Subscribe(p, Record(okSlot), Record(errSlot));
         && before.observed == d.observed
         && Covered(World(before, counters))
         && Drain(World(before, counters)).deferreds.observed == d.observed + [Saw(errSlot, e)]
  {
    RejectingCall(e, counter, arg, d);
    var p := |d.settlements|;
    var before := Respond(RejectingValue(e), counter, arg, d).deferreds.Subscribe(p, Record(okSlot), Record(errSlot));
    assert before.queue == [Task(p, Record(okSlot), Record(errSlot))];
    DrainOnePlain(World(before, counters));
  }

  /** When the first scheduled task's promise is resolved with `v`, a step
      runs its success continuation on `v` against the rest of the queue. */
  lemma StepResolvedHead(w: World, v: Value)
    requires w.deferreds.queue != [] && Covered(w)
    requires var t := w.deferreds.queue[0];
      t.promise < |w.deferreds.settlements| && w.deferreds.settlements[t.promise] == Resolved(v)
    ensures var rest := w.(deferreds := w.deferreds.(queue := w.deferreds.queue[1..]));
      && CallbackFakes(w.deferreds.queue[0].onResolved) <= rest.counters.Keys
      && Covered(rest)
      && Step(w) == Perform(w.deferreds.queue[0].onResolved, v, rest)
  {
    var d := w.deferreds;
    assert d.queue[0] in d.queue;
    assert Covers(d.(queue := d.queue[1..]), w.counters.Keys) by {
      forall x | x in d.queue[1..] ensures x in d.queue { }
    }
  }

  /** A continuation calling a call-indexed fake gets a new promise, resolved
      with the element at the fake's counter, and attaches `ok` and `err` to it. */
  lemma PerformCallIndexed(f: Fake, arg: Value, ok: Callback, err: Callback, v: Value, w: World)
    requires f.stub.ResolvingByCallIndex? && f in w.counters
    requires CallbackFakes(CallAgain(f, arg, ok, err)) <= w.counters.Keys && Covered(w) && w.deferreds.WellFormed()
    ensures var d := w.deferreds;
            var d2 := d.(settlements := d.settlements + [Resolved(ElementAt(f.stub.sequence, w.counters[f]))]);
      Perform(CallAgain(f, arg, ok, err), v, w)
      == World(d2.Subscribe(|d.settlements|, ok, err), w.counters[f := w.counters[f] + 1])
  {
    CallIndexedCall(f.stub.sequence, w.counters[f], arg, w.deferreds);
  }

  /** The world once a test has called a call-indexed fake `f` and attached
      to the promise it got a continuation that calls `f` again and records
      what the second promise resolves with in `slot`. */
  function AfterFirstCall(f: Fake, d: Deferreds, counters: map<Fake, nat>, slot: string): World
    requires f.stub.ResolvingByCallIndex? && f in counters
  {
    var first := Respond(f.stub, counters[f], Undefined, d);
    World(first.deferreds.Subscribe(|d.settlements|, CallAgain(f, Undefined, Record(slot), Ignore), Ignore),
          counters[f := first.counter])
  }

  lemma FirstCallWorld(f: Fake, d: Deferreds, counters: map<Fake, nat>, slot: string)
    requires f.stub.ResolvingByCallIndex?
    requires d.WellFormed() && d.queue == [] && Covers(d, counters.Keys) && f in counters && counters[f] == 0
    ensures var p := |d.settlements|;
            var d1 := d.(settlements := d.settlements + [Resolved(ElementAt(f.stub.sequence, 0))]);
            var w := AfterFirstCall(f, d, counters, slot);
      && Respond(f.stub, 0, Undefined, d).result == Returned(Promise(p))
      && d1.WellFormed()
      && w == World(d1.(queue := [Task(p, CallAgain(f, Undefined, Record(slot), Ignore), Ignore)]), counters[f := 1])
      && Covered(w)
  {
    var p := |d.settlements|;
    var cb := CallAgain(f, Undefined, Record(slot), Ignore);
    CallIndexedCall(f.stub.sequence, 0, Undefined, d);
    SettleFresh(d, Resolved(ElementAt(f.stub.sequence, 0)));
    var w := AfterFirstCall(f, d, counters, slot);
    assert w.deferreds.queue == [Task(p, cb, Ignore)];
    assert CallbackFakes(cb) == {f};
    assert Covers(w.deferreds, w.counters.Keys) by {
      forall t | t in w.deferreds.waiting ensures TaskFakes(t) <= w.counters.Keys {
        assert t in d.waiting;
      }
    }
  }

  /** Attaching continuations to a settled promise while nothing else is
      scheduled makes them the only scheduled task. */
  lemma SubscribeSettled(d: Deferreds, p: nat, ok: Callback, err: Callback)
    requires p < |d.settlements| && !d.settlements[p].Pending? && d.queue == []
    ensures d.Subscribe(p, ok, err) == d.(queue := [Task(p, ok, err)])
  {
  }

  /** The step that runs the first continuation makes the second call and
      schedules `Record(slot)` on the promise it returns, already resolved. */
  lemma NestedStep(f: Fake, d: Deferreds, counters: map<Fake, nat>, slot: string)
    requires f.stub.ResolvingByCallIndex?
    requires d.WellFormed() && d.queue == [] && Covers(d, counters.Keys) && f in counters && counters[f] == 0
    ensures var w := AfterFirstCall(f, d, counters, slot);
            var d1 := d.(settlements := d.settlements + [Resolved(ElementAt(f.stub.sequence, 0))]);
            var d2 := d1.(settlements := d1.settlements + [Resolved(ElementAt(f.stub.sequence, 1))]);
      && Covered(w)
      && w.deferreds.queue != []
      && Step(w) == World(d2.Subscribe(|d1.settlements|, Record(slot), Ignore), counters[f := 1][f := 2])
  {
    var sequence := f.stub.sequence;
    var d1 := d.(settlements := d.settlements + [Resolved(ElementAt(sequence, 0))]);
    FirstCallWorld(f, d, counters, slot);
    var w := AfterFirstCall(f, d, counters, slot);
    StepResolvedHead(w, ElementAt(sequence, 0));
    var rest := World(d1, counters[f := 1]);
    assert w.(deferreds := w.deferreds.(queue := w.deferreds.queue[1..])) == rest;
    PerformCallIndexed(f, Undefined, Record(slot), Ignore, ElementAt(sequence, 0), rest);
  }

  /** A second call made inside the continuation of the first call to a
      freshly installed call-indexed fake settles within the same flush, and
      its continuation gets the second element of the sequence. */
  lemma NestedCallSettlesInSameFlush(f: Fake, d: Deferreds, counters: map<Fake, nat>, slot: string)
    requires f.stub.ResolvingByCallIndex?
    requires d.WellFormed() && d.queue == [] && Covers(d, counters.Keys)
    requires f in counters && counters[f] == 0
    ensures var w := AfterFirstCall(f, d, counters, slot);
      && Respond(f.stub, 0, Undefined, d).result == Returned(Promise(|d.settlements|))
      && w.deferreds.observed == d.observed
      && Covered(w)
      && Drain(w).deferreds.observed == d.observed + [Saw(slot, ElementAt(f.stub.sequence, 1))]
      && Drain(w).counters[f] == 2
  {
    FirstCallWorld(f, d, counters, slot);
    NestedStep(f, d, counters, slot);
    var w := AfterFirstCall(f, d, counters, slot);
    var d1 := d.(settlements := d.settlements + [Resolved(ElementAt(f.stub.sequence, 0))]);
    var d2 := d1.(settlements := d1.settlements + [Resolved(ElementAt(f.stub.sequence, 1))]);
    SubscribeSettled(d2, |d1.settlements|, Record(slot), Ignore);
    DrainUnfold(w);
    DrainOnePlain(Step(w));
  }
}
