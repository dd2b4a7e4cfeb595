/**
 * The ticker pump as values: what each step of `lib/Ticker.js` does to a ticker's state.
 * Plugin functions (initializer, reader, converter, writer) are not run; their outcomes are
 * inputs to the steps that call them. The class in module TickerClass is proved to follow
 * these functions step for step.
 */
module Pump {
  import opened JsValues
  import opened Util

  const TEN_SECONDS: int := 10 * 1000

  /** What a `throw` carries: an `Error`, a `TypeError` raised by the runtime, or any other value. */
  datatype Thrown = Error(message: string) | TypeError(message: string) | Raw(v: Value)

  /** The payload of an `Error` event: a message of the ticker's own, or a caught exception. */
  datatype Report = Text(message: string) | Caught(e: Thrown)

  /** What a ticker does that can be observed from outside, in order. */
  datatype Event =
    | Converted(input: Value)   // the converter was called with `input`
    | Written(data: Value)      // the writer was called with `data`
    | Printed(line: Line)       // the built-in printer wrote a line
    | Reported(report: Report)  // an `Error` event reached the error handler

  /** How a synchronous call ended: normally, or by throwing. */
  datatype Completion = Normal | Throw(e: Thrown)

  datatype Result<T> = Success(value: T) | Failure(error: Thrown)

  /** The outcome of calling a plugin function. */
  datatype CallOutcome = Returns(v: Value) | Throws(e: Thrown)

  /**
   * The outcome of calling the reader: a promise that resolves or rejects, a synchronous throw,
   * or a return value that is not a promise at all.
   */
  datatype ReaderOutcome =
    | Resolves(result: Value)
    | Rejects(reason: Thrown)
    | ThrowsNow(e: Thrown)
    | ReturnsPlain(v: Value)

  /** What the initializer does: property assignments on the ticker, in order, then how it ends. */
  datatype InitializerRun = InitializerRun(assigns: seq<(string, Value)>, ending: Completion)

  /** How a chain of event handlers ended: the record step ran, a handler reported and returned, or an exception is propagating. */
  datatype Flow = Done | Stopped | Raise(e: Thrown)

  /** How one cycle ended: recorded, reported one error, or threw out of `emit('GetData')`. */
  datatype CycleResult = Recorded | ErrorReported | Escaped(e: Thrown)

  /** The repeating timer `start` arms. */
  datatype Timer = NoTimer | Repeating(delay: Value)

  /**
   * A ticker's own properties. `reader`, `converter` and `writer` hold the bound functions the
   * setters store (`_reader`, `_converter`, `_writer`); `extras` every other own property;
   * `trace` the events so far.
   */
  datatype TickerState = TickerState(
    symbol: Value,
    intervalDelay: Value,
    lastTs: Value,
    lastPrice: Value,
    initializer: Value,
    reader: Value,
    converter: Value,
    writer: Value,
    extras: map<string, Value>,
    timer: Timer,
    trace: seq<Event>)

  /** A ticker before `init`: nothing set. */
  function Blank(): TickerState {
    TickerState(Undefined, Undefined, Undefined, Undefined, Undefined,
                Undefined, Undefined, Undefined, map[], NoTimer, [])
  }

  // ---- property assignment and the setters ----

  /** The state slot a property name refers to. */
  datatype Slot =
    | SymbolSlot | IntervalDelaySlot | LastTsSlot | LastPriceSlot | InitializerSlot
    | ReaderSlot | ConverterSlot | WriterSlot
    | ExtraSlot(key: string)

  /** The three names defined by setters on the prototype. */
  predicate IsAccessor(key: string) {
    key == "reader" || key == "converter" || key == "writer"
  }

  /** The slot `this[key] = v` writes: a setter stores into its private field. */
  function SlotOf(key: string): Slot {
    if key == "symbol" then SymbolSlot
    else if key == "intervalDelay" then IntervalDelaySlot
    else if key == "lastTs" then LastTsSlot
    else if key == "lastPrice" then LastPriceSlot
    else if key == "initializer" then InitializerSlot
    else if key == "reader" || key == "_reader" then ReaderSlot
    else if key == "converter" || key == "_converter" then ConverterSlot
    else if key == "writer" || key == "_writer" then WriterSlot
    else ExtraSlot(key)
  }

  /** The value in a slot; a missing extra property reads as undefined. */
  function ValueAt(s: TickerState, slot: Slot): Value {
    match slot
    case SymbolSlot => s.symbol
    case IntervalDelaySlot => s.intervalDelay
    case LastTsSlot => s.lastTs
    case LastPriceSlot => s.lastPrice
    case InitializerSlot => s.initializer
    case ReaderSlot => s.reader
    case ConverterSlot => s.converter
    case WriterSlot => s.writer
    case ExtraSlot(k) => if k in s.extras then s.extras[k] else Undefined
  }

  function Store(s: TickerState, slot: Slot, v: Value): (s': TickerState)
    ensures ValueAt(s', slot) == v
    ensures forall other :: other != slot ==> ValueAt(s', other) == ValueAt(s, other)
    ensures s'.timer == s.timer && s'.trace == s.trace
  {
    match slot
    case SymbolSlot => s.(symbol := v)
    case IntervalDelaySlot => s.(intervalDelay := v)
    case LastTsSlot => s.(lastTs := v)
    case LastPriceSlot => s.(lastPrice := v)
    case InitializerSlot => s.(initializer := v)
    case ReaderSlot => s.(reader := v)
    case ConverterSlot => s.(converter := v)
    case WriterSlot => s.(writer := v)
    case ExtraSlot(k) => s.(extras := s.extras[k := v])
  }

  /** `this[key] = v`: the setters throw unless given a function; any other name is stored. */
  function AssignSpec(s: TickerState, key: string, v: Value): Result<TickerState> {
    if IsAccessor(key) && !IsFunction(v) then Failure(Error("requires a " + key + " function"))
    else Success(Store(s, SlotOf(key), v))
  }

  /** `AssignSpec` case by case: through each setter, or a plain store. */
  lemma AssignCases(s: TickerState, key: string, v: Value)
    ensures key == "reader" ==> AssignSpec(s, key, v) == if IsFunction(v) then Success(s.(reader := v)) else Failure(Error("requires a reader function"))
    ensures key == "converter" ==> AssignSpec(s, key, v) == if IsFunction(v) then Success(s.(converter := v)) else Failure(Error("requires a converter function"))
    ensures key == "writer" ==> AssignSpec(s, key, v) == if IsFunction(v) then Success(s.(writer := v)) else Failure(Error("requires a writer function"))
    ensures !IsAccessor(key) ==> AssignSpec(s, key, v) == Success(Store(s, SlotOf(key), v))
  {
    if key == "reader" {
      assert "requires a " + key + " function" == "requires a reader function";
    } else if key == "converter" {
      assert "requires a " + key + " function" == "requires a converter function";
    } else if key == "writer" {
      assert "requires a " + key + " function" == "requires a writer function";
    }
  }

  /**
   * lodash's `assignMergeValue` onto the ticker. An undefined source value is written only when
   * the key is not yet `in` the ticker, and the accessor names always are, so undefined never
   * changes what a slot reads. (Deep merging of a plain object into a plain object is not
   * modelled: no slot holds one while `init` merges.)
   */
  function MergeValueSpec(s: TickerState, key: string, v: Value): Result<TickerState> {
    if v == Undefined then
      if SlotOf(key).ExtraSlot? && key !in s.extras then Success(Store(s, SlotOf(key), v)) else Success(s)
    else AssignSpec(s, key, v)
  }

  predicate KeysIn(order: seq<string>, src: map<string, Value>) {
    forall i :: 0 <= i < |order| ==> order[i] in src
  }

  /** `_.merge(this, src)` with `order` the enumeration order of `src`'s keys; stops at the first throw. */
  function MergeSpec(s: TickerState, src: map<string, Value>, order: seq<string>): Result<TickerState>
    requires KeysIn(order, src)
    decreases |order|
  {
    if order == [] then Success(s)
    else
      var key := order[|order| - 1];
      match MergeSpec(s, src, order[..|order| - 1])
      case Failure(e) => Failure(e)
      case Success(s1) => MergeValueSpec(s1, key, src[key])
  }

  /** `this[key] = v` for each assignment in turn; stops at the first throw. */
  function AssignAllSpec(s: TickerState, assigns: seq<(string, Value)>): Result<TickerState>
    decreases |assigns|
  {
    if assigns == [] then Success(s)
    else
      var last := assigns[|assigns| - 1];
      match AssignAllSpec(s, assigns[..|assigns| - 1])
      case Failure(e) => Failure(e)
      case Success(s1) => AssignSpec(s1, last.0, last.1)
  }

  const DEFAULTS: map<string, Value> :=
    map["intervalDelay" := Int(TEN_SECONDS), "lastTs" := Int(0), "lastPrice" := Int(0),
        "writer" := Func(PrintTickerFn)]
  const DEFAULT_KEYS: seq<string> := ["intervalDelay", "lastTs", "lastPrice", "writer"]

  /** The initializer runs, bound to the ticker, only when `this.initializer` is a function. */
  function RunInitializerSpec(s: TickerState, run: InitializerRun): Result<TickerState> {
    if !IsFunction(s.initializer) then Success(s)
    else match AssignAllSpec(s, run.assigns)
      case Failure(e) => Failure(e)
      case Success(s1) => if run.ending.Throw? then Failure(run.ending.e) else Success(s1)
  }

  /** `init(opts)`: merge the defaults, then the options, then run the initializer. */
  function InitSpec(s: TickerState, opts: map<string, Value>, order: seq<string>, run: InitializerRun): Result<TickerState>
    requires KeysIn(order, opts)
  {
    assert KeysIn(DEFAULT_KEYS, DEFAULTS);
    match MergeSpec(s, DEFAULTS, DEFAULT_KEYS)
    case Failure(e) => Failure(e)
    case Success(s1) =>
      match MergeSpec(s1, opts, order)
      case Failure(e) => Failure(e)
      case Success(s2) => RunInitializerSpec(s2, run)
  }

  /** `order` lists exactly the keys of `opts` (no keys when `opts` is left out). */
  predicate EnumeratesOpts(order: seq<string>, opts: Value) {
    && (opts.Undefined? ==> order == [])
    && (opts.Obj? ==> KeysIn(order, opts.fields) && forall k :: k in opts.fields ==> k in order)
  }

  /** `new Ticker(opts)`: the options must be a plain object; symbol and interval are checked after `init`. */
  function ConstructSpec(opts: Value, order: seq<string>, run: InitializerRun): Result<TickerState>
    requires EnumeratesOpts(order, opts)
  {
    var o := if opts.Undefined? then Obj(map[]) else opts;
    if !IsPlainObject(o) then Failure(Error("opts must be an object"))
    else match InitSpec(Blank(), o.fields, order, run)
      case Failure(e) => Failure(e)
      case Success(s) =>
        if !IsNonEmptyString(s.symbol) then Failure(Error("requires a symbol"))
        else if !IsPositiveNumber(s.intervalDelay) then Failure(Error("requires an intervalDelay"))
        else Success(s)
  }

  // ---- one cycle ----

  function Emit(s: TickerState, e: Event): TickerState {
    s.(trace := s.trace + [e])
  }

  /** `read()`: throws unless a reader was set; otherwise whatever the reader does. */
  function ReadSpec(s: TickerState, reader: ReaderOutcome): ReaderOutcome {
    if !IsFunction(s.reader) then ThrowsNow(Error("requires a reader")) else reader
  }

  /** Calls the bound function `f` on `arg`: the built-in printer prints a line and returns undefined; a plugin's outcome is given. */
  function InvokeSpec(s: TickerState, f: Value, arg: Value, plugin: CallOutcome): (TickerState, CallOutcome)
    requires IsFunction(f)
  {
    if f == Func(PrintTickerFn) then (Emit(s, Printed(PrintTicker(s.symbol, s.lastPrice, arg))), Returns(Undefined))
    else (s, plugin)
  }

  /** `convert(data)`: the data itself without a converter; with one, non-empty data is required. */
  function ConvertSpec(s: TickerState, data: Value, converter: CallOutcome): (TickerState, CallOutcome) {
    if !IsFunction(s.converter) then (s, Returns(data))
    else if !IsNonEmptyObject(data) then (s, Throws(Error("requires data")))
    else InvokeSpec(Emit(s, Converted(data)), s.converter, data, converter)
  }

  /** `write(data)`: non-empty data and a writer are required. */
  function WriteSpec(s: TickerState, data: Value, writer: CallOutcome): (TickerState, Completion) {
    if !IsNonEmptyObject(data) then (s, Throw(Error("data must be an object")))
    else if !IsFunction(s.writer) then (s, Throw(Error("requires a writer")))
    else
      var (s1, out) := InvokeSpec(Emit(s, Written(data)), s.writer, data, writer);
      (s1, if out.Throws? then Throw(out.e) else Normal)
  }

  /** `onComplete(data)`: records the written price. */
  function OnCompleteSpec(s: TickerState, data: Value): (TickerState, Flow) {
    if !IsNonEmptyObject(data) then (Emit(s, Reported(Text("requires a data object"))), Stopped)
    else (s.(lastPrice := Get(data, "price")), Done)
  }

  /** The payload with `symbol` set to the ticker's symbol. */
  function Stamped(data: Value, symbol: Value): Value
    requires data.Obj?
  {
    Obj(data.fields["symbol" := symbol])
  }

  /** `onWriteData(data)`: takes the time, stamps the symbol, writes, then records. */
  function OnWriteDataSpec(s: TickerState, data: Value, writer: CallOutcome, now: nat): (TickerState, Flow) {
    if !IsNonEmptyObject(data) then (Emit(s, Reported(Text("requires a data object"))), Stopped)
    else
      var stamped := Stamped(data, s.symbol);
      var (s1, c) := WriteSpec(s, stamped, writer);
      if c.Throw? then (s1, Raise(c.e))
      else OnCompleteSpec(s1.(lastTs := Int(now)), stamped)
  }

  /** `onConvertData(data)`: converts, and writes a non-empty result. */
  function OnConvertDataSpec(s: TickerState, data: Value, converter: CallOutcome, writer: CallOutcome, now: nat): (TickerState, Flow) {
    if !IsNonEmptyObject(data) then (Emit(s, Reported(Text("requires a data object"))), Stopped)
    else
      var (s1, out) := ConvertSpec(s, data, converter);
      if out.Throws? then (s1, Raise(out.e))
      else if !IsNonEmptyObject(out.v) then (Emit(s1, Reported(Text("requires a result object"))), Stopped)
      else OnWriteDataSpec(s1, out.v, writer, now)
  }

  /**
   * `onGetData()`: one cycle. A throw from `read()` itself escapes; everything after the
   * promise settles is caught and reported.
   */
  function OnGetDataSpec(s: TickerState, reader: ReaderOutcome, converter: CallOutcome, writer: CallOutcome, now: nat): (TickerState, CycleResult) {
    match ReadSpec(s, reader)
    case ThrowsNow(e) => (s, Escaped(e))
    case ReturnsPlain(_) => (s, Escaped(TypeError("this.read(...).then is not a function")))
    case Rejects(e) => (Emit(s, Reported(Caught(e))), ErrorReported)
    case Resolves(result) =>
      if !IsNonEmptyObject(result) then
        (Emit(s, Reported(Text("reader did not return expected result"))), ErrorReported)
      else
        var (s1, flow) := OnConvertDataSpec(s, result, converter, writer, now);
        match flow
        case Done => (s1, Recorded)
        case Stopped => (s1, ErrorReported)
        case Raise(e) => (Emit(s1, Reported(Caught(e))), ErrorReported)
  }

  /** `start()`: one cycle now, then a repeating timer, unless the cycle threw. */
  function StartSpec(s: TickerState, reader: ReaderOutcome, converter: CallOutcome, writer: CallOutcome, now: nat): (TickerState, CycleResult) {
    var (s1, r) := OnGetDataSpec(s, reader, converter, writer, now);
    if r.Escaped? then (s1, r) else (s1.(timer := Repeating(s1.intervalDelay)), r)
  }

  // ==== properties ====

  // ---- construction ----

  /** A throw in the middle of a merge is the result of the whole merge. */
  lemma {:induction false} MergeFailureSticks(s: TickerState, src: map<string, Value>, order: seq<string>, j: nat)
    requires KeysIn(order, src) && j <= |order|
    requires MergeSpec(s, src, order[..j]).Failure?
    ensures MergeSpec(s, src, order) == MergeSpec(s, src, order[..j])
    decreases |order| - j
  {
    if j < |order| {
      var next := order[..j + 1];
      assert next[..j] == order[..j];
      MergeFailureSticks(s, src, order, j + 1);
    } else {
      assert order[..j] == order;
    }
  }

  /** A throw from one of the initializer's assignments is the result of all of them. */
  lemma {:induction false} AssignAllFailureSticks(s: TickerState, assigns: seq<(string, Value)>, j: nat)
    requires j <= |assigns|
    requires AssignAllSpec(s, assigns[..j]).Failure?
    ensures AssignAllSpec(s, assigns) == AssignAllSpec(s, assigns[..j])
    decreases |assigns| - j
  {
    if j < |assigns| {
      var next := assigns[..j + 1];
      assert next[..j] == assigns[..j];
      AssignAllFailureSticks(s, assigns, j + 1);
    } else {
      assert assigns[..j] == assigns;
    }
  }

  /** No option naming a slot, or only undefined ones: the merge leaves that slot alone. */
  lemma {:induction false} MergeKeepsSlot(s: TickerState, src: map<string, Value>, order: seq<string>, slot: Slot)
    requires KeysIn(order, src)
    requires forall i :: 0 <= i < |order| && SlotOf(order[i]) == slot ==> src[order[i]] == Undefined
    ensures MergeSpec(s, src, order).Success? ==> ValueAt(MergeSpec(s, src, order).value, slot) == ValueAt(s, slot)
    decreases |order|
  {
    if order != [] {
      var prefix := order[..|order| - 1];
      assert forall i :: 0 <= i < |prefix| ==> prefix[i] == order[i];
      MergeKeepsSlot(s, src, prefix, slot);
    }
  }

  /** The last option naming a slot with a defined value decides what the slot holds after the merge. */
  lemma {:induction false} MergeSetsSlot(s: TickerState, src: map<string, Value>, order: seq<string>, key: string)
    requires KeysIn(order, src) && key in order && src[key] != Undefined
    requires forall i :: 0 <= i < |order| && SlotOf(order[i]) == SlotOf(key) ==> order[i] == key
    ensures MergeSpec(s, src, order).Success? ==> ValueAt(MergeSpec(s, src, order).value, SlotOf(key)) == src[key]
    decreases |order|
  {
    var prefix := order[..|order| - 1];
    assert forall i :: 0 <= i < |prefix| ==> prefix[i] == order[i];
    if order[|order| - 1] != key {
      assert order == prefix + [order[|order| - 1]];
      assert key in prefix;
      MergeSetsSlot(s, src, prefix, key);
    }
  }

  /** An initializer that assigns nothing to a slot leaves it alone. */
  lemma {:induction false} AssignAllKeepsSlot(s: TickerState, assigns: seq<(string, Value)>, slot: Slot)
    requires forall i :: 0 <= i < |assigns| ==> SlotOf(assigns[i].0) != slot
    ensures AssignAllSpec(s, assigns).Success? ==> ValueAt(AssignAllSpec(s, assigns).value, slot) == ValueAt(s, slot)
    decreases |assigns|
  {
    if assigns != [] {
      var prefix := assigns[..|assigns| - 1];
      assert forall i :: 0 <= i < |prefix| ==> prefix[i] == assigns[i];
      AssignAllKeepsSlot(s, prefix, slot);
    }
  }

  /** The defaults `init` merges before the options. */
  function DefaultOf(slot: Slot): Value {
    match slot
    case IntervalDelaySlot => Int(TEN_SECONDS)
    case LastTsSlot => Int(0)
    case LastPriceSlot => Int(0)
    case WriterSlot => Func(PrintTickerFn)
    case _ => Undefined
  }

  lemma MergeDefaults(s: TickerState)
    ensures KeysIn(DEFAULT_KEYS, DEFAULTS)
    ensures MergeSpec(s, DEFAULTS, DEFAULT_KEYS)
         == Success(s.(intervalDelay := Int(TEN_SECONDS), lastTs := Int(0), lastPrice := Int(0), writer := Func(PrintTickerFn)))
  {
    var k1, k2, k3 := ["intervalDelay"], ["intervalDelay", "lastTs"], ["intervalDelay", "lastTs", "lastPrice"];
    var s1 := s.(intervalDelay := Int(TEN_SECONDS));
    var s2 := s1.(lastTs := Int(0));
    var s3 := s2.(lastPrice := Int(0));
    assert KeysIn(DEFAULT_KEYS, DEFAULTS);
    assert MergeSpec(s, DEFAULTS, k1) == Success(s1) by {
      assert k1[..0] == [];
      assert MergeValueSpec(s, "intervalDelay", Int(TEN_SECONDS)) == Success(s1);
    }
    assert MergeSpec(s, DEFAULTS, k2) == Success(s2) by {
      assert k2[..1] == k1;
      assert MergeValueSpec(s1, "lastTs", Int(0)) == Success(s2);
    }
    assert MergeSpec(s, DEFAULTS, k3) == Success(s3) by {
      assert k3[..2] == k2;
      assert MergeValueSpec(s2, "lastPrice", Int(0)) == Success(s3);
    }
    assert DEFAULT_KEYS[..3] == k3;
    assert MergeValueSpec(s3, "writer", Func(PrintTickerFn)) == Success(s3.(writer := Func(PrintTickerFn))) by {
      AssignCases(s3, "writer", Func(PrintTickerFn));
    }
  }

  /** Options may only name a slot with an undefined value, and the initializer may not assign it. */
  predicate LeavesSlot(opts: map<string, Value>, run: InitializerRun, slot: Slot) {
    && (forall k :: k in opts && SlotOf(k) == slot ==> opts[k] == Undefined)
    && (forall i :: 0 <= i < |run.assigns| ==> SlotOf(run.assigns[i].0) != slot)
  }

  /**
   * After construction, `intervalDelay` is 10000, `lastTs` and `lastPrice` are 0 and the writer
   * is the built-in printer, unless the options or the initializer set them.
   */
  lemma ConstructKeepsDefault(opts: Value, order: seq<string>, run: InitializerRun, slot: Slot)
    requires EnumeratesOpts(order, opts)
    requires slot == IntervalDelaySlot || slot == LastTsSlot || slot == LastPriceSlot || slot == WriterSlot
    requires LeavesSlot(if opts.Obj? then opts.fields else map[], run, slot)
    ensures ConstructSpec(opts, order, run).Success? ==> ValueAt(ConstructSpec(opts, order, run).value, slot) == DefaultOf(slot)
  {
    if opts.Obj? || opts.Undefined? {
      var o := if opts.Undefined? then Obj(map[]) else opts;
      MergeDefaults(Blank());
      var s1 := MergeSpec(Blank(), DEFAULTS, DEFAULT_KEYS).value;
      assert ValueAt(s1, slot) == DefaultOf(slot);
      MergeKeepsSlot(s1, o.fields, order, slot);
      var m := MergeSpec(s1, o.fields, order);
      if m.Success? {
        AssignAllKeepsSlot(m.value, run.assigns, slot);
      }
    }
  }

  /** An option with a defined value for a slot no other option names survives construction when the initializer leaves it. */
  lemma ConstructTakesOption(opts: Value, order: seq<string>, run: InitializerRun, key: string)
    requires EnumeratesOpts(order, opts) && opts.Obj?
    requires key in opts.fields && opts.fields[key] != Undefined
    requires forall k :: k in opts.fields && SlotOf(k) == SlotOf(key) ==> k == key
    requires forall i :: 0 <= i < |run.assigns| ==> SlotOf(run.assigns[i].0) != SlotOf(key)
    ensures ConstructSpec(opts, order, run).Success? ==> ValueAt(ConstructSpec(opts, order, run).value, SlotOf(key)) == opts.fields[key]
  {
    MergeDefaults(Blank());
    var s1 := MergeSpec(Blank(), DEFAULTS, DEFAULT_KEYS).value;
    MergeSetsSlot(s1, opts.fields, order, key);
    var m := MergeSpec(s1, opts.fields, order);
    if m.Success? {
      AssignAllKeepsSlot(m.value, run.assigns, SlotOf(key));
    }
  }

  /**
   * Construction refuses anything but a plain object (or nothing), passes on a throw from `init`,
   * and builds a ticker exactly when the state `init` leaves has a non-empty symbol and a positive
   * interval; that state is the ticker's.
   */
  lemma ConstructValidates(opts: Value, order: seq<string>, run: InitializerRun)
    requires EnumeratesOpts(order, opts)
    ensures !opts.Undefined? && !opts.Obj? ==> ConstructSpec(opts, order, run) == Failure(Error("opts must be an object"))
    ensures ConstructSpec(opts, order, run).Success? ==>
      var t := ConstructSpec(opts, order, run).value;
      && IsNonEmptyString(t.symbol) && IsPositiveNumber(t.intervalDelay)
      && InitSpec(Blank(), if opts.Obj? then opts.fields else map[], order, run) == Success(t)
    ensures (opts.Undefined? || opts.Obj?) && InitSpec(Blank(), if opts.Obj? then opts.fields else map[], order, run).Success? ==>
      var t := InitSpec(Blank(), if opts.Obj? then opts.fields else map[], order, run).value;
      && (!IsNonEmptyString(t.symbol) ==> ConstructSpec(opts, order, run) == Failure(Error("requires a symbol")))
      && (IsNonEmptyString(t.symbol) && !IsPositiveNumber(t.intervalDelay) ==>
            ConstructSpec(opts, order, run) == Failure(Error("requires an intervalDelay")))
      && (IsNonEmptyString(t.symbol) && IsPositiveNumber(t.intervalDelay) ==>
            ConstructSpec(opts, order, run) == Success(t))
    ensures (opts.Undefined? || opts.Obj?) && InitSpec(Blank(), if opts.Obj? then opts.fields else map[], order, run).Failure? ==>
      ConstructSpec(opts, order, run) == Failure(InitSpec(Blank(), if opts.Obj? then opts.fields else map[], order, run).error)
  {
  }

  /** The setters refuse anything but a function, with their own message, and otherwise store it. */
  lemma SettersCheckFunctions(s: TickerState, key: string, v: Value)
    requires IsAccessor(key)
    ensures AssignSpec(s, key, v).Failure? <==> !IsFunction(v)
    ensures !IsFunction(v) ==> AssignSpec(s, key, v) == Failure(Error("requires a " + key + " function"))
    ensures IsFunction(v) ==> AssignSpec(s, key, v) == Success(Store(s, SlotOf(key), v))
  {
  }

  // ---- reading and converting ----

  /** `read()` throws "requires a reader" exactly when no reader function was stored, and otherwise hands on the reader's outcome. */
  lemma ReadRequiresReader(s: TickerState, reader: ReaderOutcome)
    ensures !IsFunction(s.reader) ==> ReadSpec(s, reader) == ThrowsNow(Error("requires a reader"))
    ensures IsFunction(s.reader) ==> ReadSpec(s, reader) == reader
  {
  }

  /** Once the reader setter accepted a function, `read()` calls it. */
  lemma ReadAfterSetReader(s: TickerState, f: Value, reader: ReaderOutcome)
    requires AssignSpec(s, "reader", f).Success?
    ensures ReadSpec(AssignSpec(s, "reader", f).value, reader) == reader
  {
  }

  /** Without a converter, `convert` returns its input, whatever it is; with one, empty input throws before the converter is called. */
  lemma ConvertChecksInput(s: TickerState, data: Value, converter: CallOutcome)
    ensures !IsFunction(s.converter) ==> ConvertSpec(s, data, converter) == (s, Returns(data))
    ensures IsFunction(s.converter) && !IsNonEmptyObject(data) ==>
      ConvertSpec(s, data, converter) == (s, Throws(Error("requires data")))
    ensures IsFunction(s.converter) && IsNonEmptyObject(data) && s.converter != Func(PrintTickerFn) ==>
      ConvertSpec(s, data, converter) == (Emit(s, Converted(data)), converter)
  {
  }

  /** `write` refuses empty data first, then a missing writer; otherwise the writer gets the data and its throw is `write`'s. */
  lemma WriteChecksInput(s: TickerState, data: Value, writer: CallOutcome)
    ensures !IsNonEmptyObject(data) ==> WriteSpec(s, data, writer) == (s, Throw(Error("data must be an object")))
    ensures IsNonEmptyObject(data) && !IsFunction(s.writer) ==> WriteSpec(s, data, writer) == (s, Throw(Error("requires a writer")))
    ensures IsNonEmptyObject(data) && IsFunction(s.writer) && s.writer != Func(PrintTickerFn) ==>
      WriteSpec(s, data, writer) == (Emit(s, Written(data)), if writer.Throws? then Throw(writer.e) else Normal)
    ensures IsNonEmptyObject(data) && s.writer == Func(PrintTickerFn) ==>
      WriteSpec(s, data, writer).1 == Normal
  {
  }

  /** A writer stored directly under `_writer`, bypassing the setter, makes every `write` throw "requires a writer" when it is not a function. */
  lemma UnguardedWriterSlot(s: TickerState, data: Value, writer: CallOutcome)
    requires IsNonEmptyObject(data)
    ensures AssignSpec(s, "_writer", Int(5)).Success?
    ensures WriteSpec(AssignSpec(s, "_writer", Int(5)).value, data, writer).1 == Throw(Error("requires a writer"))
  {
    AssignCases(s, "_writer", Int(5));
  }

  // ---- what a cycle does to the state ----

  /** The number of errors reported in a trace. */
  function Reports(t: seq<Event>): nat {
    if t == [] then 0 else (if t[0].Reported? then 1 else 0) + Reports(t[1..])
  }

  lemma {:induction false} ReportsAppend(a: seq<Event>, b: seq<Event>)
    ensures Reports(a + b) == Reports(a) + Reports(b)
  {
    if a != [] {
      assert (a + b)[0] == a[0] && (a + b)[1..] == a[1..] + b;
      ReportsAppend(a[1..], b);
    } else {
      assert a + b == b;
    }
  }

  /** The properties no step of a cycle touches. */
  predicate SameSetup(s: TickerState, s': TickerState) {
    && s'.symbol == s.symbol && s'.intervalDelay == s.intervalDelay && s'.initializer == s.initializer
    && s'.reader == s.reader && s'.converter == s.converter && s'.writer == s.writer
    && s'.extras == s.extras && s'.timer == s.timer
  }

  /** `s'` follows `s`: same setup, the trace only grown, with `reports` errors among the new events. */
  predicate Advance(s: TickerState, s': TickerState, reports: nat) {
    && SameSetup(s, s')
    && s.trace <= s'.trace
    && Reports(s'.trace[|s.trace|..]) == reports
  }

  /** `s'` follows `s` and the bookkeeping fields are as they were. */
  predicate Quiet(s: TickerState, s': TickerState, reports: nat) {
    Advance(s, s', reports) && s'.lastTs == s.lastTs && s'.lastPrice == s.lastPrice
  }

  lemma AdvanceTrans(a: TickerState, b: TickerState, c: TickerState, m: nat, n: nat)
    requires Advance(a, b, m) && Advance(b, c, n)
    ensures Advance(a, c, m + n)
  {
    assert c.trace[|a.trace|..] == b.trace[|a.trace|..] + c.trace[|b.trace|..];
    ReportsAppend(b.trace[|a.trace|..], c.trace[|b.trace|..]);
  }

  lemma EmitAdvance(s: TickerState, e: Event)
    ensures Quiet(s, Emit(s, e), if e.Reported? then 1 else 0)
  {
    assert Emit(s, e).trace[|s.trace|..] == [e];
  }

  lemma NoChangeAdvance(s: TickerState)
    ensures Quiet(s, s, 0)
  {
    assert s.trace[|s.trace|..] == [];
  }

  lemma InvokeQuiet(s: TickerState, f: Value, arg: Value, plugin: CallOutcome)
    requires IsFunction(f)
    ensures Quiet(s, InvokeSpec(s, f, arg, plugin).0, 0)
  {
    if f == Func(PrintTickerFn) {
      EmitAdvance(s, Printed(PrintTicker(s.symbol, s.lastPrice, arg)));
    } else {
      NoChangeAdvance(s);
    }
  }

  lemma ConvertQuiet(s: TickerState, data: Value, converter: CallOutcome)
    ensures Quiet(s, ConvertSpec(s, data, converter).0, 0)
  {
    if IsFunction(s.converter) && IsNonEmptyObject(data) {
      var s1 := Emit(s, Converted(data));
      EmitAdvance(s, Converted(data));
      InvokeQuiet(s1, s.converter, data, converter);
      AdvanceTrans(s, s1, InvokeSpec(s1, s.converter, data, converter).0, 0, 0);
    } else {
      NoChangeAdvance(s);
    }
  }

  lemma WriteQuiet(s: TickerState, data: Value, writer: CallOutcome)
    ensures Quiet(s, WriteSpec(s, data, writer).0, 0)
  {
    if IsNonEmptyObject(data) && IsFunction(s.writer) {
      var s1 := Emit(s, Written(data));
      EmitAdvance(s, Written(data));
      InvokeQuiet(s1, s.writer, data, writer);
      AdvanceTrans(s, s1, InvokeSpec(s1, s.writer, data, writer).0, 0, 0);
    } else {
      NoChangeAdvance(s);
    }
  }

  /** The write-and-record steps: one report when a handler stops; the bookkeeping changes only when the record step ran. */
  lemma WriteDataEffects(s: TickerState, data: Value, writer: CallOutcome, now: nat)
    ensures var (s', flow) := OnWriteDataSpec(s, data, writer, now);
      && Advance(s, s', if flow.Stopped? then 1 else 0)
      && (flow.Done? ==> data.Obj? && s'.lastTs == Int(now) && s'.lastPrice == Get(Stamped(data, s.symbol), "price"))
      && (!flow.Done? ==> s'.lastTs == s.lastTs && s'.lastPrice == s.lastPrice)
  {
    if !IsNonEmptyObject(data) {
      EmitAdvance(s, Reported(Text("requires a data object")));
    } else {
      var stamped := Stamped(data, s.symbol);
      WriteQuiet(s, stamped, writer);
      var (s1, c) := WriteSpec(s, stamped, writer);
      if !c.Throw? {
        var s2 := s1.(lastTs := Int(now));
        assert IsNonEmptyObject(stamped) by { assert "symbol" in stamped.fields; }
        assert Advance(s1, s2.(lastPrice := Get(stamped, "price")), 0) by { NoChangeAdvance(s1); }
        AdvanceTrans(s, s1, s2.(lastPrice := Get(stamped, "price")), 0, 0);
      }
    }
  }

  lemma ConvertDataEffects(s: TickerState, data: Value, converter: CallOutcome, writer: CallOutcome, now: nat)
    ensures var (s', flow) := OnConvertDataSpec(s, data, converter, writer, now);
      && Advance(s, s', if flow.Stopped? then 1 else 0)
      && (!flow.Done? ==> s'.lastTs == s.lastTs && s'.lastPrice == s.lastPrice)
      && (flow.Done? ==> s'.lastTs == Int(now))
  {
    if !IsNonEmptyObject(data) {
      EmitAdvance(s, Reported(Text("requires a data object")));
    } else {
      ConvertQuiet(s, data, converter);
      var (s1, out) := ConvertSpec(s, data, converter);
      if out.Throws? {
      } else if !IsNonEmptyObject(out.v) {
        EmitAdvance(s1, Reported(Text("requires a result object")));
        AdvanceTrans(s, s1, Emit(s1, Reported(Text("requires a result object"))), 0, 1);
      } else {
        WriteDataEffects(s1, out.v, writer, now);
        var (s2, flow) := OnWriteDataSpec(s1, out.v, writer, now);
        AdvanceTrans(s, s1, s2, 0, if flow.Stopped? then 1 else 0);
      }
    }
  }

  /**
   * One cycle reports exactly one error when it fails and none otherwise, never touches the
   * ticker's setup, and changes `lastTs` and `lastPrice` only when it recorded: then `lastTs`
   * is the time taken before the write. A throw out of `read()` changes nothing.
   */
  lemma CycleEffects(s: TickerState, reader: ReaderOutcome, converter: CallOutcome, writer: CallOutcome, now: nat)
    ensures var (s', r) := OnGetDataSpec(s, reader, converter, writer, now);
      && Advance(s, s', if r == ErrorReported then 1 else 0)
      && (r.Escaped? ==> s' == s)
      && (r == Recorded ==> s'.lastTs == Int(now))
      && (r != Recorded ==> s'.lastTs == s.lastTs && s'.lastPrice == s.lastPrice)
  {
    match ReadSpec(s, reader)
    case ThrowsNow(e) => NoChangeAdvance(s);
    case ReturnsPlain(_) => NoChangeAdvance(s);
    case Rejects(e) => EmitAdvance(s, Reported(Caught(e)));
    case Resolves(result) =>
      if !IsNonEmptyObject(result) {
        EmitAdvance(s, Reported(Text("reader did not return expected result")));
      } else {
        ConvertDataEffects(s, result, converter, writer, now);
        var (s1, flow) := OnConvertDataSpec(s, result, converter, writer, now);
        if flow.Raise? {
          EmitAdvance(s1, Reported(Caught(flow.e)));
          AdvanceTrans(s, s1, Emit(s1, Reported(Caught(flow.e))), 0, 1);
        }
      }
  }

  /** A reader that rejects, or resolves to anything but a non-empty plain object: one error, and nothing is converted, written or recorded. */
  lemma FailedFetchStopsCycle(s: TickerState, reader: ReaderOutcome, converter: CallOutcome, writer: CallOutcome, now: nat)
    requires ReadSpec(s, reader).Rejects? || (ReadSpec(s, reader).Resolves? && !IsNonEmptyObject(ReadSpec(s, reader).result))
    ensures var (s', r) := OnGetDataSpec(s, reader, converter, writer, now);
      && r == ErrorReported
      && exists report :: s' == Emit(s, Reported(report))
  {
    match ReadSpec(s, reader)
    case Rejects(e) =>
      assert OnGetDataSpec(s, reader, converter, writer, now).0 == Emit(s, Reported(Caught(e)));
    case Resolves(_) =>
      var report := Text("reader did not return expected result");
      assert OnGetDataSpec(s, reader, converter, writer, now).0 == Emit(s, Reported(report));
  }

  /** A converter result that is not a non-empty plain object: one error, and the writer is not called. */
  lemma EmptyConversionSkipsWriter(s: TickerState, reader: ReaderOutcome, converter: CallOutcome, writer: CallOutcome, now: nat)
    requires ReadSpec(s, reader).Resolves? && IsNonEmptyObject(ReadSpec(s, reader).result)
    requires IsFunction(s.converter) && s.converter != Func(PrintTickerFn)
    requires converter.Returns? && !IsNonEmptyObject(converter.v)
    ensures var (s', r) := OnGetDataSpec(s, reader, converter, writer, now);
      && r == ErrorReported
      && s' == s.(trace := s.trace + [Converted(ReadSpec(s, reader).result), Reported(Text("requires a result object"))])
  {
  }

  /** A converter or writer that throws: its exception is the one error, and `lastTs` and `lastPrice` stay as they were. */
  lemma ThrowingPluginKeepsBookkeeping(s: TickerState, reader: ReaderOutcome, converter: CallOutcome, writer: CallOutcome, now: nat, e: Thrown)
    requires ReadSpec(s, reader).Resolves? && IsNonEmptyObject(ReadSpec(s, reader).result)
    requires
      || (IsFunction(s.converter) && s.converter != Func(PrintTickerFn) && converter == Throws(e))
      || (&& ConvertSpec(s, ReadSpec(s, reader).result, converter).1.Returns?
          && IsNonEmptyObject(ConvertSpec(s, ReadSpec(s, reader).result, converter).1.v)
          && IsFunction(s.writer) && s.writer != Func(PrintTickerFn) && writer == Throws(e))
    ensures var (s', r) := OnGetDataSpec(s, reader, converter, writer, now);
      && r == ErrorReported
      && s'.lastTs == s.lastTs && s'.lastPrice == s.lastPrice
      && s'.trace[|s'.trace| - 1] == Reported(Caught(e))
      && Advance(s, s', 1)
  {
    CycleEffects(s, reader, converter, writer, now);
    var out := ConvertSpec(s, ReadSpec(s, reader).result, converter).1;
    if out.Returns? && IsNonEmptyObject(out.v) {
      assert IsNonEmptyObject(Stamped(out.v, s.symbol)) by { assert "symbol" in Stamped(out.v, s.symbol).fields; }
    }
  }

  /**
   * A cycle that reaches the writer without a throw: the writer gets the converted data with
   * `symbol` set to the ticker's symbol, the built-in printer computes the change against the
   * old `lastPrice`, then `lastTs` becomes the time taken before the write and `lastPrice` the
   * written price; nothing else changes.
   */
  lemma SuccessfulCycle(s: TickerState, reader: ReaderOutcome, converter: CallOutcome, writer: CallOutcome, now: nat)
    requires ReadSpec(s, reader).Resolves? && IsNonEmptyObject(ReadSpec(s, reader).result)
    requires ConvertSpec(s, ReadSpec(s, reader).result, converter).1.Returns?
    requires IsNonEmptyObject(ConvertSpec(s, ReadSpec(s, reader).result, converter).1.v)
    requires IsFunction(s.writer) && (s.writer == Func(PrintTickerFn) || writer.Returns?)
    ensures var (s', r) := OnGetDataSpec(s, reader, converter, writer, now);
      var result := ReadSpec(s, reader).result;
      var converted := ConvertSpec(s, result, converter).1.v;
      var data := Stamped(converted, s.symbol);
      && r == Recorded
      && Get(data, "symbol") == s.symbol
      && (forall k :: k in converted.fields && k != "symbol" ==> Get(data, k) == converted.fields[k])
      && s'.trace == s.trace + (if IsFunction(s.converter) then [Converted(result)] else []) + [Written(data)]
                     + (if s.writer == Func(PrintTickerFn) then [Printed(PrintTicker(s.symbol, s.lastPrice, data))] else [])
      && s' == s.(trace := s'.trace, lastTs := Int(now), lastPrice := Get(converted, "price"))
  {
    var result := ReadSpec(s, reader).result;
    var converted := ConvertSpec(s, result, converter).1.v;
    var data := Stamped(converted, s.symbol);
    assert IsNonEmptyObject(data) by { assert "symbol" in data.fields; }
    if IsFunction(s.converter) {
      assert s.converter != Func(PrintTickerFn);
    }
  }

  predicate TsAtMost(a: Value, b: Value) {
    a.Num? && a.n.Finite? && b.Num? && b.n.Finite? && a.n.r <= b.n.r
  }

  /** With a clock that does not go back, two consecutive cycles record non-decreasing timestamps. */
  lemma TimestampsOrdered(s: TickerState, t: int, now1: nat, now2: nat,
                          reader1: ReaderOutcome, converter1: CallOutcome, writer1: CallOutcome,
                          reader2: ReaderOutcome, converter2: CallOutcome, writer2: CallOutcome)
    requires s.lastTs == Int(t) && t <= now1 <= now2
    ensures var s1 := OnGetDataSpec(s, reader1, converter1, writer1, now1).0;
      var s2 := OnGetDataSpec(s1, reader2, converter2, writer2, now2).0;
      TsAtMost(s.lastTs, s1.lastTs) && TsAtMost(s1.lastTs, s2.lastTs) && TsAtMost(s2.lastTs, Int(now2))
  {
    CycleEffects(s, reader1, converter1, writer1, now1);
    var s1 := OnGetDataSpec(s, reader1, converter1, writer1, now1).0;
    CycleEffects(s1, reader2, converter2, writer2, now2);
  }

  /** `start()` arms the repeating timer with the interval unless the first cycle threw out of it. */
  lemma StartArmsTimer(s: TickerState, reader: ReaderOutcome, converter: CallOutcome, writer: CallOutcome, now: nat)
    ensures var (s', r) := StartSpec(s, reader, converter, writer, now);
      && r == OnGetDataSpec(s, reader, converter, writer, now).1
      && (r.Escaped? ==> s' == s)
      && (!r.Escaped? ==> s'.timer == Repeating(s.intervalDelay)
                          && s' == OnGetDataSpec(s, reader, converter, writer, now).0.(timer := s'.timer))
  {
    CycleEffects(s, reader, converter, writer, now);
  }

  // ---- worked cases ----

  /**
   * The initializer runs before the checks: options with an empty symbol still build a ticker
   * when the initializer sets symbol "UNK-USD" and interval 1000, and the defaults fill the rest.
   */
  lemma InitializerRunsBeforeValidation()
    ensures var opts := Obj(map["symbol" := Str(""), "initializer" := Func(Plugin(0))]);
      var order := ["symbol", "initializer"];
      var run := InitializerRun([("intervalDelay", Int(1000)), ("symbol", Str("UNK-USD"))], Normal);
      && EnumeratesOpts(order, opts)
      && ConstructSpec(opts, order, run)
         == Success(TickerState(Str("UNK-USD"), Int(1000), Int(0), Int(0), Func(Plugin(0)),
                                Undefined, Undefined, Func(PrintTickerFn), map[], NoTimer, []))
  {
    var opts := map["symbol" := Str(""), "initializer" := Func(Plugin(0))];
    var order := ["symbol", "initializer"];
    var run := InitializerRun([("intervalDelay", Int(1000)), ("symbol", Str("UNK-USD"))], Normal);
    var t := TickerState(Str("UNK-USD"), Int(1000), Int(0), Int(0), Func(Plugin(0)),
                         Undefined, Undefined, Func(PrintTickerFn), map[], NoTimer, []);
    assert KeysIn(order, opts);
    assert InitSpec(Blank(), opts, order, run) == Success(t) by { ExampleInit(); }
    assert IsNonEmptyString(t.symbol) && IsPositiveNumber(t.intervalDelay);
  }

  /** The `init` half of the example above. */
  lemma ExampleInit()
    ensures var opts := map["symbol" := Str(""), "initializer" := Func(Plugin(0))];
      var order := ["symbol", "initializer"];
      var run := InitializerRun([("intervalDelay", Int(1000)), ("symbol", Str("UNK-USD"))], Normal);
      && KeysIn(order, opts)
      && InitSpec(Blank(), opts, order, run)
         == Success(TickerState(Str("UNK-USD"), Int(1000), Int(0), Int(0), Func(Plugin(0)),
                                Undefined, Undefined, Func(PrintTickerFn), map[], NoTimer, []))
  {
    var opts := map["symbol" := Str(""), "initializer" := Func(Plugin(0))];
    var order := ["symbol", "initializer"];
    var assigns := [("intervalDelay", Int(1000)), ("symbol", Str("UNK-USD"))];
    MergeDefaults(Blank());
    var s0 := MergeSpec(Blank(), DEFAULTS, DEFAULT_KEYS).value;
    var s1 := s0.(symbol := Str(""));
    var s2 := s1.(initializer := Func(Plugin(0)));
    var s3 := s2.(intervalDelay := Int(1000));
    var s4 := s3.(symbol := Str("UNK-USD"));
    assert MergeSpec(s0, opts, order) == Success(s2) by {
      assert order[..1][..0] == [] && order[..1] == ["symbol"];
      assert MergeSpec(s0, opts, order[..1]) == Success(s1);
    }
    assert AssignAllSpec(s2, assigns) == Success(s4) by {
      assert assigns[..1][..0] == [] && assigns[..1] == [assigns[0]];
      assert AssignAllSpec(s2, assigns[..1]) == Success(s3);
    }
  }

  /**
   * Options without a reader still construct a ticker; the missing reader shows only when a
   * cycle runs, as a throw out of `read()` that no handler catches.
   */
  lemma MissingReaderSurfacesAtStart(converter: CallOutcome, writer: CallOutcome, now: nat, reader: ReaderOutcome)
    ensures var opts := Obj(map["symbol" := Str("BTC-USD")]);
      && EnumeratesOpts(["symbol"], opts)
      && ConstructSpec(opts, ["symbol"], InitializerRun([], Normal)).Success?
      && var t := ConstructSpec(opts, ["symbol"], InitializerRun([], Normal)).value;
         StartSpec(t, reader, converter, writer, now) == (t, Escaped(Error("requires a reader")))
  {
    var opts := map["symbol" := Str("BTC-USD")];
    MergeDefaults(Blank());
    var s0 := MergeSpec(Blank(), DEFAULTS, DEFAULT_KEYS).value;
    assert ["symbol"][..0] == [];
    assert MergeSpec(s0, opts, ["symbol"]) == Success(s0.(symbol := Str("BTC-USD")));
  }

  /** A reader resolving `{random: 42}` and a converter giving `{price: 42}`: the writer gets `{price: 42, symbol}` and 42 becomes the last price. */
  lemma ConvertedPriceIsRecorded(now: nat)
    ensures var s := TickerState(Str("UNK-USD"), Int(1000), Int(0), Int(0), Undefined,
                                 Func(Plugin(1)), Func(Plugin(2)), Func(Plugin(3)), map[], NoTimer, []);
      var (s', r) := OnGetDataSpec(s, Resolves(Obj(map["random" := Int(42)])),
                                   Returns(Obj(map["price" := Int(42)])), Returns(Undefined), now);
      && r == Recorded
      && s'.trace == [Converted(Obj(map["random" := Int(42)])),
                      Written(Obj(map["price" := Int(42), "symbol" := Str("UNK-USD")]))]
      && s'.lastPrice == Int(42) && s'.lastTs == Int(now)
  {
    var raw := Obj(map["random" := Int(42)]);
    var converted := Obj(map["price" := Int(42)]);
    assert "random" in raw.fields && "price" in converted.fields;
  }

  /** A reader resolving `{}`: exactly one error and nothing else. */
  lemma EmptyReadReportsOnce(s: TickerState, converter: CallOutcome, writer: CallOutcome, now: nat)
    requires IsFunction(s.reader)
    ensures OnGetDataSpec(s, Resolves(Obj(map[])), converter, writer, now)
         == (s.(trace := s.trace + [Reported(Text("reader did not return expected result"))]), ErrorReported)
  {
  }
}
