/**
 * The Ticker object of `lib/Ticker.js`: its handlers update its own properties in place.
 * Each method is proved to do what the matching function of module Pump says, so the
 * properties proved there hold of the object.
 */
module TickerClass {
  import opened JsValues
  import opened Util
  import opened Pump

  /** A step that may throw, as the result the matching Pump function gives. */
  function Settle(c: Completion, s: TickerState): Result<TickerState> {
    if c.Normal? then Success(s) else Failure(c.e)
  }

  class Ticker {
    var symbol: Value
    var intervalDelay: Value
    var lastTs: Value
    var lastPrice: Value
    var initializer: Value
    var boundReader: Value     // `_reader`
    var boundConverter: Value  // `_converter`
    var boundWriter: Value     // `_writer`
    var extras: map<string, Value>
    var timer: Timer
    var trace: seq<Event>

    /** The object's properties as a value. */
    function Snapshot(): TickerState
      reads this
    {
      TickerState(symbol, intervalDelay, lastTs, lastPrice, initializer,
                  boundReader, boundConverter, boundWriter, extras, timer, trace)
    }

    /** The bare object `super()` yields, before `init`. */
    constructor ()
      ensures Snapshot() == Blank()
    {
      symbol, intervalDelay, lastTs, lastPrice, initializer := Undefined, Undefined, Undefined, Undefined, Undefined;
      boundReader, boundConverter, boundWriter := Undefined, Undefined, Undefined;
      extras, timer, trace := map[], NoTimer, [];
    }

    /** Stores `v` in one slot. */
    method Put(slot: Slot, v: Value)
      modifies this
      ensures Snapshot() == Pump.Store(old(Snapshot()), slot, v)
    {
      match slot
      case SymbolSlot => symbol := v;
      case IntervalDelaySlot => intervalDelay := v;
      case LastTsSlot => lastTs := v;
      case LastPriceSlot => lastPrice := v;
      case InitializerSlot => initializer := v;
      case ReaderSlot => boundReader := v;
      case ConverterSlot => boundConverter := v;
      case WriterSlot => boundWriter := v;
      case ExtraSlot(k) => extras := extras[k := v];
    }

    /** `set reader(func)`: only a function is accepted. */
    method SetReader(func: Value) returns (c: Completion)
      modifies this
      ensures c.Throw? <==> !IsFunction(func)
      ensures c.Throw? ==> c.e == Error("requires a reader function") && Snapshot() == old(Snapshot())
      ensures c.Normal? ==> Snapshot() == old(Snapshot()).(reader := func)
    {
      if !IsFunction(func) {
        return Throw(Error("requires a reader function"));
      }
      boundReader := func;
      c := Normal;
    }

    /** `set converter(func)`: only a function is accepted. */
    method SetConverter(func: Value) returns (c: Completion)
      modifies this
      ensures c.Throw? <==> !IsFunction(func)
      ensures c.Throw? ==> c.e == Error("requires a converter function") && Snapshot() == old(Snapshot())
      ensures c.Normal? ==> Snapshot() == old(Snapshot()).(converter := func)
    {
      if !IsFunction(func) {
        return Throw(Error("requires a converter function"));
      }
      boundConverter := func;
      c := Normal;
    }

    /** `set writer(func)`: only a function is accepted. */
    method SetWriter(func: Value) returns (c: Completion)
      modifies this
      ensures c.Throw? <==> !IsFunction(func)
      ensures c.Throw? ==> c.e == Error("requires a writer function") && Snapshot() == old(Snapshot())
      ensures c.Normal? ==> Snapshot() == old(Snapshot()).(writer := func)
    {
      if !IsFunction(func) {
        return Throw(Error("requires a writer function"));
      }
      boundWriter := func;
      c := Normal;
    }

    /** `this[key] = v`: through the setter for the three accessor names. */
    method Assign(key: string, v: Value) returns (c: Completion)
      modifies this
      ensures Settle(c, Snapshot()) == AssignSpec(old(Snapshot()), key, v)
      ensures c.Throw? ==> Snapshot() == old(Snapshot())
    {
      AssignCases(Snapshot(), key, v);
      if key == "reader" {
        c := SetReader(v);
      } else if key == "converter" {
        c := SetConverter(v);
      } else if key == "writer" {
        c := SetWriter(v);
      } else {
        Put(SlotOf(key), v);
        c := Normal;
      }
    }

    /** lodash's `assignMergeValue(this, key, v)`. */
    method MergeValue(key: string, v: Value) returns (c: Completion)
      modifies this
      ensures Settle(c, Snapshot()) == MergeValueSpec(old(Snapshot()), key, v)
    {
      if v == Undefined {
        if SlotOf(key).ExtraSlot? && key !in extras {
          extras := extras[key := Undefined];
        }
        c := Normal;
      } else {
        c := Assign(key, v);
      }
    }

    /** `_.merge(this, src)`, visiting `src`'s keys in `order`. */
    method Merge(src: map<string, Value>, order: seq<string>) returns (c: Completion)
      requires KeysIn(order, src)
      modifies this
      ensures Settle(c, Snapshot()) == MergeSpec(old(Snapshot()), src, order)
    {
      ghost var s0 := Snapshot();
      var i := 0;
      while i < |order|
        invariant 0 <= i <= |order|
        invariant KeysIn(order[..i], src)
        invariant MergeSpec(s0, src, order[..i]) == Success(Snapshot())
      {
        var key := order[i];
        assert order[..i + 1][..i] == order[..i];
        c := MergeValue(key, src[key]);
        if c.Throw? {
          MergeFailureSticks(s0, src, order, i + 1);
          return;
        }
        i := i + 1;
      }
      assert order[..i] == order;
      c := Normal;
    }

    /** The initializer's assignments `this[key] = v`, in order. */
    method AssignAll(assigns: seq<(string, Value)>) returns (c: Completion)
      modifies this
      ensures Settle(c, Snapshot()) == AssignAllSpec(old(Snapshot()), assigns)
    {
      ghost var s0 := Snapshot();
      var i := 0;
      while i < |assigns|
        invariant 0 <= i <= |assigns|
        invariant AssignAllSpec(s0, assigns[..i]) == Success(Snapshot())
      {
        assert assigns[..i + 1][..i] == assigns[..i];
        c := Assign(assigns[i].0, assigns[i].1);
        if c.Throw? {
          AssignAllFailureSticks(s0, assigns, i + 1);
          return;
        }
        i := i + 1;
      }
      assert assigns[..i] == assigns;
      c := Normal;
    }

    /** `init(opts)`: the defaults, then the options, then the initializer if there is one. */
    method Init(opts: map<string, Value>, order: seq<string>, run: InitializerRun) returns (c: Completion)
      requires KeysIn(order, opts)
      modifies this
      ensures Settle(c, Snapshot()) == InitSpec(old(Snapshot()), opts, order, run)
    {
      assert KeysIn(DEFAULT_KEYS, DEFAULTS);
      c := Merge(DEFAULTS, DEFAULT_KEYS);
      if c.Throw? {
        return;
      }
      c := Merge(opts, order);
      if c.Throw? {
        return;
      }
      if IsFunction(initializer) {
        c := AssignAll(run.assigns);
        if c.Normal? && run.ending.Throw? {
          c := run.ending;
        }
      }
    }

    /** `read()`: refuses to run without a reader. */
    method Read(reader: ReaderOutcome) returns (r: ReaderOutcome)
      ensures !IsFunction(boundReader) ==> r == ThrowsNow(Error("requires a reader"))
      ensures IsFunction(boundReader) ==> r == reader
      ensures r == ReadSpec(Snapshot(), reader)
    {
      if !IsFunction(boundReader) {
        return ThrowsNow(Error("requires a reader"));
      }
      r := reader;
    }

    /** Calls the bound function `f` with `arg`. */
    method Call(f: Value, arg: Value, plugin: CallOutcome) returns (out: CallOutcome)
      requires IsFunction(f)
      modifies this
      ensures (Snapshot(), out) == InvokeSpec(old(Snapshot()), f, arg, plugin)
    {
      if f == Func(PrintTickerFn) {
        trace := trace + [Printed(PrintTicker(symbol, lastPrice, arg))];
        out := Returns(Undefined);
      } else {
        out := plugin;
      }
    }

    /** `convert(data)`. */
    method Convert(data: Value, converter: CallOutcome) returns (out: CallOutcome)
      modifies this
      ensures (Snapshot(), out) == ConvertSpec(old(Snapshot()), data, converter)
    {
      if !IsFunction(boundConverter) {
        return Returns(data);
      }
      if !IsNonEmptyObject(data) {
        return Throws(Error("requires data"));
      }
      trace := trace + [Converted(data)];
      out := Call(boundConverter, data, converter);
    }

    /** `write(data)`. */
    method Write(data: Value, writer: CallOutcome) returns (c: Completion)
      modifies this
      ensures (Snapshot(), c) == WriteSpec(old(Snapshot()), data, writer)
    {
      if !IsNonEmptyObject(data) {
        return Throw(Error("data must be an object"));
      }
      if !IsFunction(boundWriter) {
        return Throw(Error("requires a writer"));
      }
      trace := trace + [Written(data)];
      var out := Call(boundWriter, data, writer);
      c := if out.Throws? then Throw(out.e) else Normal;
    }

    /** `onError(e)`: the report reaches the error output. */
    method OnError(report: Report)
      modifies this
      ensures Snapshot() == Emit(old(Snapshot()), Reported(report))
    {
      trace := trace + [Reported(report)];
    }

    /** `onComplete(data)`. */
    method OnComplete(data: Value) returns (flow: Flow)
      modifies this
      ensures (Snapshot(), flow) == OnCompleteSpec(old(Snapshot()), data)
    {
      if !IsNonEmptyObject(data) {
        OnError(Text("requires a data object"));
        return Stopped;
      }
      lastPrice := Get(data, "price");
      flow := Done;
    }

    /** `onWriteData(data)`, with `now` the value `Date.now()` returns. */
    method OnWriteData(data: Value, writer: CallOutcome, now: nat) returns (flow: Flow)
      modifies this
      ensures (Snapshot(), flow) == OnWriteDataSpec(old(Snapshot()), data, writer, now)
    {
      if !IsNonEmptyObject(data) {
        OnError(Text("requires a data object"));
        return Stopped;
      }
      var ts := Int(now);
      var stamped := Obj(data.fields["symbol" := symbol]);
      var c := Write(stamped, writer);
      if c.Throw? {
        return Raise(c.e);
      }
      lastTs := ts;
      flow := OnComplete(stamped);
    }

    /** `onConvertData(data)`. */
    method OnConvertData(data: Value, converter: CallOutcome, writer: CallOutcome, now: nat) returns (flow: Flow)
      modifies this
      ensures (Snapshot(), flow) == OnConvertDataSpec(old(Snapshot()), data, converter, writer, now)
    {
      if !IsNonEmptyObject(data) {
        OnError(Text("requires a data object"));
        return Stopped;
      }
      var out := Convert(data, converter);
      if out.Throws? {
        return Raise(out.e);
      }
      if !IsNonEmptyObject(out.v) {
        OnError(Text("requires a result object"));
        return Stopped;
      }
      flow := OnWriteData(out.v, writer, now);
    }

    /**
     * `onGetData()`: the handlers run once the reader's promise settles; whatever they throw is
     * caught and reported. A throw from `read()` itself is not caught.
     */
    method OnGetData(reader: ReaderOutcome, converter: CallOutcome, writer: CallOutcome, now: nat) returns (r: CycleResult)
      modifies this
      ensures (Snapshot(), r) == OnGetDataSpec(old(Snapshot()), reader, converter, writer, now)
    {
      var promise := Read(reader);
      match promise
      case ThrowsNow(e) =>
        r := Escaped(e);
      case ReturnsPlain(_) =>
        r := Escaped(TypeError("this.read(...).then is not a function"));
      case Rejects(e) =>
        OnError(Caught(e));
        r := ErrorReported;
      case Resolves(result) =>
        if !IsNonEmptyObject(result) {
          OnError(Text("reader did not return expected result"));
          return ErrorReported;
        }
        var flow := OnConvertData(result, converter, writer, now);
        match flow
        case Done => r := Recorded;
        case Stopped => r := ErrorReported;
        case Raise(e) =>
          OnError(Caught(e));
          r := ErrorReported;
    }

    /** `start()`: one cycle now, then the repeating timer. */
    method Start(reader: ReaderOutcome, converter: CallOutcome, writer: CallOutcome, now: nat) returns (r: CycleResult)
      modifies this
      ensures (Snapshot(), r) == StartSpec(old(Snapshot()), reader, converter, writer, now)
    {
      r := OnGetData(reader, converter, writer, now);
      if r.Escaped? {
        return;
      }
      timer := Repeating(intervalDelay);
    }
  }

  /**
   * `new Ticker(opts)`, with `order` the order of `opts`' keys and `run` what its initializer
   * does: either a fresh ticker or the error the constructor throws.
   */
  method Create(opts: Value, order: seq<string>, run: InitializerRun) returns (r: Result<Ticker>)
    requires EnumeratesOpts(order, opts)
    ensures r.Success? <==> ConstructSpec(opts, order, run).Success?
    ensures r.Success? ==> fresh(r.value) && r.value.Snapshot() == ConstructSpec(opts, order, run).value
    ensures r.Failure? ==> r.error == ConstructSpec(opts, order, run).error
  {
    var o := if opts.Undefined? then Obj(map[]) else opts;
    if !IsPlainObject(o) {
      return Failure(Error("opts must be an object"));
    }
    var t := new Ticker();
    var c := t.Init(o.fields, order, run);
    if c.Throw? {
      return Failure(c.e);
    }
    if !IsNonEmptyString(t.symbol) {
      return Failure(Error("requires a symbol"));
    }
    if !IsPositiveNumber(t.intervalDelay) {
      return Failure(Error("requires an intervalDelay"));
    }
    r := Success(t);
  }
}
