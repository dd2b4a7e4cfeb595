# crypto-ticker pump in Dafny

This project models the core of crypto-ticker, a small Node.js price ticker. A `Ticker` object
runs one cycle at a time. Each cycle reads one data point through a pluggable reader, converts it
with an optional converter, stamps the ticker's `symbol` on it and hands it to a writer. The
writer defaults to a console printer that shows the change since the last price. The ticker keeps
`lastTs` and `lastPrice` as its running state. A failure at any step is reported on the `Error`
event and ends the cycle.

The project has four modules:

- `JsValues` (`js_values.dfy`): the JavaScript values the ticker handles. It covers objects,
  arrays, strings, numbers with NaN, and functions. It has property reads and the `ToNumber`
  conversion that `-` applies, including decimal strings.
- `Util` (`util.dfy`): the lodash predicates and the four mixins of `lib/util.js`, plus the
  change computation and colour choice of the default printer `printTicker`.
- `Pump` (`pump.dfy`): a ticker's own properties as a value `TickerState`. Every step of
  `lib/Ticker.js` is a function on that value:
  - lodash `_.merge` onto the ticker, with the three setters
  - `init`, the constructor
  - `read`, `convert`, `write`
  - the event handlers
  - `start`

  The properties are lemmas about these functions. The module ends with worked cases.
- `TickerClass` (`ticker.dfy`): the `Ticker` class itself. Its fields are updated in place, and
  each method's postcondition ties its new state and result to the matching `Pump` function.
  `Create` is `new Ticker(opts)`.

Plugin functions are not executed. What the initializer assigns, and what the reader, converter
and writer return or throw, are inputs to the steps that call them. `Date.now()` is the input
`now`. The handlers `emit` calls are modelled as direct calls in the order the events fire.
Every `Error` event that reaches `onError` is recorded as an event in the ticker's `trace`. So is
every converter call, writer call and printed line.

Three facts about the code shape the model:

- The class documentation lists `reader` as a required property (`lib/Ticker.js:17`), but the
  constructor never checks it (lines 30-45). So a ticker without a reader is built. Its first
  cycle then throws "requires a reader" out of `read()` (lines 112-117). That throw is
  synchronous and happens before any promise exists, so nothing catches it and it propagates
  out of `start()`. The model calls this outcome `Escaped`; see
  `Pump.MissingReaderSurfacesAtStart`. The same happens when the reader returns something that
  is not a promise.
- Every error the ticker reports carries the message the code writes, for example "reader did
  not return expected result" and "requires a result object".
- `Ticker` has no stop operation and no guard against overlapping cycles.

## Model

| member | source | states |
|---|---|---|
| Util.IsNonEmptyObject | lib/util.js:18 | true exactly for a plain object with at least one key |
| Util.IsNonEmptyArray | lib/util.js:19 | true exactly for an array with at least one element |
| Util.IsNonEmptyString | lib/util.js:20 | true exactly for a string of positive length |
| Util.IsPositiveNumber | lib/util.js:21 | true exactly for a finite number above zero; NaN is never positive |
| Util.PriceChange | lib/util.js:36 | the printed change is a whole number of cents, and is 0 when price and last price convert to the same number |
| Util.PriceChangeWithinHalfCent | lib/util.js:36 | for finite operands the printed change is within half a cent of `price - lastPrice` |
| Util.ChangeMarker | lib/util.js:36-42 | green iff the change is positive, red iff negative, plain iff zero; green iff the real move is at least +0.005, red iff below -0.005; a NaN difference is printed plain |
| Util.PrinterExamples | lib/util.js:35-43 | from 10 to 12.345 prints 2.35 in green; from 10 to 8 prints -2 in red |
| JsValues.ToNumber | lib/util.js:36 | the conversion `-` applies to its operands: a number is itself, and only null, booleans, numbers and strings can convert to a finite number |
| JsValues.Sub | lib/util.js:36 | `a - b` is NaN exactly when an operand is NaN, and otherwise adding `b` back gives `a` |
| JsValues.Truthy | lib/util.js:36 | the left operand of `|| 0` is kept exactly when it is neither NaN nor zero |
| Util.ChangeOf | lib/util.js:38-42 | the printed change is green exactly when above zero, red exactly when below, plain exactly at zero |
| Util.PrintTicker | lib/util.js:35-43 | the printer's line shows the ticker's symbol and the data's price; its colour follows the sign of the change; equal prices give a plain 0 (the half-cent bound is `Util.PriceChangeWithinHalfCent`) |
| JsValues.IntTextRoundTrip | lib/util.js:36 | a price given as the decimal text of an integer subtracts as that integer |
| Pump.Store | lib/Ticker.js:82-87 | writing a property sets that slot and leaves every other slot, the timer and the trace unchanged |
| Pump.AssignCases | lib/Ticker.js:101-154 | `this[key] = v` goes through the setter for reader/converter/writer: it stores a function and throws "requires a X function" for anything else; any other key is a plain store |
| Pump.SettersCheckFunctions | lib/Ticker.js:101-154 | a setter throws exactly when given a non-function, with its own message, and otherwise stores the function |
| Pump.MergeFailureSticks | lib/Ticker.js:82-87 | once a setter throws during `_.merge`, that throw is the result of the whole merge |
| Pump.MergeKeepsSlot | lib/Ticker.js:82-87 | a merge whose keys name a slot only with undefined values leaves that slot alone |
| Pump.MergeSetsSlot | lib/Ticker.js:82-87 | a defined option for a slot that no other key names ends up in that slot |
| Pump.MergeDefaults | lib/Ticker.js:82-86 | merging the defaults sets intervalDelay 10000, lastTs 0, lastPrice 0 and the printer as writer |
| Pump.AssignAllFailureSticks | lib/Ticker.js:89-92 | once an assignment by the initializer throws, that throw is the result of the initializer |
| Pump.AssignAllKeepsSlot | lib/Ticker.js:89-92 | an initializer that does not assign a slot leaves it alone |
| Pump.ConstructKeepsDefault | lib/Ticker.js:30-95 | a constructed ticker has the default interval, timestamps, price and writer unless the options or the initializer set them |
| Pump.ConstructTakesOption | lib/Ticker.js:30-95 | a defined option that no other option or initializer assignment overrides is the constructed ticker's value |
| Pump.ConstructValidates | lib/Ticker.js:30-45 | non-object options throw "opts must be an object"; a throw from `init` is the constructor's; otherwise a ticker is built exactly when the state `init` leaves has a non-empty symbol and a positive interval, and that state is the ticker's; else "requires a symbol" or "requires an intervalDelay" is thrown, in that order |
| Pump.ReadRequiresReader | lib/Ticker.js:112-117 | `read()` throws "requires a reader" exactly when no reader function is stored, and otherwise hands on the reader's outcome |
| Pump.ReadAfterSetReader | lib/Ticker.js:101-117 | after the reader setter accepted a function, `read()` calls it |
| Pump.ConvertChecksInput | lib/Ticker.js:135-143 | without a converter the input is returned as it is; with one, empty input throws "requires data" and non-empty input goes to the converter |
| Pump.InvokeQuiet | lib/Ticker.js:142 | calling a bound function changes no property of the ticker, only adds to its trace, and reports nothing |
| Pump.ConvertQuiet | lib/Ticker.js:135-143 | `convert` changes no property of the ticker, only adds to its trace, and reports nothing |
| Pump.WriteChecksInput | lib/Ticker.js:160-168 | `write` throws "data must be an object" for empty data, then "requires a writer" when no writer function is stored; otherwise the writer gets the data and its throw is `write`'s, and the printer never throws |
| Pump.UnguardedWriterSlot | lib/Ticker.js:164-166 | a non-function stored under `_writer`, which no setter guards, is accepted and makes `write` throw "requires a writer" |
| Pump.WriteQuiet | lib/Ticker.js:160-168 | `write` changes no property of the ticker, only adds to its trace, and reports nothing |
| Pump.WriteDataEffects | lib/Ticker.js:219-241 | `onWriteData` reports exactly one error when it stops; it sets lastTs to the time taken before writing and lastPrice to the written price only when both steps ran, and otherwise leaves them |
| Pump.ConvertDataEffects | lib/Ticker.js:201-212 | `onConvertData` reports one error when it stops, never touches the setup, and records only when the write completed |
| Pump.CycleEffects | lib/Ticker.js:183-193 | a cycle reports exactly one error when it fails and none otherwise; it never changes the setup; lastTs and lastPrice change only when the cycle recorded; a throw out of `read()` changes nothing |
| Pump.FailedFetchStopsCycle | lib/Ticker.js:184-192 | a rejected read, or one resolving to anything but a non-empty object, reports one error and does nothing else |
| Pump.EmptyConversionSkipsWriter | lib/Ticker.js:206-210 | an empty converter result reports "requires a result object" and the writer is never called |
| Pump.ThrowingPluginKeepsBookkeeping | lib/Ticker.js:183-229 | a converter that throws, or a writer that throws on a non-empty payload (with or without a converter), is caught and reported as the one error, and lastTs and lastPrice stay |
| Pump.SuccessfulCycle | lib/Ticker.js:183-242 | a cycle that writes without a throw passes the converted data, with `symbol` set, to the writer; the printer compares it with the old lastPrice; lastTs becomes now and lastPrice the written price; nothing else changes |
| Pump.TimestampsOrdered | lib/Ticker.js:224-227 | with a clock that does not go back, consecutive cycles record non-decreasing timestamps |
| Pump.StartArmsTimer | lib/Ticker.js:247-250 | `start()` runs one cycle, then arms the repeating timer with intervalDelay unless the cycle threw out of it |
| Pump.InitializerRunsBeforeValidation | lib/Ticker.js:37-92 | the initializer runs before the checks: an empty symbol option is accepted when the initializer sets one |
| Pump.MissingReaderSurfacesAtStart | lib/Ticker.js:112-117 | options without a reader build a ticker whose first cycle throws "requires a reader" out of `start()` |
| Pump.ConvertedPriceIsRecorded | lib/Ticker.js:183-241 | reading `{random: 42}` and converting it to `{price: 42}` writes `{price: 42, symbol}` and records 42 as the last price |
| Pump.EmptyReadReportsOnce | lib/Ticker.js:185-189 | a reader resolving `{}` yields exactly one error and nothing else |
| TickerClass.Ticker.constructor | lib/Ticker.js:30-31 | the new object has no properties yet |
| TickerClass.Ticker.Put | lib/Ticker.js:82-87 | a property write changes exactly that slot |
| TickerClass.Ticker.SetReader | lib/Ticker.js:101-106 | throws "requires a reader function" iff given a non-function, and then changes nothing; otherwise stores it |
| TickerClass.Ticker.SetConverter | lib/Ticker.js:123-128 | throws "requires a converter function" iff given a non-function, and then changes nothing; otherwise stores it |
| TickerClass.Ticker.SetWriter | lib/Ticker.js:149-154 | throws "requires a writer function" iff given a non-function, and then changes nothing; otherwise stores it |
| TickerClass.Ticker.Assign | lib/Ticker.js:82-87 | a property assignment follows `Pump.AssignSpec`, and a throwing setter leaves the object unchanged |
| TickerClass.Ticker.MergeValue | lib/Ticker.js:82-87 | one merged key follows `Pump.MergeValueSpec`: undefined never changes a slot |
| TickerClass.Ticker.Merge | lib/Ticker.js:82-87 | the merge loop ends in the state `Pump.MergeSpec` gives, or with its throw |
| TickerClass.Ticker.AssignAll | lib/Ticker.js:89-92 | the initializer's assignments end in the state `Pump.AssignAllSpec` gives, or with its throw |
| TickerClass.Ticker.Init | lib/Ticker.js:81-95 | `init` ends in the state `Pump.InitSpec` gives, or with its throw |
| TickerClass.Ticker.Read | lib/Ticker.js:112-117 | throws "requires a reader" without a stored reader, and otherwise yields the reader's outcome |
| TickerClass.Ticker.Call | lib/util.js:35-43 | calling a bound function: the printer records its line, computed from the ticker's symbol and lastPrice; a plugin's outcome is handed back |
| TickerClass.Ticker.Convert | lib/Ticker.js:135-143 | `convert` follows `Pump.ConvertSpec` |
| TickerClass.Ticker.Write | lib/Ticker.js:160-168 | `write` follows `Pump.WriteSpec` |
| TickerClass.Ticker.OnError | lib/Ticker.js:174-176 | the report is appended to the trace and nothing else changes |
| TickerClass.Ticker.OnComplete | lib/Ticker.js:236-242 | `onComplete` follows `Pump.OnCompleteSpec` |
| TickerClass.Ticker.OnWriteData | lib/Ticker.js:219-229 | `onWriteData` follows `Pump.OnWriteDataSpec` |
| TickerClass.Ticker.OnConvertData | lib/Ticker.js:201-212 | `onConvertData` follows `Pump.OnConvertDataSpec` |
| TickerClass.Ticker.OnGetData | lib/Ticker.js:183-193 | one cycle on the object follows `Pump.OnGetDataSpec`, so `Pump.CycleEffects` holds of it |
| TickerClass.Ticker.Start | lib/Ticker.js:247-250 | `start()` on the object follows `Pump.StartSpec` |
| TickerClass.Create | lib/Ticker.js:30-45 | `new Ticker(opts)` yields a fresh ticker exactly when `Pump.ConstructSpec` succeeds, with its state, and otherwise the same error |

## Left out

- The EventEmitter mechanics (`on`, `emit`, listener registration in the constructor) are not modelled. Each `emit` is modelled as a direct call of the handler it reaches.
- `Pump.StartSpec`: the timer records the `intervalDelay` passed to `setInterval`. Node replaces a delay outside 1 to 2^31-1 ms with 1 ms, so an accepted `intervalDelay` of 0.5 or 1e10 fires every millisecond. The model does not capture that clamping.
- The repetition of `setInterval` is not modelled. The model covers one cycle, plus the timer `start` arms. So it does not capture overlapping cycles, which the code does not prevent.
- Promise timing is not modelled. A cycle's handlers run as soon as the reader's outcome is known, so there is no interleaving with other work.
- Console output, colours and the `stringify` text in the "reader did not return expected result" message are left out. The printer's line is recorded as a value, and the reported message omits the stringified result.
- `Util.PriceChange`: computed on exact reals, with `Math.round` as floor of x + 0.5, rather than on IEEE doubles. Infinities are not modelled.
- `Util.IsPositiveNumber`: numbers are finite reals or NaN (`JsValues.Number`), so `Infinity` is not modelled. In the code `isPositiveNumber(Infinity)` is true, so `intervalDelay: Infinity` passes the constructor's check.
- `JsValues.ToNumber`: strings are decimal literals with an optional sign. There is no whitespace trimming, exponent, hex or `Infinity`, and arrays and objects convert to NaN.
- Side effects of plugin functions on the ticker are left out, except the initializer's property assignments. The reader, converter and writer are given only by their outcomes.
- A reader that is the built-in printer is not modelled. `Pump.ReadSpec` hands back the given reader outcome, but the bound printer would throw a TypeError synchronously from `read()` when it reads `data.price` of undefined. A converter or writer that is the printer is modelled.
- Option keys that name a member the ticker inherits are left out. These are EventEmitter members, the `Ticker` methods (`read`, `convert`, `write`, `init`, `start`, the `on...` handlers), `Object.prototype` members and `__proto__`. Such a key is `in` the ticker, so `_.merge` skips it when undefined, while `Pump.MergeValueSpec` stores an undefined extra property. A defined value shadows the method: `opts.read`, for example, bypasses the "requires a reader" check, which `Pump.ReadSpec` does not capture. Deep merging of one plain object into another is left out too. It cannot happen in `init`, because no slot holds a plain object while the options are merged.
- The writer mutating the payload it is given is not modelled.
- The source plugins under `lib/source/` and the command-line entry `index.js` are not part of this model.
