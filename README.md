# Tracing helpers of nice-grpc-opentelemetry, in Dafny

This project models `packages/nice-grpc-opentelemetry/src/traces.ts`, the tracing part of the
OpenTelemetry middleware for nice-grpc. The module `Traces` (file `traces.dfy`) covers its two
operations.

- `getSpanName` turns a method path `/package.service/method` into the span name
  `package.service/method` by dropping the first character. In the model, `GetSpanName` works on
  `seq<char>`. Like JavaScript's `"".slice(1)`, it maps the empty string to the empty string. The
  code does not require a leading `/`, so the model does not require one either.
- `emitSpanEvents` is an async generator that wraps a request or response iterable. Before it
  yields each item, it appends a `message` event to the call span. The event carries the direction
  (`SENT` or `RECEIVED`) and a counter that starts at 1.
  - The generator object is the class `SpanEventEmitter`. Its fields are the read position in the
    wrapped iterable (`pulled`), the counter `nextId` and whether the generator has finished.
    `Next()` is one resumption of the generator, and `Return()` is a consumer stopping early.
  - The wrapped iterable is a `Source` value: the items it produces, then either normal completion
    or a failure.
  - The span is the class `Span`. Its `events` sequence is only ever appended to.
  - `Consume` is a downstream consumer that pulls up to `limit` items. It states the end-to-end
    promise: the consumer receives the source's items unchanged and in order, and the span gains
    exactly one event per received item, with ids `1..k` in order. `MessageEvents` is the
    specification of those events, and the lemmas beside it prove what they look like.

## Model

| member | source | states |
|---|---|---|
| Traces.MethodPath | packages/nice-grpc-opentelemetry/src/traces.ts:11 | a method path `/service/method` is non-empty and starts with `/` |
| Traces.GetSpanName | packages/nice-grpc-opentelemetry/src/traces.ts:15-17 | the span name is the path with its first character removed: putting that character back gives the path, and the empty path gives the empty name |
| Traces.RestoreLeadingSlash | packages/nice-grpc-opentelemetry/src/traces.ts:10-17 | for every path starting with `/`, `"/" + GetSpanName(p) == p` |
| Traces.SpanNameOfMethodPath | packages/nice-grpc-opentelemetry/src/traces.ts:11-16 | the span name of `/service/method` is `service/method`, for all service and method names |
| Traces.SpanNameExample | packages/nice-grpc-opentelemetry/src/traces.ts:15-17 | `/mypackage.MyService/MyMethod` gives `mypackage.MyService/MyMethod` |
| Traces.MessageEvents | packages/nice-grpc-opentelemetry/src/traces.ts:34-40 | after `k` items there are exactly `k` events, and the last one has id `k` |
| Traces.MessageEventAt | packages/nice-grpc-opentelemetry/src/traces.ts:37-39 | the `i`-th event is named `message`, has the given message type, and has id `i + 1` |
| Traces.MessageIdsAscending | packages/nice-grpc-opentelemetry/src/traces.ts:34-39 | message ids start at 1, go up by one with no gaps, and strictly increase |
| Traces.MessageEventsPrefix | packages/nice-grpc-opentelemetry/src/traces.ts:36-40 | the events after `k` pulls are a prefix of the events after any `m >= k` pulls |
| Traces.Span.constructor | packages/nice-grpc-opentelemetry/src/traces.ts:31 | a new call span has its name and no events |
| Traces.Span.AddEvent | packages/nice-grpc-opentelemetry/src/traces.ts:37-40 | `addEvent` appends exactly one event and keeps every earlier event |
| Traces.SpanEventEmitter.constructor | packages/nice-grpc-opentelemetry/src/traces.ts:29-34 | creating the generator pulls nothing and appends nothing, and the counter starts at 1 |
| Traces.SpanEventEmitter.Next | packages/nice-grpc-opentelemetry/src/traces.ts:36-43 | if an item is available, one event with the current id and the fixed type is appended, the id advances, and the item is yielded unchanged; if the source completes or fails, no event is appended, the id does not advance, the failure is passed on, and the generator finishes; a finished generator does nothing more |
| Traces.SpanEventEmitter.Return | packages/nice-grpc-opentelemetry/src/traces.ts:36-43 | a consumer that stops early finishes the generator without an event and without advancing the id |
| Traces.Consume | packages/nice-grpc-opentelemetry/src/traces.ts:29-44 | the consumer receives the first `min(limit, n)` source items in order; the span gains exactly `MessageEvents(type, received)` after its earlier events; a consumer that stops early sees no ending, a full run sees completion, and a source failure is passed on |
| Traces.InterleavedEmitters | packages/nice-grpc-opentelemetry/src/traces.ts:34-42 | a SENT emitter and a RECEIVED emitter on one call span, pulled in any order given by a schedule: each emitter passes on one item per pull asked of it until its source runs out (`sent == min(pulls to requests, requests)`, likewise `received`), the span holds `sent + received` events, its SENT events are exactly `MessageEvents(Sent, sent)` and its RECEIVED events exactly `MessageEvents(Received, received)`, so each counter starts at 1 and is untouched by the other emitter |
| Traces.ReceivedScenario | packages/nice-grpc-opentelemetry/src/traces.ts:15-44 | for the call `/mypackage.MyService/MyMethod` the span is named `mypackage.MyService/MyMethod`; `["a","b","c"]` received gives the same three items and the events `message`/RECEIVED with ids 1, 2, 3 |
| Traces.FailureScenario | packages/nice-grpc-opentelemetry/src/traces.ts:36-43 | a source that fails after two items records two events, and the failure reaches the consumer |
| Traces.InterleavedScenario | packages/nice-grpc-opentelemetry/src/traces.ts:34-39 | a SENT emitter and a RECEIVED emitter on one span, pulled alternately, give the events SENT 1, RECEIVED 1, SENT 2, RECEIVED 2 in that order |

## Left out

- The `tracer` constant (traces.ts:8) is left out. It is a call into `@opentelemetry/api` and uses `VERSION` from `./version`. It is configuration, not behaviour, and `./version` is not part of this model.
- Async scheduling is left out: the suspension points of `for await` and of the wrapped iterable's own production. A pull is modelled as one step that either gives the next item, reports completion, or fails.
- Event timestamps and other span internals of the OpenTelemetry SDK are left out. `addEvent` is modelled as appending a record (name, message type, message id).
- The attribute keys `message.type` and `message.id` and the values of `MessageTypeValues` are left out. They are fields of `Event` and the two variants of `MessageType`.
- UTF-16 code-unit details of `String.prototype.slice` are left out. Strings are `seq<char>`.
- Traces.SpanEventEmitter.Next: `nextId` is an unbounded integer here. It is a JavaScript number in the source, whose exact integers stop at 2^53. That many items on one stream is out of reach.
- Traces.SpanEventEmitter.Next: items are taken not to be thenables. In an async generator `yield` awaits its operand (traces.ts:42), so a promise item would reach the consumer as its resolved value, and a rejecting one would make the generator fail after its event was appended and `nextId` advanced. The model yields every item as it is, so "the item is passed on unchanged" and "one event per received item" (Next, Consume) hold only for items that are not thenables.
- Traces.SpanEventEmitter.Return: forwarding `return()` to the wrapped iterable, which `for await` does when it is left early, is left out. The source iterable has no behaviour of its own in this model.
- A failing `addEvent` is left out. The span's append never fails in this model.
