/** Tracing helpers of the gRPC OpenTelemetry middleware: the span name of a
    call and the `message` span events recorded for each streamed item, as the
    RPC semantic conventions of OpenTelemetry describe them. */
module Traces {

  // ---------------------------------------------------------------------------
  // Span name
  // ---------------------------------------------------------------------------

  /** The method path of a call, `/package.service/method`. */
  function MethodPath(service: string, methodName: string): (path: string)
    ensures |path| > 0 && path[0] == '/'
  {
    "/" + service + "/" + methodName
  }

  /** The span name of a call: its method path without the first character.
      Like `slice(1)`, the empty path gives the empty name. */
  function GetSpanName(methodPath: string): (spanName: string)
    ensures methodPath == [] ==> spanName == []
    ensures methodPath != [] ==> [methodPath[0]] + spanName == methodPath
  {
    if methodPath == [] then [] else methodPath[1..]
  }

  /** Putting the leading `/` back in front of the span name gives the method
      path again, for every path that starts with `/`. */
  lemma RestoreLeadingSlash(methodPath: string)
    requires methodPath != [] && methodPath[0] == '/'
    ensures "/" + GetSpanName(methodPath) == methodPath
  {
  }

  /** The span name of `/service/method` is `service/method`. */
  lemma SpanNameOfMethodPath(service: string, methodName: string)
    ensures GetSpanName(MethodPath(service, methodName)) == service + "/" + methodName
  {
    var path := MethodPath(service, methodName);
    assert path == "/" + (service + "/" + methodName);
  }

  lemma SpanNameExample()
    ensures GetSpanName("/mypackage.MyService/MyMethod") == "mypackage.MyService/MyMethod"
  {
  }

  // ---------------------------------------------------------------------------
  // Span events
  // ---------------------------------------------------------------------------

  /** The `message.type` attribute of a message event. */
  datatype MessageType = Sent | Received

  /** One event appended to a span: its name and its `message.type` and
      `message.id` attributes. */
  datatype Event = Event(name: string, messageType: MessageType, messageId: int)

  const MessageEventName: string := "message"

  function MessageEvent(messageType: MessageType, messageId: int): (event: Event)
  {
    Event(MessageEventName, messageType, messageId)
  }

  /** The events one emitter appends for its first `count` items: ids 1 to
      `count`, in that order. */
  function MessageEvents(messageType: MessageType, count: nat): (events: seq<Event>)
    ensures |events| == count
    ensures count > 0 ==> events[count - 1] == MessageEvent(messageType, count)
  {
    if count == 0 then []
    else MessageEvents(messageType, count - 1) + [MessageEvent(messageType, count)]
  }

  /** The `i`-th event (counting from 0) is a `message` event of the given
      direction whose id is `i + 1`. */
  lemma {:induction false} MessageEventAt(messageType: MessageType, count: nat, i: nat)
    requires i < count
    ensures MessageEvents(messageType, count)[i] == Event(MessageEventName, messageType, i + 1)
  {
    if i < count - 1 {
      MessageEventAt(messageType, count - 1, i);
    }
  }

  /** Message ids start at 1, have no gaps and strictly increase. */
  lemma {:induction false} MessageIdsAscending(messageType: MessageType, count: nat)
    ensures count > 0 ==> MessageEvents(messageType, count)[0].messageId == 1
    ensures forall i, j :: 0 <= i < j < count ==>
      0 < MessageEvents(messageType, count)[i].messageId < MessageEvents(messageType, count)[j].messageId
    ensures forall i :: 0 < i < count ==>
      MessageEvents(messageType, count)[i].messageId == MessageEvents(messageType, count)[i - 1].messageId + 1
  {
    forall i | 0 <= i < count
      ensures MessageEvents(messageType, count)[i].messageId == i + 1
    {
      MessageEventAt(messageType, count, i);
    }
  }

  /** Pulling more items only appends: the events for the first `k` items are
      a prefix of the events for the first `m >= k` items. */
  lemma {:induction false} MessageEventsPrefix(messageType: MessageType, k: nat, m: nat)
    requires k <= m
    ensures MessageEvents(messageType, k) <= MessageEvents(messageType, m)
  {
    if k < m {
      MessageEventsPrefix(messageType, k, m - 1);
    }
  }

  /** The call span: a name fixed at creation and an append-only log of
      events. */
  class Span {
    const name: string
    var events: seq<Event>

    constructor (name: string)
      ensures this.name == name && events == []
    {
      this.name := name;
      events := [];
    }

    method AddEvent(eventName: string, messageType: MessageType, messageId: int)
      modifies this
      ensures events == old(events) + [Event(eventName, messageType, messageId)]
    {
      events := events + [Event(eventName, messageType, messageId)];
    }
  }

  // ---------------------------------------------------------------------------
  // The event-emitting stream decorator
  // ---------------------------------------------------------------------------

  /** How the wrapped iterable ends once its items are used up: it completes,
      or the attempt to produce the next item fails. */
  datatype Completion = Exhausted | Failed(error: string)

  /** The wrapped request or response iterable: the items it produces, in
      order, and how it ends. */
  datatype Source<T> = Source(items: seq<T>, completion: Completion)

  /** The result of one pull from the decorated stream. */
  datatype Pull<T> = Item(value: T) | Done | Error(error: string)

  /** The generator object that `emitSpanEvents` returns. `pulled` is how
      far the wrapped iterable has been read, `nextId` the id of the next
      event, `finished` whether the generator has completed. */
  class SpanEventEmitter<T> {
    const source: Source<T>
    const span: Span
    const messageType: MessageType
    var pulled: nat
    var nextId: nat
    var finished: bool

    ghost predicate Valid()
      reads this
    {
      pulled <= |source.items| && nextId == pulled + 1
    }

    /** The items passed downstream so far. */
    ghost function Yielded(): seq<T>
      reads this
      requires Valid()
    {
      source.items[..pulled]
    }

    /** Creating the generator runs nothing: no item is pulled and the span
        is left alone. */
    constructor (source: Source<T>, span: Span, messageType: MessageType)
      ensures Valid()
      ensures this.source == source && this.span == span && this.messageType == messageType
      ensures pulled == 0 && nextId == 1 && !finished
      ensures Yielded() == []
    {
      this.source := source;
      this.span := span;
      this.messageType := messageType;
      pulled := 0;
      nextId := 1;
      finished := false;
    }

    /** One resumption of the generator: pull the next item of the wrapped
        iterable; if there is one, append a `message` event with the current
        id, advance the id and pass the item on unchanged. When the iterable
        completes or fails, the generator finishes without an event. */
    method Next() returns (p: Pull<T>)
      requires Valid()
      modifies this, span
      ensures Valid()
      ensures old(finished) ==>
        p == Done && pulled == old(pulled) && nextId == old(nextId) && finished
        && span.events == old(span.events)
      ensures !old(finished) && old(pulled) < |source.items| ==>
        p == Item(source.items[old(pulled)]) && pulled == old(pulled) + 1 && !finished
        && Yielded() == old(Yielded()) + [p.value]
        && span.events == old(span.events) + [MessageEvent(messageType, old(nextId))]
      ensures !old(finished) && old(pulled) == |source.items| ==>
        pulled == old(pulled) && nextId == old(nextId) && finished
        && span.events == old(span.events)
        && p == (match source.completion
                 case Exhausted => Done
                 case Failed(e) => Error(e))
    {
      if finished {
        p := Done;
        return;
      }
      if pulled < |source.items| {
        var item := source.items[pulled];
        pulled := pulled + 1;
        var id := nextId;
        nextId := nextId + 1;
        span.AddEvent(MessageEventName, messageType, id);
        p := Item(item);
      } else {
        finished := true;
        match source.completion
        case Exhausted => p := Done;
        case Failed(e) => p := Error(e);
      }
    }

    /** The consumer stops iterating early: the generator finishes and no
        further event is appended. */
    method Return()
      requires Valid()
      modifies this
      ensures Valid() && finished
      ensures pulled == old(pulled) && nextId == old(nextId)
    {
      finished := true;
    }
  }

  /** How a consumer's iteration of the decorated stream ended. */
  datatype Outcome = StoppedEarly | Completed | Threw(error: string)

  /** A downstream consumer that iterates the decorated stream over `span`,
      asking for at most `limit` items. It receives exactly the source's
      items, in order, and the span gains one event per received item, with
      ids 1 to the number received; earlier events stay as they were. */
  method Consume<T>(source: Source<T>, span: Span, messageType: MessageType, limit: nat)
      returns (received: seq<T>, outcome: Outcome)
    modifies span
    ensures received == source.items[..if limit < |source.items| then limit else |source.items|]
    ensures span.events == old(span.events) + MessageEvents(messageType, |received|)
    ensures outcome == (if limit <= |source.items| then StoppedEarly
                        else match source.completion
                             case Exhausted => Completed
                             case Failed(e) => Threw(e))
  {
    var emitter := new SpanEventEmitter(source, span, messageType);
    received := [];
    outcome := StoppedEarly;
    while |received| < limit
      invariant emitter.Valid() && !emitter.finished
      invariant emitter.source == source && emitter.span == span && emitter.messageType == messageType
      invariant |received| == emitter.pulled <= limit
      invariant received == emitter.Yielded()
      invariant span.events == old(span.events) + MessageEvents(messageType, |received|)
      decreases limit - |received|
    {
      var p := emitter.Next();
      match p
      case Item(v) =>
        received := received + [v];
      case Done =>
        return received, Completed;
      case Error(e) =>
        return received, Threw(e);
    }
    emitter.Return();
  }

  /** The events of `events` whose `message.type` is `messageType`, in order. */
  function EventsOfType(events: seq<Event>, messageType: MessageType): (selected: seq<Event>)
  {
    if events == [] then []
    else
      var last := events[|events| - 1];
      EventsOfType(events[..|events| - 1], messageType)
        + (if last.messageType == messageType then [last] else [])
  }

  /** Filtering after appending one event filters the earlier events and
      keeps the new one exactly when it has the type asked for. */
  lemma EventsOfTypeAppend(events: seq<Event>, e: Event, messageType: MessageType)
    ensures EventsOfType(events + [e], messageType)
      == EventsOfType(events, messageType) + (if e.messageType == messageType then [e] else [])
  {
    assert (events + [e])[..|events|] == events;
  }

  /** Every event is either SENT or RECEIVED: the two filters together hold
      as many events as the whole log. */
  lemma {:induction false} EventsOfTypePartition(events: seq<Event>)
    ensures |EventsOfType(events, Sent)| + |EventsOfType(events, Received)| == |events|
  {
    if events != [] {
      EventsOfTypePartition(events[..|events| - 1]);
    }
  }

  function Min(a: nat, b: nat): nat
  {
    if a <= b then a else b
  }

  /** How many pulls of `schedule` go to the requests (`toRequests`) or to
      the responses. */
  function Pulls(schedule: seq<bool>, toRequests: bool): (n: nat)
    ensures n <= |schedule|
  {
    if schedule == [] then 0
    else
      var last := schedule[|schedule| - 1];
      Pulls(schedule[..|schedule| - 1], toRequests) + (if last == toRequests then 1 else 0)
  }

  /** A call with a request stream and a response stream, each wrapped by
      its own emitter on the one call span, pulled in any order: `schedule[i]`
      says whether the i-th pull goes to the requests (true) or the responses
      (false). Whatever the schedule, the span's SENT events are exactly
      those of the requests emitter alone, ids 1 to `sent`, and its RECEIVED
      events those of the responses emitter alone, ids 1 to `received`;
      each emitter has passed on one item per pull asked of it until its
      source ran out. */
  method InterleavedEmitters<T>(requests: Source<T>, responses: Source<T>, schedule: seq<bool>)
      returns (events: seq<Event>, sent: nat, received: nat)
    ensures sent == Min(Pulls(schedule, true), |requests.items|)
    ensures received == Min(Pulls(schedule, false), |responses.items|)
    ensures |events| == sent + received
    ensures EventsOfType(events, Sent) == MessageEvents(Sent, sent)
    ensures EventsOfType(events, Received) == MessageEvents(Received, received)
  {
    var span := new Span(GetSpanName(MethodPath("mypackage.MyService", "MyMethod")));
    var sentEmitter := new SpanEventEmitter(requests, span, Sent);
    var receivedEmitter := new SpanEventEmitter(responses, span, Received);
    var i := 0;
    while i < |schedule|
      invariant i <= |schedule|
      invariant sentEmitter != receivedEmitter
      invariant sentEmitter.Valid() && receivedEmitter.Valid()
      invariant sentEmitter.source == requests && sentEmitter.span == span && sentEmitter.messageType == Sent
      invariant receivedEmitter.source == responses && receivedEmitter.span == span
      invariant receivedEmitter.messageType == Received
      invariant sentEmitter.pulled == Min(Pulls(schedule[..i], true), |requests.items|)
      invariant sentEmitter.finished ==> sentEmitter.pulled == |requests.items|
      invariant receivedEmitter.pulled == Min(Pulls(schedule[..i], false), |responses.items|)
      invariant receivedEmitter.finished ==> receivedEmitter.pulled == |responses.items|
      invariant EventsOfType(span.events, Sent) == MessageEvents(Sent, sentEmitter.pulled)
      invariant EventsOfType(span.events, Received) == MessageEvents(Received, receivedEmitter.pulled)
    {
      assert schedule[..i + 1][..i] == schedule[..i];
      ghost var before := span.events;
      if schedule[i] {
        ghost var k := sentEmitter.pulled;
        var _ := sentEmitter.Next();
        if sentEmitter.pulled != k {
          EventsOfTypeAppend(before, MessageEvent(Sent, k + 1), Sent);
          EventsOfTypeAppend(before, MessageEvent(Sent, k + 1), Received);
        }
      } else {
        ghost var k := receivedEmitter.pulled;
        var _ := receivedEmitter.Next();
        if receivedEmitter.pulled != k {
          EventsOfTypeAppend(before, MessageEvent(Received, k + 1), Sent);
          EventsOfTypeAppend(before, MessageEvent(Received, k + 1), Received);
        }
      }
      i := i + 1;
    }
    assert schedule[..i] == schedule;
    events, sent, received := span.events, sentEmitter.pulled, receivedEmitter.pulled;
    EventsOfTypePartition(events);
  }

  // ---------------------------------------------------------------------------
  // Scenarios
  // ---------------------------------------------------------------------------

  /** A call to `/mypackage.MyService/MyMethod` whose three received items
      pass through unchanged and leave three events with ids 1, 2 and 3 on
      the span named `mypackage.MyService/MyMethod`. */
  method ReceivedScenario() returns (spanName: string, received: seq<string>, events: seq<Event>)
    ensures spanName == "mypackage.MyService/MyMethod"
    ensures received == ["a", "b", "c"]
    ensures events == [MessageEvent(Received, 1), MessageEvent(Received, 2), MessageEvent(Received, 3)]
  {
    var span := new Span(GetSpanName(MethodPath("mypackage.MyService", "MyMethod")));
    var outcome;
    SpanNameOfMethodPath("mypackage.MyService", "MyMethod");
    received, outcome := Consume(Source(["a", "b", "c"], Exhausted), span, Received, 10);
    spanName, events := span.name, span.events;
  }

  /** The source fails after two items: the failure reaches the consumer and
      only two events are recorded. */
  method FailureScenario() returns (received: seq<int>, events: seq<Event>, outcome: Outcome)
    ensures received == [7, 8]
    ensures outcome == Threw("unavailable")
    ensures events == [MessageEvent(Sent, 1), MessageEvent(Sent, 2)]
  {
    var span := new Span(GetSpanName(MethodPath("mypackage.MyService", "MyMethod")));
    received, outcome := Consume(Source([7, 8], Failed("unavailable")), span, Sent, 5);
    events := span.events;
  }

  /** A sent and a received stream on the same span, pulled alternately:
      the events of the two emitters interleave, each with its own ids. */
  method InterleavedScenario() returns (events: seq<Event>)
    ensures events == [MessageEvent(Sent, 1), MessageEvent(Received, 1),
                       MessageEvent(Sent, 2), MessageEvent(Received, 2)]
  {
    var span := new Span(GetSpanName(MethodPath("mypackage.MyService", "MyMethod")));
    var requests := new SpanEventEmitter(Source([10, 11], Exhausted), span, Sent);
    var responses := new SpanEventEmitter(Source([20, 21, 22], Exhausted), span, Received);
    var p := requests.Next();
    p := responses.Next();
    p := requests.Next();
    p := responses.Next();
    events := span.events;
  }
}
