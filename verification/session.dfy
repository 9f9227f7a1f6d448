/**
 * One server over its lifetime: every public member and every tunnel status
 * delivery is one atomic step over the server and the shared event queue.
 * Other producers (other servers) may enqueue on the same queue between
 * those steps. A step's collaborator answers travel with the call. The
 * queue here is the log of everything enqueued; draining it is the
 * consumer's business and is not modelled.
 */
module Session {
  import opened Wrappers
  import opened Errors
  import opened Events
  import opened Servers

  /**
   * The public members of `OutlineServer`, a status delivery from its tunnel,
   * and an enqueue by another producer sharing the queue.
   */
  datatype Call =
    | GetName
    | SetNameTo(newName: string)
    | GetAddress
    | GetIsOutlineServer
    | ConnectWith(start: AccessKey -> TunnelResult)
    | DisconnectWith(stop: TunnelResult)
    | CheckRunningWith(tunnelIsRunning: bool)
    | CheckReachableWith(isServerReachable: (string, Port) -> bool)
    | StatusChange(status: TunnelStatus)
    | ForeignEnqueue(event: Event)

  datatype Reply = Done | Text(text: string) | Flag(flag: bool) | Threw(thrown: Thrown)

  datatype World = World(server: Server, queue: EventQueue)

  datatype StepResult = StepResult(world: World, reply: Reply)

  function FromOutcome(o: Outcome<Thrown>): (r: Reply) {
    match o
    case Pass => Done
    case Fail(t) => Threw(t)
  }

  /**
   * One call. Only the name setter changes the server; only a status delivery
   * or another producer's enqueue changes the queue, and the queue only ever
   * grows at its end. The probes change nothing and answer with what the
   * collaborator answers in that very call: a `World` holds no field in
   * which an earlier answer could be kept, so there is no caching.
   */
  function Step(w: World, call: Call, fromErrorCode: int -> NativeError): (r: StepResult)
    ensures r.world.server.id == w.server.id
    ensures r.world.server.accessKey.host == w.server.accessKey.host
    ensures r.world.server.accessKey.port == w.server.accessKey.port
    ensures r.world.server.accessKey.isOutlineServer == w.server.accessKey.isOutlineServer
    ensures !call.SetNameTo? ==> r.world.server == w.server
    ensures !call.StatusChange? && !call.ForeignEnqueue? ==> r.world.queue == w.queue
    ensures |w.queue| <= |r.world.queue| <= |w.queue| + 1 && r.world.queue[..|w.queue|] == w.queue
  {
    match call
    case GetName => StepResult(w, Text(w.server.name))
    case SetNameTo(n) => StepResult(w.(server := SetName(w.server, n)), Done)
    case GetAddress => StepResult(w, Text(Address(w.server)))
    case GetIsOutlineServer => StepResult(w, Flag(IsOutlineServer(w.server)))
    case ConnectWith(start) => StepResult(w, FromOutcome(Connect(w.server, start, fromErrorCode)))
    case DisconnectWith(stop) => StepResult(w, FromOutcome(Disconnect(stop)))
    case CheckRunningWith(running) => StepResult(w, Flag(CheckRunning(running)))
    case CheckReachableWith(probe) => StepResult(w, Flag(CheckReachable(w.server, probe)))
    case StatusChange(status) =>
      StepResult(w.(queue := HandleTunnelStatusChange(w.server, w.queue, status)), Done)
    case ForeignEnqueue(e) => StepResult(w.(queue := Enqueue(w.queue, e)), Done)
  }

  /** Reading `name` right after setting it gives the new name, and the access key agrees. */
  lemma SetThenGetName(w: World, n: string, fromErrorCode: int -> NativeError)
    ensures var w1 := Step(w, SetNameTo(n), fromErrorCode).world;
            Step(w1, GetName, fromErrorCode).reply == Text(n) && w1.server.accessKey.name == n
  {
  }

  /** Runs a sequence of calls, oldest first, and returns the final world. */
  function Run(w: World, calls: seq<Call>, fromErrorCode: int -> NativeError): (w': World)
    decreases |calls|
  {
    if |calls| == 0 then w else Run(Step(w, calls[0], fromErrorCode).world, calls[1..], fromErrorCode)
  }

  /** The statuses delivered among `calls`, in order. */
  function StatusesIn(calls: seq<Call>): (r: seq<TunnelStatus>)
    ensures |r| <= |calls|
  {
    if |calls| == 0 then []
    else if calls[0].StatusChange? then [calls[0].status] + StatusesIn(calls[1..])
    else StatusesIn(calls[1..])
  }

  /** The name assigned by the last `SetNameTo` among `calls`, if any. */
  function LastNameSet(calls: seq<Call>): (n: Option<string>)
    decreases |calls|
  {
    if |calls| == 0 then None
    else if calls[|calls| - 1].SetNameTo? then Some(calls[|calls| - 1].newName)
    else LastNameSet(calls[..|calls| - 1])
  }

  /** The events one call puts on the queue, for a server whose id is `id`. */
  function StepEvents(id: ServerRef, call: Call): (es: seq<Event>)
    ensures |es| <= 1
  {
    match call
    case StatusChange(status) => (match EventFor(id, status) case Some(e) => [e] case None => [])
    case ForeignEnqueue(e) => [e]
    case _ => []
  }

  /** The events a sequence of calls puts on the queue, in order. */
  function Enqueued(id: ServerRef, calls: seq<Call>): (es: seq<Event>)
    decreases |calls|
  {
    if |calls| == 0 then [] else StepEvents(id, calls[0]) + Enqueued(id, calls[1..])
  }

  /** The queue after one call: the old queue followed by that call's events. */
  lemma StepQueue(w: World, call: Call, fromErrorCode: int -> NativeError)
    ensures Step(w, call, fromErrorCode).world.queue == w.queue + StepEvents(w.server.id, call)
  {
  }

  /** Over any sequence of calls, the queue keeps its contents and appends the calls' events in order. */
  lemma {:induction false} RunQueue(w: World, calls: seq<Call>, fromErrorCode: int -> NativeError)
    ensures Run(w, calls, fromErrorCode).queue == w.queue + Enqueued(w.server.id, calls)
    decreases |calls|
  {
    if |calls| > 0 {
      var w1 := Step(w, calls[0], fromErrorCode).world;
      StepQueue(w, calls[0], fromErrorCode);
      RunQueue(w1, calls[1..], fromErrorCode);
      assert w1.server.id == w.server.id;
      assert w.queue + StepEvents(w.server.id, calls[0]) + Enqueued(w.server.id, calls[1..])
             == w.queue + Enqueued(w.server.id, calls);
    } else {
      assert w.queue + [] == w.queue;
    }
  }

  /** The events of `q` that refer to server `id`, in queue order. */
  function Own(id: ServerRef, q: seq<Event>): (r: seq<Event>)
    ensures |r| <= |q|
    ensures forall i :: 0 <= i < |r| ==> r[i].server == id
  {
    if |q| == 0 then []
    else if q[0].server == id then [q[0]] + Own(id, q[1..])
    else Own(id, q[1..])
  }

  lemma {:induction false} OwnConcat(id: ServerRef, a: seq<Event>, b: seq<Event>)
    ensures Own(id, a + b) == Own(id, a) + Own(id, b)
    decreases |a|
  {
    if |a| > 0 {
      OwnConcat(id, a[1..], b);
      assert (a + b)[0] == a[0];
      assert (a + b)[1..] == a[1..] + b;
    } else {
      assert a + b == b;
    }
  }

  /** Every other producer's event among `calls` refers to some other server. */
  predicate ForeignElsewhere(id: ServerRef, calls: seq<Call>) {
    forall i :: 0 <= i < |calls| && calls[i].ForeignEnqueue? ==> calls[i].event.server != id
  }

  /** No other producer enqueues among `calls`. */
  predicate SoleProducer(calls: seq<Call>) {
    forall i :: 0 <= i < |calls| ==> !calls[i].ForeignEnqueue?
  }

  lemma {:induction false} OwnEnqueued(id: ServerRef, calls: seq<Call>)
    requires ForeignElsewhere(id, calls)
    ensures Own(id, Enqueued(id, calls)) == NewEvents(id, StatusesIn(calls))
    decreases |calls|
  {
    if |calls| > 0 {
      var c, rest := calls[0], calls[1..];
      assert forall i :: 0 <= i < |rest| ==> rest[i] == calls[i + 1];
      OwnEnqueued(id, rest);
      OwnConcat(id, StepEvents(id, c), Enqueued(id, rest));
      match c
      case StatusChange(status) =>
        var ss := StatusesIn(calls);
        assert ss[0] == status && ss[1..] == StatusesIn(rest);
      case ForeignEnqueue(e) =>
        assert e.server != id;
        assert Own(id, [e]) == [];
      case _ =>
        assert Own(id, []) == [];
    }
  }

  lemma {:induction false} EnqueuedBySoleProducer(id: ServerRef, calls: seq<Call>)
    requires SoleProducer(calls)
    ensures Enqueued(id, calls) == NewEvents(id, StatusesIn(calls))
    decreases |calls|
  {
    if |calls| > 0 {
      var rest := calls[1..];
      assert forall i :: 0 <= i < |rest| ==> rest[i] == calls[i + 1];
      EnqueuedBySoleProducer(id, rest);
      if calls[0].StatusChange? {
        var ss := StatusesIn(calls);
        assert ss[0] == calls[0].status && ss[1..] == StatusesIn(rest);
      }
    }
  }

  /**
   * On the shared queue, whatever other servers enqueue in between: the old
   * contents are kept, and this server's own new events are exactly one per
   * recognised status it was told about, in the order of those statuses.
   * `connect`, `disconnect`, the probes and the accessors enqueue nothing.
   */
  lemma RunOwnEvents(w: World, calls: seq<Call>, fromErrorCode: int -> NativeError)
    requires ForeignElsewhere(w.server.id, calls)
    ensures var q := Run(w, calls, fromErrorCode).queue;
            |q| >= |w.queue| && q[..|w.queue|] == w.queue
            && Own(w.server.id, q[|w.queue|..]) == NewEvents(w.server.id, StatusesIn(calls))
            && StatusesOf(Own(w.server.id, q[|w.queue|..])) == Recognized(StatusesIn(calls))
  {
    RunQueue(w, calls, fromErrorCode);
    OwnEnqueued(w.server.id, calls);
    NewEventsMatchStatuses(w.server.id, StatusesIn(calls));
    var q := Run(w, calls, fromErrorCode).queue;
    assert q[|w.queue|..] == Enqueued(w.server.id, calls);
    assert q[..|w.queue|] == w.queue;
  }

  /**
   * When this server is the queue's only producer, the queue ends up exactly
   * as if only the status deliveries had happened, in their order.
   */
  lemma RunQueueSoleProducer(w: World, calls: seq<Call>, fromErrorCode: int -> NativeError)
    requires SoleProducer(calls)
    ensures Run(w, calls, fromErrorCode).queue == HandleAll(w.server, w.queue, StatusesIn(calls))
  {
    RunQueue(w, calls, fromErrorCode);
    EnqueuedBySoleProducer(w.server.id, calls);
    HandleAllAppends(w.server, w.queue, StatusesIn(calls));
  }

  /** Running `pre` then `post` is running their concatenation. */
  lemma {:induction false} RunConcat(w: World, pre: seq<Call>, post: seq<Call>, fromErrorCode: int -> NativeError)
    ensures Run(w, pre + post, fromErrorCode) == Run(Run(w, pre, fromErrorCode), post, fromErrorCode)
    decreases |pre|
  {
    if |pre| > 0 {
      var w1 := Step(w, pre[0], fromErrorCode).world;
      RunConcat(w1, pre[1..], post, fromErrorCode);
      assert (pre + post)[0] == pre[0];
      assert (pre + post)[1..] == pre[1..] + post;
      assert Run(w, pre + post, fromErrorCode) == Run(w1, pre[1..] + post, fromErrorCode);
      assert Run(w, pre, fromErrorCode) == Run(w1, pre[1..], fromErrorCode);
    } else {
      assert pre + post == post;
    }
  }

  /**
   * Over any sequence of calls, the server keeps its id, host, port and flag,
   * and its two names are those of the last assignment (or unchanged when
   * nothing assigned them).
   */
  lemma {:induction false} RunServer(w: World, calls: seq<Call>, fromErrorCode: int -> NativeError)
    ensures var s := Run(w, calls, fromErrorCode).server;
            s.id == w.server.id
            && s.accessKey.host == w.server.accessKey.host && s.accessKey.port == w.server.accessKey.port
            && s.accessKey.isOutlineServer == w.server.accessKey.isOutlineServer
            && Address(s) == Address(w.server)
    ensures LastNameSet(calls).None? ==> Run(w, calls, fromErrorCode).server == w.server
    ensures LastNameSet(calls).Some? ==>
              Run(w, calls, fromErrorCode).server.name == LastNameSet(calls).value
              && Run(w, calls, fromErrorCode).server.accessKey.name == LastNameSet(calls).value
    decreases |calls|
  {
    if |calls| > 0 {
      var init := calls[..|calls| - 1];
      var last := calls[|calls| - 1];
      assert calls == init + [last];
      RunConcat(w, init, [last], fromErrorCode);
      RunServer(w, init, fromErrorCode);
      var wi := Run(w, init, fromErrorCode);
      assert Run(wi, [last], fromErrorCode) == Step(wi, last, fromErrorCode).world;
    }
  }
}
