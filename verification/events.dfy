/**
 * Tunnel statuses and the domain events the connection manager derives
 * from them. An event refers to its server by the server's stable `id`.
 */
module Events {
  import opened Wrappers

  /**
   * The status reported by the tunnel. The three named values are the
   * `TunnelStatus` enumeration; `Unrecognized(raw)` stands for a value the
   * native layer may deliver at run time that is none of those three, and
   * `raw` only tells such values apart (it never encodes a named member).
   */
  datatype TunnelStatus = Connected | Disconnected | Reconnecting | Unrecognized(raw: int)

  type ServerRef = string

  datatype Event =
    | ServerConnected(server: ServerRef)
    | ServerDisconnected(server: ServerRef)
    | ServerReconnecting(server: ServerRef)

  /** The shared, append-only event queue, oldest event first. */
  type EventQueue = seq<Event>

  predicate IsRecognized(status: TunnelStatus) {
    !status.Unrecognized?
  }

  /** The event a status maps to, if any. */
  function EventFor(server: ServerRef, status: TunnelStatus): (r: Option<Event>)
    ensures r.Some? <==> IsRecognized(status)
    ensures r.Some? ==> r.value.server == server
  {
    match status
    case Connected => Some(ServerConnected(server))
    case Disconnected => Some(ServerDisconnected(server))
    case Reconnecting => Some(ServerReconnecting(server))
    case Unrecognized(_) => None
  }

  /** The status an event reports; the inverse of `EventFor`. */
  function StatusOf(e: Event): (r: TunnelStatus)
    ensures IsRecognized(r)
  {
    match e
    case ServerConnected(_) => Connected
    case ServerDisconnected(_) => Disconnected
    case ServerReconnecting(_) => Reconnecting
  }

  /** `EventFor` and `StatusOf` are inverse to each other on recognised statuses. */
  lemma EventStatusRoundTrip(server: ServerRef, status: TunnelStatus, e: Event)
    ensures IsRecognized(status) ==> StatusOf(EventFor(server, status).value) == status
    ensures e.server == server ==> EventFor(server, StatusOf(e)) == Some(e)
  {
  }

  /** `EventQueue.enqueue`: append at the end. */
  function Enqueue(q: EventQueue, e: Event): (q': EventQueue)
    ensures |q'| == |q| + 1
    ensures q'[..|q|] == q
    ensures q'[|q|] == e
  {
    q + [e]
  }

  /** The recognised statuses of `ss`, in their original order. */
  function Recognized(ss: seq<TunnelStatus>): (r: seq<TunnelStatus>)
    ensures |r| <= |ss|
    ensures forall i :: 0 <= i < |r| ==> IsRecognized(r[i])
  {
    if |ss| == 0 then []
    else if IsRecognized(ss[0]) then [ss[0]] + Recognized(ss[1..])
    else Recognized(ss[1..])
  }

  /** The statuses the events of `q` report, in queue order. */
  function StatusesOf(q: seq<Event>): (r: seq<TunnelStatus>)
    ensures |r| == |q|
    ensures forall i :: 0 <= i < |q| ==> r[i] == StatusOf(q[i])
  {
    if |q| == 0 then [] else [StatusOf(q[0])] + StatusesOf(q[1..])
  }
}
