/**
 * `OutlineServer`: the connection manager of one configured proxy. It owns
 * the proxy's access key and display name, drives the tunnel through
 * connect/disconnect, translates tunnel failures, answers probes, and turns
 * tunnel status changes into events on the shared event queue.
 *
 * The tunnel, the networking probe and the error table are collaborators
 * whose code is not part of this model; each call receives the answer of the
 * collaborator it consults as a parameter (a value, or a total function of
 * the arguments the server passes to it).
 */
module Servers {
  import opened Wrappers
  import opened Errors
  import opened Events
  import Decimal

  /** A TCP port number. */
  type Port = n: nat | n < 0x1_0000

  /** The fields of an access key that the server reads or writes. */
  datatype AccessKey = AccessKey(host: string, port: Port, name: string, isOutlineServer: bool)

  /** A server: its readonly id, the access key it owns, and its display name. */
  datatype Server = Server(id: string, accessKey: AccessKey, name: string)

  // ---- name, address and flag accessors --------------------------------------

  /** The `name` setter: the display name and the access key's name change together. */
  function SetName(s: Server, newName: string): (s': Server)
    ensures s'.name == newName && s'.accessKey.name == newName
    ensures s'.id == s.id
    ensures s'.accessKey.host == s.accessKey.host && s'.accessKey.port == s.accessKey.port
    ensures s'.accessKey.isOutlineServer == s.accessKey.isOutlineServer
  {
    s.(name := newName, accessKey := s.accessKey.(name := newName))
  }

  /** The display name and the access key's name agree (true after any set). */
  predicate NamesInSync(s: Server) {
    s.name == s.accessKey.name
  }

  /** Only the last assignment to `name` is observable; setting twice is setting once. */
  lemma SetNameLastWins(s: Server, a: string, b: string)
    ensures SetName(SetName(s, a), b) == SetName(s, b)
    ensures SetName(SetName(s, a), a) == SetName(s, a)
    ensures NamesInSync(SetName(s, a))
  {
  }

  /** The `address` getter: `host:port`, the port written in decimal. */
  function Address(s: Server): (r: string)
    ensures |r| > |s.accessKey.host| + 1
    ensures r[..|s.accessKey.host|] == s.accessKey.host
    ensures r[|s.accessKey.host|] == ':'
    ensures Decimal.AllDigits(r[|s.accessKey.host| + 1..])
  {
    s.accessKey.host + ":" + Decimal.ToDecimal(s.accessKey.port)
  }

  /** The `isOutlineServer` getter. */
  function IsOutlineServer(s: Server): (r: bool)
    ensures r == s.accessKey.isOutlineServer
  {
    s.accessKey.isOutlineServer
  }

  /**
   * The derived getters read only the access key's host, port and flag:
   * the server id and both names play no part, so renaming never moves a
   * server's address or changes its flag.
   */
  lemma DerivedAccessorsIgnoreNames(s1: Server, s2: Server, n: string)
    requires s1.accessKey.host == s2.accessKey.host && s1.accessKey.port == s2.accessKey.port
    requires s1.accessKey.isOutlineServer == s2.accessKey.isOutlineServer
    ensures Address(s1) == Address(s2)
    ensures IsOutlineServer(s1) == IsOutlineServer(s2)
    ensures Address(SetName(s1, n)) == Address(s1)
    ensures IsOutlineServer(SetName(s1, n)) == IsOutlineServer(s1)
  {
  }

  // ---- reading an address back ------------------------------------------------

  /** The position of the last ':' in `s`, if any. */
  function LastColon(s: string): (r: Option<nat>)
    ensures r.Some? ==> r.value < |s| && s[r.value] == ':'
    ensures r.Some? ==> forall j :: r.value < j < |s| ==> s[j] != ':'
    ensures r.None? ==> forall j :: 0 <= j < |s| ==> s[j] != ':'
  {
    if |s| == 0 then None
    else if s[|s| - 1] == ':' then Some(|s| - 1)
    else LastColon(s[..|s| - 1])
  }

  /**
   * Splits an address at its last ':' into host and decimal port. Hosts may
   * themselves contain ':' (IPv6 literals are written without brackets).
   */
  function ParseAddress(a: string): (r: Option<(string, nat)>)
    ensures r.Some? ==> exists i :: 0 <= i < |a| && a[i] == ':' && a[..i] == r.value.0
  {
    match LastColon(a)
    case None => None
    case Some(i) =>
      var digits := a[i + 1..];
      if |digits| > 0 && Decimal.AllDigits(digits) then Some((a[..i], Decimal.FromDecimal(digits)))
      else None
  }

  /** `address` loses nothing: host and port can be read back from it, for every host. */
  lemma {:induction false} AddressRoundTrip(s: Server)
    ensures ParseAddress(Address(s)) == Some((s.accessKey.host, s.accessKey.port))
  {
    var host, port := s.accessKey.host, s.accessKey.port;
    var a := Address(s);
    var digits := Decimal.ToDecimal(port);
    assert a == host + ":" + digits;
    var i := LastColon(a);
    assert a[|host|] == ':';
    forall j | |host| < j < |a|
      ensures a[j] != ':'
    {
      assert a[j] == digits[j - |host| - 1];
    }
    assert i.Some? && i.value == |host|;
    assert a[|host| + 1..] == digits;
    Decimal.FromToDecimal(port);
  }

  // ---- connect and disconnect -------------------------------------------------

  /**
   * `connect`: starts the tunnel with this server's access key. A failure is
   * translated only when it carries a truthy `errorCode`; any other failure
   * is rethrown unchanged. On success no event is produced here.
   */
  function Connect(s: Server, start: AccessKey -> TunnelResult, fromErrorCode: int -> NativeError)
    : (r: Outcome<Thrown>)
    ensures r.Pass? <==> start(s.accessKey).Pass?
    ensures r.Fail? ==> (r.error.Raised? <==> HasTruthyCode(start(s.accessKey).error))
    ensures r.Fail? && r.error.Raised? ==>
              r.error.error == fromErrorCode(start(s.accessKey).error.errorCode.value)
    ensures r.Fail? && r.error.Rethrown? ==> r.error.failure == start(s.accessKey).error
  {
    match start(s.accessKey)
    case Pass => Pass
    case Fail(f) =>
      if HasTruthyCode(f) then Fail(Raised(fromErrorCode(f.errorCode.value)))
      else Fail(Rethrown(f))
  }

  /**
   * What `connect` throws for a coded failure depends on the code alone,
   * and an uncoded failure is never confused with another one.
   */
  lemma ConnectTranslationPolicy(s: Server, start1: AccessKey -> TunnelResult,
                                 start2: AccessKey -> TunnelResult, fromErrorCode: int -> NativeError)
    requires start1(s.accessKey).Fail? && start2(s.accessKey).Fail?
    ensures HasTruthyCode(start1(s.accessKey).error) && HasTruthyCode(start2(s.accessKey).error)
            && start1(s.accessKey).error.errorCode == start2(s.accessKey).error.errorCode
            ==> Connect(s, start1, fromErrorCode) == Connect(s, start2, fromErrorCode)
    ensures !HasTruthyCode(start1(s.accessKey).error) && !HasTruthyCode(start2(s.accessKey).error)
            ==> (Connect(s, start1, fromErrorCode) == Connect(s, start2, fromErrorCode)
                 <==> start1(s.accessKey) == start2(s.accessKey))
  {
  }

  /**
   * `disconnect`: stops the tunnel. Every failure, whatever its shape, becomes
   * one generic `RegularNativeError`.
   */
  function Disconnect(stop: TunnelResult): (r: Outcome<Thrown>)
    ensures r.Pass? <==> stop.Pass?
    ensures r.Fail? ==> r.error == Raised(RegularNativeError)
  {
    match stop
    case Pass => Pass
    case Fail(_) => Fail(Raised(RegularNativeError))
  }

  /** `disconnect` forgets the cause: any two stop failures look the same to the caller. */
  lemma DisconnectForgetsCause(f1: TunnelFailure, f2: TunnelFailure)
    ensures Disconnect(Fail(f1)) == Disconnect(Fail(f2))
    ensures Disconnect(Fail(f1)) != Disconnect(Pass)
  {
  }

  // ---- probes -----------------------------------------------------------------

  /** `checkRunning`: the tunnel's own answer. */
  function CheckRunning(tunnelIsRunning: bool): (r: bool)
    ensures r <==> tunnelIsRunning
  {
    tunnelIsRunning
  }

  /** `checkReachable`: the networking probe, asked about this server's host and port. */
  function CheckReachable(s: Server, isServerReachable: (string, Port) -> bool): (r: bool)
    ensures r <==> isServerReachable(s.accessKey.host, s.accessKey.port)
  {
    isServerReachable(s.accessKey.host, s.accessKey.port)
  }

  /** Reachability is asked about the endpoint only: id and names play no part. */
  lemma ReachabilityIgnoresNames(s1: Server, s2: Server, isServerReachable: (string, Port) -> bool)
    requires s1.accessKey.host == s2.accessKey.host && s1.accessKey.port == s2.accessKey.port
    ensures CheckReachable(s1, isServerReachable) == CheckReachable(s2, isServerReachable)
  {
  }

  // ---- status changes ---------------------------------------------------------

  /**
   * The tunnel status handler: a recognised status appends exactly one event,
   * referring to this server, at the end of the queue; any other status
   * leaves the queue as it was (and raises nothing).
   */
  function HandleTunnelStatusChange(s: Server, q: EventQueue, status: TunnelStatus): (q': EventQueue)
    ensures status.Connected? <==> q' == q + [ServerConnected(s.id)]
    ensures status.Disconnected? <==> q' == q + [ServerDisconnected(s.id)]
    ensures status.Reconnecting? <==> q' == q + [ServerReconnecting(s.id)]
    ensures status.Unrecognized? <==> q' == q
  {
    match status
    case Connected => Enqueue(q, ServerConnected(s.id))
    case Disconnected => Enqueue(q, ServerDisconnected(s.id))
    case Reconnecting => Enqueue(q, ServerReconnecting(s.id))
    case Unrecognized(_) => q
  }

  /** The handler applied to each status of `ss` in turn. */
  function HandleAll(s: Server, q: EventQueue, ss: seq<TunnelStatus>): (q': EventQueue)
    decreases |ss|
  {
    if |ss| == 0 then q else HandleAll(s, HandleTunnelStatusChange(s, q, ss[0]), ss[1..])
  }

  /** The events a run of statuses produces for server `id`, oldest first. */
  function NewEvents(id: ServerRef, ss: seq<TunnelStatus>): (es: seq<Event>)
    decreases |ss|
  {
    if |ss| == 0 then []
    else
      match EventFor(id, ss[0])
      case Some(e) => [e] + NewEvents(id, ss[1..])
      case None => NewEvents(id, ss[1..])
  }

  /** Handling a run of statuses appends their events and keeps the old queue in front. */
  lemma {:induction false} HandleAllAppends(s: Server, q: EventQueue, ss: seq<TunnelStatus>)
    ensures HandleAll(s, q, ss) == q + NewEvents(s.id, ss)
    decreases |ss|
  {
    if |ss| > 0 {
      var q1 := HandleTunnelStatusChange(s, q, ss[0]);
      HandleAllAppends(s, q1, ss[1..]);
      if IsRecognized(ss[0]) {
        assert q1 == q + [EventFor(s.id, ss[0]).value];
      }
    }
  }

  /**
   * The new events are exactly one per recognised status, in the order of the
   * statuses, and every one refers to server `id`.
   */
  lemma {:induction false} NewEventsMatchStatuses(id: ServerRef, ss: seq<TunnelStatus>)
    ensures StatusesOf(NewEvents(id, ss)) == Recognized(ss)
    ensures |NewEvents(id, ss)| == |Recognized(ss)|
    ensures forall i :: 0 <= i < |NewEvents(id, ss)| ==> NewEvents(id, ss)[i].server == id
    decreases |ss|
  {
    if |ss| > 0 {
      NewEventsMatchStatuses(id, ss[1..]);
      var rest := NewEvents(id, ss[1..]);
      if IsRecognized(ss[0]) {
        var e := EventFor(id, ss[0]).value;
        assert StatusOf(e) == ss[0];
        assert ([e] + rest)[1..] == rest;
      }
    }
  }

  /**
   * A run of status changes keeps the queue's old contents, appends one
   * event per recognised status, in the order of the statuses, and every
   * new event refers to this server.
   */
  lemma HandleAllSpec(s: Server, q: EventQueue, ss: seq<TunnelStatus>)
    ensures |HandleAll(s, q, ss)| == |q| + |Recognized(ss)|
    ensures HandleAll(s, q, ss)[..|q|] == q
    ensures StatusesOf(HandleAll(s, q, ss)[|q|..]) == Recognized(ss)
    ensures forall i :: |q| <= i < |HandleAll(s, q, ss)| ==> HandleAll(s, q, ss)[i].server == s.id
  {
    HandleAllAppends(s, q, ss);
    NewEventsMatchStatuses(s.id, ss);
    var r := HandleAll(s, q, ss);
    assert r[|q|..] == NewEvents(s.id, ss);
    assert r[..|q|] == q;
  }

  /** The handler's output depends on the server only through its id. */
  lemma {:induction false} HandleAllUsesIdOnly(s1: Server, s2: Server, q: EventQueue, ss: seq<TunnelStatus>)
    requires s1.id == s2.id
    ensures HandleAll(s1, q, ss) == HandleAll(s2, q, ss)
    decreases |ss|
  {
    if |ss| > 0 {
      HandleAllUsesIdOnly(s1, s2, HandleTunnelStatusChange(s1, q, ss[0]), ss[1..]);
    }
  }

  /** CONNECTED, RECONNECTING, DISCONNECTED enqueue the three matching events in that order. */
  lemma ConnectReconnectDisconnect(s: Server, q: EventQueue)
    ensures HandleAll(s, q, [Connected, Reconnecting, Disconnected])
            == q + [ServerConnected(s.id), ServerReconnecting(s.id), ServerDisconnected(s.id)]
  {
  }
}
