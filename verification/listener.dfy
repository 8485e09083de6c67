/**
 * The response listener: what receiveICMP makes of one listening attempt.
 * Opening the ICMP socket, waiting for a packet and parsing it happen
 * outside the model; a ListenEvent says how that attempt ended.
 */
module Listener {
  import opened TraceTypes

  /** How one listening attempt ended. `Received` carries the peer's
      address text as the socket reports it ("ip:port") and the ICMP type
      of the parsed message. */
  datatype ListenEvent =
    | ListenPacketFailed
    | ReadFromFailed        // includes the read deadline expiring
    | ParseMessageFailed
    | Received(peer: string, icmpType: int)

  /** The error receiveICMP reports alongside its result. */
  datatype ReceiveError =
    | ListenPacketError
    | ReadFromError
    | ParseMessageError
    | UnexpectedTypeError

  /** receiveICMP's three results: responder address, classification, error. */
  datatype Reply = Reply(address: string, response: int, err: Option<ReceiveError>)

  /** The text before the first ':' of `s` (all of `s` when it has none),
      which is what taking element 0 of a split on ":" keeps. */
  function HostPart(s: string): (r: string)
    ensures r <= s
    ensures ':' !in r
    ensures |r| < |s| ==> s[|r|] == ':'
  {
    if s == [] || s[0] == ':' then [] else [s[0]] + HostPart(s[1..])
  }

  /** Stripping the port from "host:port" gives the host back, whenever the
      host itself contains no ':'. */
  lemma {:induction false} HostPartOfHostPort(host: string, port: string)
    requires ':' !in host
    ensures HostPart(host + ":" + port) == host
  {
    var s := host + ":" + port;
    var r := HostPart(s);
    assert s[|host|] == ':';
    assert forall j :: 0 <= j < |host| ==> s[j] == host[j];
    assert |r| == |host|;
    assert r == s[..|r|] == host;
  }

  /** receiveICMP with its I/O replaced by the event it observed. Every
      failure reports the "*" address; only Time Exceeded and Destination
      Unreachable come back without an error, with the peer's host part;
      any other type is reported as UnexpectedICMPType. */
  function ReceiveICMP(ev: ListenEvent): (r: Reply)
    ensures r.err.None? <==>
      ev.Received? && (ev.icmpType == ICMPTypeTimeExceeded || ev.icmpType == ICMPTypeDestinationUnreachable)
    ensures r.err.None? ==> r.address == HostPart(ev.peer) && r.response == ev.icmpType
    ensures r.err.Some? ==> r.address == "*"
    ensures !ev.Received? ==> r.response == 0
    ensures r.response == UnexpectedICMPType <==> ev.Received? && r.err.Some?
  {
    match ev
    case ListenPacketFailed => Reply("*", 0, Some(ListenPacketError))
    case ReadFromFailed => Reply("*", 0, Some(ReadFromError))
    case ParseMessageFailed => Reply("*", 0, Some(ParseMessageError))
    case Received(peer, icmpType) =>
      var address := HostPart(peer);
      if icmpType == ICMPTypeTimeExceeded then Reply(address, ICMPTypeTimeExceeded, None)
      else if icmpType == ICMPTypeDestinationUnreachable then Reply(address, ICMPTypeDestinationUnreachable, None)
      else Reply("*", UnexpectedICMPType, Some(UnexpectedTypeError))
  }
}
