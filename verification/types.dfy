/**
 * Values shared by the tracer: the hop record, the trace result, the
 * tracer's configuration, the errors a trace can end with, the ICMP type
 * codes the listener cares about, and the configuration check that runs
 * before any probe is sent.
 */
module TraceTypes {

  datatype Option<+T> = None | Some(value: T)

  /** Classification returned by the listener for an ICMP type it ignores. */
  const UnexpectedICMPType: int := -1
  /** ICMP "Destination Unreachable" (type 3 in RFC 792). */
  const ICMPTypeDestinationUnreachable: int := 3
  /** ICMP "Time Exceeded" (type 11 in RFC 792). */
  const ICMPTypeTimeExceeded: int := 11

  /** Defaults installed by the tracer's constructor. */
  const DefaultPort: int := 33434
  const DefaultStartTTL: int := 1
  const DefaultMaxTTL: int := 30
  /** Three seconds, in nanoseconds (a Go time.Duration). */
  const DefaultTimeout: int := 3_000_000_000

  /** One observation: the TTL it was probed with, who answered, the
      reverse-DNS names of the responder, and whether the reply was
      Time Exceeded. */
  datatype Hop = Hop(ttl: int, address: string, host: string, reachable: bool)

  /** The hops of one trace, in the order they were recorded. */
  datatype TraceResult = TraceResult(hops: seq<Hop>)

  /** The tracer's settings, as read by one call of Trace. */
  datatype Config = Config(
    address: string,
    port: int,
    startTTL: int,
    maxTTL: int,
    timeout: int,
    dnsLookup: bool)

  /** Why a configuration is refused, in the order the checks are made. */
  datatype ConfigProblem = StartTTLTooSmall | AddressMissing | PortOutOfRange

  /** The errors Trace can return. */
  datatype TraceError =
    | InvalidConfig(problem: ConfigProblem)
    | ResolveError
    | DialError
    | WriteError

  /** The configuration invariant: a positive start TTL, a target, and a
      port in the 16-bit range without port 0. */
  predicate ValidConfig(c: Config) {
    c.startTTL >= 1 && c.address != "" && 1 <= c.port <= 65535
  }

  /** The checks at the top of Trace; the first one that fails decides
      the error. */
  function Validate(c: Config): (r: Option<ConfigProblem>)
    ensures r.None? <==> ValidConfig(c)
    ensures r == Some(StartTTLTooSmall) <==> c.startTTL < 1
    ensures r == Some(AddressMissing) <==> c.startTTL >= 1 && c.address == ""
    ensures r == Some(PortOutOfRange) <==>
      c.startTTL >= 1 && c.address != "" && (c.port < 1 || c.port > 65535)
  {
    if c.startTTL < 1 then Some(StartTTLTooSmall)
    else if c.address == "" then Some(AddressMissing)
    else if c.port < 1 || c.port > 65535 then Some(PortOutOfRange)
    else None
  }

  /** The most loop iterations a trace starting at `ttl` can make:
      one per TTL up to `maxTTL`, and at least one in any case, because
      the loop tests the bound only after the first probe. */
  function ProbeBound(ttl: int, maxTTL: int): nat {
    if ttl <= maxTTL then maxTTL - ttl + 1 else 1
  }

  /** A freshly constructed tracer refuses to trace until its address is
      set, and is valid as soon as it is. */
  lemma DefaultsNeedOnlyAnAddress(address: string)
    ensures var c := Config(address, DefaultPort, DefaultStartTTL, DefaultMaxTTL, DefaultTimeout, true);
      (address == "" ==> Validate(c) == Some(AddressMissing)) &&
      (address != "" ==> Validate(c) == None)
  {
  }
}
