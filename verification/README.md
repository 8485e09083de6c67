# go-traceroute: the trace loop, modelled in Dafny

This project models the core of the Go package `traceroute`. The package
finds the routers between this host and a target. It sends UDP probes with
time-to-live (TTL) values that go up by one each time, and it listens for
the ICMP replies that routers send back. The model covers three things:

- **Configuration check** (`TraceTypes`, `types.dfy`). `Validate` runs the
  three checks at the top of `Tracer.Trace`. `ProbeBound` is the most loop
  iterations a trace can make.
- **Response listener** (`Listener`, `listener.dfy`). `ReceiveICMP` is
  `receiveICMP` without its sockets. An input, a `ListenEvent`, says how
  the listening attempt ended: the ICMP socket could not be opened, the
  read failed or timed out, the parse failed, or a message of some ICMP
  type arrived from some peer. `HostPart` keeps the peer text before its
  first `:`.
- **Trace orchestrator** (`Orchestrator`, `orchestrator.dfy`, and
  `Traceroute`, `tracer.dfy`).
  - `Tracer` is a class with the fields of the Go struct. Its result
    channel is a `HopChannel` object: the sequence of hops sent on it,
    which `Send` extends in place.
  - `Tracer.Trace` runs the configuration check and then `ProbeLoop`, the
    TTL loop as an imperative method. In each iteration the loop appends
    the recorded hop to its hop list and sends it on the channel
    (`Record`).
  - `ProbeLoop` is proved equal to `RunFrom`, and `Trace` to `TraceSpec`.
    These two functions state the same loop recursively.
  - The properties of a whole trace are lemmas about `TraceSpec` and
    `RunFrom`.

Network I/O is replaced by an oracle. Each loop iteration consumes one
`Probe` from a sequence. A `Probe` is either a failure to resolve, dial or
write, or `Probed(listen, lookup)`. Here `listen` is the listener's event,
and `lookup` is the list of names the reverse-DNS lookup returned, an
unconstrained input (see "Left out"). The loop makes at most `ProbeBound(StartTTL,
MaxTTL)` iterations, so `Trace` requires the oracle to have at least that
many entries. That requirement is about the oracle, not about the tracer.

Some behaviours of `traceroute.go` that the model keeps as they are:

- A read timeout, and any other listener failure (opening the ICMP socket,
  reading, parsing), records a `"*"` hop and then ends the trace with a nil
  error. It does not go on to the next TTL.
- A failure to open the ICMP socket is treated like a read failure. It is
  not a hard error.
- A resolve, dial or write failure returns the hops gathered so far together
  with the error.
- The error from `SetReadDeadline` is ignored.

## Model

| member | source | states |
|---|---|---|
| `TraceTypes.Validate` | traceroute.go:59-67 | The configuration is refused exactly when StartTTL < 1, Address is empty, or Port is outside 1..65535. The error names the first check that fails, in that order. |
| `TraceTypes.DefaultsNeedOnlyAnAddress` | traceroute.go:44-67 | A tracer with the constructor's defaults is refused for its missing address, and is valid once any non-empty address is set. |
| `Listener.HostPart` | traceroute.go:162-163 | The kept text is a prefix of the peer string. It contains no `:`. It stops at the first `:` or at the end of the string. |
| `Listener.HostPartOfHostPort` | traceroute.go:162-163 | For `host:port` where the host has no `:`, the kept text is exactly the host. |
| `Listener.ReceiveICMP` | traceroute.go:142-174 | The error is nil exactly for Time Exceeded (11) and Destination Unreachable (3). In that case the result carries the peer's host part and that type. Every failure reports address `"*"`. Socket, read and parse failures report type 0. Any other ICMP type reports `UnexpectedICMPType` (-1). |
| `Orchestrator.Join` | traceroute.go:110 | Go's `strings.Join`: definition only; the hops' Host field is this join of the looked-up names with `", "`. |
| `Orchestrator.MakeHop` | traceroute.go:106-112 | Definition of the `Hop` literal: TTL, listener address, joined host when DNS lookup is on (else empty), Reachable when the type was Time Exceeded. Its properties are `RunFromHopsFollowProbes` and `RunFromWithoutLookup`. |
| `Orchestrator.Records` | traceroute.go:105 | Definition: a reply is recorded unless its type is `UnexpectedICMPType`. Used with `Cancels` in `ContinuesIffTimeExceeded`. |
| `Orchestrator.Cancels` | traceroute.go:116 | Definition: a reply cancels the trace when it carries an error or is Destination Unreachable. Used with `Records` in `ContinuesIffTimeExceeded`. |
| `Orchestrator.RunFrom` | traceroute.go:74-136 | Definition of the loop from iteration i on; its properties are the lemmas `RunFromBounds`, `RunFromHopsFollowProbes`, `RunFromOnlyLastStops`, `StopsAt`, `RunFromLast` and `RunFromWithoutLookup`, and `ProbeLoop` is proved equal to it. |
| `Orchestrator.TraceSpec` | traceroute.go:57-138 | Definition of a whole `Trace` call: the configuration check, then `RunFrom` from the first iteration. Its properties are the lemmas `ProbesOnlyWhenValid` through `NoLookupLeavesHostEmpty` below, and `Tracer.Trace` is proved equal to it. |
| `Orchestrator.ContinuesIffTimeExceeded` | traceroute.go:105-118 | An iteration's reply is recorded and does not cancel the trace exactly when it was Time Exceeded. |
| `Orchestrator.RunFromBounds` | traceroute.go:74-135 | The loop runs at least once and at most max(1, MaxTTL - ttl + 1) times. It records one hop per iteration, except that the last iteration may record none. |
| `Orchestrator.RunFromHopsFollowProbes` | traceroute.go:105-114 | In the loop from iteration i on, hop k comes from iteration i + k's reply, which is not an unexpected type. The hop carries TTL StartTTL + i + k, that reply's address, the looked-up host and the Time Exceeded flag. |
| `Orchestrator.RunFromOnlyLastStops` | traceroute.go:116-135 | Every iteration before the last one got Time Exceeded, and its TTL was still below MaxTTL. |
| `Orchestrator.StopsAt` | traceroute.go:116-135 | An iteration after which the loop does not go on (no Time Exceeded reply, or a setup failure) is the last iteration. |
| `Orchestrator.RunFromLast` | traceroute.go:74-135 | The last iteration decides the outcome. A setup failure gives that error and no hop for that iteration. Otherwise the error is nil, and the iteration has a hop exactly when its reply was recorded. A trace whose last reply was Time Exceeded stopped because it reached MaxTTL. |
| `Orchestrator.RunFromWithoutLookup` | traceroute.go:99-112 | Turning DNS lookup off changes only the hosts, which become empty. The error, the number of iterations and every other hop field stay the same. |
| `Orchestrator.ProbesOnlyWhenValid` | traceroute.go:57-130 | An invalid configuration returns no hops and its configuration error after zero probes. A valid one probes between 1 and max(1, MaxTTL - StartTTL + 1) times and never returns a configuration error. |
| `Orchestrator.InvalidConfigIgnoresNetwork` | traceroute.go:59-67 | With an invalid configuration, the outcome does not depend on the network at all. |
| `Orchestrator.StartAboveMaxProbesOnce` | traceroute.go:69-130 | When StartTTL > MaxTTL, the trace still probes exactly once. |
| `Orchestrator.HopTTLsConsecutive` | traceroute.go:69-129 | Hop k has TTL StartTTL + k. So TTLs strictly increase, start at StartTTL and do not exceed MaxTTL, except for a single probe at StartTTL. |
| `Orchestrator.HopsReachableIffTimeExceeded` | traceroute.go:105-113 | There are no more hops than probes. Every hop comes from a completed probe and carries that listener's address. It is Reachable exactly when the ICMP type was Time Exceeded. |
| `Orchestrator.EarlierIterationsTimeExceeded` | traceroute.go:116-135 | Every iteration but the last received a Time Exceeded message. |
| `Orchestrator.UnexpectedTypeStopsWithoutHop` | traceroute.go:105-118 | An unexpected ICMP type ends the trace at that iteration. It records no hop and returns a nil error. |
| `Orchestrator.ListenerFailureRecordsStarHop` | traceroute.go:142-160 | A listen, read or parse failure ends the trace at that iteration. It records a `"*"` hop that is not reachable, has that iteration's TTL, and is returned with a nil error. |
| `Orchestrator.DestinationUnreachableEndsTrace` | traceroute.go:116-133 | Destination Unreachable ends the trace at that iteration. It records an unreachable hop for the responder's host and returns a nil error. |
| `Orchestrator.SetupFailureKeepsEarlierHops` | traceroute.go:75-124 | A resolve, dial or write failure ends the trace at that iteration. It returns that error and exactly the earlier iterations' hops. |
| `Orchestrator.TimeExceededContinues` | traceroute.go:111-130 | A Time Exceeded reply records a reachable hop. The trace goes on after it unless its TTL reached MaxTTL. |
| `Orchestrator.NoLookupLeavesHostEmpty` | traceroute.go:99-112 | With DNSLookup false, every hop's Host is empty. Error, hop count, TTL, Address and Reachable match the same trace with lookups on. |
| `Traceroute.Tracer.New` | traceroute.go:44-54 | Port 33434, StartTTL 1, MaxTTL 30, a 3 s timeout, DNS lookup on, no address and a new, empty result channel. |
| `Traceroute.HopChannel.Make` | traceroute.go:52 | `make(chan Hop, 1024)`: a new channel on which nothing has been sent. |
| `Traceroute.HopChannel.Send` | traceroute.go:115 | The channel's contents gain exactly the sent hop, at the end. |
| `Traceroute.Record` | traceroute.go:105-116 | The hop is appended to the trace's hop list and sent on the channel. If the channel carried exactly that list before, it does so afterwards. |
| `Traceroute.ProbeLoop` | traceroute.go:69-139 | With a valid configuration, the loop returns the hops and error that `RunFrom` gives from the first iteration. It sends on the channel exactly the returned hops, in the same order. |
| `Traceroute.Tracer.Trace` | traceroute.go:57-139 | Returns the hops and error that `TraceSpec` gives for the tracer's settings and the probe outcomes. It sends on the result channel exactly the returned hops, in the same order, and changes nothing else. |

## Left out

- Sockets: resolving the address, dialing, setting `IP_TTL` and writing the empty datagram (traceroute.go:75-93, 121). Each is only an outcome in the oracle. The ignored error of `SetsockoptInt` is not modelled, and neither are TTLs above 255.
- `SyscallConn`'s error (traceroute.go:85-91): the code calls `Control` before checking it, and that error cannot happen for a connection that was just dialed.
- Receiving (`icmp.ListenPacket`, `SetReadDeadline`, `ReadFrom`, `icmp.ParseMessage`, traceroute.go:144-161): the network and the ICMP parser are replaced by the `ListenEvent` input. `Timeout` is kept as a field, but its only effect is on which event occurs.
- Concurrency: the listener goroutine, the `WaitGroup` and `cancelChan`. `Trace` waits for the listener in every iteration before it reads `cancelChan`, so the model runs them in sequence. After a failed write, `Trace` returns without waiting for the listener (traceroute.go:121-124). The still-running listener can then send one more hop on `ResultChan`, and it can also append that hop to `traceResult.Hops` (traceroute.go:113) before the return reads the list, so the returned hops may include the failing iteration's hop. That race is not modelled: the model always returns only the earlier iterations' hops.
- `ResultChan`'s capacity of 1024 (traceroute.go:52). The channel is an unbounded sequence, so the model does not show a sender that blocks when the buffer is full and nobody reads it.
- A nil `ResultChan`: a `Tracer` built as a struct literal rather than by `New` has no channel. Its listener goroutine then blocks forever on the first recorded hop (traceroute.go:114), `wg.Wait()` (traceroute.go:126) never returns, and `Trace` hangs. In the model `resultChan` is always a `HopChannel` object, so this hang cannot be expressed.
- `Latency`: a float computed from the wall clock (traceroute.go:101).
- Reverse DNS: `net.LookupAddr` is a foreign call (traceroute.go:103). Its result is an unconstrained input, the `lookup` list, which is joined with `", "`. The code drops the lookup error and joins whatever names came back, so the model does not tie the list to the address. It therefore also admits a host name on a `"*"` hop, which a real lookup of `"*"` cannot produce.
- `Hop.response`: this internal field is never assigned by `Trace`, so it is omitted.
- Go's 64-bit `int`: TTLs and ports are unbounded integers. When `ttl` reaches `math.MaxInt` (`MaxTTL == math.MaxInt`, or `StartTTL == math.MaxInt`, which the configuration check allows), `ttl++` at traceroute.go:127 wraps to `math.MinInt`, the `ttl > MaxTTL` test fails, and the loop goes on after a Time Exceeded reply with negative TTLs. The model does not capture this wrap-around.
- StartAboveMaxProbesOnce: holds for the program only when `StartTTL < math.MaxInt`; at `StartTTL == math.MaxInt` the wrap-around above makes Go probe again after a Time Exceeded reply.
- HopTTLsConsecutive: holds for the program only while `ttl` stays below `math.MaxInt`; past it Go's TTLs wrap to negative values and no longer increase.
- `defer outgoing.Close()` (traceroute.go:93): resource release has no observable effect on the result.
