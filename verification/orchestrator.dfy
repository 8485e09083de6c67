/**
 * The trace orchestrator as a specification: the TTL loop of Trace written
 * as a recursive function over the outcomes of its probes, and the
 * properties of a whole trace proved about it.
 *
 * The network is replaced by an oracle: entry k of `ps` says how the k-th
 * loop iteration's probe went, either a failure while preparing or sending
 * it, or the listener's event together with the names a reverse-DNS lookup
 * of the responder gave, an unconstrained input.
 */
module Orchestrator {
  import opened TraceTypes
  import opened Listener

  datatype Probe =
    | ResolveFailed
    | DialFailed
    | WriteFailed
    | Probed(listen: ListenEvent, lookup: seq<string>)

  /** What a trace produced: its hops, its error, and how many loop
      iterations (probes) it took. */
  datatype Run = Run(hops: seq<Hop>, err: Option<TraceError>, iterations: nat)

  /** The error a failed probe setup aborts the trace with. */
  function SetupError(p: Probe): TraceError
    requires !p.Probed?
  {
    match p
    case ResolveFailed => ResolveError
    case DialFailed => DialError
    case WriteFailed => WriteError
  }

  /** Go's strings.Join. */
  function Join(xs: seq<string>, sep: string): string {
    if |xs| == 0 then ""
    else if |xs| == 1 then xs[0]
    else xs[0] + sep + Join(xs[1..], sep)
  }

  /** The hop recorded for a reply at `ttl`. */
  function MakeHop(c: Config, ttl: int, reply: Reply, lookup: seq<string>): Hop {
    Hop(ttl, reply.address,
        if c.dnsLookup then Join(lookup, ", ") else "",
        reply.response == ICMPTypeTimeExceeded)
  }

  /** A reply is recorded as a hop unless it was an unexpected ICMP type. */
  predicate Records(reply: Reply) {
    reply.response != UnexpectedICMPType
  }

  /** A reply ends the trace when it carries an error or is Destination
      Unreachable. */
  predicate Cancels(reply: Reply) {
    reply.err.Some? || reply.response == ICMPTypeDestinationUnreachable
  }

  /** A probe whose reply is recorded. */
  predicate Recorded(p: Probe) {
    p.Probed? && Records(ReceiveICMP(p.listen))
  }

  /** A probe after which the loop goes on, unless MaxTTL is reached. */
  predicate Continues(p: Probe) {
    p.Probed? && Records(ReceiveICMP(p.listen)) && !Cancels(ReceiveICMP(p.listen))
  }

  /** The loop of Trace from iteration `i` on; iteration i probes with
      TTL StartTTL + i and is told its outcome by ps[i]. */
  function RunFrom(c: Config, ps: seq<Probe>, i: nat): Run
    requires i < |ps| && |ps| - i >= ProbeBound(c.startTTL + i, c.maxTTL)
    decreases |ps| - i
  {
    var ttl := c.startTTL + i;
    if !ps[i].Probed? then Run([], Some(SetupError(ps[i])), 1)
    else
      var reply := ReceiveICMP(ps[i].listen);
      var recorded := if Records(reply) then [MakeHop(c, ttl, reply, ps[i].lookup)] else [];
      if ttl + 1 > c.maxTTL || Cancels(reply) then Run(recorded, None, 1)
      else
        var rest := RunFrom(c, ps, i + 1);
        Run(recorded + rest.hops, rest.err, rest.iterations + 1)
  }

  /** A whole call of Trace: the configuration check, then the loop. */
  function TraceSpec(c: Config, ps: seq<Probe>): Run
    requires ValidConfig(c) ==> |ps| >= ProbeBound(c.startTTL, c.maxTTL)
  {
    match Validate(c)
    case Some(problem) => Run([], Some(InvalidConfig(problem)), 0)
    case None => RunFrom(c, ps, 0)
  }

  // ---------------------------------------------------------------------
  // The one-step classification

  /** The loop goes on after exactly the Time Exceeded replies. */
  lemma ContinuesIffTimeExceeded(p: Probe)
    ensures Continues(p) <==>
      p.Probed? && p.listen.Received? && p.listen.icmpType == ICMPTypeTimeExceeded
  {
  }

  // ---------------------------------------------------------------------
  // One iteration of the loop, unfolded, in its three cases

  lemma RunFromSetupFailure(c: Config, ps: seq<Probe>, i: nat)
    requires i < |ps| && |ps| - i >= ProbeBound(c.startTTL + i, c.maxTTL)
    requires !ps[i].Probed?
    ensures RunFrom(c, ps, i).hops == [] && RunFrom(c, ps, i).err == Some(SetupError(ps[i]))
  {
  }

  lemma RunFromStops(c: Config, ps: seq<Probe>, i: nat, reply: Reply, recorded: seq<Hop>)
    requires i < |ps| && |ps| - i >= ProbeBound(c.startTTL + i, c.maxTTL)
    requires ps[i].Probed? && reply == ReceiveICMP(ps[i].listen)
    requires recorded == if Records(reply) then [MakeHop(c, c.startTTL + i, reply, ps[i].lookup)] else []
    requires c.startTTL + i + 1 > c.maxTTL || Cancels(reply)
    ensures RunFrom(c, ps, i).hops == recorded && RunFrom(c, ps, i).err == None
  {
  }

  lemma RunFromGoesOn(c: Config, ps: seq<Probe>, i: nat, reply: Reply, recorded: seq<Hop>)
    requires i < |ps| && |ps| - i >= ProbeBound(c.startTTL + i, c.maxTTL)
    requires ps[i].Probed? && reply == ReceiveICMP(ps[i].listen)
    requires recorded == if Records(reply) then [MakeHop(c, c.startTTL + i, reply, ps[i].lookup)] else []
    requires !(c.startTTL + i + 1 > c.maxTTL || Cancels(reply))
    ensures i + 1 < |ps| && |ps| - (i + 1) >= ProbeBound(c.startTTL + i + 1, c.maxTTL)
    ensures RunFrom(c, ps, i).hops == recorded + RunFrom(c, ps, i + 1).hops
    ensures RunFrom(c, ps, i).err == RunFrom(c, ps, i + 1).err
  {
  }

  // ---------------------------------------------------------------------
  // Properties of the loop, by induction on the iterations

  lemma {:induction false} RunFromBounds(c: Config, ps: seq<Probe>, i: nat)
    requires i < |ps| && |ps| - i >= ProbeBound(c.startTTL + i, c.maxTTL)
    ensures var r := RunFrom(c, ps, i);
      1 <= r.iterations <= ProbeBound(c.startTTL + i, c.maxTTL) &&
      r.iterations - 1 <= |r.hops| <= r.iterations
    decreases |ps| - i
  {
    if ps[i].Probed? {
      var reply := ReceiveICMP(ps[i].listen);
      if !(c.startTTL + i + 1 > c.maxTTL || Cancels(reply)) {
        RunFromBounds(c, ps, i + 1);
      }
    }
  }

  lemma {:induction false} RunFromHopsFollowProbes(c: Config, ps: seq<Probe>, i: nat, k: nat)
    requires i < |ps| && |ps| - i >= ProbeBound(c.startTTL + i, c.maxTTL)
    requires k < |RunFrom(c, ps, i).hops|
    ensures i + k < |ps| && Recorded(ps[i + k])
    ensures RunFrom(c, ps, i).hops[k] ==
      MakeHop(c, c.startTTL + i + k, ReceiveICMP(ps[i + k].listen), ps[i + k].lookup)
    decreases |ps| - i
  {
    if k > 0 {
      var r := RunFrom(c, ps, i);
      var reply := ReceiveICMP(ps[i].listen);
      var rest := RunFrom(c, ps, i + 1);
      assert r.hops == [MakeHop(c, c.startTTL + i, reply, ps[i].lookup)] + rest.hops;
      RunFromHopsFollowProbes(c, ps, i + 1, k - 1);
      assert r.hops[k] == rest.hops[k - 1];
    }
  }

  lemma {:induction false} RunFromOnlyLastStops(c: Config, ps: seq<Probe>, i: nat, k: nat)
    requires i < |ps| && |ps| - i >= ProbeBound(c.startTTL + i, c.maxTTL)
    requires k < RunFrom(c, ps, i).iterations - 1
    ensures i + k < |ps| && Continues(ps[i + k]) && c.startTTL + i + k < c.maxTTL
    decreases |ps| - i
  {
    if k > 0 {
      RunFromOnlyLastStops(c, ps, i + 1, k - 1);
    }
  }

  lemma {:induction false} RunFromLast(c: Config, ps: seq<Probe>, i: nat)
    requires i < |ps| && |ps| - i >= ProbeBound(c.startTTL + i, c.maxTTL)
    ensures 1 <= RunFrom(c, ps, i).iterations && i + RunFrom(c, ps, i).iterations <= |ps|
    ensures var r := RunFrom(c, ps, i); var p := ps[i + r.iterations - 1];
      (!p.Probed? ==> r.err == Some(SetupError(p)) && |r.hops| == r.iterations - 1) &&
      (p.Probed? ==> r.err == None && (|r.hops| == r.iterations <==> Records(ReceiveICMP(p.listen)))) &&
      (Continues(p) ==> c.startTTL + i + r.iterations - 1 >= c.maxTTL)
    decreases |ps| - i
  {
    RunFromBounds(c, ps, i);
    if ps[i].Probed? {
      var reply := ReceiveICMP(ps[i].listen);
      if !(c.startTTL + i + 1 > c.maxTTL || Cancels(reply)) {
        RunFromLast(c, ps, i + 1);
      }
    }
  }

  lemma {:induction false} RunFromWithoutLookup(c: Config, ps: seq<Probe>, i: nat)
    requires i < |ps| && |ps| - i >= ProbeBound(c.startTTL + i, c.maxTTL)
    ensures var r := RunFrom(c, ps, i);
      var r' := RunFrom(c.(dnsLookup := false), ps, i);
      r'.err == r.err && r'.iterations == r.iterations && |r'.hops| == |r.hops| &&
      forall k :: 0 <= k < |r.hops| ==> r'.hops[k] == r.hops[k].(host := "")
    decreases |ps| - i
  {
    var c' := c.(dnsLookup := false);
    var r := RunFrom(c, ps, i);
    var r' := RunFrom(c', ps, i);
    if ps[i].Probed? {
      var reply := ReceiveICMP(ps[i].listen);
      if !(c.startTTL + i + 1 > c.maxTTL || Cancels(reply)) {
        var rest := RunFrom(c, ps, i + 1);
        var rest' := RunFrom(c', ps, i + 1);
        RunFromWithoutLookup(c, ps, i + 1);
        assert r.hops == [MakeHop(c, c.startTTL + i, reply, ps[i].lookup)] + rest.hops;
        assert r'.hops == [MakeHop(c', c.startTTL + i, reply, ps[i].lookup)] + rest'.hops;
        forall k | 0 <= k < |r.hops|
          ensures r'.hops[k] == r.hops[k].(host := "")
        {
          if k > 0 {
            assert r.hops[k] == rest.hops[k - 1];
            assert r'.hops[k] == rest'.hops[k - 1];
          }
        }
      }
    }
  }

  // ---------------------------------------------------------------------
  // Properties of a whole trace

  /** A configuration error is returned with no hops, before any probe; a
      valid configuration always probes at least once and at most once per
      TTL from StartTTL to MaxTTL. */
  lemma ProbesOnlyWhenValid(c: Config, ps: seq<Probe>)
    requires ValidConfig(c) ==> |ps| >= ProbeBound(c.startTTL, c.maxTTL)
    ensures var r := TraceSpec(c, ps);
      (r.iterations == 0 <==> !ValidConfig(c)) &&
      (!ValidConfig(c) ==> r.hops == [] && r.err == Some(InvalidConfig(Validate(c).value))) &&
      (ValidConfig(c) ==> r.iterations <= ProbeBound(c.startTTL, c.maxTTL) && |r.hops| <= r.iterations) &&
      (ValidConfig(c) ==> !(r.err.Some? && r.err.value.InvalidConfig?))
  {
    if ValidConfig(c) {
      RunFromBounds(c, ps, 0);
      RunFromLast(c, ps, 0);
    }
  }

  /** A configuration error does not depend on the network at all. */
  lemma InvalidConfigIgnoresNetwork(c: Config, ps: seq<Probe>, qs: seq<Probe>)
    requires !ValidConfig(c)
    ensures TraceSpec(c, ps) == TraceSpec(c, qs)
  {
  }

  /** Even with StartTTL above MaxTTL the loop probes once. */
  lemma StartAboveMaxProbesOnce(c: Config, ps: seq<Probe>)
    requires ValidConfig(c) && c.startTTL > c.maxTTL && |ps| >= 1
    ensures TraceSpec(c, ps).iterations == 1
  {
    RunFromBounds(c, ps, 0);
  }

  /** Hop k was probed with TTL StartTTL + k, so TTLs strictly increase,
      and each lies between StartTTL and MaxTTL (or is StartTTL itself). */
  lemma HopTTLsConsecutive(c: Config, ps: seq<Probe>)
    requires ValidConfig(c) && |ps| >= ProbeBound(c.startTTL, c.maxTTL)
    ensures var hops := TraceSpec(c, ps).hops;
      (forall k :: 0 <= k < |hops| ==> hops[k].ttl == c.startTTL + k) &&
      (forall j, k :: 0 <= j < k < |hops| ==> hops[j].ttl < hops[k].ttl) &&
      (forall k :: 0 <= k < |hops| ==>
        c.startTTL <= hops[k].ttl && (hops[k].ttl <= c.maxTTL || hops[k].ttl == c.startTTL))
  {
    var r := TraceSpec(c, ps);
    assert r == RunFrom(c, ps, 0);
    RunFromBounds(c, ps, 0);
    forall k | 0 <= k < |r.hops|
      ensures r.hops[k].ttl == c.startTTL + k
    {
      RunFromHopsFollowProbes(c, ps, 0, k);
    }
  }

  /** Hop k is built from iteration k's reply, and is reachable exactly
      when that reply was Time Exceeded. */
  lemma HopsReachableIffTimeExceeded(c: Config, ps: seq<Probe>)
    requires ValidConfig(c) && |ps| >= ProbeBound(c.startTTL, c.maxTTL)
    ensures |TraceSpec(c, ps).hops| <= |ps|
    ensures var hops := TraceSpec(c, ps).hops;
      forall k :: 0 <= k < |hops| ==>
        ps[k].Probed? &&
        hops[k].address == ReceiveICMP(ps[k].listen).address &&
        (hops[k].reachable <==> ps[k].listen.Received? && ps[k].listen.icmpType == ICMPTypeTimeExceeded)
  {
    var r := TraceSpec(c, ps);
    assert r == RunFrom(c, ps, 0);
    RunFromBounds(c, ps, 0);
    forall k | 0 <= k < |r.hops|
      ensures ps[k].Probed? &&
        r.hops[k].address == ReceiveICMP(ps[k].listen).address &&
        (r.hops[k].reachable <==> ps[k].listen.Received? && ps[k].listen.icmpType == ICMPTypeTimeExceeded)
    {
      RunFromHopsFollowProbes(c, ps, 0, k);
      var reply := ReceiveICMP(ps[k].listen);
      assert r.hops[k].reachable <==> reply.response == ICMPTypeTimeExceeded;
      assert reply.response == ICMPTypeTimeExceeded ==> reply.err.None?;
    }
  }

  /** Every iteration before the last got a Time Exceeded reply. */
  lemma EarlierIterationsTimeExceeded(c: Config, ps: seq<Probe>)
    requires ValidConfig(c) && |ps| >= ProbeBound(c.startTTL, c.maxTTL)
    ensures TraceSpec(c, ps).iterations <= |ps|
    ensures var r := TraceSpec(c, ps);
      forall k :: 0 <= k < r.iterations - 1 ==>
        ps[k].Probed? && ps[k].listen.Received? &&
        ps[k].listen.icmpType == ICMPTypeTimeExceeded
  {
    RunFromBounds(c, ps, 0);
    var r := TraceSpec(c, ps);
    assert r == RunFrom(c, ps, 0);
    forall k | 0 <= k < r.iterations - 1
      ensures ps[k].Probed? && ps[k].listen.Received? &&
        ps[k].listen.icmpType == ICMPTypeTimeExceeded
    {
      RunFromOnlyLastStops(c, ps, 0, k);
      ContinuesIffTimeExceeded(ps[k]);
    }
  }

  /** An iteration that does not go on is the last one. */
  lemma StopsAt(c: Config, ps: seq<Probe>, k: nat)
    requires |ps| >= ProbeBound(c.startTTL, c.maxTTL)
    requires k < |ps| && k < RunFrom(c, ps, 0).iterations
    requires !Continues(ps[k])
    ensures k == RunFrom(c, ps, 0).iterations - 1
  {
    if k < RunFrom(c, ps, 0).iterations - 1 {
      RunFromOnlyLastStops(c, ps, 0, k);
    }
  }

  /** An unexpected ICMP type records no hop and ends the trace without
      an error. */
  lemma UnexpectedTypeStopsWithoutHop(c: Config, ps: seq<Probe>, k: nat)
    requires ValidConfig(c) && |ps| >= ProbeBound(c.startTTL, c.maxTTL)
    requires k < |ps| && k < TraceSpec(c, ps).iterations
    requires ps[k].Probed? && ps[k].listen.Received?
    requires ps[k].listen.icmpType != ICMPTypeTimeExceeded
    requires ps[k].listen.icmpType != ICMPTypeDestinationUnreachable
    ensures var r := TraceSpec(c, ps);
      k == r.iterations - 1 && |r.hops| == k && r.err == None
  {
    var r := RunFrom(c, ps, 0);
    assert TraceSpec(c, ps) == r;
    var reply := ReceiveICMP(ps[k].listen);
    assert !Records(reply);
    StopsAt(c, ps, k);
    RunFromBounds(c, ps, 0);
    RunFromLast(c, ps, 0);
  }

  /** A listen, read or parse failure records a "*" hop that is not
      reachable, then ends the trace without an error. */
  lemma ListenerFailureRecordsStarHop(c: Config, ps: seq<Probe>, k: nat)
    requires ValidConfig(c) && |ps| >= ProbeBound(c.startTTL, c.maxTTL)
    requires k < |ps| && k < TraceSpec(c, ps).iterations
    requires ps[k].Probed? && !ps[k].listen.Received?
    ensures var r := TraceSpec(c, ps);
      k == r.iterations - 1 && |r.hops| == k + 1 && r.err == None &&
      r.hops[k].address == "*" && !r.hops[k].reachable && r.hops[k].ttl == c.startTTL + k
  {
    var r := RunFrom(c, ps, 0);
    assert TraceSpec(c, ps) == r;
    var reply := ReceiveICMP(ps[k].listen);
    assert Records(reply) && Cancels(reply);
    StopsAt(c, ps, k);
    RunFromLast(c, ps, 0);
    RunFromHopsFollowProbes(c, ps, 0, k);
  }

  /** Destination Unreachable records an unreachable hop for the
      responder, then ends the trace without an error. */
  lemma DestinationUnreachableEndsTrace(c: Config, ps: seq<Probe>, k: nat)
    requires ValidConfig(c) && |ps| >= ProbeBound(c.startTTL, c.maxTTL)
    requires k < |ps| && k < TraceSpec(c, ps).iterations
    requires ps[k].Probed? && ps[k].listen.Received?
    requires ps[k].listen.icmpType == ICMPTypeDestinationUnreachable
    ensures var r := TraceSpec(c, ps);
      k == r.iterations - 1 && |r.hops| == k + 1 && r.err == None &&
      r.hops[k].address == HostPart(ps[k].listen.peer) && !r.hops[k].reachable
  {
    var r := RunFrom(c, ps, 0);
    assert TraceSpec(c, ps) == r;
    var reply := ReceiveICMP(ps[k].listen);
    assert Records(reply) && Cancels(reply);
    StopsAt(c, ps, k);
    RunFromLast(c, ps, 0);
    RunFromHopsFollowProbes(c, ps, 0, k);
  }

  /** A failure to resolve, dial or write aborts the trace with that error
      and the hops of the earlier iterations. */
  lemma SetupFailureKeepsEarlierHops(c: Config, ps: seq<Probe>, k: nat)
    requires ValidConfig(c) && |ps| >= ProbeBound(c.startTTL, c.maxTTL)
    requires k < |ps| && k < TraceSpec(c, ps).iterations
    requires !ps[k].Probed?
    ensures var r := TraceSpec(c, ps);
      k == r.iterations - 1 && |r.hops| == k && r.err == Some(SetupError(ps[k]))
  {
    var r := RunFrom(c, ps, 0);
    assert TraceSpec(c, ps) == r;
    StopsAt(c, ps, k);
    RunFromLast(c, ps, 0);
  }

  /** A Time Exceeded reply records a reachable hop, and the trace goes on
      unless that TTL was MaxTTL (or above it, on the first probe). */
  lemma TimeExceededContinues(c: Config, ps: seq<Probe>, k: nat)
    requires ValidConfig(c) && |ps| >= ProbeBound(c.startTTL, c.maxTTL)
    requires k < |ps| && k < TraceSpec(c, ps).iterations
    requires ps[k].Probed? && ps[k].listen.Received?
    requires ps[k].listen.icmpType == ICMPTypeTimeExceeded
    ensures var r := TraceSpec(c, ps);
      k < |r.hops| && r.hops[k].reachable &&
      (k == r.iterations - 1 ==> r.err == None && c.startTTL + k >= c.maxTTL)
  {
    var r := RunFrom(c, ps, 0);
    assert TraceSpec(c, ps) == r;
    RunFromBounds(c, ps, 0);
    if k == r.iterations - 1 {
      ContinuesIffTimeExceeded(ps[k]);
      RunFromLast(c, ps, 0);
    }
    RunFromHopsFollowProbes(c, ps, 0, k);
  }

  /** With reverse DNS off every hop has an empty Host, and the trace is
      otherwise the one it would have been with lookups on. */
  lemma NoLookupLeavesHostEmpty(c: Config, ps: seq<Probe>)
    requires ValidConfig(c) && |ps| >= ProbeBound(c.startTTL, c.maxTTL)
    ensures var r := TraceSpec(c, ps);
      var r' := TraceSpec(c.(dnsLookup := false), ps);
      r'.err == r.err && |r'.hops| == |r.hops| &&
      (forall k :: 0 <= k < |r'.hops| ==> r'.hops[k].host == "") &&
      (forall k :: 0 <= k < |r.hops| ==>
        r'.hops[k].ttl == r.hops[k].ttl && r'.hops[k].address == r.hops[k].address &&
        r'.hops[k].reachable == r.hops[k].reachable)
  {
    RunFromWithoutLookup(c, ps, 0);
  }
}
