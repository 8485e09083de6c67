/**
 * The Tracer object and its Trace method: the TTL loop as it runs,
 * updating the hop list and the result channel one iteration at a time.
 * The channel is the sequence of hops sent on it, oldest first.
 */
module Traceroute {
  import opened TraceTypes
  import opened Listener
  import opened Orchestrator

  /** A Go channel of hops, seen as the sequence of hops sent on it. */
  class HopChannel {
    var sent: seq<Hop>

    constructor Make()
      ensures sent == []
    {
      sent := [];
    }

    method Send(hop: Hop)
      modifies this
      ensures sent == old(sent) + [hop]
    {
      sent := sent + [hop];
    }
  }

  class Tracer {
    var address: string
    var port: int
    var startTTL: int
    var maxTTL: int
    /** Per-hop listening timeout in nanoseconds; its effect is in which
        ListenEvent the oracle reports. */
    var timeout: int
    var dnsLookup: bool
    /** The channel every recorded hop is also sent on. */
    var resultChan: HopChannel

    /** New: the documented defaults, no target address, an empty channel. */
    constructor New()
      ensures address == "" && port == DefaultPort
      ensures startTTL == DefaultStartTTL && maxTTL == DefaultMaxTTL
      ensures timeout == DefaultTimeout && dnsLookup
      ensures fresh(resultChan) && resultChan.sent == []
    {
      address := "";
      port := DefaultPort;
      startTTL := DefaultStartTTL;
      maxTTL := DefaultMaxTTL;
      timeout := DefaultTimeout;
      dnsLookup := true;
      resultChan := new HopChannel.Make();
    }

    /** The settings one call of Trace works with. */
    function Settings(): Config
      reads this
    {
      Config(address, port, startTTL, maxTTL, timeout, dnsLookup)
    }

    /** Runs one trace against the probe outcomes `probes` (entry k for
        loop iteration k). Returns what TraceSpec describes, and sends on
        the channel exactly the hops it returns, in the same order. */
    method Trace(probes: seq<Probe>) returns (result: TraceResult, err: Option<TraceError>)
      requires ValidConfig(Settings()) ==> |probes| >= ProbeBound(startTTL, maxTTL)
      modifies resultChan
      ensures var run := TraceSpec(Settings(), probes);
        result == TraceResult(run.hops) && err == run.err
      ensures resultChan.sent == old(resultChan.sent) + result.hops
    {
      var c := Settings();
      var problem := Validate(c);
      if problem.Some? {
        return TraceResult([]), Some(InvalidConfig(problem.value));
      }
      result, err := ProbeLoop(c, probes, resultChan);
    }
  }

  /** Records one hop: appends it to the trace's hop list and sends it on
      the channel, which has carried exactly that list since `sent0`. */
  method Record(hops: seq<Hop>, hop: Hop, results: HopChannel, ghost sent0: seq<Hop>)
    returns (hops': seq<Hop>)
    requires results.sent == sent0 + hops
    modifies results
    ensures hops' == hops + [hop]
    ensures results.sent == sent0 + hops'
  {
    hops' := hops + [hop];
    results.Send(hop);
  }

  /** The TTL loop of Trace, once the settings have been checked: probe
      with TTL StartTTL, StartTTL + 1, ..., record each hop and send it on
      `results`, and stop as RunFrom describes. */
  method ProbeLoop(c: Config, probes: seq<Probe>, results: HopChannel)
    returns (result: TraceResult, err: Option<TraceError>)
    requires ValidConfig(c) && |probes| >= ProbeBound(c.startTTL, c.maxTTL)
    modifies results
    ensures result.hops == RunFrom(c, probes, 0).hops && err == RunFrom(c, probes, 0).err
    ensures results.sent == old(results.sent) + result.hops
  {
    ghost var spec := RunFrom(c, probes, 0);
    ghost var sent0 := results.sent;
    var ttl := c.startTTL;
    var i := 0;
    var hops: seq<Hop> := [];

    while true
      invariant ttl == c.startTTL + i
      invariant i < |probes| && |probes| - i >= ProbeBound(ttl, c.maxTTL)
      invariant spec.hops == hops + RunFrom(c, probes, i).hops
      invariant spec.err == RunFrom(c, probes, i).err
      invariant results.sent == sent0 + hops
      decreases |probes| - i
    {
      var p := probes[i];
      if !p.Probed? {
        // Resolve, dial or write failed; for a write the listener is
        // already running, but its outcome is not waited for.
        RunFromSetupFailure(c, probes, i);
        return TraceResult(hops), Some(SetupError(p));
      }
      var reply := ReceiveICMP(p.listen);
      ghost var before := hops;
      ghost var recorded: seq<Hop> := [];
      if Records(reply) {
        var hop := MakeHop(c, ttl, reply, p.lookup);
        recorded := [hop];
        hops := Record(hops, hop, results, sent0);
      }
      var cancel := Cancels(reply);

      ttl := ttl + 1;
      if ttl > c.maxTTL || cancel {
        RunFromStops(c, probes, i, reply, recorded);
        return TraceResult(hops), None;
      }
      RunFromGoesOn(c, probes, i, reply, recorded);
      ConcatAssoc(before, recorded, RunFrom(c, probes, i + 1).hops);
      i := i + 1;
    }
  }

  /** Regrouping the hops recorded so far, this iteration's and the rest. */
  lemma ConcatAssoc(a: seq<Hop>, b: seq<Hop>, c: seq<Hop>)
    ensures a + (b + c) == (a + b) + c
  {
  }
}
