/**
 * What the rebalance procedure promises, proved about the state machine of
 * module Orchestrator (and so, through `StreamEvents`'s postcondition,
 * about the input loop itself): which requests are issued, in which order,
 * with which payloads, and when the run stops.
 */
module Properties {

  import opened Results
  import opened PyValues
  import opened FloatParse
  import opened InputOptions
  import opened ClusterApi
  import opened Orchestrator

  /** At position `j` of the trace start the three GETs, and both gates were found open. */
  ghost predicate GateOpenAt(trace: seq<Request>, server: Server, j: int) {
    && 0 <= j && j + 2 < |trace|
    && trace[j] == GetMaintenanceMode && trace[j + 1] == GetSearchFactor && trace[j + 2] == GetClusteringConfig
    && MaintenanceOff(server(trace[..j + 1]))
    && SearchFactorMet(server(trace[..j + 2]))
  }

  /** The latest maintenance check before position `k` opened the gates. */
  ghost predicate LatestGateOpen(trace: seq<Request>, server: Server, k: int) {
    k <= |trace| &&
    exists j | 0 <= j && j + 2 < k ::
      GateOpenAt(trace, server, j) && forall m | j < m < k :: trace[m] != GetMaintenanceMode
  }

  /** Every POST from position `from` on was licensed by the latest gate check. */
  ghost predicate PostsGated(trace: seq<Request>, server: Server, from: nat) {
    forall k | from <= k < |trace| && trace[k].IsPost() :: LatestGateOpen(trace, server, k)
  }

  // ---------------------------------------------------------------------
  // One input

  /** Refused options stop the loop before any request is made. */
  lemma InvalidOptionsIssueNoRequest(item: Item, server: Server, trace: seq<Request>)
    requires ("threshold" in item && !IsPositiveNumber(item["threshold"]))
          || ("max_runtime" in item && !IsPositiveNumber(item["max_runtime"]))
    ensures ProcessInput(item, server, trace) ==
      (trace, Break(Invalid(if "threshold" in item && !IsPositiveNumber(item["threshold"])
                            then InvalidThreshold else InvalidMaxRuntime)))
  {
  }

  /** In maintenance mode, the maintenance GET is the only request and the loop breaks. */
  lemma MaintenanceGate(item: Item, server: Server, trace: seq<Request>)
    requires Validate(item).Success?
    requires Decoded(server(trace + [GetMaintenanceMode]))
    requires "maintenance_mode" in server(trace + [GetMaintenanceMode]).content.value
    requires Truthy(server(trace + [GetMaintenanceMode]).content.value["maintenance_mode"])
    ensures ProcessInput(item, server, trace) == (trace + [GetMaintenanceMode], Break(MaintenanceMode))
  {
  }

  /** A search factor other than the string `"1"` breaks the loop after the second GET. */
  lemma SearchFactorGate(item: Item, server: Server, trace: seq<Request>)
    requires Validate(item).Success?
    requires MaintenanceOff(server(trace + [GetMaintenanceMode]))
    requires Decoded(server(trace + [GetMaintenanceMode, GetSearchFactor]))
    requires "search_factor_met" in server(trace + [GetMaintenanceMode, GetSearchFactor]).content.value
    requires server(trace + [GetMaintenanceMode, GetSearchFactor]).content.value["search_factor_met"] != Str("1")
    ensures ProcessInput(item, server, trace) ==
      (trace + [GetMaintenanceMode, GetSearchFactor], Break(SearchFactorNotMet))
  {
    assert trace + [GetMaintenanceMode] + [GetSearchFactor] == trace + [GetMaintenanceMode, GetSearchFactor];
  }

  /**
   * The trace of one input extends the trace before it: nothing at all when
   * the options are refused, one GET when maintenance mode is not off, two
   * when the search factor is not met, and otherwise the three GETs in order
   * followed by the requests of the threshold update and the mode dispatch.
   */
  lemma ProcessInputShape(item: Item, server: Server, trace: seq<Request>)
    ensures var (trace', _) := ProcessInput(item, server, trace);
      var t3 := trace + [GetMaintenanceMode, GetSearchFactor, GetClusteringConfig];
      || (trace' == trace && Validate(item).Failure?)
      || (trace' == trace + [GetMaintenanceMode] && !MaintenanceOff(server(trace + [GetMaintenanceMode])))
      || (trace' == trace + [GetMaintenanceMode, GetSearchFactor]
          && MaintenanceOff(server(trace + [GetMaintenanceMode]))
          && !SearchFactorMet(server(trace + [GetMaintenanceMode, GetSearchFactor])))
      || (&& |trace'| >= |t3| && trace'[..|t3|] == t3
          && MaintenanceOff(server(trace + [GetMaintenanceMode]))
          && SearchFactorMet(server(trace + [GetMaintenanceMode, GetSearchFactor]))
          && forall k | |t3| <= k < |trace'| :: trace'[k].IsPost())
  {
    var (trace', _) := ProcessInput(item, server, trace);
    var t1 := trace + [GetMaintenanceMode];
    var t2 := t1 + [GetSearchFactor];
    var t3 := t2 + [GetClusteringConfig];
    assert t2 == trace + [GetMaintenanceMode, GetSearchFactor];
    assert t3 == trace + [GetMaintenanceMode, GetSearchFactor, GetClusteringConfig];
    if Validate(item).Success? && CheckMaintenance(server, trace).Go? && CheckSearchFactor(server, t1).Go? {
      var options := Validate(item).value;
      var stage := ReconcileThreshold(options.threshold, server, t2);
      if stage.Go? {
        var t4 := stage.trace;
        assert trace' == Dispatch(options, server, t4).0;
        assert trace'[..|t4|] == t4;
        assert trace'[..|t3|] == t3 by {
          assert t4[..|t3|] == t3;
        }
      }
    }
  }

  /**
   * The trace of one input checks maintenance mode once, first of all, and
   * issues a POST only after both gates were found open by the three GETs
   * that start the input.
   */
  lemma GatesPrecedePosts(item: Item, server: Server, trace: seq<Request>)
    ensures var (trace', _) := ProcessInput(item, server, trace);
      && |trace| <= |trace'| && trace'[..|trace|] == trace
      && (|trace'| > |trace| ==> trace'[|trace|] == GetMaintenanceMode)
      && (forall m | |trace| < m < |trace'| :: trace'[m] != GetMaintenanceMode)
      && (forall k | |trace| <= k < |trace'| && trace'[k].IsPost() :: |trace| + 2 < k && GateOpenAt(trace', server, |trace|))
  {
    ProcessInputShape(item, server, trace);
    var (trace', _) := ProcessInput(item, server, trace);
    var t3 := trace + [GetMaintenanceMode, GetSearchFactor, GetClusteringConfig];
    if |trace'| >= |t3| && trace'[..|t3|] == t3 {
      assert trace'[..|trace|] == t3[..|trace|] == trace;
      assert trace'[..|trace| + 1] == t3[..|trace| + 1] == trace + [GetMaintenanceMode];
      assert trace'[..|trace| + 2] == t3[..|trace| + 2] == trace + [GetMaintenanceMode, GetSearchFactor];
      assert forall m | |trace| <= m < |t3| :: trace'[m] == t3[m];
    }
  }

  /**
   * A call that is refused (TLS failure or a status other than 200) is the
   * last request of its input. A refused GET returns; a TLS failure on a
   * POST is an uncaught exception; a non-200 POST returns, except the
   * uniform rebalance start, whose status is not checked.
   */
  lemma RefusedCallIsLast(item: Item, server: Server, trace: seq<Request>, k: nat)
    requires var (trace', _) := ProcessInput(item, server, trace); |trace| <= k < |trace'|
    requires Refused(server(ProcessInput(item, server, trace).0[..k + 1]))
    ensures var (trace', signal) := ProcessInput(item, server, trace);
      var reply := server(trace'[..k + 1]);
      && k == |trace'| - 1
      && (reply.SslFailure? ==>
            signal == if trace'[k].IsPost() then Raise(UncaughtSslError(trace'[k])) else Return(TransportError(trace'[k])))
      && (reply.Response? && !trace'[k].Rebalance? ==> signal == Return(HttpError(trace'[k], reply.status, reply.text)))
  {
    var (trace', signal) := ProcessInput(item, server, trace);
    ProcessInputShape(item, server, trace);
    var t1 := trace + [GetMaintenanceMode];
    var t2 := t1 + [GetSearchFactor];
    var t3 := t2 + [GetClusteringConfig];
    assert t2 == trace + [GetMaintenanceMode, GetSearchFactor];
    assert t3 == trace + [GetMaintenanceMode, GetSearchFactor, GetClusteringConfig];
    if k == |trace| {
      assert trace'[..k + 1] == t1;
    } else if k == |trace| + 1 {
      assert trace'[..k + 1] == t2;
    } else {
      var options := Validate(item).value;
      assert CheckMaintenance(server, trace) == Go(t1);
      assert CheckSearchFactor(server, t1) == Go(t2);
      assert trace'[..|t3|] == t3;
      var stage := ReconcileThreshold(options.threshold, server, t2);
      if k < |stage.trace| {
        assert trace'[..|stage.trace|] == stage.trace by {
          if stage.Go? {
            assert trace'[..|stage.trace|] == Dispatch(options, server, stage.trace).0[..|stage.trace|];
          }
        }
        assert trace'[..k + 1] == stage.trace[..k + 1];
        RefusedReconcileCallIsLast(options.threshold, server, t2, k);
      } else {
        RefusedDispatchCallIsLast(options, server, stage.trace, k);
      }
    }
  }

  lemma RefusedReconcileCallIsLast(threshold: Value, server: Server, trace: seq<Request>, k: nat)
    requires |trace| <= k < |ReconcileThreshold(threshold, server, trace).trace|
    requires Refused(server(ReconcileThreshold(threshold, server, trace).trace[..k + 1]))
    ensures var stage := ReconcileThreshold(threshold, server, trace);
      var reply := server(stage.trace[..k + 1]);
      && k == |stage.trace| - 1 && stage.Exit?
      && (reply.SslFailure? ==>
            stage.signal == if stage.trace[k].IsPost() then Raise(UncaughtSslError(stage.trace[k])) else Return(TransportError(stage.trace[k])))
      && (reply.Response? ==> stage.signal == Return(HttpError(stage.trace[k], reply.status, reply.text)))
  {
    var stage := ReconcileThreshold(threshold, server, trace);
    if k == |trace| {
      assert stage.trace[..k + 1] == trace + [GetClusteringConfig];
    } else {
      assert stage.trace[..k + 1] == stage.trace;
    }
  }

  lemma RefusedDispatchCallIsLast(options: Options, server: Server, trace: seq<Request>, k: nat)
    requires |trace| <= k < |Dispatch(options, server, trace).0|
    requires Refused(server(Dispatch(options, server, trace).0[..k + 1]))
    ensures var (trace', signal) := Dispatch(options, server, trace);
      var reply := server(trace'[..k + 1]);
      && k == |trace'| - 1
      && (reply.SslFailure? ==> signal == Raise(UncaughtSslError(trace'[k])))
      && (reply.Response? && !trace'[k].Rebalance? ==> signal == Return(HttpError(trace'[k], reply.status, reply.text)))
  {
    var (trace', signal) := Dispatch(options, server, trace);
    if k == |trace| {
      assert trace'[..k + 1] == trace + [trace'[k]];
    } else {
      assert trace'[..k + 1] == trace';
    }
  }

  /**
   * The threshold POST is the fourth request of an input that passed its
   * gates exactly when the configured `rebalance_threshold` is absent,
   * falsy, or `!=` the requested value; it is issued at most once and
   * carries the requested value as it was given.
   */
  lemma ThresholdUpdateIffNeeded(item: Item, server: Server, trace: seq<Request>)
    requires Validate(item).Success?
    requires MaintenanceOff(server(trace + [GetMaintenanceMode]))
    requires SearchFactorMet(server(trace + [GetMaintenanceMode, GetSearchFactor]))
    requires Decoded(server(trace + [GetMaintenanceMode, GetSearchFactor, GetClusteringConfig]))
    ensures var t3 := trace + [GetMaintenanceMode, GetSearchFactor, GetClusteringConfig];
      var config := server(t3).content.value;
      var requested := if "threshold" in item then Str(item["threshold"]) else Num(DefaultThreshold);
      var (trace', _) := ProcessInput(item, server, trace);
      && |trace'| > |t3| && trace'[..|t3|] == t3
      && (trace'[|t3|].SetRebalanceThreshold? <==>
            || "rebalance_threshold" !in config
            || !Truthy(config["rebalance_threshold"])
            || !Equal(config["rebalance_threshold"], requested))
      && (trace'[|t3|].SetRebalanceThreshold? ==> trace'[|t3|].threshold == requested)
      && (forall m | |t3| < m < |trace'| :: !trace'[m].SetRebalanceThreshold?)
  {
    var t1 := trace + [GetMaintenanceMode];
    var t2 := t1 + [GetSearchFactor];
    var t3 := t2 + [GetClusteringConfig];
    assert t2 == trace + [GetMaintenanceMode, GetSearchFactor];
    assert t3 == trace + [GetMaintenanceMode, GetSearchFactor, GetClusteringConfig];
    var options := Validate(item).value;
    assert CheckMaintenance(server, trace) == Go(t1);
    assert CheckSearchFactor(server, t1) == Go(t2);
    var (trace', _) := ProcessInput(item, server, trace);
    var stage := ReconcileThreshold(options.threshold, server, t2);
    assert trace'[..|t3|] == t3;
    if stage.Go? {
      assert ProcessInput(item, server, trace) == Dispatch(options, server, stage.trace);
      assert trace'[..|stage.trace|] == stage.trace;
    }
  }

  /**
   * The requested threshold is compared with the configured one as raw
   * values: the default float 0.9 never matches a configured string, and an
   * option string never matches a configured number.
   */
  lemma ThresholdComparedRaw(server: Server, trace: seq<Request>, text: string)
    requires server(trace + [GetClusteringConfig]) == Response(200, text, Some(map["rebalance_threshold" := Str("0.9")]))
    ensures ReconcileThreshold(Num(DefaultThreshold), server, trace).trace
            == trace + [GetClusteringConfig, SetRebalanceThreshold(Num(0.9))]
    ensures ReconcileThreshold(Str("0.9"), server, trace) == Go(trace + [GetClusteringConfig])
    ensures ReconcileThreshold(Str("0.90"), server, trace).trace
            == trace + [GetClusteringConfig, SetRebalanceThreshold(Str("0.90"))]
  {
    assert trace + [GetClusteringConfig] + [SetRebalanceThreshold(Num(0.9))]
        == trace + [GetClusteringConfig, SetRebalanceThreshold(Num(0.9))];
    assert trace + [GetClusteringConfig] + [SetRebalanceThreshold(Str("0.90"))]
        == trace + [GetClusteringConfig, SetRebalanceThreshold(Str("0.90"))];
    assert Str("0.9") != Str("0.90") by { assert "0.9"[3..] != "0.90"[3..]; }
  }

  /** A configured number equal to the default threshold needs no update; the option string "0.9" does. */
  lemma ThresholdAgainstConfiguredNumber(server: Server, trace: seq<Request>, text: string)
    requires server(trace + [GetClusteringConfig]) == Response(200, text, Some(map["rebalance_threshold" := Num(0.9)]))
    ensures ReconcileThreshold(Num(DefaultThreshold), server, trace) == Go(trace + [GetClusteringConfig])
    ensures ReconcileThreshold(Str("0.9"), server, trace).trace
            == trace + [GetClusteringConfig, SetRebalanceThreshold(Str("0.9"))]
  {
    assert trace + [GetClusteringConfig] + [SetRebalanceThreshold(Str("0.9"))]
        == trace + [GetClusteringConfig, SetRebalanceThreshold(Str("0.9"))];
  }

  /** An input that passes its gates and its threshold update goes on to the mode dispatch. */
  lemma ReachesDispatch(item: Item, server: Server, trace: seq<Request>)
    requires Validate(item).Success?
    requires MaintenanceOff(server(trace + [GetMaintenanceMode]))
    requires SearchFactorMet(server(trace + [GetMaintenanceMode, GetSearchFactor]))
    requires ReconcileThreshold(Validate(item).value.threshold, server,
                                trace + [GetMaintenanceMode, GetSearchFactor]).Go?
    ensures ProcessInput(item, server, trace) ==
      Dispatch(Validate(item).value, server,
               ReconcileThreshold(Validate(item).value.threshold, server, trace + [GetMaintenanceMode, GetSearchFactor]).trace)
  {
    assert trace + [GetMaintenanceMode] + [GetSearchFactor] == trace + [GetMaintenanceMode, GetSearchFactor];
  }

  // ---------------------------------------------------------------------
  // Mode dispatch

  /**
   * With `excess_buckets`, exactly one prune POST is issued, whatever
   * `usage_based` says; its payload holds `index` exactly when a non-empty
   * `target_index` is given, and the input ends normally on status 200.
   */
  lemma PruneShortCircuits(item: Item, server: Server, trace: seq<Request>)
    requires Validate(item).Success? && Validate(item).value.excessBuckets
    ensures var options := Validate(item).value;
      var (trace', signal) := Dispatch(options, server, trace);
      && |trace'| == |trace| + 1 && trace'[..|trace|] == trace
      && trace'[|trace|].PruneExcessBuckets?
      && trace'[|trace|].payload.Keys <= {"index"}
      && ("index" in trace'[|trace|].payload <==> "target_index" in item && item["target_index"] != "")
      && ("index" in trace'[|trace|].payload ==> trace'[|trace|].payload["index"] == Str(item["target_index"]))
      && (signal == NextInput <==> server(trace').Response? && server(trace').status == 200)
      && Dispatch(options, server, trace) == Dispatch(options.(usageBased := !options.usageBased), server, trace)
  {
    var (trace', _) := Dispatch(Validate(item).value, server, trace);
    assert trace'[..|trace|] == trace;
  }

  /**
   * For one input: with `excess_buckets`, once the gates and the threshold
   * phase have passed, the only further request is the prune POST, and the
   * input's requests and signal are the same whatever `usage_based` says.
   */
  lemma PruneEndsInput(item: Item, server: Server, trace: seq<Request>, usage: string)
    requires Validate(item).Success? && Validate(item).value.excessBuckets
    requires MaintenanceOff(server(trace + [GetMaintenanceMode]))
    requires SearchFactorMet(server(trace + [GetMaintenanceMode, GetSearchFactor]))
    requires ReconcileThreshold(Validate(item).value.threshold, server,
                                trace + [GetMaintenanceMode, GetSearchFactor]).Go?
    ensures var reconciled := ReconcileThreshold(Validate(item).value.threshold, server,
                                                 trace + [GetMaintenanceMode, GetSearchFactor]).trace;
      var (trace', signal) := ProcessInput(item, server, trace);
      && trace' == reconciled + [PruneExcessBuckets(
           if "target_index" in item && item["target_index"] != "" then map["index" := Str(item["target_index"])] else map[])]
      && (signal == NextInput <==> server(trace').Response? && server(trace').status == 200)
      && ProcessInput(item["usage_based" := usage], server, trace) == (trace', signal)
  {
    var other := item["usage_based" := usage];
    assert Validate(other) == Success(Validate(item).value.(usageBased := Validate(other).value.usageBased));
    ReachesDispatch(item, server, trace);
    ReachesDispatch(other, server, trace);
  }

  /**
   * Usage-based mode issues `action=status`, then, only if that returned
   * 200 with the three standard deviations, `action=start`; the input ends
   * normally only if both returned 200.
   */
  lemma UsageBasedTwoPosts(item: Item, server: Server, trace: seq<Request>)
    requires Validate(item).Success?
    requires !Validate(item).value.excessBuckets && Validate(item).value.usageBased
    ensures var (trace', signal) := Dispatch(Validate(item).value, server, trace);
      var first := server(trace + [UsageRebalance("status")]);
      var second := server(trace + [UsageRebalance("status"), UsageRebalance("start")]);
      && (trace' == trace + [UsageRebalance("status")]
          || trace' == trace + [UsageRebalance("status"), UsageRebalance("start")])
      && (|trace'| == |trace| + 2 <==>
            Decoded(first) && "stddev_after_usage_rebalance" in first.content.value
            && "stddev_before_usage_rebalance" in first.content.value && "stddev_current" in first.content.value)
      && (signal == NextInput <==>
            |trace'| == |trace| + 2 && Decoded(second) && "description" in second.content.value)
      && (Refused(first) ==> signal.Return? || signal.Raise?)
  {
    assert trace + [UsageRebalance("status")] + [UsageRebalance("start")]
        == trace + [UsageRebalance("status"), UsageRebalance("start")];
  }

  /**
   * Uniform mode issues one POST with `action="start"` and `searchable`,
   * plus `index` exactly when a non-empty `target_index` is given and
   * `max_time_in_min` exactly when `max_runtime` is given. Its status code
   * is not checked: any response whose content has a `description` lets
   * the loop go on.
   */
  lemma UniformRebalancePayload(item: Item, server: Server, trace: seq<Request>)
    requires Validate(item).Success?
    requires !Validate(item).value.excessBuckets && !Validate(item).value.usageBased
    ensures var (trace', signal) := Dispatch(Validate(item).value, server, trace);
      && |trace'| == |trace| + 1 && trace'[..|trace|] == trace && trace'[|trace|].Rebalance?
      && var payload := trace'[|trace|].payload;
      && payload.Keys <= {"action", "searchable", "index", "max_time_in_min"}
      && "action" in payload && payload["action"] == Str("start")
      && "searchable" in payload && payload["searchable"] == Bool(Flag(item, "searchable"))
      && ("index" in payload <==> "target_index" in item && item["target_index"] != "")
      && ("index" in payload ==> payload["index"] == Str(item["target_index"]))
      && ("max_time_in_min" in payload <==> "max_runtime" in item)
      && ("max_time_in_min" in payload ==> payload["max_time_in_min"] == Str(item["max_runtime"]))
      && (signal == NextInput <==>
            server(trace').Response? && server(trace').content.Some? && "description" in server(trace').content.value)
  {
    var (trace', _) := Dispatch(Validate(item).value, server, trace);
    assert trace'[..|trace|] == trace;
  }

  // ---------------------------------------------------------------------
  // The whole run

  /** The run only appends to the trace. */
  lemma {:induction false} RunExtends(inputs: seq<Input>, server: Server, trace: seq<Request>)
    ensures |trace| <= |Run(inputs, server, trace).0|
    ensures Run(inputs, server, trace).0[..|trace|] == trace
    decreases |inputs|
  {
    if inputs != [] {
      var (trace', signal) := ProcessInput(inputs[0].item, server, trace);
      GatesPrecedePosts(inputs[0].item, server, trace);
      if signal.NextInput? {
        RunExtends(inputs[1..], server, trace');
        var final := Run(inputs[1..], server, trace').0;
        assert final[..|trace|] == final[..|trace'|][..|trace|];
      }
    }
  }

  /**
   * Inputs run one after the other, and an input that breaks, returns or
   * raises ends the run: no later input is looked at.
   */
  lemma {:induction false} RunAppend(first: seq<Input>, rest: seq<Input>, server: Server, trace: seq<Request>)
    ensures var (trace', outcome) := Run(first, server, trace);
      Run(first + rest, server, trace) == if outcome == Completed then Run(rest, server, trace') else (trace', outcome)
    decreases |first|
  {
    if first == [] {
      assert first + rest == rest;
    } else {
      assert (first + rest)[0] == first[0];
      assert (first + rest)[1..] == first[1..] + rest;
      var (trace', signal) := ProcessInput(first[0].item, server, trace);
      if signal.NextInput? {
        RunAppend(first[1..], rest, server, trace');
      }
    }
  }

  /**
   * Across the whole run, every POST was preceded by a maintenance check
   * that found maintenance mode off, followed by a search-factor check that
   * found it met, with no later maintenance check in between.
   */
  lemma {:induction false} RunPostsGated(inputs: seq<Input>, server: Server, trace: seq<Request>)
    ensures PostsGated(Run(inputs, server, trace).0, server, |trace|)
    decreases |inputs|
  {
    if inputs != [] {
      var (trace1, signal) := ProcessInput(inputs[0].item, server, trace);
      GatesPrecedePosts(inputs[0].item, server, trace);
      var final := Run(inputs, server, trace).0;
      if signal.NextInput? {
        RunPostsGated(inputs[1..], server, trace1);
        RunExtends(inputs[1..], server, trace1);
      }
      assert |trace1| <= |final| && final[..|trace1|] == trace1;
      forall k | |trace| <= k < |final| && final[k].IsPost()
        ensures LatestGateOpen(final, server, k)
      {
        if k < |trace1| {
          assert final[k] == trace1[k];
          var j := |trace|;
          assert GateOpenAt(trace1, server, j);
          assert final[..j + 1] == trace1[..j + 1];
          assert final[..j + 2] == trace1[..j + 2];
          assert GateOpenAt(final, server, j);
          forall m | j < m < k ensures final[m] != GetMaintenanceMode {
            assert final[m] == trace1[m];
          }
        }
      }
    }
  }
}
