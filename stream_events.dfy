/**
 * `AutoDataRebalance.stream_events`: the loop over the configured inputs
 * and, for each input, the phases of its body in the order the source runs
 * them. Each phase method does what its lines of the source do, with the
 * same locals and the same in-place payload dictionaries, and is proved
 * equal to the phase of the state machine in module Orchestrator; the loop
 * leaves through `break`, `continue` and `return` where the source does.
 * Every request goes through the server oracle and is appended to the trace.
 */
module AutoDataRebalance {

  import opened Results
  import opened PyValues
  import opened FloatParse
  import opened InputOptions
  import opened ClusterApi
  import opened Orchestrator

  /**
   * `try: requests.get(...) except SSLError: return`, the status check and
   * `response.json()['entry'][0]['content']`.
   */
  method Get(server: Server, trace: seq<Request>, request: Request) returns (trace': seq<Request>, content: Result<Content, Signal>)
    requires !request.IsPost()
    ensures trace' == trace + [request]
    ensures content == Decode(request, server(trace'))
  {
    trace' := trace + [request];
    var response := server(trace');
    if response.SslFailure? {
      content := Failure(Return(TransportError(request)));
    } else if response.status != 200 {
      content := Failure(Return(HttpError(request, response.status, response.text)));
    } else if response.content.None? {
      content := Failure(Raise(MalformedResponse(request)));
    } else {
      content := Success(response.content.value);
    }
  }

  /** `requests.post(...)` (an SSL error propagates) and its status check. */
  method Post(server: Server, trace: seq<Request>, request: Request) returns (trace': seq<Request>, refusal: Option<Signal>)
    requires request.IsPost()
    ensures trace' == trace + [request]
    ensures refusal == Acknowledge(request, server(trace'))
  {
    trace' := trace + [request];
    var response := server(trace');
    if response.SslFailure? {
      refusal := Some(Raise(UncaughtSslError(request)));
    } else if response.status != 200 {
      refusal := Some(Return(HttpError(request, response.status, response.text)));
    } else {
      refusal := None;
    }
  }

  /** A POST whose reply is then read: `Post`, then `response.json()['entry'][0]['content']`. */
  method PostDecoded(server: Server, trace: seq<Request>, request: Request) returns (trace': seq<Request>, content: Result<Content, Signal>)
    requires request.IsPost()
    ensures trace' == trace + [request]
    ensures content == Decode(request, server(trace'))
  {
    var refusal;
    trace', refusal := Post(server, trace, request);
    if refusal.Some? {
      return trace', Failure(refusal.value);
    }
    var response := server(trace');
    if response.content.None? {
      content := Failure(Raise(MalformedResponse(request)));
    } else {
      content := Success(response.content.value);
    }
  }

  /** The option coercion at the top of the loop body. */
  method CoerceOptions(item: Item) returns (options: Result<Options, OptionError>)
    ensures options == Validate(item)
  {
    var threshold: Value;
    if "threshold" in item {
      threshold := Str(item["threshold"]);
      if !IsPositiveNumber(item["threshold"]) {
        return Failure(InvalidThreshold);
      }
    } else {
      threshold := Num(DefaultThreshold);
    }

    var maxRuntime: Value;
    if "max_runtime" in item {
      maxRuntime := Str(item["max_runtime"]);
      if !IsPositiveNumber(item["max_runtime"]) {
        return Failure(InvalidMaxRuntime);
      }
    } else {
      maxRuntime := Bool(false);
    }

    var targetIndex: Value;
    if "target_index" in item {
      targetIndex := Str(item["target_index"]);
    } else {
      targetIndex := Bool(false);
    }

    var searchable := "searchable" in item && item["searchable"] in TrueLiterals;
    var usageBased := "usage_based" in item && item["usage_based"] in TrueLiterals;
    var excessBuckets := "excess_buckets" in item && item["excess_buckets"] in TrueLiterals;
    var debug := "debug" in item && item["debug"] in TrueLiterals;  // only selects the log level
    options := Success(Options(threshold, maxRuntime, targetIndex, searchable, usageBased, excessBuckets, debug));
  }

  /** The maintenance-mode GET and its gate. */
  method GateMaintenance(server: Server, trace: seq<Request>) returns (stage: Stage)
    ensures stage == CheckMaintenance(server, trace)
  {
    var trace', data := Get(server, trace, GetMaintenanceMode);
    if data.Failure? {
      return Exit(trace', data.error);
    }
    if "maintenance_mode" !in data.value {
      return Exit(trace', Raise(MalformedResponse(GetMaintenanceMode)));
    }
    var maintenanceMode := data.value["maintenance_mode"];
    if Truthy(maintenanceMode) {
      return Exit(trace', Break(MaintenanceMode));
    }
    stage := Go(trace');
  }

  /** The search-factor GET and its gate. */
  method GateSearchFactor(server: Server, trace: seq<Request>) returns (stage: Stage)
    ensures stage == CheckSearchFactor(server, trace)
  {
    var trace', data := Get(server, trace, GetSearchFactor);
    if data.Failure? {
      return Exit(trace', data.error);
    }
    if "search_factor_met" !in data.value {
      return Exit(trace', Raise(MalformedResponse(GetSearchFactor)));
    }
    var searchFactor := data.value["search_factor_met"];
    if !Equal(searchFactor, Str("1")) {
      return Exit(trace', Break(SearchFactorNotMet));
    }
    stage := Go(trace');
  }

  /** The clustering-config GET and, when needed, the threshold update POST. */
  method UpdateThreshold(threshold: Value, server: Server, trace: seq<Request>) returns (stage: Stage)
    ensures stage == ReconcileThreshold(threshold, server, trace)
  {
    var trace', data := Get(server, trace, GetClusteringConfig);
    if data.Failure? {
      return Exit(trace', data.error);
    }
    var currentThreshold: Value;
    if "rebalance_threshold" in data.value {
      currentThreshold := data.value["rebalance_threshold"];
    } else {
      currentThreshold := Bool(false);
    }
    if !Truthy(currentThreshold) || !Equal(currentThreshold, threshold) {
      var refusal;
      trace', refusal := Post(server, trace', SetRebalanceThreshold(threshold));
      if refusal.Some? {
        return Exit(trace', refusal.value);
      }
    }
    stage := Go(trace');
  }

  /** The mode dispatch: prune, usage-based rebalance or uniform rebalance. */
  method DispatchMode(options: Options, server: Server, trace: seq<Request>) returns (trace': seq<Request>, signal: Signal)
    ensures (trace', signal) == Dispatch(options, server, trace)
  {
    if options.excessBuckets {
      var payload: Payload := map[];
      if Truthy(options.targetIndex) {
        payload := payload["index" := options.targetIndex];
      }
      var refusal;
      trace', refusal := Post(server, trace, PruneExcessBuckets(payload));
      if refusal.Some? {
        return trace', refusal.value;
      }
      return trace', NextInput;
    }

    if options.usageBased {
      var data;
      trace', data := PostDecoded(server, trace, UsageRebalance("status"));
      if data.Failure? {
        return trace', data.error;
      }
      var content := data.value;
      if !("stddev_after_usage_rebalance" in content && "stddev_before_usage_rebalance" in content
           && "stddev_current" in content) {
        return trace', Raise(MalformedResponse(UsageRebalance("status")));
      }
      trace', data := PostDecoded(server, trace', UsageRebalance("start"));
      if data.Failure? {
        return trace', data.error;
      }
      if "description" !in data.value {
        return trace', Raise(MalformedResponse(UsageRebalance("start")));
      }
      signal := NextInput;
    } else {
      var payload: Payload := map["action" := Str("start"), "searchable" := Bool(options.searchable)];
      if Truthy(options.targetIndex) {
        payload := payload["index" := options.targetIndex];
      }
      if Truthy(options.maxRuntime) {
        payload := payload["max_time_in_min" := options.maxRuntime];
      }
      var start := Rebalance(payload);
      trace' := trace + [start];
      var response := server(trace');
      if response.SslFailure? {
        return trace', Raise(UncaughtSslError(start));
      }
      if response.content.None? || "description" !in response.content.value {
        return trace', Raise(MalformedResponse(start));
      }
      signal := NextInput;
    }
  }

  /** `stream_events`: the input loop. */
  method StreamEvents(inputs: seq<Input>, server: Server) returns (trace: seq<Request>, outcome: Outcome)
    ensures (trace, outcome) == Run(inputs, server, [])
  {
    trace := [];
    outcome := Completed;
    for i := 0 to |inputs|
      invariant Run(inputs[i..], server, trace) == Run(inputs, server, [])
    {
      assert inputs[i..][0] == inputs[i] && inputs[i..][1..] == inputs[i + 1..];
      var item := inputs[i].item;

      var options := CoerceOptions(item);
      if options.Failure? {
        outcome := Halted(Invalid(options.error));
        break;
      }

      var stage := GateMaintenance(server, trace);
      trace := stage.trace;
      if stage.Exit? {
        outcome := OutcomeOf(stage.signal);
        if stage.signal.Break? {
          break;
        }
        return;
      }

      stage := GateSearchFactor(server, trace);
      trace := stage.trace;
      if stage.Exit? {
        outcome := OutcomeOf(stage.signal);
        if stage.signal.Break? {
          break;
        }
        return;
      }

      stage := UpdateThreshold(options.value.threshold, server, trace);
      trace := stage.trace;
      if stage.Exit? {
        outcome := OutcomeOf(stage.signal);
        return;
      }

      var signal;
      trace, signal := DispatchMode(options.value, server, trace);
      if signal.NextInput? {
        continue;
      }
      outcome := OutcomeOf(signal);
      return;
    }
  }
}
