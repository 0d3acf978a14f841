/**
 * The decision procedure of `stream_events`, written as an explicit state
 * machine: for each input, Validate, CheckMaintenance, CheckSearchFactor,
 * ReconcileThreshold, then Dispatch one mode. Each phase issues its
 * requests to the server oracle, appends them to the trace, and either
 * goes on or exits with the signal the source's loop acts on:
 * `continue` (NextInput), `break`, `return`, or an uncaught exception.
 */
module Orchestrator {

  import opened Results
  import opened PyValues
  import opened InputOptions
  import opened ClusterApi

  /** A `break` out of the input loop: not an error, only a warning or a refused option. */
  datatype StopReason = Invalid(error: OptionError) | MaintenanceMode | SearchFactorNotMet

  /** A `return` from `stream_events` after a failed call. */
  datatype Failure =
    | TransportError(request: Request)                          // SSLError caught around a GET
    | HttpError(request: Request, status: int, text: string)    // status code other than 200

  /** An exception the source does not catch. */
  datatype Fault =
    | MalformedResponse(request: Request)  // JSON decoding or a missing key/entry
    | UncaughtSslError(request: Request)   // SSLError on a POST, which has no try block

  /** What the processing of one input hands back to the loop. */
  datatype Signal = NextInput | Break(reason: StopReason) | Return(failure: Failure) | Raise(fault: Fault)

  /** How the whole run of `stream_events` ended. */
  datatype Outcome = Completed | Halted(reason: StopReason) | Failed(failure: Failure) | Crashed(fault: Fault)

  /** One configured input: its stanza name (unused by the procedure) and its options. */
  datatype Input = Input(name: string, item: Item)

  /** A phase either lets the input go on, or ends it with a signal. */
  datatype Stage = Go(trace: seq<Request>) | Exit(trace: seq<Request>, signal: Signal)

  // ---------------------------------------------------------------------
  // Reading replies

  /** A 200 reply carrying a content record. */
  predicate Decoded(reply: Reply) {
    reply.Response? && reply.status == 200 && reply.content.Some?
  }

  /** A reply that ends the input: a TLS failure, or a status other than 200. */
  predicate Refused(reply: Reply) {
    reply.SslFailure? || reply.status != 200
  }

  /** A 200 reply whose `maintenance_mode` is falsy. */
  predicate MaintenanceOff(reply: Reply) {
    Decoded(reply) && "maintenance_mode" in reply.content.value && !Truthy(reply.content.value["maintenance_mode"])
  }

  /** A 200 reply whose `search_factor_met` is the string `"1"`. */
  predicate SearchFactorMet(reply: Reply) {
    Decoded(reply) && "search_factor_met" in reply.content.value && reply.content.value["search_factor_met"] == Str("1")
  }

  /**
   * The status check made after a call. An SSL failure is caught (and
   * returned from) only around the three GETs; on a POST it propagates.
   */
  function Acknowledge(request: Request, reply: Reply): Option<Signal> {
    match reply
    case SslFailure =>
      Some(if request.IsPost() then Raise(UncaughtSslError(request)) else Return(TransportError(request)))
    case Response(status, text, _) =>
      if status != 200 then Some(Return(HttpError(request, status, text))) else None
  }

  /** The status check, then `response.json()['entry'][0]['content']`. */
  function Decode(request: Request, reply: Reply): Result<Content, Signal> {
    match Acknowledge(request, reply)
    case Some(signal) => Failure(signal)
    case None =>
      if reply.content.None? then Failure(Raise(MalformedResponse(request))) else Success(reply.content.value)
  }

  /** Issue a GET and read one field of its content. */
  function Fetch(server: Server, trace: seq<Request>, request: Request, field: string): (seq<Request>, Result<Value, Signal>) {
    var trace' := trace + [request];
    match Decode(request, server(trace'))
    case Failure(signal) => (trace', Failure(signal))
    case Success(content) =>
      if field in content then (trace', Success(content[field]))
      else (trace', Failure(Raise(MalformedResponse(request))))
  }

  // ---------------------------------------------------------------------
  // Phases

  /** The maintenance GET; the input goes on exactly when maintenance mode is off. */
  function CheckMaintenance(server: Server, trace: seq<Request>): (stage: Stage)
    ensures stage.trace == trace + [GetMaintenanceMode]
    ensures stage.Go? <==> MaintenanceOff(server(trace + [GetMaintenanceMode]))
  {
    var (trace', field) := Fetch(server, trace, GetMaintenanceMode, "maintenance_mode");
    match field
    case Failure(signal) => Exit(trace', signal)
    case Success(mode) => if Truthy(mode) then Exit(trace', Break(MaintenanceMode)) else Go(trace')
  }

  /** The search-factor GET; the input goes on exactly when the factor is the string `"1"`. */
  function CheckSearchFactor(server: Server, trace: seq<Request>): (stage: Stage)
    ensures stage.trace == trace + [GetSearchFactor]
    ensures stage.Go? <==> SearchFactorMet(server(trace + [GetSearchFactor]))
  {
    var (trace', field) := Fetch(server, trace, GetSearchFactor, "search_factor_met");
    match field
    case Failure(signal) => Exit(trace', signal)
    case Success(met) => if !Equal(met, Str("1")) then Exit(trace', Break(SearchFactorNotMet)) else Go(trace')
  }

  /**
   * Whether the configured `rebalance_threshold` (`False` when absent) must
   * be replaced: it is falsy, or not `==` the requested value.
   */
  predicate NeedsUpdate(content: Content, threshold: Value) {
    var current := if "rebalance_threshold" in content then content["rebalance_threshold"] else Bool(false);
    !Truthy(current) || !Equal(current, threshold)
  }

  /**
   * Read the configured `rebalance_threshold` (`False` when absent) and
   * POST the requested one unless the configured value is truthy and `==`
   * the requested one, compared as raw Python values.
   */
  function ReconcileThreshold(threshold: Value, server: Server, trace: seq<Request>): (stage: Stage)
    ensures stage.trace == trace + [GetClusteringConfig]
         || stage.trace == trace + [GetClusteringConfig, SetRebalanceThreshold(threshold)]
    ensures stage.trace == trace + [GetClusteringConfig] && stage.Go? ==> Decoded(server(stage.trace))
    ensures var reply := server(trace + [GetClusteringConfig]);
      stage.trace == trace + [GetClusteringConfig, SetRebalanceThreshold(threshold)] <==>
        Decoded(reply) && NeedsUpdate(reply.content.value, threshold)
    ensures var reply := server(trace + [GetClusteringConfig]);
      stage.Go? <==>
        Decoded(reply) &&
        (NeedsUpdate(reply.content.value, threshold) ==>
           !Refused(server(trace + [GetClusteringConfig, SetRebalanceThreshold(threshold)])))
  {
    var trace1 := trace + [GetClusteringConfig];
    match Decode(GetClusteringConfig, server(trace1))
    case Failure(signal) => Exit(trace1, signal)
    case Success(content) =>
      if NeedsUpdate(content, threshold) then
        var update := SetRebalanceThreshold(threshold);
        var trace2 := trace1 + [update];
        match Acknowledge(update, server(trace2))
        case Some(signal) => Exit(trace2, signal)
        case None => Go(trace2)
      else
        Go(trace1)
  }

  /** The prune payload: empty unless a target index is set. */
  function PrunePayload(targetIndex: Value): Payload {
    if Truthy(targetIndex) then map["index" := targetIndex] else map[]
  }

  /** The uniform rebalance payload. */
  function RebalancePayload(options: Options): Payload {
    var base := map["action" := Str("start"), "searchable" := Bool(options.searchable)];
    var withIndex := if Truthy(options.targetIndex) then base["index" := options.targetIndex] else base;
    if Truthy(options.maxRuntime) then withIndex["max_time_in_min" := options.maxRuntime] else withIndex
  }

  /** The uniform rebalance POST: its status is not checked, only its `description` is read. */
  function Described(request: Request, reply: Reply): Signal {
    match reply
    case SslFailure => Raise(UncaughtSslError(request))
    case Response(_, _, content) =>
      if content.Some? && "description" in content.value then NextInput
      else Raise(MalformedResponse(request))
  }

  /** Excess-bucket prune, else usage-based rebalance, else uniform rebalance. */
  function Dispatch(options: Options, server: Server, trace: seq<Request>): (r: (seq<Request>, Signal))
    ensures |trace| < |r.0| <= |trace| + 2 && r.0[..|trace|] == trace
    ensures forall k | |trace| <= k < |r.0| :: r.0[k].IsPost()
  {
    if options.excessBuckets then
      var prune := PruneExcessBuckets(PrunePayload(options.targetIndex));
      var trace1 := trace + [prune];
      match Acknowledge(prune, server(trace1))
      case Some(signal) => (trace1, signal)
      case None => (trace1, NextInput)
    else if options.usageBased then
      var status := UsageRebalance("status");
      var trace1 := trace + [status];
      match Decode(status, server(trace1))
      case Failure(signal) => (trace1, signal)
      case Success(content) =>
        if !("stddev_after_usage_rebalance" in content && "stddev_before_usage_rebalance" in content
             && "stddev_current" in content)
        then (trace1, Raise(MalformedResponse(status)))
        else
          var start := UsageRebalance("start");
          var trace2 := trace1 + [start];
          match Decode(start, server(trace2))
          case Failure(signal) => (trace2, signal)
          case Success(content2) =>
            if "description" in content2 then (trace2, NextInput) else (trace2, Raise(MalformedResponse(start)))
    else
      var start := Rebalance(RebalancePayload(options));
      var trace1 := trace + [start];
      (trace1, Described(start, server(trace1)))
  }

  /** One iteration of the input loop. */
  function ProcessInput(item: Item, server: Server, trace: seq<Request>): (seq<Request>, Signal) {
    match Validate(item)
    case Failure(error) => (trace, Break(Invalid(error)))
    case Success(options) =>
      match CheckMaintenance(server, trace)
      case Exit(trace1, signal) => (trace1, signal)
      case Go(trace1) =>
        match CheckSearchFactor(server, trace1)
        case Exit(trace2, signal) => (trace2, signal)
        case Go(trace2) =>
          match ReconcileThreshold(options.threshold, server, trace2)
          case Exit(trace3, signal) => (trace3, signal)
          case Go(trace3) => Dispatch(options, server, trace3)
  }

  function OutcomeOf(signal: Signal): Outcome
    requires !signal.NextInput?
  {
    match signal
    case Break(reason) => Halted(reason)
    case Return(failure) => Failed(failure)
    case Raise(fault) => Crashed(fault)
  }

  /** The whole run: inputs in order, until one of them breaks, returns or raises. */
  function Run(inputs: seq<Input>, server: Server, trace: seq<Request>): (seq<Request>, Outcome)
    decreases |inputs|
  {
    if inputs == [] then (trace, Completed)
    else
      var (trace', signal) := ProcessInput(inputs[0].item, server, trace);
      if signal.NextInput? then Run(inputs[1..], server, trace') else (trace', OutcomeOf(signal))
  }
}
