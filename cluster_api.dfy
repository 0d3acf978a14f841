/**
 * The cluster manager's REST endpoints as the rebalance procedure uses them.
 * A request names the endpoint and carries its form payload; a reply is
 * what `requests.get`/`requests.post` and `response.json()` give back.
 */
module ClusterApi {

  import opened Results
  import opened PyValues

  /** The `entry[0].content` object of a decoded JSON response. */
  type Content = map<string, Value>

  /** A form payload of a POST. */
  type Payload = map<string, Value>

  datatype Request =
    | GetMaintenanceMode                    // GET manager/info, field maintenance_mode
    | GetSearchFactor                       // GET manager/generation/master, field search_factor_met
    | GetClusteringConfig                   // GET configs/conf-server/clustering
    | SetRebalanceThreshold(threshold: Value) // POST {"rebalance_threshold": threshold}
    | PruneExcessBuckets(payload: Payload)  // POST prune_index, {} or {"index": ...}
    | UsageRebalance(action: string)        // POST rebalance_buckets_usage, {"action": ...}
    | Rebalance(payload: Payload)           // POST rebalance_buckets
  {
    predicate IsPost() {
      !(GetMaintenanceMode? || GetSearchFactor? || GetClusteringConfig?)
    }

    /**
     * The endpoint the request goes to. Nothing in the model depends on it:
     * requests are told apart by constructor, and this function only records
     * the URL constants of the source.
     */
    function Url(): string {
      match this
      case GetMaintenanceMode =>
        "https://localhost:8089/services/cluster/manager/info?f=maintenance_mode&output_mode=json"
      case GetSearchFactor =>
        "https://localhost:8089/services/cluster/manager/generation/master?output_mode=json&f=search_factor_met"
      case GetClusteringConfig =>
        "https://localhost:8089/servicesNS/-/-/configs/conf-server/clustering?output_mode=json"
      case SetRebalanceThreshold(_) =>
        "https://localhost:8089/servicesNS/nobody/system/configs/conf-server/clustering"
      case PruneExcessBuckets(_) =>
        "https://localhost:8089/services/cluster/master/control/default/prune_index"
      case UsageRebalance(_) =>
        "https://localhost:8089/services/cluster/master/control/control/rebalance_buckets_usage?output_mode=json"
      case Rebalance(_) =>
        "https://localhost:8089/services/cluster/master/control/control/rebalance_buckets?output_mode=json"
    }
  }

  /**
   * What one call yields: the TLS failure `requests` raises as `SSLError`,
   * or a response with its status code, its text and, when the body is a
   * JSON envelope with a first entry, that entry's content.
   */
  datatype Reply =
    | SslFailure
    | Response(status: int, text: string, content: Option<Content>)

  /**
   * The cluster manager, seen from the client: the reply to each request,
   * given every request issued so far in the run (the last one being the
   * request answered).
   */
  type Server = seq<Request> -> Reply
}
