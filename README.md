# auto_data_rebalance — a Dafny model of the rebalance decision procedure

The modular input `AutoDataRebalance` runs on a schedule on a cluster
manager. For each configured input it does five things in order:

1. It validates the options.
2. It checks that the cluster is not in maintenance mode.
3. It checks that the search factor is met.
4. It makes sure that `rebalance_threshold` in `server.conf` is the requested value.
5. It starts one of three operations: an excess-bucket prune, a usage-based data
   rebalance or a uniform data rebalance.

This project models that procedure (`stream_events`) and its validator
`is_positive_number`. It then proves which requests the procedure issues,
in which order, with which payloads, and when it stops.

Modules (one file each):

- `Results`: `Option` and `Result`.
- `PyValues`: the Python values the procedure handles, with `Truthy` (Python's
  truthiness) and `Equal` (Python's `==`).
- `FloatParse`: `float()` on decimal literals and `IsPositiveNumber`.
- `InputOptions`: the options of one input and their coercion (`Validate`).
- `ClusterApi`: the requests (one constructor per endpoint, with its payload),
  the replies, and the server oracle `Server = seq<Request> -> Reply`. The
  oracle answers each request given every request issued so far, so any
  deterministic cluster manager can be described.
- `Orchestrator`: the procedure as an explicit state machine:
  `CheckMaintenance`, `CheckSearchFactor`, `ReconcileThreshold` and `Dispatch`
  per input (`ProcessInput`), then `Run` over the inputs. A phase either lets
  the input go on or hands the loop a signal: `NextInput` (`continue` or the
  end of the body), `Break`, `Return`, or `Raise` (an exception the source
  does not catch).
- `AutoDataRebalance`: the imperative model. `StreamEvents` is the `for`
  loop over the inputs. It leaves through `break`, `continue` and `return`
  where the source does. It calls one method per stretch of the loop body
  (`CoerceOptions`, `GateMaintenance`, `GateSearchFactor`, `UpdateThreshold`,
  `DispatchMode`), and each method keeps the source's locals and builds the
  payload dictionaries in place. Each method is proved equal to its phase,
  and `StreamEvents` is proved equal to `Run`.
- `Properties`: lemmas about the state machine. Through `StreamEvents`'s
  postcondition they hold of the loop itself.

Three behaviours of the code are easy to misread; the model follows the code:

- The configured threshold is compared with the requested one as raw Python
  values (bin/auto_data_rebalance.py:225), not numerically. The default is the
  float `0.9`, and an option is a string. So the option `"0.9"` against a
  configured number `0.9` does issue the update POST
  (`Properties.ThresholdAgainstConfiguredNumber`). The default `0.9` against a
  configured string `"0.9"` issues it too (`Properties.ThresholdComparedRaw`).
- The status code of the uniform rebalance POST is not checked
  (bin/auto_data_rebalance.py:284-288). A non-200 reply whose content has a
  `description` lets the loop go on.
- A TLS failure is caught only around the three GETs. On any POST it is an
  uncaught exception, and so is a reply without the expected JSON content or
  key. The model gives these the outcome `Crashed`, instead of a typed error.

## Model

| member | source | states |
|---|---|---|
| `FloatParse.IsPositiveNumber` | bin/auto_data_rebalance.py:94-99 | false when `float()` fails, otherwise whether the number is > 0; proved equal to: the string is a literal, has no minus sign and has a non-zero digit; a positive string is non-empty |
| `FloatParse.IsPositiveNumberExamples` | bin/auto_data_rebalance.py:94-99 | `"0.9"` is accepted; `"-1"`, `"-5"`, `"abc"`, `"0"` and `""` are refused |
| `PyValues.EqualIsEquivalence` | bin/auto_data_rebalance.py:225 | Python `==` on these values is reflexive, symmetric and transitive, and on a string it is identity |
| `PyValues.StringNeverEqualsNumber` | bin/auto_data_rebalance.py:225 | a string is never `==` to a number, whatever its text |
| `InputOptions.Validate` | bin/auto_data_rebalance.py:110-147 | options are accepted iff `threshold` and `max_runtime` are each absent or positive; `threshold` is checked first; the threshold defaults to the float 0.9 and `max_runtime`/`target_index` to `False`; each boolean option is true iff present and one of `"1"`, `"True"`, `"true"`; a given `max_runtime` is always truthy |
| `InputOptions.FlagExamples` | bin/auto_data_rebalance.py:131-134 | an absent flag, `"TRUE"` and `"yes"` are false; `"True"` is true |
| `Orchestrator.CheckMaintenance` | bin/auto_data_rebalance.py:161-182 | issues exactly the maintenance GET; the input goes on iff the reply is 200 with a falsy `maintenance_mode` |
| `Orchestrator.CheckSearchFactor` | bin/auto_data_rebalance.py:183-203 | issues exactly the search-factor GET; the input goes on iff the reply is 200 with `search_factor_met` equal to the string `"1"` |
| `Orchestrator.ReconcileThreshold` | bin/auto_data_rebalance.py:205-230 | issues the config GET, then the threshold POST carrying the requested value exactly when the config was decoded and its `rebalance_threshold` is absent, falsy or `!=` the requested value (`NeedsUpdate`); the input goes on iff the config was decoded and, when an update was needed, the POST was neither a TLS failure nor non-200 |
| `Orchestrator.Dispatch` | bin/auto_data_rebalance.py:232-288 | appends one or two requests, all of them POSTs |
| `Orchestrator.ProcessInput` | bin/auto_data_rebalance.py:110-288 | one iteration of the loop body: option coercion, the two gates, the threshold phase and the mode dispatch, each phase ending the input with its signal; it has no contract of its own, and `ProcessInputShape`, `GatesPrecedePosts`, `RefusedCallIsLast`, `ReachesDispatch` and `PruneEndsInput` state its behaviour |
| `Orchestrator.Run` | bin/auto_data_rebalance.py:106-288 | the input loop: inputs in order, the next one only after `NextInput`, and a break, return or raise ending the run with its outcome; it has no contract of its own, and `StreamEvents`, `RunAppend`, `RunExtends` and `RunPostsGated` state its behaviour |
| `AutoDataRebalance.Get` | bin/auto_data_rebalance.py:162-175 | a GET with its `SSLError` catch, status check and JSON decoding, equal to `Decode` of the reply |
| `AutoDataRebalance.Post` | bin/auto_data_rebalance.py:227-230 | a POST with its status check, an SSL error propagating, equal to `Acknowledge` of the reply |
| `AutoDataRebalance.PostDecoded` | bin/auto_data_rebalance.py:251-259 | a POST whose reply is read: an SSL error propagates, a non-200 status returns, a body without content raises; equal to `Decode` of the reply |
| `AutoDataRebalance.CoerceOptions` | bin/auto_data_rebalance.py:110-147 | the step-by-step coercion computes `Validate(item)` |
| `AutoDataRebalance.GateMaintenance` | bin/auto_data_rebalance.py:161-182 | computes `CheckMaintenance` |
| `AutoDataRebalance.GateSearchFactor` | bin/auto_data_rebalance.py:183-203 | computes `CheckSearchFactor` |
| `AutoDataRebalance.UpdateThreshold` | bin/auto_data_rebalance.py:205-230 | computes `ReconcileThreshold` |
| `AutoDataRebalance.DispatchMode` | bin/auto_data_rebalance.py:232-288 | builds the payloads in place and computes `Dispatch` |
| `AutoDataRebalance.StreamEvents` | bin/auto_data_rebalance.py:101-288 | the input loop with its `break`/`continue`/`return` exits yields exactly the trace and outcome of `Run` |
| `Properties.InvalidOptionsIssueNoRequest` | bin/auto_data_rebalance.py:110-124 | a `threshold` or `max_runtime` that is present but not positive breaks the loop before any request, naming the threshold first |
| `Properties.MaintenanceGate` | bin/auto_data_rebalance.py:177-182 | a truthy `maintenance_mode` breaks the loop after the first GET, with nothing else issued |
| `Properties.SearchFactorGate` | bin/auto_data_rebalance.py:198-203 | a `search_factor_met` other than `"1"` breaks the loop after the second GET, with no POST |
| `Properties.ProcessInputShape` | bin/auto_data_rebalance.py:106-230 | an input's trace is empty, or the maintenance GET alone, or the two gate GETs, or the three GETs with both gates open followed only by POSTs |
| `Properties.GatesPrecedePosts` | bin/auto_data_rebalance.py:161-230 | an input checks maintenance mode once and first; every POST comes after the three GETs that found maintenance mode off and the search factor met |
| `Properties.RefusedCallIsLast` | bin/auto_data_rebalance.py:162-284 | a call answered by a TLS failure or a non-200 status is the input's last request; a GET then returns, a POST with a TLS failure raises, a non-200 POST returns (the uniform start aside) |
| `Properties.RefusedReconcileCallIsLast` | bin/auto_data_rebalance.py:206-230 | within the threshold phase, a refused config GET or update POST ends the input with the matching signal |
| `Properties.RefusedDispatchCallIsLast` | bin/auto_data_rebalance.py:240-284 | within the dispatch, a refused POST is the last request; a TLS failure raises and a non-200 status returns, except for the uniform start |
| `Properties.ThresholdUpdateIffNeeded` | bin/auto_data_rebalance.py:220-230 | after the gates, the threshold POST is issued iff the configured value is absent, falsy or `!=` the requested raw value; it carries the requested value and is issued at most once |
| `Properties.ThresholdComparedRaw` | bin/auto_data_rebalance.py:220-227 | a configured string `"0.9"` triggers the update for the default float 0.9 and for `"0.90"`, not for `"0.9"` |
| `Properties.ThresholdAgainstConfiguredNumber` | bin/auto_data_rebalance.py:225-227 | a configured number 0.9 needs no update for the default, but does for the option string `"0.9"` |
| `Properties.ReachesDispatch` | bin/auto_data_rebalance.py:177-232 | an input with both gates open and a successful threshold phase proceeds to the mode dispatch |
| `Properties.PruneShortCircuits` | bin/auto_data_rebalance.py:232-247 | with `excess_buckets`, exactly one prune POST; its payload has only `index`, present iff `target_index` is non-empty; the loop goes on iff status 200; `usage_based` is irrelevant |
| `Properties.PruneEndsInput` | bin/auto_data_rebalance.py:232-247 | for one input past its gates and threshold phase, with `excess_buckets` the only further request is the prune POST (payload `index` iff `target_index` is non-empty); the loop goes on iff status 200; the input behaves the same whatever `usage_based` is |
| `Properties.UsageBasedTwoPosts` | bin/auto_data_rebalance.py:249-274 | usage-based mode issues `action=status`, then `action=start` only after a 200 with the three stddev fields; the input completes only if both return 200 |
| `Properties.UniformRebalancePayload` | bin/auto_data_rebalance.py:275-288 | uniform mode issues one POST with `action="start"`, `searchable`, `index` iff `target_index` is non-empty and `max_time_in_min` iff `max_runtime` is given; any reply with a `description` goes on, whatever its status |
| `Properties.RunExtends` | bin/auto_data_rebalance.py:106 | the run only appends to the trace |
| `Properties.RunAppend` | bin/auto_data_rebalance.py:106-247 | inputs are processed in order; an input that breaks, returns or raises ends the run and no later input is looked at |
| `Properties.RunPostsGated` | bin/auto_data_rebalance.py:106-288 | across the whole run, every POST follows a maintenance check that found it off and a search-factor check that found it met, with no newer maintenance check in between |

## Left out

- `get_scheme` (bin/auto_data_rebalance.py:36-92): the declaration of the input's arguments for the host framework; no decision depends on it.
- `setup_logging` and every `logger` call, including the `DEBUG` level: logging only. `debug` is kept as a coerced boolean in `Options`.
- The HTTP transport: URLs are kept as constants (`Request.Url`). Headers, the session token and TLS verification are not modelled. Each call is a lookup in the server oracle.
- Transport failures other than `SSLError` (connection errors, time-outs): the source does not catch them. The oracle yields only TLS failures and responses.
- JSON decoding and `data['entry'][0]['content']`: a reply carries the decoded content record, or none when the body is not such an envelope.
- IsPositiveNumber: Python's `float()` also accepts surrounding whitespace, exponents, underscores between digits, `inf` and `nan`. The model accepts decimal literals only. Numbers are exact reals: a literal below the smallest double (`0.` then 400 zeros then `1`) is positive here, but `float()` rounds it to 0.0 and the source refuses it. `float()` also accepts non-ASCII decimal digits (such as `"１"` or `"١"`), which the model refuses.
- PyValues.Equal and Orchestrator.ReconcileThreshold: numbers are exact reals, not binary floats. In Python a configured JSON number that rounds to the same double as 0.9 is `==` to the default 0.9; in the model it is a different real, so the update POST is issued.
- JSON values other than null, booleans, numbers and strings (lists, objects) in the fields the procedure reads.
- The standard-deviation values of the usage-based status reply: they are only logged, so the model checks only that the three keys are present.
- The event writer `ew` and the input names: the procedure does not use them.
