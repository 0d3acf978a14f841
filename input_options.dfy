/**
 * Option coercion at the top of each loop iteration of `stream_events`:
 * every input item is a dictionary of option strings supplied by the host.
 */
module InputOptions {

  import opened Results
  import opened PyValues
  import opened FloatParse

  /** The options of one configured input, as the host supplies them. */
  type Item = map<string, string>

  /** The spellings a boolean option is true for. */
  const TrueLiterals: set<string> := {"1", "True", "true"}

  /** The threshold used when the input does not set one (a float, not a string). */
  const DefaultThreshold: real := 0.9

  /** Why an input's options were refused; each ends the loop with `break`. */
  datatype OptionError = InvalidThreshold | InvalidMaxRuntime

  /**
   * The locals the loop body derives from an item. `threshold`,
   * `maxRuntime` and `targetIndex` keep the raw Python value: the option
   * string, or the default (`0.9` for the threshold, `False` for the others).
   */
  datatype Options = Options(
    threshold: Value,
    maxRuntime: Value,
    targetIndex: Value,
    searchable: bool,
    usageBased: bool,
    excessBuckets: bool,
    debug: bool)  // only raises the log level

  /** A boolean option: `key in item and item[key] in ("1", "True", "true")`. */
  predicate Flag(item: Item, key: string) {
    key in item && item[key] in TrueLiterals
  }

  /** The value of an optional string option, `False` when it is absent. */
  function Raw(item: Item, key: string): Value {
    if key in item then Str(item[key]) else Bool(false)
  }

  /**
   * Validation and coercion: `threshold` is checked before `max_runtime`,
   * each only when present; an absent `threshold` is the float 0.9 and an
   * absent `max_runtime` or `target_index` is `False`.
   */
  function Validate(item: Item): (r: Result<Options, OptionError>)
    ensures r.Success? <==>
      && ("threshold" !in item || IsPositiveNumber(item["threshold"]))
      && ("max_runtime" !in item || IsPositiveNumber(item["max_runtime"]))
    ensures r == Failure(InvalidThreshold) <==>
      "threshold" in item && !IsPositiveNumber(item["threshold"])
    ensures r.Success? ==>
      && r.value.threshold == (if "threshold" in item then Str(item["threshold"]) else Num(DefaultThreshold))
      && r.value.maxRuntime == (if "max_runtime" in item then Str(item["max_runtime"]) else Bool(false))
      && r.value.targetIndex == (if "target_index" in item then Str(item["target_index"]) else Bool(false))
      && (Truthy(r.value.maxRuntime) <==> "max_runtime" in item)
      && (Truthy(r.value.targetIndex) <==> "target_index" in item && item["target_index"] != "")
      && (r.value.searchable <==> Flag(item, "searchable"))
      && (r.value.usageBased <==> Flag(item, "usage_based"))
      && (r.value.excessBuckets <==> Flag(item, "excess_buckets"))
      && (r.value.debug <==> Flag(item, "debug"))
  {
    var threshold := if "threshold" in item then Str(item["threshold"]) else Num(DefaultThreshold);
    if threshold.Str? && !IsPositiveNumber(threshold.s) then
      Failure(InvalidThreshold)
    else if "max_runtime" in item && !IsPositiveNumber(item["max_runtime"]) then
      Failure(InvalidMaxRuntime)
    else
      Success(Options(
        threshold,
        Raw(item, "max_runtime"),
        Raw(item, "target_index"),
        Flag(item, "searchable"),
        Flag(item, "usage_based"),
        Flag(item, "excess_buckets"),
        Flag(item, "debug")))
  }

  /** A boolean option is false when it is absent or spelled any other way, e.g. `"yes"` or `"TRUE"`. */
  lemma FlagExamples(item: Item)
    ensures "searchable" !in item ==> !Flag(item, "searchable")
    ensures Flag(item["searchable" := "True"], "searchable")
    ensures !Flag(item["searchable" := "TRUE"], "searchable")
    ensures !Flag(item["searchable" := "yes"], "searchable")
  {
  }
}
