/**
 * Collaborators whose code is not part of this model. Each is a function
 * value, so every proof holds whatever they compute.
 */
module Collab {
  import opened Wrappers
  import opened Json
  import opened Timers

  datatype Env = Env(
    /** SADataHelper.assertKey succeeds. */
    isKeyValid: string -> bool,
    /** SADataHelper.assertValue succeeds. */
    isValueValid: string -> bool,
    /** SADataHelper.assertPropertyTypes succeeds. */
    arePropertyTypesValid: Props -> bool,
    /** SensorsDataUtils.mergeJSONObject(source, dest): dest after the merge. */
    merge: (Props, Props) -> Props,
    /** SensorsDataUtils.mergeSuperJSONObject(dynamic, static): the de-duplicated super properties. */
    mergeSuper: (Option<Props>, Props) -> Props,
    /** JSONUtils.mergeDistinctProperty(source, dest): dest after the merge. */
    mergeDistinct: (Props, Props) -> Props,
    /** The remote configuration suppresses events of this name. */
    isIgnored: string -> bool,
    /** The user's track callback, if one is registered; it yields None when it throws. */
    trackCallback: Option<(string, Props) -> Option<bool>>,
    /** TimeUtils.isDateValid. */
    isDateValid: int -> bool,
    /** TimeUtils.formatDate for a Date property. */
    formatDate: int -> string,
    /** The yyyy-MM-dd rendering used by the first-day check. */
    formatDay: int -> string,
    /** TimeUtils.formatDate applied to a whole property document (item events). */
    formatDates: Props -> Props,
    /** String.valueOf for a non-string value read through optString. */
    render: Value -> string,
    /** EventTimer.duration at instant `now`. */
    duration: (Timer, int) -> int
  )

  /** JSONObject.optString: "" for a missing value, the text of a string, the rendering of anything else. */
  function OptString(env: Env, p: Props, key: string): (r: string)
    ensures key !in p ==> r == ""
    ensures key in p && p[key].Str? ==> r == p[key].s
    ensures key in p && !p[key].Str? ==> r == env.render(p[key])
  {
    if key !in p then ""
    else match p[key]
      case Str(s) => s
      case v => env.render(v)
  }

  /**
   * JSONObject.getString: like optString for a present value, but a missing
   * value is an error (None) rather than "".
   */
  function GetString(env: Env, p: Props, key: string): (r: Option<string>)
    ensures r.None? <==> key !in p
    ensures r.Some? ==> r.value == OptString(env, p, key)
  {
    if key in p then Some(OptString(env, p, key)) else None
  }

  /**
   * The documented behaviour of mergeJSONObject(source, dest): it copies the
   * source's entries into dest, so a key only dest holds keeps its value.
   * Lemmas that depend on it take it as a hypothesis.
   */
  ghost predicate MergeKeepsDest(merge: (Props, Props) -> Props) {
    forall source: Props, dest: Props, k: string :: k in dest && k !in source ==>
      k in merge(source, dest) && merge(source, dest)[k] == dest[k]
  }
}
