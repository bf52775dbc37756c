/**
 * The property sanitiser the pipeline runs when a user track callback is
 * registered (isEnterDb): it rejects bad keys and bad value kinds, caps
 * string lengths and renders dates as text.
 */
module Sanitizer {
  import opened Wrappers
  import opened Json
  import opened Names
  import opened Collab

  /** The longest string value kept as it is. */
  const MaxLength := 8191

  /** The cap for the value under `key`: double for the crash reason. */
  function Cap(key: string): (r: nat)
    ensures key == CrashReasonKey ==> r == 2 * MaxLength
    ensures key != CrashReasonKey ==> r == MaxLength
  {
    if key == CrashReasonKey then 2 * MaxLength else MaxLength
  }

  /** A string over the cap keeps its first `cap` characters and gains the marker '$'. */
  function Truncate(s: string, cap: nat): (r: string)
    ensures |s| <= cap ==> r == s
    ensures |s| > cap ==> |r| == cap + 1 && r[..cap] == s[..cap] && r[cap] == '$'
  {
    if |s| > cap then s[..cap] + "$" else s
  }

  /** The kinds a property value may have: string, number, boolean, array or date. */
  predicate IsAllowedKind(v: Value) {
    v.Str? || v.Num? || v.Bool? || v.Arr? || v.Date?
  }

  /** A property survives the sanitiser: its key passes assertKey and its value is of an allowed kind. */
  predicate Admissible(env: Env, key: string, v: Value) {
    env.isKeyValid(key) && IsAllowedKind(v)
  }

  /**
   * The value stored for an admissible property: strings are capped, dates
   * become their formatted text, everything else is kept.
   */
  function SanitizeValue(env: Env, key: string, v: Value): (r: Value)
    ensures v.Str? ==> r.Str? && |r.s| <= Cap(key) + 1
    ensures v.Str? && |v.s| <= Cap(key) ==> r == v
    ensures v.Str? && |v.s| > Cap(key) ==>
      |r.s| == Cap(key) + 1 && r.s[..Cap(key)] == v.s[..Cap(key)] && r.s[Cap(key)] == '$'
    ensures v.Date? ==> r == Str(env.formatDate(v.millis))
    ensures !v.Str? && !v.Date? ==> r == v
  {
    match v
    case Str(s) => Str(Truncate(s, Cap(key)))
    case Date(ms) => Str(env.formatDate(ms))
    case _ => v
  }

  /**
   * Whether an event enters the database and, if so, with which properties.
   * With no callback the properties pass untouched. With one, a callback
   * verdict of false rejects (a throwing callback counts as acceptance),
   * then any inadmissible property rejects, and otherwise every value is
   * sanitised.
   */
  function EnterDb(env: Env, eventName: string, props: Props): (r: Option<Props>)
    ensures env.trackCallback.None? ==> r == Some(props)
    ensures env.trackCallback.Some? ==>
      (r.Some? <==> env.trackCallback.value(eventName, props) != Some(false)
                    && forall k :: k in props ==> Admissible(env, k, props[k]))
    ensures r.Some? ==> r.value.Keys == props.Keys
    ensures env.trackCallback.Some? && r.Some? ==>
      forall k :: k in props ==> r.value[k] == SanitizeValue(env, k, props[k])
  {
    match env.trackCallback
    case None => Some(props)
    case Some(callback) =>
      if callback(eventName, props) == Some(false) then None
      else if forall k :: k in props ==> Admissible(env, k, props[k]) then
        Some(map k | k in props :: SanitizeValue(env, k, props[k]))
      else None
  }

  /**
   * isEnterDb: asks the callback, then walks the keys one at a time,
   * returning false at the first inadmissible property and sanitising the
   * value of each admissible one.
   */
  method IsEnterDb(env: Env, eventName: string, props: Props) returns (enter: bool, sanitized: Props)
    ensures enter <==> EnterDb(env, eventName, props).Some?
    ensures enter ==> sanitized == EnterDb(env, eventName, props).value
  {
    enter, sanitized := true, props;
    if env.trackCallback.None? {
      return;
    }
    var verdict := env.trackCallback.value(eventName, props);
    if verdict == Some(false) {
      return false, sanitized;
    }
    var todo := props.Keys;
    while todo != {}
      invariant todo <= props.Keys
      invariant sanitized.Keys == props.Keys
      invariant forall k :: k in props && k !in todo ==>
        Admissible(env, k, props[k]) && sanitized[k] == SanitizeValue(env, k, props[k])
      invariant forall k :: k in todo ==> sanitized[k] == props[k]
      decreases todo
    {
      var key :| key in todo;
      var value := sanitized[key];
      if !env.isKeyValid(key) || !IsAllowedKind(value) {
        return false, sanitized;
      }
      sanitized := sanitized[key := SanitizeValue(env, key, value)];
      todo := todo - {key};
    }
    assert forall k :: k in props ==> Admissible(env, k, props[k]);
  }

  /** Sanitising a string twice is sanitising it once: a capped string stays capped, with one marker. */
  lemma {:induction false} SanitizeStringIdempotent(env: Env, key: string, s: string)
    ensures SanitizeValue(env, key, SanitizeValue(env, key, Str(s))) == SanitizeValue(env, key, Str(s))
  {
    var cap := Cap(key);
    if |s| > cap {
      var once := s[..cap] + "$";
      assert |once| == cap + 1;
      assert once[..cap] == s[..cap];
      assert once[..cap] + "$" == once;
    }
  }

  /**
   * A string longer than the ordinary cap but within the doubled one is cut
   * to 8191 characters plus the marker under an ordinary key, and kept whole
   * as the crash reason.
   */
  lemma CrashReasonKeepsLongerText(env: Env, key: string, s: string)
    requires MaxLength < |s| <= 2 * MaxLength
    requires key != CrashReasonKey
    ensures SanitizeValue(env, key, Str(s)) == Str(s[..MaxLength] + "$")
    ensures SanitizeValue(env, CrashReasonKey, Str(s)) == Str(s)
  {
  }

  /**
   * An accepted property was of an allowed kind; strings and dates come out
   * as strings, and every other value comes out unchanged.
   */
  lemma SanitizedKeepsKinds(env: Env, eventName: string, props: Props, key: string)
    requires EnterDb(env, eventName, props).Some? && key in props
    requires env.trackCallback.Some?
    ensures var v := EnterDb(env, eventName, props).value[key];
      IsAllowedKind(props[key]) && v.Str? == (props[key].Str? || props[key].Date?)
      && (!props[key].Str? && !props[key].Date? ==> v == props[key])
  {
  }
}
