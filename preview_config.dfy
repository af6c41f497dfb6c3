/**
 * The preview configuration (duration, delay and easing of the transition
 * shown in the editor), persisted in the browser store and loaded with
 * fallbacks when the screen's initial state is computed.
 */
module PreviewConfig {
  import opened EditorValues

  const DurationKey: string := "editor.transitionDuration"
  const DelayKey: string := "editor.transitionDelay"
  const EasingKey: string := "editor.bezierEasing"

  const DefaultDuration: real := 1500.0
  const DefaultDelay: real := 200.0
  const DefaultEasing: seq<real> := [0.0, 0.0, 1.0, 1.0]

  /** The browser store, as a plain map from key to stored value. */
  type Store = map<string, JsValue>

  datatype Config = Config(transitionDuration: JsValue, transitionDelay: JsValue, bezierEasing: JsValue)

  function DefaultConfig(): Config {
    Config(Number(DefaultDuration), Number(DefaultDelay), Array(DefaultEasing))
  }

  /** `store.get(key)`: a missing key reads as undefined. */
  function Get(store: Store, key: string): JsValue {
    if key in store then store[key] else Undefined
  }

  /**
   * The stored duration is replaced by 1500 when it is falsy or not a number
   * (`!d || isNaN(d)`); any other stored value is kept as it is.
   */
  function LoadDuration(stored: JsValue): (d: JsValue)
    ensures (|| stored == Undefined || stored == Null || stored == Bool(false)
             || stored == Number(0.0) || stored == NaN
             || (stored.Array? && |stored.items| >= 2))
            ==> d == Number(DefaultDuration)
    ensures (|| stored == Bool(true) || (stored.Number? && stored.n != 0.0)
             || (stored.Array? && |stored.items| <= 1))
            ==> d == stored
  {
    if !Truthy(stored) || IsNaN(stored) then Number(DefaultDuration) else stored
  }

  /**
   * The stored delay is replaced by 200 only when it is not a number
   * (`isNaN(d)`): a stored 0 or null is kept.
   */
  function LoadDelay(stored: JsValue): (d: JsValue)
    ensures (stored == Undefined || stored == NaN || (stored.Array? && |stored.items| >= 2))
            ==> d == Number(DefaultDelay)
    ensures (|| stored == Null || stored.Bool? || stored.Number?
             || (stored.Array? && |stored.items| <= 1))
            ==> d == stored
  {
    if IsNaN(stored) then Number(DefaultDelay) else stored
  }

  /**
   * The stored easing is kept when it is an array the easing library accepts
   * as its four curve arguments (`accepts`; `BezierEasing.apply(null, e)`
   * throws otherwise); anything else, a missing value included, falls back to
   * the linear curve [0, 0, 1, 1].
   */
  function LoadEasing(stored: JsValue, accepts: seq<real> -> bool): (e: JsValue)
    ensures e == stored || e == Array(DefaultEasing)
    ensures stored.Array? && accepts(stored.items) ==> e == stored
    ensures !stored.Array? ==> e == Array(DefaultEasing)
    ensures stored.Array? && !accepts(stored.items) ==> e == Array(DefaultEasing)
  {
    if stored.Array? && accepts(stored.items) then stored else Array(DefaultEasing)
  }

  /**
   * The configuration part of the screen's initial state. A missing key
   * gives its default; a stored delay of 0 is kept.
   */
  function LoadConfig(store: Store, accepts: seq<real> -> bool): (c: Config)
    ensures DurationKey !in store ==> c.transitionDuration == Number(DefaultDuration)
    ensures DelayKey !in store ==> c.transitionDelay == Number(DefaultDelay)
    ensures EasingKey !in store ==> c.bezierEasing == Array(DefaultEasing)
    ensures DelayKey in store && store[DelayKey] == Number(0.0) ==> c.transitionDelay == Number(0.0)
    ensures DurationKey in store && store[DurationKey] == Number(0.0) ==> c.transitionDuration == Number(DefaultDuration)
  {
    Config(
      LoadDuration(Get(store, DurationKey)),
      LoadDelay(Get(store, DelayKey)),
      LoadEasing(Get(store, EasingKey), accepts))
  }

  /** The store after the three configuration keys are removed. */
  function ClearConfig(store: Store): (s: Store)
    ensures DurationKey !in s && DelayKey !in s && EasingKey !in s
    ensures forall k :: k in store && k != DurationKey && k != DelayKey && k != EasingKey
                        ==> k in s && s[k] == store[k]
    ensures forall k :: k in s ==> k in store
  {
    store - {DurationKey, DelayKey, EasingKey}
  }

  /** Loading from a cleared store yields the defaults, whatever else the store holds. */
  lemma ClearedStoreLoadsDefaults(store: Store, accepts: seq<real> -> bool)
    ensures LoadConfig(ClearConfig(store), accepts) == DefaultConfig()
  {
  }

  /** A stored non-zero duration survives a reload; a stored zero does not. */
  lemma StoredDurationOnReload(store: Store, n: real, accepts: seq<real> -> bool)
    ensures n != 0.0 ==> LoadConfig(store[DurationKey := Number(n)], accepts).transitionDuration == Number(n)
    ensures n == 0.0 ==> LoadConfig(store[DurationKey := Number(n)], accepts).transitionDuration == Number(DefaultDuration)
  {
  }

  /** Any stored numeric delay, zero included, survives a reload. */
  lemma StoredDelayOnReload(store: Store, n: real, accepts: seq<real> -> bool)
    ensures LoadConfig(store[DelayKey := Number(n)], accepts).transitionDelay == Number(n)
  {
  }
}
