/** The five switch types and the per-type facts every other part of the
    accessory branches on. */
module SwitchTypes {
  import opened Options
  import opened JsValue

  datatype SwitchType = Stateful | Stateless | StatelessReverse | Toggle | ToggleReverse

  /** The configuration string naming each type. */
  function Name(t: SwitchType): string {
    match t
    case Stateful => "stateful"
    case Stateless => "stateless"
    case StatelessReverse => "stateless-reverse"
    case Toggle => "toggle"
    case ToggleReverse => "toggle-reverse"
  }

  /** The type whose configuration string is `s`, if any. */
  function FromName(s: string): (r: Option<SwitchType>)
    ensures r.Some? ==> Name(r.value) == s
  {
    if s == "stateful" then Some(Stateful)
    else if s == "stateless" then Some(Stateless)
    else if s == "stateless-reverse" then Some(StatelessReverse)
    else if s == "toggle" then Some(Toggle)
    else if s == "toggle-reverse" then Some(ToggleReverse)
    else None
  }

  /** Every type is recognised by its own name, and only by it. */
  lemma NameRoundTrip(t: SwitchType, s: string)
    ensures FromName(Name(t)) == Some(t)
    ensures FromName(s) == Some(t) <==> s == Name(t)
  {
  }

  /** `utils.enumValueOf(SwitchType, value, default)`: an absent value gives
      the default, a string naming a type gives that type, anything else is
      invalid (None). */
  function EnumValueOf(v: Option<Value>, default: SwitchType): (r: Option<SwitchType>)
    ensures v.None? ==> r == Some(default)
    ensures v.Some? ==> (r.Some? <==> v.value.Str? && FromName(v.value.s).Some?)
    ensures v.Some? && r.Some? ==> v.value == Str(Name(r.value))
  {
    match v
    case None => Some(default)
    case Some(Str(s)) => FromName(s)
    case Some(_) => None
  }

  /** The momentary types: no device state, the display falls back by itself. */
  predicate IsMomentary(t: SwitchType) {
    t == Stateless || t == StatelessReverse
  }

  /** The value a momentary switch rests at: what `getStatus` always answers,
      the value whose `setStatus` needs no request, and the value the
      post-set reset writes back. Other types have none. */
  function IdleValue(t: SwitchType): (r: Option<bool>)
    ensures r.Some? <==> IsMomentary(t)
  {
    match t
    case Stateless => Some(false)
    case StatelessReverse => Some(true)
    case _ => None
  }

  /** The types for which pushed updates (notifications, MQTT) are enabled. */
  predicate SupportsPush(t: SwitchType) {
    t == Stateful || t == Toggle || t == ToggleReverse
  }

  /** `onUrl` is needed by every type except stateless-reverse. */
  predicate RequiresOnUrl(t: SwitchType) {
    t != StatelessReverse
  }

  /** `offUrl` is needed by every type except stateless. */
  predicate RequiresOffUrl(t: SwitchType) {
    t != Stateless
  }

  /** `statusUrl` is needed by the stateful type only. */
  predicate RequiresStatusUrl(t: SwitchType) {
    t == Stateful
  }
}
