/**
 * What every listener receives and is configured with: the reading record a
 * sensor delivers through `onNewData`, and the listener's `params` dict.
 */
module Readings {
  import opened Wrappers
  import opened Text

  /** A configuration value as a listener's `params` dict holds it. */
  datatype Param = Str(text: string) | Int(number: int)

  type Params = map<string, Param>

  /** `params.get(key, default)` */
  function Get(params: Params, key: string, default: Param): (r: Param)
    ensures key in params ==> r == params[key]
    ensures key !in params ==> r == default
  {
    if key in params then params[key] else default
  }

  /** `int(p)`: an integer is itself, a string is read as a decimal integer. */
  function ToInt(p: Param): (r: Option<int>)
    ensures r.Some? <==> p.Int? || IntLiteral(p.text)
  {
    match p
    case Int(n) => Some(n)
    case Str(s) => ParseInt(s)
  }

  /** `int(n) == int('%d' % n) == n`: an integer and its decimal text configure the same number. */
  lemma ToIntAgrees(n: int)
    ensures ToInt(Int(n)) == ToInt(Str(DecimalText(n))) == Some(n)
  {
    ParseIntDecimalText(n);
  }

  /**
   * One reading as `onNewData` receives it. `cookedText` is the `%f` text of
   * `sensor.rawToCooked(rawvalue)` and `signal` is `str(signal)`, or None when
   * the reading carries no signal; `unit`, `sensorName` and `sensorType` are the
   * sensor object's `unit`, `name` and `type`.
   */
  datatype Reading = Reading(
    sensorId: int,
    rawValue: int,
    cookedText: string,
    unit: string,
    timestamp: int,
    signal: Option<string>,
    sensorName: string,
    sensorType: string)

  /** The signal column both listeners write: `-` when the reading has no signal. */
  function SignalText(signal: Option<string>): (text: string)
    ensures signal.None? ==> text == "-"
    ensures signal.Some? ==> text == signal.value
    ensures signal.Some? && signal.value != "-" ==> text != "-"
  {
    if signal.None? then "-" else signal.value
  }

  /** A text column that cannot be confused with the field or line separators. */
  predicate PlainText(s: string) {
    ',' !in s && '\n' !in s
  }

  /** Every text column of the reading that the listener copies into a line is plain. */
  predicate PlainReading(d: Reading) {
    && PlainText(d.cookedText + " " + d.unit)
    && PlainText(SignalText(d.signal))
    && PlainText(d.sensorName)
    && PlainText(d.sensorType)
  }
}
