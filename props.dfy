/** The property source handed to a process. Only the four lookups the node
    adapter uses are modelled; each one is a map from property name to the
    value the lookup yields. How text is read as an integer or a boolean is
    left to the source: `ints` and `bools` hold the results of that reading,
    and a name missing from them is a lookup that yields null. */
module Props {
  import opened Wrappers
  import opened Decimal

  datatype Props = Props(
    strings: map<string, string>,
    ints: map<string, Int32>,
    bools: map<string, bool>)

  /** `props.of(key)`: the value, or null when the property is not set. */
  function Of(p: Props, key: string): Option<string> {
    if key in p.strings then Some(p.strings[key]) else None
  }

  /** `props.of(key, default)`. */
  function OfOr(p: Props, key: string, default: string): string {
    match Of(p, key)
    case Some(v) => v
    case None => default
  }

  /** `props.intOf(key)`: the integer value, or null. */
  function IntOf(p: Props, key: string): Option<Int32> {
    if key in p.ints then Some(p.ints[key]) else None
  }

  /** `props.booleanOf(key, default)`. */
  function BooleanOf(p: Props, key: string, default: bool): bool {
    if key in p.bools then p.bools[key] else default
  }
}
