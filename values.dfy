/** The few Python values the handler stores, passes on and inspects. */
module PyValues {
  import opened Wrappers

  /**
   * A Python value. Callables and every other object the handler never looks
   * into are `Opaque`: only their identity and whether `callable()` holds matter.
   */
  datatype Value =
    | NoneValue
    | Bool(b: bool)
    | Str(s: string)
    | List(items: seq<Value>)
    | Dict(entries: map<string, Value>)
    | Opaque(id: nat, callable: bool)

  /** `isinstance(v, collections.Callable)`. */
  predicate IsCallable(v: Value) {
    v.Opaque? && v.callable
  }

  /** `isinstance(v, list)`. */
  predicate IsList(v: Value) {
    v.List?
  }

  /** `'%s' % s` for a string that may be `None`. */
  function FormatOptional(s: Option<string>): (r: string)
    ensures s.Some? ==> r == s.value
    ensures s.None? ==> r == "None"
  {
    match s
    case Some(t) => t
    case None => "None"
  }
}
