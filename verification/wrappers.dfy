/** Optional values: the model's stand-in for TypeScript's `T | null` and `T | undefined`. */
module Wrappers {

  datatype Option<+T> = None | Some(value: T) {

    /** The `??` operator: the carried value, or `default` when there is none. */
    function GetOr(default: T): (r: T)
      ensures Some? ==> r == value
      ensures None? ==> r == default
    {
      match this
      case Some(v) => v
      case None => default
    }
  }

  /** A property of an object literal as the spread operator sees it: not present at all,
      present with the value `undefined`, or present with a defined value. */
  datatype Slot<+T> = Absent | Undefined | Defined(value: T) {

    /** Reading the property (`obj.key`): absent and undefined read alike. */
    function Read(): (r: Option<T>)
      ensures r.Some? <==> Defined?
    {
      if Defined? then Some(value) else None
    }
  }

  /** `{...old, ...new}` restricted to one key: a key the newer object carries wins, even when
      it carries `undefined`. */
  function Spread<T>(older: Slot<T>, newer: Slot<T>): (r: Slot<T>)
    ensures newer.Absent? ==> r == older
    ensures !newer.Absent? ==> r == newer
  {
    if newer.Absent? then older else newer
  }
}
