/** Types shared by every component. */
module Common {

  datatype Option<+T> = None | Some(value: T)

  /** A value that stands for a condition which is met. */
  function When<T>(met: bool, value: T): (r: Option<T>)
    ensures r.Some? <==> met
  {
    if met then Some(value) else None
  }

  /** The first of two that stands for anything. */
  function Or<T>(first: Option<T>, second: Option<T>): (r: Option<T>)
    ensures r.None? <==> first.None? && second.None?
  {
    if first.Some? then first else second
  }

  /** A signal may also say HOLD; a position is only ever long or short. */
  datatype Direction = Long | Short | Hold {

    /** Plus one for a long holding, minus one for a short one. */
    function Sign(): real {
      match this
      case Long => 1.0
      case Short => -1.0
      case Hold => 0.0
    }

    predicate IsSide() {
      Long? || Short?
    }
  }
}
