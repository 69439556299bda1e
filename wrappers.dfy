/** A C# reference that may be null: `None` stands for null. */
module Wrappers {

  datatype Option<+T> = None | Some(value: T) {

    /** The value, or `default` when this is null (C#'s `??` operator). */
    function GetOr(default: T): T
    {
      match this
      case Some(v) => v
      case None => default
    }

    /** Applies `f` to a present value and keeps null as null (C#'s `?.`). */
    function Map<U>(f: T -> U): (r: Option<U>)
      ensures r.Some? <==> this.Some?
      ensures r.Some? ==> r.value == f(this.value)
    {
      match this
      case Some(v) => Some(f(v))
      case None => None
    }
  }
}
