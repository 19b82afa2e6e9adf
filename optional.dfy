/** Optional JSON fields and the two "absent means zero" readings the repository uses. */
module Optional {

  /** A JSON field that may be absent (or null). */
  datatype Option<+T> = None | Some(value: T) {
    function GetOr(default: T): T {
      match this
      case Some(v) => v
      case None => default
    }
  }

  /** JavaScript truthiness of an optional number: present and non-zero. */
  predicate Truthy(x: Option<int>) {
    x.Some? && x.value != 0
  }

  /** `x || 0` in JavaScript: a falsy field reads as 0. On integer fields this is Python's
      `d.get(k, 0)`: an absent field reads as 0 and a present one, zero included, as itself. */
  function OrZero(x: Option<int>): (r: int)
    ensures r == x.GetOr(0)
  {
    if Truthy(x) then x.value else 0
  }

  /** `if (x) acc += x`: a falsy field adds nothing, which on integers is the same as adding `x || 0`. */
  function AddIfTruthy(acc: int, x: Option<int>): (r: int)
    ensures r == acc + OrZero(x)
    ensures !Truthy(x) ==> r == acc
  {
    if Truthy(x) then acc + x.value else acc
  }

  /** JavaScript truthiness of an optional boolean (`s.is_active`). */
  predicate IsTrue(x: Option<bool>) {
    x == Some(true)
  }
}
