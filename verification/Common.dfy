/** The option type shared by the models. */
module Common {
  datatype Option<+T> = None | Some(value: T) {
    function GetOr(default: T): T {
      match this
      case Some(v) => v
      case None => default
    }
  }
}

/** Two facts about whole-number products and quotients. */
module Arithmetic {
  lemma CancelFactor(x: int, y: int, b: int)
    requires b > 0 && x * b < y * b
    ensures x < y
  {
  }

  lemma QuotientIs(x: int, b: int, q: int)
    requires b > 0 && q * b <= x < q * b + b
    ensures x / b == q
  {
    var d := x / b;
    assert x == d * b + x % b;
    CancelFactor(d, q + 1, b);
    CancelFactor(q, d + 1, b);
  }
}
