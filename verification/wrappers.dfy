/** Optional values and fallible results, shared by every module of the model. */
module Wrappers {

  /** Swift `T?`, Rust `Option<T>`, TypeScript `T | null`. */
  datatype Option<+T> = None | Some(value: T) {
    function GetOr(default: T): T {
      match this
      case Some(v) => v
      case None => default
    }
  }

  /** Rust `Result<T, String>` and the thrown errors of the TypeScript front end. */
  datatype Result<+T, +E> = Ok(value: T) | Err(error: E)
}

/** Identities the system draws at random (Foundation `UUID()`); the model takes them as inputs. */
module Identity {
  type Uuid = nat
}

/** Integer arithmetic as Swift and Rust perform it on signed integers. */
module IntMath {

  const Int64Min: int := -0x8000_0000_0000_0000
  const Int64Max: int := 0x7FFF_FFFF_FFFF_FFFF
  const UInt32Max: int := 0xFFFF_FFFF
  const Int32Min: int := -0x8000_0000
  const Int32Max: int := 0x7FFF_FFFF

  predicate InInt64(n: int) { Int64Min <= n <= Int64Max }

  /** Swift `Int` on a 64-bit platform. */
  type Int64 = n: int | Int64Min <= n <= Int64Max
  predicate InInt32(n: int) { Int32Min <= n <= Int32Max }

  /** Swift's `/`: the quotient rounded toward zero. */
  function Quot(a: int, b: int): (q: int)
    requires b > 0
    ensures a >= 0 ==> q == a / b
    ensures a < 0 ==> q == -((-a) / b)
  {
    if a >= 0 then a / b else -((-a) / b)
  }

  /** Swift's `%`: the remainder takes the sign of the dividend. */
  function Rem(a: int, b: int): (r: int)
    requires b > 0
    ensures Quot(a, b) * b + r == a
    ensures a >= 0 ==> 0 <= r < b
    ensures a < 0 ==> -b < r <= 0
  {
    if a >= 0 then a % b else -((-a) % b)
  }

  /** Euclidean division is determined by any quotient and remainder in range. */
  lemma DivModUnique(a: int, b: int, q: int, r: int)
    requires b > 0 && 0 <= r < b && a == q * b + r
    ensures a / b == q && a % b == r
  {
    var q', r' := a / b, a % b;
    assert q' * b + r' == a;
    if q > q' {
      assert (q - q') * b == q * b - q' * b;
      MulAtLeast(q - q', b);
    } else if q < q' {
      assert (q' - q) * b == q' * b - q * b;
      MulAtLeast(q' - q, b);
    }
  }

  lemma MulAtLeast(x: int, b: int)
    requires x >= 1 && b > 0
    ensures x * b >= b
  {
    assert (x - 1) * b >= 0;
  }
}
