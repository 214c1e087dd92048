module Common {
  datatype Option<+T> = None | Some(value: T)

  datatype Result<+T, +E> = Ok(value: T) | Err(error: E)

  // a ?? b
  function FirstOf<T>(a: Option<T>, b: Option<T>): Option<T> {
    if a.Some? then a else b
  }

  // Math.ceil(n / d)
  function CeilDiv(n: int, d: int): (r: int)
    requires 0 < d
    ensures n <= r * d < n + d && (0 <= n ==> 0 <= r)
  {
    if n % d == 0 then n / d else n / d + 1
  }
}
