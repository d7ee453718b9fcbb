/** Failure types and arithmetic shared by every module. */
module Base {
  datatype Option<+T> = None | Some(value: T)

  /** What an awaited call can throw in the modelled code. */
  datatype Error = CannotNext | CannotBack | Network | Database | PageAborted

  datatype Result<+T> = Ok(value: T) | Err(error: Error)

  function Min(a: nat, b: nat): nat {
    if a <= b then a else b
  }

  // Order and products, one step at a time.

  lemma MulMono(a: nat, b: nat, d: nat)
    ensures a <= b ==> a * d <= b * d
  {
  }

  lemma DivUnique(n: nat, d: nat, q: nat)
    requires d > 0 && q * d <= n < q * d + d
    ensures n / d == q
  {
    var p := n / d;
    assert n == p * d + n % d;
    assert (q + 1) * d == q * d + d && (p + 1) * d == p * d + d;
    MulMono(q + 1, p, d);
    MulMono(p + 1, q, d);
  }
}
