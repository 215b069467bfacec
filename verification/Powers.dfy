/** Powers of two. */
module Powers {
  function Pow2(n: nat): (p: nat)
    ensures p > 0
  {
    if n == 0 then 1 else 2 * Pow2(n - 1)
  }

  lemma {:induction false} Pow2Grows(m: nat, n: nat)
    requires m <= n
    ensures Pow2(m) <= Pow2(n)
  {
    if m > 0 { Pow2Grows(m - 1, n - 1); } else if n > 0 { Pow2Grows(m, n - 1); }
  }
}
