/** Facts about products, quotients and remainders. */
module Division {

  lemma MulAtMost(p: nat, q: nat, h: nat)
    requires p <= q
    ensures p * h <= q * h
  {
  }

  lemma MulAtLeast(d: nat, h: nat)
    requires d >= 1
    ensures d * h >= h
  {
  }

  lemma MulDifference(p: int, q: int, h: int)
    ensures (p - q) * h == p * h - q * h
  {
  }

  lemma MulSum(p: int, q: int, h: int)
    ensures (p + q) * h == p * h + q * h
  {
  }

  lemma QuotientUnique(h: nat, q: int, r: nat, q': int, r': nat)
    requires r < h && r' < h && q * h + r == q' * h + r'
    ensures q == q' && r == r'
  {
    MulDifference(q, q', h);
    MulDifference(q', q, h);
    if q > q' {
      MulAtLeast(q - q', h);
      assert false;
    } else if q < q' {
      MulAtLeast(q' - q, h);
      assert false;
    }
  }

  lemma DivisionUnique(h: nat, q: nat, r: nat)
    requires r < h
    ensures (q * h + r) / h == q && (q * h + r) % h == r
  {
    var x := q * h + r;
    assert x == (x / h) * h + x % h;
    QuotientUnique(h, x / h, x % h, q, r);
  }

  lemma DivMod(t: nat, h: nat)
    requires h > 0
    ensures t == (t / h) * h + t % h && t % h < h
  {
  }

  /** Quotient and remainder by name. */
  lemma Divided(t: nat, h: nat) returns (q: nat, r: nat)
    requires h > 0
    ensures q == t / h && r == t % h && t == q * h + r && r < h
  {
    DivMod(t, h);
    q, r := t / h, t % h;
  }
}
