/** Base conversion of byte strings over an alphabet, with carries in 16-bit cells. */
module Base58 {
  import opened Division

  type byte = n: int | 0 <= n < 0x100
  type uint16 = n: int | 0 <= n < 0x1_0000

  datatype Decoded = Bytes(bytes: seq<byte>) | UnknownCharacter

  predicate Below(s: seq<int>, base: int)
  {
    forall i :: 0 <= i < |s| ==> 0 <= s[i] < base
  }

  /** The number written by digits, most significant first. */
  function Number(s: seq<int>, base: nat): int
  {
    if |s| == 0 then 0 else Number(s[..|s| - 1], base) * base + s[|s| - 1]
  }

  /** The number held in cells, least significant first. */
  function Value(cells: seq<int>, base: nat): int
  {
    if |cells| == 0 then 0 else cells[0] + base * Value(cells[1..], base)
  }

  /** How many zeros lead a string of digits, not counting a final one. */
  function Leading(s: seq<int>): nat
  {
    if |s| > 1 && s[0] == 0 then 1 + Leading(s[1..]) else 0
  }

  /** `out` writes the same number in another base with the same leading zeros. */
  ghost predicate Converts(s: seq<int>, base: nat, out: seq<int>, base': nat)
  {
    && |s| > 0 && |out| > 0
    && Below(s, base) && Below(out, base')
    && Number(out, base') == Number(s, base)
    && Leading(out) == Leading(s)
  }

  // ---------------------------------------------------------------- uniqueness

  lemma {:induction false} NumberNonNegative(s: seq<int>, base: nat)
    requires Below(s, base)
    ensures Number(s, base) >= 0
    ensures |s| > 0 && s[0] > 0 ==> Number(s, base) > 0
  {
    if |s| > 0 {
      var front := s[..|s| - 1];
      NumberNonNegative(front, base);
      if |front| > 0 && s[0] > 0 {
        MulAtLeast(Number(front, base), base);
      }
    }
  }

  /** Without leading zeros the digits of a number are unique. */
  lemma {:induction false} DigitsUnique(a: seq<int>, b: seq<int>, base: nat)
    requires Below(a, base) && Below(b, base) && Number(a, base) == Number(b, base)
    requires |a| > 0 ==> a[0] > 0
    requires |b| > 0 ==> b[0] > 0
    ensures a == b
  {
    NumberNonNegative(a, base);
    NumberNonNegative(b, base);
    if |a| > 0 && |b| > 0 {
      var a', b' := a[..|a| - 1], b[..|b| - 1];
      QuotientUnique(base, Number(a', base), a[|a| - 1], Number(b', base), b[|b| - 1]);
      DigitsUnique(a', b', base);
    }
  }

  lemma {:induction false} NumberSkipsZero(s: seq<int>, base: nat)
    requires |s| > 0 && s[0] == 0
    ensures Number(s, base) == Number(s[1..], base)
  {
    if |s| > 1 {
      NumberSkipsZero(s[..|s| - 1], base);
      assert s[..|s| - 1][1..] == s[1..][..|s| - 2];
    }
  }

  /** A nonempty string of digits is determined by its number and its leading zeros. */
  lemma {:induction false} NumberAndLeadingUnique(a: seq<int>, b: seq<int>, base: nat)
    requires |a| > 0 && |b| > 0 && Below(a, base) && Below(b, base)
    requires Number(a, base) == Number(b, base) && Leading(a) == Leading(b)
    ensures a == b
  {
    if Leading(a) > 0 {
      NumberSkipsZero(a, base);
      NumberSkipsZero(b, base);
      NumberAndLeadingUnique(a[1..], b[1..], base);
    } else {
      NumberNonNegative(a, base);
      NumberNonNegative(b, base);
      ZeroNumber(base);
      assert a[0] == 0 ==> a == [0];
      assert b[0] == 0 ==> b == [0];
      if a[0] != 0 {
        DigitsUnique(a, b, base);
      }
    }
  }

  lemma ZeroNumber(base: nat)
    ensures Number([0], base) == 0
  {
    assert [0][..0] == [];
    assert Number([], base) == 0;
  }

  // ---------------------------------------------------------------- carrying

  lemma QuotientSmaller(x: nat, base: nat)
    requires x > 0 && base > 1
    ensures x / base < x
  {
    DivMod(x, base);
    MulAtMost(2, base, x / base);
    assert base * (x / base) == (x / base) * base;
  }

  function Push(carry: nat, base: nat): seq<int>
    requires base > 1
  {
    if carry == 0 then []
    else
      QuotientSmaller(carry, base);
      [carry % base] + Push(carry / base, base)
  }

  /** Carries through cells that may be too large for the base. */
  function Carry(cells: seq<nat>, base: nat, carry: nat): seq<int>
    requires base > 1
  {
    if |cells| == 0 then Push(carry, base)
    else [(cells[0] + carry) % base] + Carry(cells[1..], base, (cells[0] + carry) / base)
  }

  lemma ValueCons(d: int, rest: seq<int>, base: nat)
    ensures Value([d] + rest, base) == d + Value(rest, base) * base
  {
    assert ([d] + rest)[1..] == rest;
    assert base * Value(rest, base) == Value(rest, base) * base;
  }

  lemma ValueEnds(base: nat)
    ensures Value([], base) == 0
  {
  }

  lemma BelowCons(d: int, rest: seq<int>, base: nat)
    requires 0 <= d < base && Below(rest, base)
    ensures Below([d] + rest, base)
  {
  }

  lemma {:induction false} PushValue(carry: nat, base: nat)
    requires base > 1
    ensures Value(Push(carry, base), base) == carry && Below(Push(carry, base), base)
    ensures carry > 0 ==> |Push(carry, base)| > 0 && Push(carry, base)[|Push(carry, base)| - 1] > 0
  {
    hide Push, Value;
    if carry > 0 {
      DivMod(carry, base);
      QuotientSmaller(carry, base);
      var q, r := carry / base, carry % base;
      PushUnfolds(carry, base, r, q);
      PushValue(q, base);
      ValueCons(r, Push(q, base), base);
      BelowCons(r, Push(q, base), base);
      if q == 0 {
        PushEnds(base);
        assert r == carry;
      }
    } else {
      PushEnds(base);
      ValueEnds(base);
    }
  }

  lemma {:induction false} CarryValue(cells: seq<nat>, base: nat, carry: nat)
    requires base > 1
    ensures Value(Carry(cells, base, carry), base) == Value(cells, base) + carry
    ensures Below(Carry(cells, base, carry), base) && |Carry(cells, base, carry)| >= |cells|
    ensures |cells| > 0 && cells[|cells| - 1] > 0 ==>
              Carry(cells, base, carry)[|Carry(cells, base, carry)| - 1] > 0
  {
    hide Carry, Value, Below, Push;
    if |cells| == 0 {
      CarryEnds(base, carry);
      ValueEnds(base);
      PushValue(carry, base);
    } else {
      var d := cells[0] + carry;
      DivMod(d, base);
      var q, r := d / base, d % base;
      CarryValue(cells[1..], base, q);
      var rest := Carry(cells[1..], base, q);
      CarryUnfolds(cells, base, carry);
      ValueCons(r, rest, base);
      BelowCons(r, rest, base);
      assert cells == [cells[0]] + cells[1..];
      ValueCons(cells[0], cells[1..], base);
      MulSum(Value(cells[1..], base), q, base);
      if |cells| == 1 && cells[0] > 0 {
        PushValue(q, base);
        CarryEnds(base, q);
        if q == 0 {
          PushEnds(base);
          assert r == d;
        }
      }
    }
  }

  /** Cells multiplied by `factor`, with `x` added to the first. */
  ghost predicate Scaled(cells: seq<int>, factor: nat, x: int, scaled: seq<int>)
  {
    && |scaled| == |cells| > 0
    && scaled[0] == cells[0] * factor + x
    && forall i :: 0 < i < |cells| ==> scaled[i] == cells[i] * factor
  }

  lemma {:induction false} ScaledValue(cells: seq<int>, factor: nat, x: int, scaled: seq<int>, base: nat)
    requires Scaled(cells, factor, x, scaled)
    ensures Value(scaled, base) == Value(cells, base) * factor + x
  {
    var tail := Value(cells[1..], base);
    if |cells| > 1 {
      ScaledValue(cells[1..], factor, 0, scaled[1..], base);
    }
    assert Value(scaled[1..], base) == tail * factor;
    assert base * (tail * factor) == (base * tail) * factor;
    assert (cells[0] + base * tail) * factor == cells[0] * factor + (base * tail) * factor;
  }

  /** Cells as the conversion keeps them: digits of the base with no zero on top, or a single cell. */
  ghost predicate Canonical(cells: seq<int>, base: nat)
  {
    |cells| > 0 && Below(cells, base) && (|cells| > 1 ==> cells[|cells| - 1] > 0)
  }

  lemma CarryFits(cell: nat, carry: nat, factor: nat, base: nat, d: nat)
    requires cell < base && carry < factor && base <= 0x100 && factor <= 0x100 && d == cell * factor + carry
    ensures d < 0x1_0000 && d / base < factor
  {
    MulAtMost(cell, base - 1, factor);
    MulDifference(base, 1, factor);
    MulAtMost(base, 0x100, factor);
    DivMod(d, base);
    assert factor * base == base * factor;
    if d / base >= factor {
      MulAtMost(factor, d / base, base);
    }
  }

  /** The multiplication loop. */
  method Scale(cells: seq<uint16>, factor: nat, base: nat, x: nat) returns (out: seq<uint16>)
    requires base <= 0x100 && factor <= 0x100 && x < factor && |cells| > 0 && Below(cells, base)
    ensures Scaled(cells, factor, x, out)
  {
    out := cells;
    for i := 0 to |cells|
      invariant |out| == |cells|
      invariant forall j :: 0 <= j < i ==> out[j] == cells[j] * factor
      invariant forall j :: i <= j < |cells| ==> out[j] == cells[j]
    {
      CarryFits(cells[i], 0, factor, base, cells[i] * factor);
      out := out[i := cells[i] * factor];
    }
    CarryFits(cells[0], x, factor, base, cells[0] * factor + x);
    out := out[0 := out[0] + x];
  }

  /** A scaled cell with the carry into it fits, and the carry out of it stays below the factor. */
  lemma ScaledFits(cells: seq<int>, factor: nat, x: nat, scaled: seq<int>, base: nat, i: nat, carry: nat)
    requires 0 < base <= 0x100 && factor <= 0x100 && x < factor && Below(cells, base) && Scaled(cells, factor, x, scaled)
    requires i < |scaled| && (if i == 0 then carry == 0 else carry < factor)
    ensures 0 <= scaled[i] + carry < 0x1_0000 && (scaled[i] + carry) / base < factor
  {
    CarryFits(cells[i], if i == 0 then x else carry, factor, base, scaled[i] + carry);
  }

  /** The carry loop over the cells. */
  method CarryThrough(ghost cells: seq<uint16>, ghost factor: nat, ghost x: nat, scaled: seq<uint16>, base: nat)
    returns (out: seq<uint16>, carry: uint16)
    requires 1 < base <= 0x100 && factor <= 0x100 && x < factor && Below(cells, base) && Scaled(cells, factor, x, scaled)
    ensures Carry(scaled, base, 0) == out + Push(carry, base)
  {
    hide Carry, Push, Scaled;
    out, carry := [], 0;
    assert scaled[0..] == scaled;
    for i := 0 to |scaled|
      invariant if i == 0 then carry == 0 else carry < factor
      invariant Carry(scaled, base, 0) == out + Carry(scaled[i..], base, carry)
    {
      ScaledFits(cells, factor, x, scaled, base, i, carry);
      var digit: uint16 := scaled[i] + carry;
      var low, high := Halves(digit, base, factor);
      CarryStep(scaled, base, out, i, carry, low, high);
      carry := high;
      out := out + [low];
    }
    CarryEnds(base, carry);
    assert scaled[|scaled|..] == [];
  }

  lemma CarryStep(scaled: seq<nat>, base: nat, out: seq<int>, i: nat, carry: nat, low: nat, high: nat)
    requires base > 1 && i < |scaled| && low == (scaled[i] + carry) % base && high == (scaled[i] + carry) / base
    ensures out + Carry(scaled[i..], base, carry) == out + [low] + Carry(scaled[i + 1..], base, high)
  {
    hide Carry;
    CarryUnfolds(scaled[i..], base, carry);
    assert scaled[i..][1..] == scaled[i + 1..];
  }

  method Halves(digit: uint16, base: nat, ghost factor: nat) returns (low: uint16, high: uint16)
    requires 1 < base <= 0x100 && digit / base < factor
    ensures low == digit % base && high == digit / base && high < factor
  {
    DivMod(digit, base);
    MulAtMost(1, base, digit / base);
    low, high := digit % base, digit / base;
  }

  lemma CarryUnfolds(cells: seq<nat>, base: nat, carry: nat)
    requires base > 1 && |cells| > 0
    ensures Carry(cells, base, carry) == [(cells[0] + carry) % base] + Carry(cells[1..], base, (cells[0] + carry) / base)
  {
  }

  lemma CarryEnds(base: nat, carry: nat)
    requires base > 1
    ensures Carry([], base, carry) == Push(carry, base)
  {
  }

  /** The loop that grows the vector while a carry is left. */
  method PushCarry(cells: seq<uint16>, base: nat, carry: uint16) returns (out: seq<uint16>)
    requires 1 < base <= 0x100
    ensures out == cells + Push(carry, base)
  {
    hide Push;
    out := cells;
    var c: uint16 := carry;
    while c != 0
      invariant out + Push(c, base) == cells + Push(carry, base)
      decreases c
    {
      var digit, rest := SplitDigit(c, base);
      PushUnfolds(c, base, digit, rest);
      out := out + [digit];
      c := rest;
    }
    PushEnds(base);
  }

  method SplitDigit(c: uint16, base: nat) returns (digit: uint16, rest: uint16)
    requires 1 < base <= 0x100 && c > 0
    ensures digit == c % base && rest == c / base && rest < c
  {
    QuotientSmaller(c, base);
    DivMod(c, base);
    digit, rest := c % base, c / base;
  }

  lemma PushUnfolds(carry: nat, base: nat, digit: nat, rest: nat)
    requires base > 1 && carry > 0 && digit == carry % base && rest == carry / base
    ensures Push(carry, base) == [digit] + Push(rest, base)
  {
  }

  lemma PushEnds(base: nat)
    requires base > 1
    ensures Push(0, base) == []
  {
  }

  /** Takes one more digit in: every cell is scaled, the digit is added, and the carry runs through,
      growing the vector where it must. Every cell stays within 16 bits. */
  method Absorb(cells: seq<uint16>, factor: nat, base: nat, x: nat) returns (out: seq<uint16>)
    requires 1 < base <= 0x100 && 1 < factor <= 0x100 && x < factor && Canonical(cells, base)
    ensures Canonical(out, base) && Value(out, base) == Value(cells, base) * factor + x
  {
    hide Carry, Push, Value;
    var scaled := Scale(cells, factor, base, x);
    ScaledValue(cells, factor, x, scaled, base);
    CarryValue(scaled, base, 0);
    CanonicalCarry(cells, factor, x, scaled, base);
    var carried, carry := CarryThrough(cells, factor, x, scaled, base);
    out := PushCarry(carried, base, carry);
  }

  lemma CanonicalCarry(cells: seq<int>, factor: nat, x: nat, scaled: seq<nat>, base: nat)
    requires 1 < base && 1 < factor && Canonical(cells, base) && Scaled(cells, factor, x, scaled)
    ensures Canonical(Carry(scaled, base, 0), base)
  {
    CarryValue(scaled, base, 0);
    if |cells| > 1 {
      MulAtLeast(cells[|cells| - 1], factor);
    } else if scaled[0] == 0 {
      assert Carry(scaled, base, 0) == [0] + Carry(scaled[1..], base, 0);
    }
  }

  // ---------------------------------------------------------------- whole strings

  function Reverse(s: seq<int>): (r: seq<int>)
    ensures |r| == |s| && forall i :: 0 <= i < |s| ==> r[i] == s[|s| - 1 - i]
  {
    if |s| == 0 then [] else Reverse(s[1..]) + [s[0]]
  }

  function Zeros(n: nat): (z: seq<int>)
    ensures |z| == n && forall i :: 0 <= i < n ==> z[i] == 0
  {
    seq(n, _ => 0)
  }

  lemma {:induction false} ReverseNumber(cells: seq<int>, base: nat)
    ensures Number(Reverse(cells), base) == Value(cells, base)
  {
    if |cells| > 0 {
      ReverseNumber(cells[1..], base);
      var r := Reverse(cells);
      assert r[..|r| - 1] == Reverse(cells[1..]);
      assert Value(cells[1..], base) * base == base * Value(cells[1..], base);
    }
  }

  lemma {:induction false} LeadingZeros(z: nat, rest: seq<int>, base: nat)
    requires |rest| > 0 && (|rest| > 1 ==> rest[0] != 0)
    ensures Leading(Zeros(z) + rest) == z && Number(Zeros(z) + rest, base) == Number(rest, base)
  {
    if z == 0 {
      assert Zeros(z) + rest == rest;
    } else {
      var s := Zeros(z) + rest;
      assert s[1..] == Zeros(z - 1) + rest;
      LeadingZeros(z - 1, rest, base);
      NumberSkipsZero(s, base);
    }
  }

  lemma {:induction false} LeadingCount(s: seq<int>, n: nat)
    requires |s| > 0 && n <= |s| - 1 && forall i :: 0 <= i < n ==> s[i] == 0
    requires n == |s| - 1 || s[n] != 0
    ensures Leading(s) == n
  {
    if n > 0 {
      LeadingCount(s[1..], n - 1);
    }
  }

  lemma ReverseOver(cells: seq<int>, zeros: nat)
    ensures Reverse(cells + Zeros(zeros)) == Zeros(zeros) + Reverse(cells)
  {
    var all, out := cells + Zeros(zeros), Zeros(zeros) + Reverse(cells);
    forall i | 0 <= i < |all| ensures Reverse(all)[i] == out[i] {
    }
  }

  /** Turns canonical cells and a count of zeros into a converted string. */
  lemma AssembleConverts(s: seq<int>, base: nat, cells: seq<int>, base': nat, zeros: nat)
    requires |s| > 0 && Below(s, base) && base' > 0 && Canonical(cells, base')
    requires Value(cells, base') == Number(s, base) && Leading(s) == zeros
    ensures Converts(s, base, Reverse(cells + Zeros(zeros)), base')
  {
    var out := Reverse(cells + Zeros(zeros));
    ReverseOver(cells, zeros);
    LeadingZeros(zeros, Reverse(cells), base');
    ReverseNumber(cells, base');
    hide Number, Value, Leading;
  }

  /** An alphabet of two to 256 characters without repeats. */
  predicate IsAlphabet(alphabet: seq<byte>)
  {
    2 <= |alphabet| <= 0x100 && forall i, j :: 0 <= i < j < |alphabet| ==> alphabet[i] != alphabet[j]
  }

  /** A string spells digits in an alphabet. */
  ghost predicate Spells(alphabet: seq<byte>, text: seq<byte>, digits: seq<int>)
  {
    && |text| == |digits| && Below(digits, |alphabet|)
    && forall i :: 0 <= i < |text| ==> text[i] == alphabet[digits[i]]
  }

  /** `text` is the encoding of `bytes`. */
  ghost predicate Encodes(alphabet: seq<byte>, bytes: seq<byte>, text: seq<byte>)
  {
    if |bytes| == 0 then |text| == 0
    else exists digits :: Spells(alphabet, text, digits) && Converts(bytes, 0x100, digits, |alphabet|)
  }

  /** Every byte string has one encoding at most, and every text encodes one byte string at most. */
  lemma EncodingIsOneToOne(alphabet: seq<byte>, bytes: seq<byte>, text: seq<byte>, bytes': seq<byte>, text': seq<byte>)
    requires IsAlphabet(alphabet) && Encodes(alphabet, bytes, text) && Encodes(alphabet, bytes', text')
    ensures bytes == bytes' <==> text == text'
  {
    if |bytes| > 0 && |bytes'| > 0 {
      var d :| Spells(alphabet, text, d) && Converts(bytes, 0x100, d, |alphabet|);
      var d' :| Spells(alphabet, text', d') && Converts(bytes', 0x100, d', |alphabet|);
      if bytes == bytes' {
        NumberAndLeadingUnique(d, d', |alphabet|);
      }
      if text == text' {
        assert d == d';
        NumberAndLeadingUnique(bytes, bytes', 0x100);
      }
    }
  }

  lemma {:induction false} NumberExtends(s: seq<int>, i: nat, base: nat)
    requires i < |s|
    ensures Number(s[..i + 1], base) == Number(s[..i], base) * base + s[i]
  {
    assert s[..i + 1][..i] == s[..i];
  }

  method BaseEncode(alphabet: seq<byte>, bytes: seq<byte>) returns (text: seq<byte>)
    requires IsAlphabet(alphabet)
    ensures Encodes(alphabet, bytes, text)
  {
    hide Number, Value, Leading, Reverse;
    if |bytes| == 0 {
      return [];
    }
    var base := |alphabet|;
    var digits: seq<uint16> := [0];
    StartCells(base, bytes);
    for i := 0 to |bytes|
      invariant Canonical(digits, base) && Value(digits, base) == Number(bytes[..i], 0x100)
    {
      NumberExtends(bytes, i, 0x100);
      digits := Absorb(digits, 0x100, base, bytes[i]);
    }
    assert bytes[..|bytes|] == bytes;
    ghost var cells := digits;
    var i := 0;
    while bytes[i] == 0 && i < |bytes| - 1
      invariant 0 <= i <= |bytes| - 1 && forall j :: 0 <= j < i ==> bytes[j] == 0
      invariant digits == cells + Zeros(i)
    {
      digits := digits + [0];
      i := i + 1;
    }
    LeadingCount(bytes, i);
    AssembleConverts(bytes, 0x100, cells, base, i);
    ghost var ds := Reverse(digits);
    text := [];
    for j := 0 to |digits|
      invariant |text| == j
      invariant forall k :: 0 <= k < j ==> text[k] == alphabet[ds[k]]
    {
      ReverseAt(digits, j);
      text := text + [alphabet[digits[|digits| - 1 - j]]];
    }
    assert Spells(alphabet, text, ds);
  }

  lemma ReverseAt(s: seq<int>, i: nat)
    requires i < |s|
    ensures Reverse(s)[i] == s[|s| - 1 - i]
  {
  }

  lemma StartCells(base: nat, s: seq<int>)
    requires base > 1
    ensures Canonical([0], base) && Value([0], base) == 0 == Number(s[..0], base) && Number(s[..0], 0x100) == 0
  {
    assert Value([0], base) == 0 + base * Value([], base);
  }

  const UNKNOWN: uint16 := 0xFFFF

  /** The position of each character in the alphabet. */
  method AlphabetMap(alphabet: seq<byte>) returns (m: seq<uint16>)
    requires IsAlphabet(alphabet)
    ensures |m| == 0x100
    ensures forall c :: 0 <= c < 0x100 ==>
              (m[c] == UNKNOWN && c !in alphabet) || (m[c] < |alphabet| && alphabet[m[c]] == c)
  {
    m := seq(0x100, _ => UNKNOWN);
    for i := 0 to |alphabet|
      invariant |m| == 0x100
      invariant forall c :: 0 <= c < 0x100 ==>
                  (m[c] == UNKNOWN && c !in alphabet[..i]) || (m[c] < i && alphabet[m[c]] == c)
    {
      m := m[alphabet[i] := i];
      assert alphabet[..i + 1] == alphabet[..i] + [alphabet[i]];
    }
    assert alphabet[..|alphabet|] == alphabet;
  }

  method BaseDecode(alphabet: seq<byte>, text: seq<byte>) returns (r: Decoded)
    requires IsAlphabet(alphabet)
    ensures r.UnknownCharacter? <==> exists c :: c in text && c !in alphabet
    ensures r.Bytes? ==> Encodes(alphabet, r.bytes, text)
  {
    hide Number, Value, Leading, Reverse;
    if |text| == 0 {
      return Bytes([]);
    }
    var base := |alphabet|;
    var cells: seq<uint16> := [0];
    var m := AlphabetMap(alphabet);
    ghost var digits: seq<int> := [];
    StartCells(0x100, digits);
    EmptyNumber(base);
    for i := 0 to |text|
      invariant Spells(alphabet, text[..i], digits)
      invariant Canonical(cells, 0x100) && Value(cells, 0x100) == Number(digits, base)
    {
      var n := m[text[i]];
      if n == UNKNOWN {
        assert text[i] in text;
        return UnknownCharacter;
      }
      ghost var longer := digits + [n];
      assert longer[..i] == digits && longer[..i + 1] == longer;
      NumberExtends(longer, i, base);
      cells := Absorb(cells, base, 0x100, n);
      digits := longer;
    }
    assert text[..|text|] == text;
    ghost var canonical := cells;
    var i := 0;
    while text[i] == alphabet[0] && i < |text| - 1
      invariant 0 <= i <= |text| - 1 && forall j :: 0 <= j < i ==> text[j] == alphabet[0]
      invariant cells == canonical + Zeros(i)
    {
      cells := cells + [0];
      i := i + 1;
    }
    FirstCharacterIsZero(alphabet, text, digits);
    LeadingCount(digits, i);
    AssembleConverts(digits, base, canonical, 0x100, i);
    ghost var expected := Reverse(cells);
    var bytes: seq<byte> := [];
    for j := 0 to |cells|
      invariant |bytes| == j && forall k :: 0 <= k < j ==> bytes[k] == expected[k]
    {
      ReverseAt(cells, j);
      bytes := bytes + [cells[|cells| - 1 - j]];
    }
    assert bytes == expected;
    assert Converts(bytes, 0x100, digits, base);
    r := Bytes(bytes);
  }

  lemma EmptyNumber(base: nat)
    ensures Number([], base) == 0
  {
  }

  lemma FirstCharacterIsZero(alphabet: seq<byte>, text: seq<byte>, digits: seq<int>)
    requires IsAlphabet(alphabet) && Spells(alphabet, text, digits)
    ensures forall i :: 0 <= i < |text| ==> (text[i] == alphabet[0] <==> digits[i] == 0)
  {
  }

  /** Decoding an encoding gives the bytes back, for all byte strings. */
  method DecodeOfEncode(alphabet: seq<byte>, bytes: seq<byte>) returns (back: Decoded)
    requires IsAlphabet(alphabet)
    ensures back == Bytes(bytes)
  {
    var text := BaseEncode(alphabet, bytes);
    EncodedIsReadable(alphabet, bytes, text);
    back := BaseDecode(alphabet, text);
    EncodingIsOneToOne(alphabet, bytes, text, back.bytes, text);
  }

  /** Encoding a decoding gives the text back, for all texts over the alphabet. */
  method EncodeOfDecode(alphabet: seq<byte>, text: seq<byte>) returns (back: seq<byte>)
    requires IsAlphabet(alphabet) && forall c :: c in text ==> c in alphabet
    ensures back == text
  {
    var d := BaseDecode(alphabet, text);
    back := BaseEncode(alphabet, d.bytes);
    EncodingIsOneToOne(alphabet, d.bytes, text, d.bytes, back);
  }

  // ---------------------------------------------------------------- version byte and checksum

  datatype CheckDecoded = Checked(version: byte, payload: seq<byte>) | Unreadable | TooShort | ChecksumFailed

  /** Version, payload and the first four bytes of the doubly hashed rest. */
  function Sealed(digest: seq<byte> -> seq<byte>, version: byte, payload: seq<byte>): seq<byte>
    requires |digest([version] + payload)| >= 4
  {
    [version] + payload + digest([version] + payload)[..4]
  }

  method BaseCheckEncode(alphabet: seq<byte>, digest: seq<byte> -> seq<byte>, version: byte, payload: seq<byte>)
    returns (text: seq<byte>)
    requires IsAlphabet(alphabet) && forall x :: |digest(x)| >= 4
    ensures Encodes(alphabet, Sealed(digest, version, payload), text)
  {
    var vb := [version] + payload;
    text := BaseEncode(alphabet, vb + digest(vb)[..4]);
  }

  /** Succeeds exactly on the encodings of sealed payloads. */
  method BaseCheckDecode(alphabet: seq<byte>, digest: seq<byte> -> seq<byte>, text: seq<byte>) returns (r: CheckDecoded)
    requires IsAlphabet(alphabet) && forall x :: |digest(x)| >= 4
    ensures forall version, payload :: Encodes(alphabet, Sealed(digest, version, payload), text) ==> r == Checked(version, payload)
    ensures r.Checked? ==> Encodes(alphabet, Sealed(digest, r.version, r.payload), text)
  {
    hide Encodes, Spells, IsAlphabet;
    var d := BaseDecode(alphabet, text);
    if d.UnknownCharacter? {
      forall version: byte, payload: seq<byte> | Encodes(alphabet, Sealed(digest, version, payload), text) ensures false {
        EncodedIsReadable(alphabet, Sealed(digest, version, payload), text);
      }
      return Unreadable;
    }
    var bytes := d.bytes;
    forall version: byte, payload: seq<byte> | Encodes(alphabet, Sealed(digest, version, payload), text)
      ensures bytes == Sealed(digest, version, payload)
    {
      EncodingIsOneToOne(alphabet, bytes, text, Sealed(digest, version, payload), text);
    }
    if |bytes| < 5 {
      return TooShort;
    }
    var n := |bytes| - 4;
    var body, sum := bytes[..n], bytes[n..];
    assert bytes == body + sum;
    forall version: byte, payload: seq<byte> | bytes == Sealed(digest, version, payload)
      ensures body == [version] + payload && sum == digest(body)[..4]
    {
      assert bytes[..n] == [version] + payload;
    }
    if digest(body)[..4] != sum {
      return ChecksumFailed;
    }
    assert body == [body[0]] + body[1..];
    r := Checked(body[0], body[1..]);
  }

  lemma EncodedIsReadable(alphabet: seq<byte>, bytes: seq<byte>, text: seq<byte>)
    requires IsAlphabet(alphabet) && Encodes(alphabet, bytes, text)
    ensures forall c :: c in text ==> c in alphabet
  {
    if |bytes| > 0 {
      var d :| Spells(alphabet, text, d) && Converts(bytes, 0x100, d, |alphabet|);
    }
  }
}
