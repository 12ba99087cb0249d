/** The leading-zero-bits test on a commitment hash. */
module ProofOfWork {

  /** The number a byte string spells, most significant byte first. */
  function Value(bytes: seq<bv8>): nat {
    if bytes == [] then 0 else Value(bytes[..|bytes| - 1]) * 256 + bytes[|bytes| - 1] as nat
  }

  function Power(n: nat): nat {
    if n == 0 then 1 else 2 * Power(n - 1)
  }

  /** The mask with the `bits` highest bits set. The complement of a power of two less one. */
  function Mask(bits: nat): bv8
    requires 1 <= bits <= 8
  {
    !(((1 as bv8) << (8 - bits)) - 1)
  }

  /** The loop of the source as a function: byte after byte, at most eight bits of the difficulty at a time. */
  predicate HasLeadingZeros(bytes: seq<bv8>, difficulty: nat)
    decreases |bytes|
  {
    if bytes == [] || difficulty == 0 then true
    else
      var bits := if difficulty >= 8 then 8 else difficulty;
      bytes[0] & Mask(bits) == 0 && HasLeadingZeros(bytes[1..], if difficulty >= 8 then difficulty - 8 else 0)
  }

  method RequirePow(bytes: seq<bv8>, difficulty: nat) returns (ok: bool)
    ensures ok <==> HasLeadingZeros(bytes, difficulty)
  {
    if difficulty == 0 {
      return true;
    }
    var remaining := difficulty;
    var i := 0;
    while i < |bytes|
      invariant i <= |bytes|
      invariant HasLeadingZeros(bytes, difficulty) <==> HasLeadingZeros(bytes[i..], remaining)
    {
      if remaining == 0 {
        break;
      }
      var bits := if remaining >= 8 then 8 else remaining;
      var mask := Mask(bits);
      assert bytes[i..][1..] == bytes[i + 1..];
      if bytes[i] & mask != 0 {
        return false;
      }
      remaining := if remaining >= 8 then remaining - 8 else 0;
      i := i + 1;
    }
    return true;
  }

  // ── One byte ─────────────────────────────────────────────────────────────

  lemma PowerTable()
    ensures Power(0) == 1 && Power(1) == 2 && Power(2) == 4 && Power(3) == 8 && Power(4) == 16
    ensures Power(5) == 32 && Power(6) == 64 && Power(7) == 128 && Power(8) == 256
  {
    assert Power(4) == 16;
    assert Power(6) == 64;
  }

  /** A byte has no bit under the mask exactly when it is below the power of two under which the mask starts. */
  lemma MaskBounds(b: bv8, bits: nat)
    requires 1 <= bits <= 8
    ensures b & Mask(bits) == 0 <==> b as nat < Power(8 - bits)
  {
    PowerTable();
    if bits == 1 {
      assert Mask(1) == 0x80 && (b & 0x80 == 0 <==> b < 128);
    } else if bits == 2 {
      assert Mask(2) == 0xC0 && (b & 0xC0 == 0 <==> b < 64);
    } else if bits == 3 {
      assert Mask(3) == 0xE0 && (b & 0xE0 == 0 <==> b < 32);
    } else if bits == 4 {
      assert Mask(4) == 0xF0 && (b & 0xF0 == 0 <==> b < 16);
    } else if bits == 5 {
      assert Mask(5) == 0xF8 && (b & 0xF8 == 0 <==> b < 8);
    } else if bits == 6 {
      assert Mask(6) == 0xFC && (b & 0xFC == 0 <==> b < 4);
    } else if bits == 7 {
      assert Mask(7) == 0xFE && (b & 0xFE == 0 <==> b < 2);
    } else {
      assert Mask(8) == 0xFF && (b & 0xFF == 0 <==> b < 1);
    }
  }

  // ── The whole number ─────────────────────────────────────────────────────

  lemma {:induction false} PowerAdds(m: nat, n: nat)
    ensures Power(m + n) == Power(m) * Power(n) && Power(n) > 0
  {
    if n == 0 {
      assert Power(m + n) == Power(m) * 1;
    } else {
      PowerAdds(m, n - 1);
      assert Power(m) * (2 * Power(n - 1)) == 2 * (Power(m) * Power(n - 1));
    }
  }

  lemma {:induction false} PowerMonotone(m: nat, n: nat)
    requires m <= n
    ensures 0 < Power(m) <= Power(n)
  {
    if m < n {
      PowerMonotone(m, n - 1);
    } else if n > 0 {
      PowerMonotone(m - 1, n - 1);
    }
  }

  lemma PowerByte(n: nat)
    ensures Power(8 * (n + 1)) == Power(8 * n) * 256
  {
    PowerTable();
    PowerAdds(8 * n, 8);
  }

  lemma Shift(first: nat, unit: nat, low: nat, last: nat)
    requires low < unit && last < 256
    ensures (first * unit + low) * 256 + last == first * (unit * 256) + (low * 256 + last)
    ensures low * 256 + last < unit * 256
  {
  }

  /** What holds without the last byte holds with it. */
  lemma OneMoreByte(bytes: seq<bv8>)
    requires |bytes| > 1
    requires var init := bytes[..|bytes| - 1];
      Value(init) == init[0] as nat * Power(8 * (|init| - 1)) + Value(init[1..])
        && Value(init[1..]) < Power(8 * (|init| - 1))
    ensures Value(bytes) == bytes[0] as nat * Power(8 * (|bytes| - 1)) + Value(bytes[1..])
    ensures Value(bytes[1..]) < Power(8 * (|bytes| - 1))
  {
    var n := |bytes| - 1;
    var init := bytes[..n];
    assert init[1..] == bytes[1..][..n - 1];
    assert Value(bytes[1..]) == Value(init[1..]) * 256 + bytes[n] as nat;
    assert Value(bytes) == Value(init) * 256 + bytes[n] as nat;
    PowerByte(n - 1);
    Shift(bytes[0] as nat, Power(8 * (n - 1)), Value(init[1..]), bytes[n] as nat);
  }

  /** The first byte counts for the high bits, and the others stay below. */
  lemma {:induction false} FirstByte(bytes: seq<bv8>)
    requires bytes != []
    ensures Value(bytes) == bytes[0] as nat * Power(8 * (|bytes| - 1)) + Value(bytes[1..])
    ensures Value(bytes[1..]) < Power(8 * (|bytes| - 1))
  {
    var n := |bytes| - 1;
    if n == 0 {
      assert Value(bytes) == Value(bytes[..0]) * 256 + bytes[0] as nat;
    } else {
      FirstByte(bytes[..n]);
      OneMoreByte(bytes);
    }
  }

  lemma HighPart(high: nat, low: nat, unit: nat, bound: nat)
    requires low < unit
    ensures high * unit + low < bound * unit <==> high < bound
  {
    if high < bound {
      assert (high + 1) * unit <= bound * unit;
    } else {
      assert high * unit >= bound * unit;
    }
  }

  lemma NoBits(bytes: seq<bv8>)
    requires bytes != []
    ensures Value(bytes) < Power(8 * |bytes|)
  {
    FirstByte(bytes);
    PowerByte(|bytes| - 1);
    HighPart(bytes[0] as nat, Value(bytes[1..]), Power(8 * (|bytes| - 1)), 256);
  }

  lemma FirstByteZero(bytes: seq<bv8>, difficulty: nat)
    requires bytes != [] && 8 <= difficulty <= 8 * |bytes|
    ensures Value(bytes) < Power(8 * |bytes| - difficulty)
      <==> bytes[0] == 0 && Value(bytes[1..]) < Power(8 * |bytes| - difficulty)
  {
    FirstByte(bytes);
    PowerMonotone(8 * |bytes| - difficulty, 8 * (|bytes| - 1));
    HighPart(bytes[0] as nat, Value(bytes[1..]), Power(8 * (|bytes| - 1)), 1);
  }

  lemma FirstByteSmall(bytes: seq<bv8>, difficulty: nat)
    requires bytes != [] && difficulty < 8
    ensures Value(bytes) < Power(8 * |bytes| - difficulty) <==> bytes[0] as nat < Power(8 - difficulty)
  {
    FirstByte(bytes);
    PowerAdds(8 - difficulty, 8 * (|bytes| - 1));
    HighPart(bytes[0] as nat, Value(bytes[1..]), Power(8 * (|bytes| - 1)), Power(8 - difficulty));
  }

  lemma FewZeros(bytes: seq<bv8>, difficulty: nat)
    requires bytes != [] && 0 < difficulty < 8
    ensures HasLeadingZeros(bytes, difficulty) <==> bytes[0] & Mask(difficulty) == 0
  {
    assert HasLeadingZeros(bytes[1..], 0);
  }

  lemma ManyZeros(bytes: seq<bv8>, difficulty: nat)
    requires bytes != [] && 8 <= difficulty
    ensures HasLeadingZeros(bytes, difficulty) <==> bytes[0] == 0 && HasLeadingZeros(bytes[1..], difficulty - 8)
  {
    PowerTable();
    MaskBounds(bytes[0], 8);
  }

  /** A byte string has `difficulty` leading zero bits exactly when the number it spells is that small. */
  lemma {:induction false} LeadingZerosExact(bytes: seq<bv8>, difficulty: nat)
    requires difficulty <= 8 * |bytes|
    ensures HasLeadingZeros(bytes, difficulty) <==> Value(bytes) < Power(8 * |bytes| - difficulty)
    decreases |bytes|
  {
    if bytes == [] {
      assert Power(0) == 1;
    } else if difficulty == 0 {
      NoBits(bytes);
    } else if difficulty < 8 {
      FewZeros(bytes, difficulty);
      MaskBounds(bytes[0], difficulty);
      FirstByteSmall(bytes, difficulty);
    } else {
      ManyZeros(bytes, difficulty);
      LeadingZerosExact(bytes[1..], difficulty - 8);
      FirstByteZero(bytes, difficulty);
    }
  }

  /** Beyond the length of the string only zero passes. */
  lemma {:induction false} LeadingZerosBeyond(bytes: seq<bv8>, difficulty: nat)
    requires difficulty > 8 * |bytes|
    ensures HasLeadingZeros(bytes, difficulty) <==> Value(bytes) == 0
    decreases |bytes|
  {
    if bytes == [] {
    } else {
      ManyZeros(bytes, difficulty);
      LeadingZerosBeyond(bytes[1..], difficulty - 8);
      FirstByte(bytes);
      HighPart(bytes[0] as nat, Value(bytes[1..]), Power(8 * (|bytes| - 1)), 1);
    }
  }

  /** What passes a difficulty passes every lower one. */
  lemma {:induction false} LeadingZerosDownward(bytes: seq<bv8>, lower: nat, higher: nat)
    requires lower <= higher && HasLeadingZeros(bytes, higher)
    ensures HasLeadingZeros(bytes, lower)
  {
    if higher <= 8 * |bytes| {
      LeadingZerosExact(bytes, higher);
      LeadingZerosExact(bytes, lower);
      PowerMonotone(8 * |bytes| - higher, 8 * |bytes| - lower);
    } else {
      LeadingZerosBeyond(bytes, higher);
      if lower <= 8 * |bytes| {
        LeadingZerosExact(bytes, lower);
        PowerMonotone(0, 8 * |bytes| - lower);
      } else {
        LeadingZerosBeyond(bytes, lower);
      }
    }
  }

  lemma {:induction false} ZeroValue(bytes: seq<bv8>)
    ensures Value(bytes) == 0 <==> forall i :: 0 <= i < |bytes| ==> bytes[i] == 0
  {
    if bytes == [] {
    } else {
      ZeroValue(bytes[..|bytes| - 1]);
      assert forall i :: 0 <= i < |bytes| - 1 ==> bytes[i] == bytes[..|bytes| - 1][i];
    }
  }

  /** At a difficulty of as many bits as the string has, or more, exactly the zero string passes. */
  lemma {:induction false} OnlyZeroPasses(bytes: seq<bv8>, difficulty: nat)
    requires difficulty >= 8 * |bytes|
    ensures HasLeadingZeros(bytes, difficulty) <==> forall i :: 0 <= i < |bytes| ==> bytes[i] == 0
  {
    if difficulty == 8 * |bytes| {
      LeadingZerosExact(bytes, difficulty);
      assert Power(0) == 1;
    } else {
      LeadingZerosBeyond(bytes, difficulty);
    }
    ZeroValue(bytes);
  }
}
