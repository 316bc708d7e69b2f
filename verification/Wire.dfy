/** Bytes on the wire: ASCII text and big-endian integers (src/protocol.cpp). */
module Wire {
  import opened Jobs

  const MAX_FRAME: nat := 65536
  const U32_SPACE: nat := 0x1_0000_0000

  function Ascii(s: string): (b: Bytes)
    ensures |b| == |s|
  {
    seq(|s|, i requires 0 <= i < |s| => s[i] as int % 256)
  }

  lemma Regroup(a: Bytes, b: Bytes, c: Bytes)
    ensures a + (b + c) == a + b + c
  {
  }

  function Pow256(n: nat): (r: nat)
    ensures r > 0
  {
    if n == 0 then 1 else 256 * Pow256(n - 1)
  }

  /** The last `width` bytes of `n`, most significant first. */
  function BigEndian(n: nat, width: nat): (b: Bytes)
    ensures |b| == width
  {
    if width == 0 then [] else BigEndian(n / 256, width - 1) + [n % 256]
  }

  function Value(b: Bytes): nat {
    if b == [] then 0 else Value(b[..|b| - 1]) * 256 + b[|b| - 1]
  }

  lemma {:induction false} ValueBound(b: Bytes)
    ensures Value(b) < Pow256(|b|)
  {
    if b != [] {
      ValueBound(b[..|b| - 1]);
    }
  }

  lemma {:induction false} ValueOfBigEndian(n: nat, width: nat)
    requires n < Pow256(width)
    ensures Value(BigEndian(n, width)) == n
  {
    if width != 0 {
      ValueOfBigEndian(n / 256, width - 1);
      assert BigEndian(n, width)[..width - 1] == BigEndian(n / 256, width - 1);
    }
  }

  lemma {:induction false} BigEndianOfValue(b: Bytes)
    ensures BigEndian(Value(b), |b|) == b
  {
    if b != [] {
      var init, last := b[..|b| - 1], b[|b| - 1];
      BigEndianOfValue(init);
      assert Value(b) / 256 == Value(init) && Value(b) % 256 == last;
      hide Value;
      assert b == init + [last];
    }
  }

  function U32(n: nat): (b: Bytes)
    requires n < U32_SPACE
    ensures |b| == 4
  {
    BigEndian(n, 4)
  }

  lemma Pow4()
    ensures Pow256(4) == U32_SPACE
  {
    assert Pow256(4) == 256 * Pow256(3) == 256 * 256 * Pow256(2);
  }

  lemma Pow8()
    ensures Pow256(8) == JOB_ID_SPACE
  {
    Pow4();
    assert Pow256(8) == 256 * Pow256(7) == 256 * 256 * Pow256(6) == 256 * 256 * 256 * Pow256(5);
  }

  /** Four bytes and the number they stand for determine each other. */
  lemma U32Inverse(n: nat, b: Bytes)
    ensures n < U32_SPACE ==> Value(U32(n)) == n
    ensures |b| == 4 ==> Value(b) < U32_SPACE && U32(Value(b)) == b
  {
    Pow4();
    if n < U32_SPACE {
      ValueOfBigEndian(n, 4);
    }
    ValueBound(b);
    BigEndianOfValue(b);
  }

  // ----- the loops of the source -----

  /** Byte `index` of an eight-byte number, by shifting. */
  lemma {:induction false} ByteByShift(n: nat, width: nat, index: nat)
    requires index < width
    ensures BigEndian(n, width)[index] == n / Pow256(width - index - 1) % 256
    decreases width
  {
    if index < width - 1 {
      ByteByShift(n / 256, width - 1, index);
      DivideTwice(n, Pow256(width - index - 2));
    }
  }

  lemma DivideTwice(n: nat, d: nat)
    requires d > 0
    ensures n / 256 / d == n / (256 * d)
  {
    var q, r := n / 256 / d, n / 256 % d;
    assert n / 256 == d * q + r;
    assert n == 256 * (d * q + r) + n % 256;
    assert n == (256 * d) * q + (256 * r + n % 256);
    QuotientIs(n, 256 * d, q, 256 * r + n % 256);
  }

  lemma QuotientIs(n: nat, d: nat, q: nat, r: nat)
    requires d > 0 && n == d * q + r && r < d
    ensures n / d == q
  {
    assert n == d * (n / d) + n % d;
    assert d * (q - n / d) == n % d - r;
    OnlyZero(d, q - n / d);
  }

  lemma OnlyZero(d: nat, x: int)
    requires 0 - d < d * x < d
    ensures x == 0
  {
  }

  method AppendJobId(output: Bytes, id: JobId) returns (r: Bytes)
    ensures r == output + BigEndian(id, 8)
  {
    r := output;
    for index := 0 to 8
      invariant r == output + BigEndian(id, 8)[..index]
    {
      var shift := 8 - index - 1;
      ByteByShift(id, 8, index);
      r := r + [id / Pow256(shift) % 256];
    }
  }

  /** `(id << 8) | byte` in 64 bits, eight times, loses nothing. */
  method ReadJobId(payload: Bytes, start: nat) returns (id: JobId)
    requires |payload| == start + 8
    ensures id == Value(payload[start..]) && id < JOB_ID_SPACE
  {
    id := 0;
    Pow8();
    for index := start to |payload|
      invariant id == Value(payload[start..index])
    {
      ValueBound(payload[start..index]);
      PowGrows(index - start, 7);
      assert Pow256(8) == 256 * Pow256(7);
      id := (id * 256) % JOB_ID_SPACE + payload[index];
      assert payload[start..index + 1][..index - start] == payload[start..index];
    }
    assert payload[start..|payload|] == payload[start..];
    ValueBound(payload[start..]);
  }

  lemma {:induction false} PowGrows(a: nat, b: nat)
    requires a <= b
    ensures Pow256(a) <= Pow256(b)
    decreases b
  {
    if a < b {
      PowGrows(a, b - 1);
    }
  }
}
