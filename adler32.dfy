/** The Adler-32 checksum of section 2.2 of RFC 1950, as Go's
    `hash/adler32.Checksum` computes it: two running sums modulo 65521,
    s1 starting at 1 and s2 at 0, combined as s2 * 65536 + s1. */
module Adler32 {
  import opened Utf8

  /** The largest prime below 2^16. */
  const Base: nat := 65521

  /** Feeds `data` into the running sums, one byte at a time. */
  function Update(s1: nat, s2: nat, data: seq<byte>): (r: (nat, nat))
    requires s1 < Base && s2 < Base
    ensures r.0 < Base && r.1 < Base
    decreases |data|
  {
    if data == [] then (s1, s2)
    else
      var a := (s1 + data[0]) % Base;
      Update(a, (s2 + a) % Base, data[1..])
  }

  /** The 32-bit checksum of `data`. */
  function Checksum(data: seq<byte>): (c: nat)
    ensures c < 0x1_0000_0000
  {
    var r := Update(1, 0, data);
    r.1 * 0x1_0000 + r.0
  }

  /** Sum of the bytes. */
  function Sum(data: seq<byte>): nat {
    if data == [] then 0 else data[0] + Sum(data[1..])
  }

  /** Sum of the bytes, the i-th (from 0) weighted by |data| - i: how many of
      the running s1 values include it. */
  function WeightedSum(data: seq<byte>): nat {
    if data == [] then 0 else |data| * data[0] + WeightedSum(data[1..])
  }

  lemma ModAddLeft(x: int, y: int)
    ensures ((x % Base) + y) % Base == (x + y) % Base
  {
    var q := x / Base;
    assert x == Base * q + x % Base;
    ModShift(x + y, q);
  }

  lemma ModShift(z: int, k: int)
    ensures (z - Base * k) % Base == z % Base
  {
  }

  lemma ModMulRight(y: int, n: int, x: int)
    ensures (y + n * (x % Base)) % Base == (y + n * x) % Base
  {
    var q := x / Base;
    assert x == Base * q + x % Base;
    assert n * x == n * (x % Base) + Base * (n * q);
    ModShift(y + n * x, n * q);
  }

  /** The running sums in closed form: s1 adds every byte once, s2 adds every
      intermediate s1, so the i-th byte is counted |data| - i times. */
  lemma {:induction false} UpdateClosedForm(s1: nat, s2: nat, data: seq<byte>)
    requires s1 < Base && s2 < Base
    ensures Update(s1, s2, data).0 == (s1 + Sum(data)) % Base
    ensures Update(s1, s2, data).1 == (s2 + |data| * s1 + WeightedSum(data)) % Base
    decreases |data|
  {
    if data != [] {
      var n := |data|;
      var rest := data[1..];
      var a := (s1 + data[0]) % Base;
      var b := (s2 + a) % Base;
      UpdateClosedForm(a, b, rest);
      ModAddLeft(s1 + data[0], Sum(rest));
      StepClosedForm(s1, s2, data[0], n, WeightedSum(rest));
    }
  }

  /** One step of the s2 recurrence, stated on plain numbers. */
  lemma StepClosedForm(s1: int, s2: int, d: int, n: int, w: int)
    ensures var a := (s1 + d) % Base;
            ((s2 + a) % Base + (n - 1) * a + w) % Base == (s2 + n * s1 + (n * d + w)) % Base
  {
    var a := (s1 + d) % Base;
    ModAddLeft(s2 + a, (n - 1) * a + w);
    assert (n - 1) * a + a == n * a;
    ModMulRight(s2 + w, n, s1 + d);
    assert n * (s1 + d) == n * s1 + n * d;
  }

  /** The checksum as section 2.2 of RFC 1950 defines it: s1 is 1 plus the sum
      of all bytes, s2 the sum of all the values s1 takes, both modulo 65521. */
  lemma ChecksumClosedForm(data: seq<byte>)
    ensures Checksum(data) == ((|data| + WeightedSum(data)) % Base) * 0x1_0000 + (1 + Sum(data)) % Base
  {
    UpdateClosedForm(1, 0, data);
  }
}
