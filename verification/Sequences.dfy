/** PacketSequence: unsigned 64-bit numbers compared by signed distance. */
module Sequences {

  const MODULUS: int := 0x1_0000_0000_0000_0000
  const HALF: int := 0x8000_0000_0000_0000

  type Sequence = s: int | 0 <= s < 0x1_0000_0000_0000_0000

  // The number on the wire for the n-th packet of an unbounded numbering.
  function Wire(n: int): Sequence {
    n % MODULUS
  }

  // ++sequence
  function Next(s: Sequence): Sequence {
    if s == MODULUS - 1 then 0 else s + 1
  }

  // static_cast<int64_t>(a - b)
  function Distance(a: Sequence, b: Sequence): (d: int)
    ensures -HALF <= d < HALF
  {
    var raw := if a >= b then a - b else a - b + MODULUS;
    if raw < HALF then raw else raw - MODULUS
  }

  lemma NextOfWire(n: int)
    ensures Next(Wire(n)) == Wire(n + 1)
  {
  }

  // n increments of s.
  function Advance(s: Sequence, n: nat): Sequence {
    if n == 0 then s else Next(Advance(s, n - 1))
  }

  lemma {:induction false} AdvanceIsWire(s: Sequence, n: nat)
    ensures Advance(s, n) == Wire(s + n)
  {
    if n > 0 {
      AdvanceIsWire(s, n - 1);
      NextOfWire(s + n - 1);
    }
  }

  // Within half the number space the distance on the wire is the true distance.
  lemma DistanceOfWire(n: int, m: int)
    requires -HALF <= n - m < HALF
    ensures Distance(Wire(n), Wire(m)) == n - m
  {
    var k := n / MODULUS - m / MODULUS;
    assert n - m == k * MODULUS + (Wire(n) - Wire(m));
    assert -1 <= k <= 1;
  }

  // The position a wire number stands for, seen from position m.
  function Position(s: Sequence, m: int): int {
    m + Distance(s, Wire(m))
  }

  lemma WireOfPosition(s: Sequence, m: int)
    ensures Wire(Position(s, m)) == s
    ensures -HALF <= Position(s, m) - m < HALF
  {
    var p := Position(s, m);
    var raw := s - Wire(m);
    assert p == m + raw || p == m + raw + MODULUS || p == m + raw - MODULUS;
    assert m == (m / MODULUS) * MODULUS + Wire(m);
    assert || p == (m / MODULUS) * MODULUS + s
           || p == (m / MODULUS + 1) * MODULUS + s
           || p == (m / MODULUS - 1) * MODULUS + s;
  }

  // Positions within half the number space of m are told apart on the wire.
  lemma PositionOfWire(n: int, m: int)
    requires -HALF <= n - m < HALF
    ensures Position(Wire(n), m) == n
  {
    DistanceOfWire(n, m);
  }

  lemma DistanceOfAdvance(s: Sequence, n: nat, m: nat)
    requires -HALF <= n - m < HALF
    ensures Distance(Advance(s, n), Advance(s, m)) == n - m
  {
    AdvanceIsWire(s, n);
    AdvanceIsWire(s, m);
    DistanceOfWire(s + n, s + m);
  }

  lemma AdvanceOfDistance(s: Sequence, m: nat, k: Sequence)
    requires m + Distance(k, Advance(s, m)) >= 0
    ensures Advance(s, m + Distance(k, Advance(s, m))) == k
  {
    var d := Distance(k, Advance(s, m));
    AdvanceIsWire(s, m);
    AdvanceIsWire(s, m + d);
    WireOfPosition(k, s + m);
  }

  lemma DistanceZero(a: Sequence, b: Sequence)
    ensures Distance(a, b) == 0 <==> a == b
  {
  }

  lemma DistanceNext(a: Sequence, b: Sequence)
    ensures Distance(a, b) < HALF - 1 ==> Distance(Next(a), b) == Distance(a, b) + 1
    ensures Distance(a, b) > -HALF ==> Distance(a, Next(b)) == Distance(a, b) - 1
  {
  }

  lemma DistanceChain(a: Sequence, b: Sequence, c: Sequence)
    requires -HALF <= Distance(a, b) + Distance(b, c) < HALF
    ensures Distance(a, c) == Distance(a, b) + Distance(b, c)
  {
  }
}
