/** Fixed-width unsigned arithmetic as the C sources use it. */
module Words {

  type byte = x: nat | x < 0x100
  type uint16 = x: nat | x < 0x1_0000
  type uint32 = x: nat | x < 0x1_0000_0000

  datatype Option<+T> = None | Some(value: T)

  /** `x++` on a 32-bit unsigned counter (section 6.2.5 of ISO/IEC 9899:2011). */
  function Inc32(x: uint32): uint32 {
    if x == 0xFFFF_FFFF then 0 else x + 1
  }

  /** `x--` on a 32-bit unsigned counter. */
  function Dec32(x: uint32): uint32 {
    if x == 0 then 0xFFFF_FFFF else x - 1
  }

  /** `a - b` on 32-bit unsigned counters. */
  function Sub32(a: uint32, b: uint32): uint32 {
    if b <= a then a - b else a + 0x1_0000_0000 - b
  }

  /** The value a free-running counter shows after `n` increments from zero. */
  function Wrap32(n: nat): uint32 {
    n % 0x1_0000_0000
  }

  lemma IncWraps(n: nat)
    ensures Inc32(Wrap32(n)) == Wrap32(n + 1)
  {
  }

  /** The unsigned difference of two wrapped counters is the difference of the true counts. */
  lemma SubWraps(put: nat, get: nat)
    requires get <= put < get + 0x1_0000_0000
    ensures Sub32(Wrap32(put), Wrap32(get)) == put - get
  {
    var a, b := put / 0x1_0000_0000, get / 0x1_0000_0000;
    assert put == a * 0x1_0000_0000 + Wrap32(put);
    assert get == b * 0x1_0000_0000 + Wrap32(get);
    assert a == b || a == b + 1;
  }
}
