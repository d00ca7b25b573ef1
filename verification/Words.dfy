/** The machine words of the sources: unsigned 64-bit arithmetic with its wrap-around written out, and bytes. */
module Words {
  const TWO64: nat := 0x1_0000_0000_0000_0000
  const TWO50: nat := 0x4_0000_0000_0000

  function Add64(a: nat, b: nat): (r: nat)
    ensures a + b < TWO64 ==> r == a + b
    ensures r < TWO64
  {
    (a + b) % TWO64
  }

  function Sub64(a: nat, b: nat): (r: nat)
    ensures b <= a < TWO64 ==> r == a - b
    ensures r < TWO64
  {
    (a - b) % TWO64
  }

  function Min(a: nat, b: nat): nat {
    if a <= b then a else b
  }

  newtype Byte = x: int | 0 <= x < 256

  type Bytes = seq<Byte>

  datatype Option<+T> = None | Some(value: T)
}
