/** Bytes, 16-bit big-endian integers and the optional value used across the model. */
module Bytes {

  datatype Option<+T> = None | Some(value: T)

  type Byte = b: int | 0 <= b < 256

  type Port = p: int | 0 <= p < 65536

  /** A DNS message that `resolve` accepts: 12 to 65535 bytes. */
  type Query = q: seq<Byte> | 12 <= |q| <= 65535 witness seq(12, _ => 0)

  function ToBe16(n: nat): (r: seq<Byte>)
    requires n < 65536
    ensures |r| == 2 && 256 * (r[0] as int) + r[1] == n
  {
    [n / 256, n % 256]
  }

  function FromBe16(hi: Byte, lo: Byte): (n: nat)
    ensures n < 65536 && ToBe16(n) == [hi, lo]
  {
    256 * (hi as int) + lo
  }

  /** The message with its first two bytes, the id, replaced by those of `stamp`. */
  function Restamp(message: seq<Byte>, stamp: seq<Byte>): (r: seq<Byte>)
    requires |message| >= 2 && |stamp| >= 2
    ensures |r| == |message| && r[..2] == stamp[..2] && r[2..] == message[2..]
  {
    stamp[..2] + message[2..]
  }
}
