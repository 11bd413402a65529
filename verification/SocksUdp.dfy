/** The SOCKS5 UDP request header (section 7 of RFC 1928). */
module SocksUdp {
  import opened Bytes
  import opened Bits
  import opened Classifier
  import opened Reloads

  // ---- Addresses as octets, most significant first ----

  function Octets(bits: nat, n: nat): (r: seq<Byte>)
    ensures |r| == n
  {
    if n == 0 then [] else Octets(bits / 256, n - 1) + [bits % 256]
  }

  function FromOctets(s: seq<Byte>): nat {
    if s == [] then 0 else 256 * FromOctets(s[..|s| - 1]) + s[|s| - 1]
  }

  lemma Pow2Eight(n: nat)
    ensures Pow2(n + 8) == 256 * Pow2(n)
  {
    assert Pow2(n + 4) == 16 * Pow2(n) by {
      assert Pow2(n + 2) == 4 * Pow2(n);
      assert Pow2(n + 4) == 4 * Pow2(n + 2);
    }
    assert Pow2(n + 6) == 4 * Pow2(n + 4);
    assert Pow2(n + 8) == 4 * Pow2(n + 6);
  }

  lemma {:induction false} OctetsInverse(bits: nat, n: nat)
    requires bits < Pow2(8 * n)
    ensures FromOctets(Octets(bits, n)) == bits
  {
    if n > 0 {
      Pow2Eight(8 * (n - 1));
      var r := Octets(bits, n);
      assert r[..n - 1] == Octets(bits / 256, n - 1);
      OctetsInverse(bits / 256, n - 1);
    }
  }

  lemma {:induction false} FromOctetsInverse(s: seq<Byte>)
    ensures FromOctets(s) < Pow2(8 * |s|) && Octets(FromOctets(s), |s|) == s
  {
    if s != [] {
      var init := s[..|s| - 1];
      FromOctetsInverse(init);
      Pow2Eight(8 * |init|);
      assert FromOctets(s) / 256 == FromOctets(init);
      assert s == init + [s[|s| - 1]];
    }
  }

  function OctetCount(f: Family): nat { if f.V4? then 4 else 16 }

  function ToIp(f: Family, octets: seq<Byte>): (r: IpAddr)
    requires |octets| == OctetCount(f)
  {
    FromOctetsInverse(octets);
    Ip(f, FromOctets(octets))
  }

  lemma IpRoundTrip(ip: IpAddr)
    ensures ToIp(ip.fam, Octets(ip.bits, OctetCount(ip.fam))) == ip
  {
    OctetsInverse(ip.bits, OctetCount(ip.fam));
  }

  // ---- The codec ----

  function AddressType(f: Family): Byte { if f.V4? then 0x01 else 0x04 }

  /** The datagram for a target: two reserved bytes, fragment 0, address type, address, port, payload. */
  function Encoding(target: SocketAddr, payload: seq<Byte>): seq<Byte> {
    [0, 0, 0, AddressType(target.ip.fam)] + Octets(target.ip.bits, OctetCount(target.ip.fam))
    + ToBe16(target.port) + payload
  }

  class Buffer {
    var data: seq<Byte>
    constructor () ensures data == [] { data := []; }
  }

  /** `encode_udp` into a reused buffer: whatever was in it is gone. */
  method EncodeUdp(target: SocketAddr, payload: seq<Byte>, out: Buffer)
    modifies out
    ensures out.data == Encoding(target, payload)
  {
    out.data := [];
    out.data := out.data + [0x00];
    out.data := out.data + [0x00];
    out.data := out.data + [0x00];
    match target.ip.fam {
      case V4 =>
        out.data := out.data + [0x01];
        out.data := out.data + Octets(target.ip.bits, 4);
      case V6 =>
        out.data := out.data + [0x04];
        out.data := out.data + Octets(target.ip.bits, 16);
    }
    out.data := out.data + ToBe16(target.port);
    out.data := out.data + payload;
  }

  /** `decode_udp`; every index it reads is in range by construction of the guards. */
  function DecodeUdp(buf: seq<Byte>): Option<(SocketAddr, seq<Byte>)> {
    if |buf| < 4 then None
    else if buf[2] != 0x00 then None
    else if buf[3] == 0x01 then
      if |buf| < 10 then None
      else Some((SocketAddr(ToIp(V4, buf[4..8]), FromBe16(buf[8], buf[9])), buf[10..]))
    else if buf[3] == 0x04 then
      if |buf| < 22 then None
      else Some((SocketAddr(ToIp(V6, buf[4..20]), FromBe16(buf[20], buf[21])), buf[22..]))
    else None
  }

  lemma Parts(head: seq<Byte>, octets: seq<Byte>, port: seq<Byte>, payload: seq<Byte>)
    requires |head| == 4 && |port| == 2
    ensures var b := head + octets + port + payload;
            var n := 4 + |octets|;
            && |b| == n + 2 + |payload| && b[..4] == head && b[4..n] == octets
            && b[n..n + 2] == port && b[n + 2..] == payload
            && b[2] == head[2] && b[3] == head[3] && b[n] == port[0] && b[n + 1] == port[1]
  {
  }

  /** Decoding an encoding gives back target and payload. */
  lemma DecodeOfEncoding(target: SocketAddr, payload: seq<Byte>)
    ensures DecodeUdp(Encoding(target, payload)) == Some((target, payload))
  {
    var octets := Octets(target.ip.bits, OctetCount(target.ip.fam));
    Parts([0, 0, 0, AddressType(target.ip.fam)], octets, ToBe16(target.port), payload);
    IpRoundTrip(target.ip);
  }

  lemma Reassembled(buf: seq<Byte>, n: nat)
    requires 4 <= n && n + 2 <= |buf|
    ensures [0, 0, buf[2], buf[3]] + buf[4..n] + [buf[n], buf[n + 1]] + buf[n + 2..] == [0, 0] + buf[2..]
  {
  }

  /** An accepted datagram encodes back to itself with its reserved bytes zeroed. */
  lemma EncodingOfDecoded(buf: seq<Byte>)
    requires DecodeUdp(buf).Some?
    ensures Encoding(DecodeUdp(buf).value.0, DecodeUdp(buf).value.1) == [0, 0] + buf[2..]
  {
    var n := if buf[3] == 0x01 then 8 else 20;
    FromOctetsInverse(buf[4..n]);
    Reassembled(buf, n);
  }

  /** The decoder accepts exactly the encodings, up to the two reserved bytes. */
  lemma AcceptsExactlyEncodings(buf: seq<Byte>)
    requires |buf| >= 2
    ensures DecodeUdp(buf).Some? <==> exists target, payload :: Encoding(target, payload) == [0, 0] + buf[2..]
  {
    if DecodeUdp(buf).Some? {
      EncodingOfDecoded(buf);
      assert Encoding(DecodeUdp(buf).value.0, DecodeUdp(buf).value.1) == [0, 0] + buf[2..];
    }
    var zeroed := [0, 0] + buf[2..];
    if exists target, payload :: Encoding(target, payload) == zeroed {
      var target, payload :| Encoding(target, payload) == zeroed;
      DecodeOfEncoding(target, payload);
      assert |buf| == |zeroed| && forall i | 2 <= i < |buf| :: buf[i] == zeroed[i];
    }
  }

  // ---- The bytes on the wire ----

  lemma DivideOnce(a: nat, p: nat)
    requires p > 0
    ensures (a / 256) / p == a / (256 * p)
  {
    var q, m := (a / 256) / p, (a / 256) % p;
    QuotientForm(a / 256, p);
    assert 256 * (q * p) == q * (256 * p);
    ModUnique(q, 256 * p, 256 * m + a % 256);
  }

  /** Octet `i` of `n` has the weight 256 to the power `n - 1 - i`. */
  lemma {:induction false} OctetAt(bits: nat, n: nat, i: nat)
    requires i < n
    ensures Octets(bits, n)[i] == (bits / Pow2(8 * (n - 1 - i))) % 256
    decreases n
  {
    if i < n - 1 {
      OctetAt(bits / 256, n - 1, i);
      Pow2Eight(8 * (n - 2 - i));
      DivideOnce(bits, Pow2(8 * (n - 2 - i)));
    }
  }

  /** The octets are those of the number, most significant first. */
  ghost predicate BigEndian(bits: nat, octets: seq<Byte>) {
    forall i | 0 <= i < |octets| :: octets[i] == (bits / Pow2(8 * (|octets| - 1 - i))) % 256
  }

  lemma OctetsBigEndian(bits: nat, n: nat)
    ensures BigEndian(bits, Octets(bits, n))
  {
    var r := Octets(bits, n);
    forall i | 0 <= i < |r| ensures r[i] == (bits / Pow2(8 * (|r| - 1 - i))) % 256 { OctetAt(bits, n, i); }
  }

  /** The layout of section 7 of RFC 1928: reserved bytes and fragment number zero, address
      type 1 for IPv4 and 4 for IPv6, the address and the port with the most significant
      byte first, the payload. */
  lemma WireFormat(target: SocketAddr, payload: seq<Byte>)
    ensures var b := Encoding(target, payload);
            var n := if target.ip.fam.V4? then 4 else 16;
            && |b| == 6 + n + |payload| && b[0] == 0 && b[1] == 0 && b[2] == 0
            && b[3] == (if target.ip.fam.V4? then 1 else 4)
            && BigEndian(target.ip.bits, b[4..4 + n])
            && 256 * (b[4 + n] as int) + b[5 + n] == target.port && b[6 + n..] == payload
  {
    var n := if target.ip.fam.V4? then 4 else 16;
    var head, octets := [0, 0, 0, AddressType(target.ip.fam)], Octets(target.ip.bits, n);
    Parts(head, octets, ToBe16(target.port), payload);
    assert Encoding(target, payload)[..4] == head;
    OctetsBigEndian(target.ip.bits, n);
  }
}
