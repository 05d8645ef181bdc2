/** SOCKS 4 requests: the encoder of the console and the parser of the server, over
    signed bytes ("SOCKS: A protocol for TCP proxy across firewalls", sections 1 and 2). */
module Socks4 {
  import opened Text

  /** `char` where it is signed, as with gcc on x86: one byte. */
  newtype Char = c: int | -128 <= c < 128

  type Octet = b: int | 0 <= b < 256

  // ---------- Signed bytes ----------

  /** Conversion of an int to char, modulo 256. */
  function ToChar(n: int): (c: Char) {
    var m := n % 256;
    if m < 128 then m as Char else (m - 256) as Char
  }

  /** C division and remainder, toward zero. */
  function Quotient(n: int, d: int): int
    requires d > 0
  {
    if n >= 0 then n / d else -((-n) / d)
  }

  function Remainder(n: int, d: int): int
    requires d > 0
  {
    n - d * Quotient(n, d)
  }

  /** c >> 1 keeps the sign, c & 1 is the lowest bit. */
  function ShiftRight(c: Char): (h: Char)
    ensures h as int == c as int / 2
  {
    (c as int / 2) as Char
  }

  function LowBit(c: Char): (b: int)
    ensures b == c as int % 2
  {
    c as int % 2
  }

  /** bytetoint: the bit-by-bit loop reads a signed byte as an unsigned one. */
  method ByteToInt(byte: Char) returns (a: int)
    ensures 0 <= a < 256 && a == byte as int % 256
  {
    var c := byte;
    var r := 1;
    a := 0;
    for i := 0 to 8
      invariant r == Power2(i) && 0 <= a < r
      invariant byte as int == c as int * r + a
    {
      HalfStep(c as int, r);
      a := a + LowBit(c) * r;
      c := ShiftRight(c);
      r := r * 2;
    }
    assert Power2(8) == 256 by { PowerOfEight(); }
    assert byte as int == c as int * 256 + a;
  }

  function Power2(i: nat): nat {
    if i == 0 then 1 else 2 * Power2(i - 1)
  }

  lemma PowerOfEight()
    ensures Power2(8) == 256
  {
    assert Power2(4) == 16;
    assert Power2(8) == 16 * Power2(4);
  }

  lemma HalfStep(c: int, r: int)
    ensures c * r == (c / 2) * (r * 2) + (c % 2) * r
    ensures 0 <= (c % 2) * r <= r || r < 0
  {
    assert c == 2 * (c / 2) + c % 2;
    assert c * r == (2 * (c / 2) + c % 2) * r == (c / 2) * (r * 2) + (c % 2) * r;
  }

  function Unsigned(c: Char): Octet {
    c as int % 256
  }

  lemma UnsignedOfToChar(n: int)
    ensures Unsigned(ToChar(n)) == n % 256
  {
  }

  // ---------- The request ----------

  datatype Command = Connect | Bind | Unknown

  datatype Request = Request(vn: int, cd: Command, port: string, ip: string)

  function Dotted(a: Octet, b: Octet, c: Octet, d: Octet): string {
    ToString(a) + "." + ToString(b) + "." + ToString(c) + "." + ToString(d)
  }

  function CommandOf(n: int): Command {
    if n == 1 then Connect else if n == 2 then Bind else Unknown
  }

  /** What the eight bytes of a request mean. */
  function Meaning(bytes: seq<Char>): Request
    requires |bytes| >= 8
  {
    Request(Unsigned(bytes[0]), CommandOf(Unsigned(bytes[1])),
            ToString(Unsigned(bytes[2]) * 256 + Unsigned(bytes[3])),
            Dotted(Unsigned(bytes[4]), Unsigned(bytes[5]), Unsigned(bytes[6]), Unsigned(bytes[7])))
  }

  /** parse_request. A command other than 1 and 2 leaves the CD entry unset. */
  method ParseRequest(request: array<Char>) returns (r: Request)
    requires request.Length >= 8
    ensures r == Meaning(request[..])
    ensures r.vn == request[0] as int % 256
    ensures r.cd == if request[1] == 1 then Connect else if request[1] == 2 then Bind else Unknown
    ensures r.port == ToString((request[2] as int % 256) * 256 + request[3] as int % 256)
    ensures r.ip == ToString(request[4] as int % 256) + "." + ToString(request[5] as int % 256) + "."
                    + ToString(request[6] as int % 256) + "." + ToString(request[7] as int % 256)
  {
    hide ToString;
    var vn := ByteToInt(request[0]);
    var cd := ByteToInt(request[1]);
    var high := ByteToInt(request[2]);
    var low := ByteToInt(request[3]);
    var a := ByteToInt(request[4]);
    var b := ByteToInt(request[5]);
    var c := ByteToInt(request[6]);
    var d := ByteToInt(request[7]);
    var command := Unknown;
    if cd == 1 {
      command := Connect;
    } else if cd == 2 {
      command := Bind;
    }
    r := Request(vn, command, ToString(high * 256 + low), Dotted(a, b, c, d));
  }

  /** The nine bytes that send_sock_request stores, one by one. */
  method Encode(port: string, a: Octet, b: Octet, c: Octet, d: Octet) returns (request: array<Char>)
    ensures fresh(request) && request[..] == Encoded(Atoi(port), a, b, c, d)
    ensures request[0] == 4 && request[1] == 1 && request[8] == 0
  {
    request := new Char[9];
    request[0] := ToChar(4);
    request[1] := ToChar(1);
    request[2] := ToChar(Quotient(Atoi(port), 256));
    request[3] := ToChar(Remainder(Atoi(port), 256));
    request[4] := ToChar(a);
    request[5] := ToChar(b);
    request[6] := ToChar(c);
    request[7] := ToChar(d);
    request[8] := 0;
  }

  function Encoded(port: int, a: Octet, b: Octet, c: Octet, d: Octet): seq<Char> {
    [ToChar(4), ToChar(1), ToChar(Quotient(port, 256)), ToChar(Remainder(port, 256)), ToChar(a), ToChar(b), ToChar(c), ToChar(d), 0]
  }

  lemma AddressBytes(port: int, a: Octet, b: Octet, c: Octet, d: Octet)
    ensures
      var high, low := Quotient(port, 256) % 256, Remainder(port, 256) % 256;
      Meaning(Encoded(port, a, b, c, d)) == Request(4, Connect, ToString(high * 256 + low), Dotted(a, b, c, d))
  {
    hide ToString, Dotted, Unsigned, ToChar, Quotient, Remainder;
    UnsignedOfToChar(Quotient(port, 256));
    UnsignedOfToChar(Remainder(port, 256));
    OctetToChar(4);
    OctetToChar(1);
    OctetToChar(a);
    OctetToChar(b);
    OctetToChar(c);
    OctetToChar(d);
  }

  lemma OctetToChar(n: Octet)
    ensures Unsigned(ToChar(n)) == n
  {
  }

  lemma PortBytes(port: int)
    requires port >= 0
    ensures (Quotient(port, 256) % 256) * 256 + Remainder(port, 256) % 256 == port % 65536
  {
    var q, r := port / 256, port % 256;
    assert port == 256 * q + r && Quotient(port, 256) == q && Remainder(port, 256) == r;
    var k, m := q / 256, q % 256;
    assert q == 256 * k + m;
    hide Quotient, Remainder;
    Residue(r, 256, 0, r);
    Residue(port, 65536, k, 256 * m + r);
  }

  /** The server reads back the address and, of a port that is not negative, its last
      sixteen bits. */
  lemma RoundTrip(port: nat, a: Octet, b: Octet, c: Octet, d: Octet)
    ensures Meaning(Encoded(port, a, b, c, d)) == Request(4, Connect, ToString(port % 65536), Dotted(a, b, c, d))
  {
    AddressBytes(port, a, b, c, d);
    PortBytes(port);
    hide ToString, Dotted, Meaning, Encoded, Quotient, Remainder;
  }

  /** A port of the console's form comes back as the same string. */
  lemma PortStringRoundTrip(port: nat, a: Octet, b: Octet, c: Octet, d: Octet)
    requires port < 65536
    ensures Meaning(Encoded(Atoi(ToString(port)), a, b, c, d)).port == ToString(port)
    ensures Meaning(Encoded(Atoi(ToString(port)), a, b, c, d)).ip == Dotted(a, b, c, d)
  {
    AtoiOfToString(port);
    RoundTrip(port, a, b, c, d);
    hide ToString, Dotted, Meaning, Encoded, Atoi;
  }

  /** Of any int, the sixteen bits come back exactly when it is not negative or a
      multiple of 256; other negative numbers borrow from the high byte. */
  lemma PortOfAnyInt(port: int, a: Octet, b: Octet, c: Octet, d: Octet)
    ensures
      var back := Meaning(Encoded(port, a, b, c, d)).port;
      && back == ToString(if port >= 0 || port % 256 == 0 then port % 65536 else (port + 256) % 65536)
      && (back == ToString(port % 65536) <==> port >= 0 || port % 256 == 0)
  {
    AddressBytes(port, a, b, c, d);
    if port >= 0 {
      PortBytes(port);
    } else {
      NegativePort(port);
    }
    hide ToString, Dotted, Meaning, Encoded, Quotient, Remainder;
    if ToString((port + 256) % 65536) == ToString(port % 65536) {
      ToStringInjective((port + 256) % 65536, port % 65536);
    }
  }

  lemma NegativePort(port: int)
    requires port < 0
    ensures (Quotient(port, 256) % 256) * 256 + Remainder(port, 256) % 256
         == if port % 256 == 0 then port % 65536 else (port + 256) % 65536
  {
    var q, r := (0 - port) / 256, (0 - port) % 256;
    assert 0 - port == 256 * q + r && Quotient(port, 256) == 0 - q && Remainder(port, 256) == 0 - r;
    var k, m := (0 - q) / 256, (0 - q) % 256;
    assert 0 - q == 256 * k + m;
    hide Quotient, Remainder;
    if r == 0 {
      Residue(port, 256, 0 - q, 0);
      Residue(port, 65536, k, 256 * m);
    } else {
      Residue(0 - r, 256, -1, 256 - r);
      Residue(port, 256, 0 - q - 1, 256 - r);
      Residue(port + 256, 65536, k, 256 * m + 256 - r);
    }
  }

  lemma Residue(n: int, d: int, k: int, m: int)
    requires 0 <= m < d && n == d * k + m
    ensures n % d == m
  {
    var q, r := n / d, n % d;
    assert n == d * q + r;
    assert d * (q - k) == m - r;
    Grows(d, q - k);
  }

  lemma Grows(d: int, x: int)
    requires d > 0
    ensures (x >= 1 ==> d * x >= d) && (x <= -1 ==> d * x <= 0 - d)
  {
    assert d * (x - 1) == d * x - d && d * (x + 1) == d * x + d;
  }

  // ---------- Dotted addresses ----------

  /** The text of `k` octets, each followed by a dot. */
  function Prefix(octets: seq<Octet>): string {
    if octets == [] then "" else ToString(octets[0]) + "." + Prefix(octets[1..])
  }

  /** A number followed by a dot is a prefix of another exactly when they are equal. */
  lemma NumberAndDot(m: nat, n: nat, s: string, t: string)
    ensures ToString(m) + "." + s <= ToString(n) + "." + t <==> m == n && s <= t
  {
    var x, y := ToString(m), ToString(n);
    var u, v := x + "." + s, y + "." + t;
    if u <= v {
      assert forall i :: 0 <= i < |x| ==> v[i] == u[i] == x[i];
      assert v[|x|] == u[|x|] == '.';
      WordLengthIs(v, ".", |x|);
      WordLengthIs(v, ".", |y|);
      assert x == y;
      ToStringInjective(m, n);
    }
    if m == n {
      assert u[|x| + 1..] == s && v[|x| + 1..] == t;
      if u <= v {
        assert s == v[..|u|][|x| + 1..] == t[..|s|];
      }
      if s <= t {
        assert u == v[..|u|];
      }
    }
  }
}
