/** `base64_encode`, and the names it gives to blocks. */
module Base64 {
  import opened Bytes
  import opened Batching

  type digit = x: int | 0 <= x < 64

  /** `b64chars`: capital letters, small letters, figures, `+` and `/`. */
  function CharOf(d: digit): char {
    if d < 26 then ('A' as int + d) as char
    else if d < 52 then ('a' as int + (d - 26)) as char
    else if d < 62 then ('0' as int + (d - 52)) as char
    else if d == 62 then '+' else '/'
  }

  /** The alphabet of table 1 of RFC 4648: where each run of characters starts and ends, and that it has no gap. */
  lemma AlphabetRuns()
    ensures CharOf(0) == 'A' && CharOf(25) == 'Z' && CharOf(26) == 'a' && CharOf(51) == 'z'
    ensures CharOf(52) == '0' && CharOf(61) == '9' && CharOf(62) == '+' && CharOf(63) == '/'
    ensures forall d: digit, e: digit :: e == d + 1 && e != 26 && e != 52 && e < 62 ==>
      CharOf(e) as int == CharOf(d) as int + 1
  {
  }

  /** Section 4 of RFC 4648: 24 input bits, taken as four 6-bit digits, most significant first. */
  function Group(a: byte, b: byte, c: byte): nat {
    a * 0x10000 + b * 0x100 + c
  }

  function DigitOf(v: nat, k: nat): digit
    requires k < 4
  {
    if k == 0 then v / 0x40000 % 64
    else if k == 1 then v / 0x1000 % 64
    else if k == 2 then v / 0x40 % 64
    else v % 64
  }

  function Quad(a: byte, b: byte, c: byte): (s: string)
    ensures |s| == 4
  {
    seq(4, k requires 0 <= k < 4 => CharOf(DigitOf(Group(a, b, c), k)))
  }

  /** One or two bytes at the end are padded with zero bits and `=`. */
  function Rfc4648(bytes: seq<byte>): string {
    if bytes == [] then ""
    else if |bytes| == 1 then Quad(bytes[0], 0, 0)[..2] + "=="
    else if |bytes| == 2 then Quad(bytes[0], bytes[1], 0)[..3] + "="
    else Quad(bytes[0], bytes[1], bytes[2]) + Rfc4648(bytes[3..])
  }

  lemma Divide64(q: int, r: int)
    requires 0 <= r < 64
    ensures (q * 64 + r) / 64 == q && (q * 64 + r) % 64 == r
  {
  }

  lemma Divide4096(q: int, r: int)
    requires 0 <= r < 0x1000
    ensures (q * 0x1000 + r) / 0x1000 == q
  {
  }

  lemma Divide262144(q: int, r: int)
    requires 0 <= r < 0x40000
    ensures (q * 0x40000 + r) / 0x40000 == q
  {
  }

  lemma DigitsOfGroup(a: byte, b: byte, c: byte)
    ensures var v := Group(a, b, c);
            && DigitOf(v, 0) == a / 4
            && DigitOf(v, 1) == a % 4 * 16 + b / 16
            && DigitOf(v, 2) == b % 16 * 4 + c / 64
            && DigitOf(v, 3) == c % 64
  {
    var q0, q1, q2, q3 := a / 4, a % 4 * 16 + b / 16, b % 16 * 4 + c / 64, c % 64;
    assert Group(a, b, c) == ((q0 * 64 + q1) * 64 + q2) * 64 + q3;
    Divide64((q0 * 64 + q1) * 64 + q2, q3);
    Divide4096(q0 * 64 + q1, q2 * 64 + q3);
    Divide64(q0 * 64 + q1, q2);
    Divide64(q0, q1);
    Divide262144(q0, q1 * 0x1000 + q2 * 64 + q3);
    assert q0 % 64 == q0;
  }

  lemma MasksAreDivisions(b: bv8)
    ensures ((b & 0xfc) >> 2) as int == b as int / 4
    ensures ((b & 0x03) << 4) as int == b as int % 4 * 16
    ensures ((b & 0xf0) >> 4) as int == b as int / 16
    ensures ((b & 0x0f) << 2) as int == b as int % 16 * 4
    ensures ((b & 0xc0) >> 6) as int == b as int / 64
    ensures (b & 0x3f) as int == b as int % 64
  {
  }

  /** The indices into `b64chars` as the source computes them: masks and shifts on the bytes, sums on ints. */
  method Index0(x: bv8) returns (d: digit)
    ensures d == x as int / 4
  {
    MasksAreDivisions(x);
    d := ((x & 0xfc) >> 2) as int;
  }

  method Index1(x: bv8, y: bv8) returns (d: digit)
    ensures d == x as int % 4 * 16 + y as int / 16
  {
    MasksAreDivisions(x);
    MasksAreDivisions(y);
    d := ((x & 0x03) << 4) as int + ((y & 0xf0) >> 4) as int;
  }

  method Index2(y: bv8, z: bv8) returns (d: digit)
    ensures d == y as int % 16 * 4 + z as int / 64
  {
    MasksAreDivisions(y);
    MasksAreDivisions(z);
    d := ((y & 0x0f) << 2) as int + ((z & 0xc0) >> 6) as int;
  }

  method Index3(z: bv8) returns (d: digit)
    ensures d == z as int % 64
  {
    MasksAreDivisions(z);
    d := (z & 0x3f) as int;
  }

  /** How many input bytes the source encodes: its loop stops at 3 bytes left, and 3 bytes left are dropped. */
  function Kept(n: nat): nat {
    if n > 0 && n % 3 == 0 then n - 3 else n
  }

  /** What `base64_encode` returns. */
  function Encoded(bytes: seq<byte>): string {
    Rfc4648(bytes[..Kept(|bytes|)])
  }

  lemma {:induction false} RfcConcat(bytes: seq<byte>, rest: seq<byte>)
    requires |bytes| % 3 == 0
    ensures Rfc4648(bytes + rest) == Rfc4648(bytes) + Rfc4648(rest)
    decreases |bytes|
  {
    if bytes == [] {
      assert bytes + rest == rest;
    } else {
      assert (bytes + rest)[3..] == bytes[3..] + rest;
      RfcConcat(bytes[3..], rest);
    }
  }

  lemma QuadOf(a: byte, b: byte, c: byte, d0: digit, d1: digit, d2: digit, d3: digit)
    requires d0 == a / 4 && d1 == a % 4 * 16 + b / 16 && d2 == b % 16 * 4 + c / 64 && d3 == c % 64
    ensures [CharOf(d0), CharOf(d1), CharOf(d2), CharOf(d3)] == Quad(a, b, c)
  {
    DigitsOfGroup(a, b, c);
  }

  /** The values of the bytes of a buffer. */
  function Values(buffer: seq<bv8>): (bytes: seq<byte>)
    ensures |bytes| == |buffer|
    ensures forall i :: 0 <= i < |buffer| ==> bytes[i] == buffer[i] as int
  {
    seq(|buffer|, i requires 0 <= i < |buffer| => buffer[i] as int)
  }

  /** One turn of the loop; with fewer than three bytes left, the missing ones count as zero. */
  method EncodeGroup(x: bv8, y: bv8, z: bv8) returns (buf: string)
    ensures buf == Quad(x as int, y as int, z as int)
  {
    var d0 := Index0(x);
    var d1 := Index1(x, y);
    var d2 := Index2(y, z);
    var d3 := Index3(z);
    QuadOf(x as int, y as int, z as int, d0, d1, d2, d3);
    buf := [CharOf(d0), CharOf(d1), CharOf(d2), CharOf(d3)];
  }

  /** The `switch` on the bytes left over. */
  method EncodeRest(rest: seq<bv8>) returns (buf: string)
    ensures buf == if |rest| == 1 || |rest| == 2 then Rfc4648(Values(rest)) else ""
  {
    if |rest| == 2 {
      buf := EncodeGroup(rest[0], rest[1], 0);
      buf := buf[..3] + "=";
    } else if |rest| == 1 {
      buf := EncodeGroup(rest[0], 0, 0);
      buf := buf[..2] + "==";
    } else {
      buf := "";
    }
  }

  /** One group more. */
  lemma RfcGroup(bytes: seq<byte>, pos: nat)
    requires pos % 3 == 0 && pos + 3 <= |bytes|
    ensures Rfc4648(bytes[..pos + 3]) == Rfc4648(bytes[..pos]) + Quad(bytes[pos], bytes[pos + 1], bytes[pos + 2])
  {
    var group := bytes[pos..pos + 3];
    RfcConcat(bytes[..pos], group);
    assert bytes[..pos + 3] == bytes[..pos] + group;
    assert Rfc4648(group) == Quad(group[0], group[1], group[2]) + Rfc4648([]);
  }

  lemma RfcEnd(bytes: seq<byte>, pos: nat)
    requires pos % 3 == 0 && |bytes| - 3 <= pos <= |bytes| && (pos == |bytes| ==> pos == 0)
    ensures var rest := bytes[pos..];
            Encoded(bytes) == Rfc4648(bytes[..pos]) + if |rest| == 1 || |rest| == 2 then Rfc4648(rest) else ""
  {
    assert bytes == bytes[..pos] + bytes[pos..];
    if |bytes| - pos == 1 || |bytes| - pos == 2 {
      RfcConcat(bytes[..pos], bytes[pos..]);
      assert bytes[..Kept(|bytes|)] == bytes;
    } else {
      assert Kept(|bytes|) == pos;
    }
  }

  method Encode(buffer: seq<bv8>) returns (out: string)
    ensures out == Encoded(Values(buffer))
  {
    ghost var bytes := Values(buffer);
    out := "";
    var pos := 0;
    while |buffer| - pos > 3
      invariant 0 <= pos <= |buffer| && pos % 3 == 0
      invariant pos == |buffer| ==> pos == 0
      invariant out == Rfc4648(bytes[..pos])
    {
      var buf := EncodeGroup(buffer[pos], buffer[pos + 1], buffer[pos + 2]);
      RfcGroup(bytes, pos);
      out := out + buf;
      pos := pos + 3;
    }
    var buf := EncodeRest(buffer[pos..]);
    assert Values(buffer[pos..]) == bytes[pos..];
    RfcEnd(bytes, pos);
    out := out + buf;
  }

  /** The overload for strings passes the length as a 32-bit number. */
  method EncodeString(s: seq<bv8>) returns (out: string)
    ensures out == Encoded(Values(s)[..|s| % WORD32])
    ensures |s| < WORD32 ==> out == Encoded(Values(s))
  {
    var n := |s| % WORD32;
    assert Values(s[..n]) == Values(s)[..n];
    assert |s| < WORD32 ==> Values(s)[..n] == Values(s);
    out := Encode(s[..n]);
  }

  /** The overload for numbers encodes the eight bytes the number occupies in memory, least significant byte first. */
  method EncodeId(ghost id: nat, memory: seq<bv8>) returns (name: string)
    requires id < 0x1_0000_0000_0000_0000 && |memory| == 8
    requires forall i :: 0 <= i < 8 ==> memory[i] as int == id / Pow256(i) % 256
    ensures name == Name(id)
  {
    forall i: nat | i < 8 ensures Values(memory)[i] == LowBytes(id, 8)[i] {
      LowByteAt(id, 8, i);
    }
    assert Values(memory) == LowBytes(id, 8);
    name := Encode(memory);
  }

  /** A standard decoder. */
  function IndexOf(c: char): Option<digit> {
    if 'A' <= c <= 'Z' then Some(c as int - 'A' as int)
    else if 'a' <= c <= 'z' then Some(c as int - 'a' as int + 26)
    else if '0' <= c <= '9' then Some(c as int - '0' as int + 52)
    else if c == '+' then Some(62)
    else if c == '/' then Some(63)
    else None
  }

  /** The three bytes of four digits. */
  function Three(d0: digit, d1: digit, d2: digit, d3: digit): (bytes: seq<byte>)
    ensures |bytes| == 3
  {
    [d0 * 4 + d1 / 16, d1 % 16 * 16 + d2 / 4, d2 % 4 * 64 + d3]
  }

  function Decode(s: string): Option<seq<byte>> {
    if s == [] then Some([])
    else if |s| < 4 then None
    else
      var d0, d1, d2, d3 := IndexOf(s[0]), IndexOf(s[1]), IndexOf(s[2]), IndexOf(s[3]);
      if d0.None? || d1.None? then None
      else if |s| == 4 && s[2] == '=' && s[3] == '=' then Some(Three(d0.value, d1.value, 0, 0)[..1])
      else if d2.None? then None
      else if |s| == 4 && s[3] == '=' then Some(Three(d0.value, d1.value, d2.value, 0)[..2])
      else if d3.None? then None
      else
        match Decode(s[4..])
        case None => None
        case Some(rest) => Some(Three(d0.value, d1.value, d2.value, d3.value) + rest)
  }

  lemma IndexInverts(d: digit)
    ensures IndexOf(CharOf(d)) == Some(d) && CharOf(d) != '='
  {
  }

  lemma DigitsInvert(a: byte, b: byte, c: byte)
    ensures var v := Group(a, b, c);
            && DigitOf(v, 0) * 4 + DigitOf(v, 1) / 16 == a
            && DigitOf(v, 1) % 16 * 16 + DigitOf(v, 2) / 4 == b
            && DigitOf(v, 2) % 4 * 64 + DigitOf(v, 3) == c
  {
    DigitsOfGroup(a, b, c);
  }

  /** Four characters whose indices are the 24 bits of the three bytes. */
  ghost predicate Spells(q: string, a: byte, b: byte, c: byte) {
    && |q| == 4 && (forall k :: 0 <= k < 4 ==> IndexOf(q[k]).Some? && q[k] != '=')
    && Three(IndexOf(q[0]).value, IndexOf(q[1]).value, IndexOf(q[2]).value, IndexOf(q[3]).value) == [a, b, c]
  }

  lemma QuadSpells(a: byte, b: byte, c: byte)
    ensures Spells(Quad(a, b, c), a, b, c)
  {
    var v := Group(a, b, c);
    DigitsInvert(a, b, c);
    IndexInverts(DigitOf(v, 0));
    IndexInverts(DigitOf(v, 1));
    IndexInverts(DigitOf(v, 2));
    IndexInverts(DigitOf(v, 3));
  }

  lemma DecodeGroup(q: string, a: byte, b: byte, c: byte, rest: string)
    requires Spells(q, a, b, c) && Decode(rest).Some?
    ensures Decode(q + rest) == Some([a, b, c] + Decode(rest).value)
  {
    var s := q + rest;
    assert s[4..] == rest;
    assert s[0] == q[0] && s[1] == q[1] && s[2] == q[2] && s[3] == q[3];
    assert s[2] != '=' && s[3] != '=';
  }

  /** With a zero byte at the end the last digit does not matter for the first two. */
  lemma DecodeTwo(q: string, a: byte, b: byte)
    requires Spells(q, a, b, 0)
    ensures Decode(q[..3] + "=") == Some([a, b])
  {
    var s := q[..3] + "=";
    assert s[0] == q[0] && s[1] == q[1] && s[2] == q[2] && s[3] == '=';
    var d0, d1, d2, d3 := IndexOf(q[0]).value, IndexOf(q[1]).value, IndexOf(q[2]).value, IndexOf(q[3]).value;
    assert Three(d0, d1, d2, 0)[..2] == Three(d0, d1, d2, d3)[..2] == [a, b];
  }

  lemma DecodeOne(q: string, a: byte)
    requires Spells(q, a, 0, 0)
    ensures Decode(q[..2] + "==") == Some([a])
  {
    var s := q[..2] + "==";
    assert s[0] == q[0] && s[1] == q[1] && s[2] == '=' && s[3] == '=';
    var d0, d1, d2, d3 := IndexOf(q[0]).value, IndexOf(q[1]).value, IndexOf(q[2]).value, IndexOf(q[3]).value;
    assert Three(d0, d1, 0, 0)[..1] == Three(d0, d1, d2, d3)[..1] == [a];
  }

  /** A standard decoder recovers what was encoded. */
  lemma {:induction false} DecodeInverts(bytes: seq<byte>)
    ensures Decode(Rfc4648(bytes)) == Some(bytes)
    decreases |bytes|
  {
    if |bytes| > 2 {
      DecodeInverts(bytes[3..]);
      QuadSpells(bytes[0], bytes[1], bytes[2]);
      DecodeGroup(Quad(bytes[0], bytes[1], bytes[2]), bytes[0], bytes[1], bytes[2], Rfc4648(bytes[3..]));
      assert bytes == [bytes[0], bytes[1], bytes[2]] + bytes[3..];
    } else if |bytes| == 2 {
      QuadSpells(bytes[0], bytes[1], 0);
      DecodeTwo(Quad(bytes[0], bytes[1], 0), bytes[0], bytes[1]);
      assert bytes == [bytes[0], bytes[1]];
    } else if |bytes| == 1 {
      QuadSpells(bytes[0], 0, 0);
      DecodeOne(Quad(bytes[0], 0, 0), bytes[0]);
      assert bytes == [bytes[0]];
    }
  }

  /** The output is the standard encoding, and decodes to the input, unless the length is a positive multiple of 3. */
  lemma DecodesIff(bytes: seq<byte>)
    ensures Decode(Encoded(bytes)) == Some(bytes) <==> bytes == [] || |bytes| % 3 != 0
    ensures Encoded(bytes) == Rfc4648(bytes) <==> bytes == [] || |bytes| % 3 != 0
  {
    var kept := bytes[..Kept(|bytes|)];
    DecodeInverts(kept);
    DecodeInverts(bytes);
    if bytes == [] || |bytes| % 3 != 0 {
      assert kept == bytes;
    } else {
      assert |kept| != |bytes|;
    }
  }

  /** The `n` low bytes of a number, least significant first. */
  function LowBytes(id: nat, n: nat): (bytes: seq<byte>)
    ensures |bytes| == n
  {
    if n == 0 then [] else [id % 256] + LowBytes(id / 256, n - 1)
  }

  function Pow256(n: nat): (p: nat)
    ensures p >= 1
  {
    if n == 0 then 1 else 256 * Pow256(n - 1)
  }

  /** Byte `i` weighs 256 to the power of `i`. */
  lemma {:induction false} LowByteAt(id: nat, n: nat, i: nat)
    requires i < n
    ensures LowBytes(id, n)[i] == id / Pow256(i) % 256
    decreases n
  {
    if i > 0 {
      LowByteAt(id / 256, n - 1, i - 1);
      DivideTwice(id, Pow256(i - 1));
    }
  }

  lemma DivideTwice(a: nat, b: nat)
    requires b >= 1
    ensures a / 256 / b == a / (256 * b)
  {
    var q, r := a / 256, a % 256;
    var p, s := q / b, q % b;
    assert a == 256 * (b * p + s) + r;
    assert a == (256 * b) * p + (256 * s + r);
    assert 256 * s + r < 256 * b;
    DivideUnique(a, 256 * b, p, 256 * s + r);
  }

  lemma MulOrdered(b: nat, x: nat, y: nat)
    requires x <= y
    ensures b * x <= b * y
  {
    assert b * y == b * x + b * (y - x);
  }

  lemma DivideUnique(a: nat, b: nat, p: nat, r: nat)
    requires a == b * p + r && r < b
    ensures a / b == p
  {
    var q := a / b;
    assert a == b * q + a % b;
    MulOrdered(b, if q < p then q + 1 else 0, if q < p then p else 0);
    MulOrdered(b, if p < q then p + 1 else 0, if p < q then q else 0);
    assert b * (q + 1) == b * q + b && b * (p + 1) == b * p + b;
  }

  lemma {:induction false} LowBytesInjective(i: nat, j: nat, n: nat)
    requires i < Pow256(n) && j < Pow256(n) && LowBytes(i, n) == LowBytes(j, n)
    ensures i == j
  {
    if n > 0 {
      var a, b := LowBytes(i, n), LowBytes(j, n);
      assert a[0] == b[0];
      assert a[1..] == LowBytes(i / 256, n - 1) && b[1..] == LowBytes(j / 256, n - 1);
      LowBytesInjective(i / 256, j / 256, n - 1);
    }
  }

  /** The name of a block: its 64-bit id as it lies in memory, least significant byte first. */
  function Name(id: nat): string {
    Encoded(LowBytes(id, 8))
  }

  lemma {:induction false} RfcLength(bytes: seq<byte>)
    ensures |Rfc4648(bytes)| == (|bytes| + 2) / 3 * 4
    decreases |bytes|
  {
    if |bytes| > 2 {
      RfcLength(bytes[3..]);
    }
  }

  lemma Pow256Of8()
    ensures Pow256(8) == 0x1_0000_0000_0000_0000
  {
    assert Pow256(4) == WORD32;
    assert Pow256(8) == 256 * (256 * (256 * (256 * Pow256(4))));
  }

  /** Block names are 12 characters long, and distinct ids have distinct names. */
  lemma NamesAreDistinct(i: nat, j: nat)
    requires i < 0x1_0000_0000_0000_0000 && j < 0x1_0000_0000_0000_0000
    ensures |Name(i)| == 12
    ensures Name(i) == Name(j) <==> i == j
  {
    RfcLength(LowBytes(i, 8)[..Kept(8)]);
    SameCodeSameBytes(LowBytes(i, 8), LowBytes(j, 8));
    Pow256Of8();
    if Name(i) == Name(j) {
      LowBytesInjective(i, j, 8);
    }
  }

  lemma SameCodeSameBytes(a: seq<byte>, b: seq<byte>)
    requires |a| % 3 != 0 && |b| % 3 != 0
    ensures Encoded(a) == Encoded(b) ==> a == b
  {
    DecodesIff(a);
    DecodesIff(b);
  }

  /** A store of blocks by id, and the same store under the names the service knows the blocks by. */
  ghost predicate NamedBy(named: map<string, seq<byte>>, store: map<nat, seq<byte>>) {
    && (forall id :: id in store ==> id < 0x1_0000_0000_0000_0000 && Name(id) in named && named[Name(id)] == store[id])
    && (forall name :: name in named ==> IsNamed(name, store))
  }

  ghost predicate IsNamed(name: string, store: map<nat, seq<byte>>) {
    exists id :: id in store && Name(id) == name
  }

  /** Looking a block up by name finds the block of that id and no other. */
  lemma LookupByNameIsById(named: map<string, seq<byte>>, store: map<nat, seq<byte>>, id: nat)
    requires NamedBy(named, store) && id < 0x1_0000_0000_0000_0000
    ensures Name(id) in named <==> id in store
  {
    if Name(id) in named {
      var k :| k in store && Name(k) == Name(id);
      NamesAreDistinct(k, id);
    }
  }

  /** Staging a block under its name touches no other block, so the service may be modelled by ids. */
  lemma StagingByNameIsById(named: map<string, seq<byte>>, store: map<nat, seq<byte>>, id: nat, data: seq<byte>)
    requires NamedBy(named, store) && id < 0x1_0000_0000_0000_0000
    ensures NamedBy(named[Name(id) := data], store[id := data])
  {
    var after := store[id := data];
    forall other | other in store ensures other == id || Name(other) != Name(id) {
      NamesAreDistinct(other, id);
    }
    forall name | name in named[Name(id) := data] ensures IsNamed(name, after) {
      if name in named {
        var k :| k in store && Name(k) == name;
        assert k in after;
      } else {
        assert id in after;
      }
    }
  }

  lemma TestQuads()
    ensures Quad(0x66, 0, 0) == "ZgAA" && Quad(0x66, 0x6f, 0) == "Zm8A"
    ensures Quad(0x66, 0x6f, 0x6f) == "Zm9v" && Quad(0x62, 0, 0) == "YgAA"
  {
    QuadOf(0x66, 0, 0, 25, 32, 0, 0);
    QuadOf(0x66, 0x6f, 0, 25, 38, 60, 0);
    QuadOf(0x66, 0x6f, 0x6f, 25, 38, 61, 47);
    QuadOf(0x62, 0, 0, 24, 32, 0, 0);
  }

  lemma OneGroupMore(a: byte, b: byte, c: byte, rest: seq<byte>)
    ensures Rfc4648([a, b, c] + rest) == Quad(a, b, c) + Rfc4648(rest)
  {
    assert ([a, b, c] + rest)[3..] == rest;
  }

  /** The test vectors of section 10 of RFC 4648. */
  lemma TestVectors()
    ensures Rfc4648([]) == "" && Rfc4648([0x66]) == "Zg==" && Rfc4648([0x66, 0x6f]) == "Zm8="
    ensures Rfc4648([0x66, 0x6f, 0x6f]) == "Zm9v" && Rfc4648([0x66, 0x6f, 0x6f, 0x62]) == "Zm9vYg=="
  {
    hide Quad;
    TestQuads();
    OneGroupMore(0x66, 0x6f, 0x6f, []);
    OneGroupMore(0x66, 0x6f, 0x6f, [0x62]);
    assert [0x66, 0x6f, 0x6f] + [0x62] == [0x66, 0x6f, 0x6f, 0x62] && [0x66, 0x6f, 0x6f] + [] == [0x66, 0x6f, 0x6f];
  }

  lemma NameOf(a: byte, b: byte)
    ensures Encoded([a, b, 0, 0, 0, 0, 0, 0]) == Quad(a, b, 0) + (Quad(0, 0, 0) + (Quad(0, 0, 0)[..3] + "="))
  {
    hide Quad;
    var bytes := [a, b, 0, 0, 0, 0, 0, 0];
    assert bytes[..8] == bytes && bytes == [a, b, 0] + [0, 0, 0, 0, 0] && [0, 0, 0, 0, 0] == [0, 0, 0] + [0, 0];
    OneGroupMore(a, b, 0, [0, 0, 0, 0, 0]);
    OneGroupMore(0, 0, 0, [0, 0]);
  }

  lemma NameQuads()
    ensures Quad(1, 0, 0) == "AQAA" && Quad(0, 1, 0) == "AAEA" && Quad(0, 0, 0) == "AAAA"
  {
    QuadOf(1, 0, 0, 0, 16, 0, 0);
    QuadOf(0, 1, 0, 0, 0, 4, 0);
    QuadOf(0, 0, 0, 0, 0, 0, 0);
  }

  lemma FirstBytes()
    ensures LowBytes(1, 8) == [1, 0, 0, 0, 0, 0, 0, 0] && LowBytes(256, 8) == [0, 1, 0, 0, 0, 0, 0, 0]
  {
    assert LowBytes(0, 2) == [0, 0] && LowBytes(0, 4) == [0, 0, 0, 0];
    assert LowBytes(0, 6) == [0, 0, 0, 0, 0, 0];
    assert LowBytes(0, 7) == [0] + LowBytes(0, 6);
    assert LowBytes(1, 8) == [1] + LowBytes(0, 7) && LowBytes(256, 8) == [0] + LowBytes(1, 7);
    assert LowBytes(1, 7) == [1] + LowBytes(0, 6);
  }

  /** The names of block 1 and of block 256. */
  lemma FirstNames()
    ensures Name(1) == "AQAAAAAAAAA=" && Name(256) == "AAEAAAAAAAA="
  {
    hide Quad, Encoded, LowBytes;
    FirstBytes();
    NameOf(1, 0);
    NameOf(0, 1);
    NameQuads();
  }
}
