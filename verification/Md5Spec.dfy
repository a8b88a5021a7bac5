/** MD5 as RFC 1321 defines it: section numbers below are the RFC's. */
module Md5Spec {

  /* ---------------------------- sections 3.1 and 3.2 ------------------------ */

  /** Low-order byte first. */
  function Word(b0: bv8, b1: bv8, b2: bv8, b3: bv8): bv32 {
    b0 as bv32 | (b1 as bv32 << 8) | (b2 as bv32 << 16) | (b3 as bv32 << 24)
  }

  function Bytes(w: bv32): seq<bv8> {
    [(w & 0xff) as bv8, ((w >> 8) & 0xff) as bv8, ((w >> 16) & 0xff) as bv8, ((w >> 24) & 0xff) as bv8]
  }

  function Zeros(n: nat): seq<bv8> {
    seq(n, _ => 0)
  }

  /** The message, a one bit, zeros up to 56 bytes modulo 64, and the bit length in two words, low-order word first. */
  function Padded(m: seq<bv8>): seq<bv8> {
    WithLength(m, (8 * |m| % 0x1_0000_0000) as bv32, (8 * |m| / 0x1_0000_0000 % 0x1_0000_0000) as bv32)
  }

  function WithLength(m: seq<bv8>, low: bv32, high: bv32): seq<bv8> {
    m + [0x80] + Zeros(ZeroCount(|m|)) + Bytes(low) + Bytes(high)
  }

  function ZeroCount(n: nat): (z: nat)
    ensures z < 64 && (n + 1 + z) % 64 == 56
  {
    (119 - n % 64) % 64
  }

  function WordOf(bytes: seq<bv8>, i: nat): bv32
    requires 4 * i + 3 < |bytes|
  {
    Word(bytes[4 * i], bytes[4 * i + 1], bytes[4 * i + 2], bytes[4 * i + 3])
  }

  function Words(bytes: seq<bv8>): seq<bv32> {
    seq(|bytes| / 4, i requires 0 <= i < |bytes| / 4 => WordOf(bytes, i))
  }

  /* ------------------------------- section 3.4 ------------------------------ */

  function F(x: bv32, y: bv32, z: bv32): bv32 {
    (x & y) | (!x & z)
  }

  function G(x: bv32, y: bv32, z: bv32): bv32 {
    (x & z) | (y & !z)
  }

  function H(x: bv32, y: bv32, z: bv32): bv32 {
    x ^ y ^ z
  }

  function I(x: bv32, y: bv32, z: bv32): bv32 {
    y ^ (x | !z)
  }

  function RotateLeft(x: bv32, s: nat): bv32
    requires 0 < s < 32
  {
    (x << s) | (x >> (32 - s))
  }

  /** Addition of words. */
  function Plus(x: bv32, y: bv32): bv32 {
    x + y
  }

  function Mixed(i: nat, x: bv32, y: bv32, z: bv32): bv32
    requires i < 64
  {
    if i < 16 then F(x, y, z) else if i < 32 then G(x, y, z) else if i < 48 then H(x, y, z) else I(x, y, z)
  }

  /** Which word of the block operation i uses. */
  function K(i: nat): (k: nat)
    requires i < 64
    ensures k < 16
  {
    if i < 16 then i else if i < 32 then (5 * i + 1) % 16 else if i < 48 then (3 * i + 5) % 16 else 7 * i % 16
  }

  function S(i: nat): (s: nat)
    requires i < 64
    ensures 0 < s < 32
  {
    if i < 16 then [7, 12, 17, 22][i % 4]
    else if i < 32 then [5, 9, 14, 20][i % 4]
    else if i < 48 then [4, 11, 16, 23][i % 4]
    else [6, 10, 15, 21][i % 4]
  }

  /** Element i + 1 of table T. */
  function T(i: nat): bv32
    requires i < 64
  {
    TableRow(i / 4)[i % 4]
  }

  /** Table T, four elements to a row. */
  function TableRow(r: nat): (t: seq<bv32>)
    requires r < 16
    ensures |t| == 4
  {
    match r
    case 0 => [0xd76aa478, 0xe8c7b756, 0x242070db, 0xc1bdceee]
    case 1 => [0xf57c0faf, 0x4787c62a, 0xa8304613, 0xfd469501]
    case 2 => [0x698098d8, 0x8b44f7af, 0xffff5bb1, 0x895cd7be]
    case 3 => [0x6b901122, 0xfd987193, 0xa679438e, 0x49b40821]
    case 4 => [0xf61e2562, 0xc040b340, 0x265e5a51, 0xe9b6c7aa]
    case 5 => [0xd62f105d, 0x02441453, 0xd8a1e681, 0xe7d3fbc8]
    case 6 => [0x21e1cde6, 0xc33707d6, 0xf4d50d87, 0x455a14ed]
    case 7 => [0xa9e3e905, 0xfcefa3f8, 0x676f02d9, 0x8d2a4c8a]
    case 8 => [0xfffa3942, 0x8771f681, 0x6d9d6122, 0xfde5380c]
    case 9 => [0xa4beea44, 0x4bdecfa9, 0xf6bb4b60, 0xbebfbc70]
    case 10 => [0x289b7ec6, 0xeaa127fa, 0xd4ef3085, 0x04881d05]
    case 11 => [0xd9d4d039, 0xe6db99e5, 0x1fa27cf8, 0xc4ac5665]
    case 12 => [0xf4292244, 0x432aff97, 0xab9423a7, 0xfc93a039]
    case 13 => [0x655b59c3, 0x8f0ccc92, 0xffeff47d, 0x85845dd1]
    case 14 => [0x6fa87e4f, 0xfe2ce6e0, 0xa3014314, 0x4e0811a1]
    case _ => [0xf7537e82, 0xbd3af235, 0x2ad7d2bb, 0xeb86d391]
  }

  datatype Registers<W> = Registers(a: W, b: W, c: W, d: W)

  /** The new value of the first register in operation i on the block x. */
  function Operation(x: seq<bv32>, i: nat, a: bv32, b: bv32, c: bv32, d: bv32): bv32
    requires |x| == 16 && i < 64
  {
    Plus(b, RotateLeft(Plus(Plus(Plus(a, Mixed(i, b, c, d)), x[K(i)]), T(i)), S(i)))
  }

  type Step<!W> = (nat, W, W, W, W) -> W

  function OnBlock(x: seq<bv32>): Step<bv32>
    requires |x| == 16
  {
    (i: nat, a: bv32, b: bv32, c: bv32, d: bv32) => if i < 64 then Operation(x, i, a, b, c, d) else a
  }

  /** Steps i up to i + n - 1; each one hands the registers on rotated by one place. */
  function Steps<W>(step: Step<W>, i: nat, n: nat, q: Registers<W>): Registers<W> {
    if n == 0 then q
    else
      var p := Steps(step, i, n - 1, q);
      Registers(p.d, step(i + n - 1, p.a, p.b, p.c, p.d), p.b, p.c)
  }

  function Block(q: Registers<bv32>, x: seq<bv32>): Registers<bv32>
    requires |x| == 16
  {
    var p := Steps(OnBlock(x), 0, 64, q);
    Registers(Plus(q.a, p.a), Plus(q.b, p.b), Plus(q.c, p.c), Plus(q.d, p.d))
  }

  const INITIAL: Registers<bv32> := Registers(0x67452301, 0xefcdab89, 0x98badcfe, 0x10325476)

  type Compression<!Q> = (Q, seq<bv32>) -> Q

  /** The first n blocks of sixteen words, one after the other. */
  function Chain<Q>(compress: Compression<Q>, q: Q, words: seq<bv32>, n: nat): Q
    requires 16 * n <= |words|
  {
    if n == 0 then q else compress(Chain(compress, q, words, n - 1), words[16 * (n - 1)..16 * n])
  }

  function ByBlock(): Compression<Registers<bv32>> {
    (q: Registers<bv32>, x: seq<bv32>) => if |x| == 16 then Block(q, x) else q
  }

  /* ------------------------------- section 3.5 ------------------------------ */

  function HexDigit(n: bv8): char
    requires n < 16
  {
    "0123456789abcdef"[n as int]
  }

  function Hex(bytes: seq<bv8>): string {
    if bytes == [] then ""
    else
      var b := bytes[|bytes| - 1];
      HexShift(b);
      Hex(bytes[..|bytes| - 1]) + [HexDigit(b >> 4), HexDigit(b & 15)]
  }

  lemma HexShift(b: bv8)
    ensures b >> 4 < 16 && b & 15 < 16
  {
  }

  function Output(q: Registers<bv32>): seq<bv8> {
    Bytes(q.a) + Bytes(q.b) + Bytes(q.c) + Bytes(q.d)
  }

  function Digest(m: seq<bv8>): string {
    var words := Words(Padded(m));
    Hex(Output(Chain(ByBlock(), INITIAL, words, |words| / 16)))
  }
}
