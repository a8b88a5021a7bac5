/**
 The hand-unrolled MD5 of the web client, on 32-bit words. Additions go through
 sixteen-bit halves with sign-extending shifts, as the source does them.
 */
module Md5 {
  import opened Md5Spec

  /* --------------------------------- addition ------------------------------- */

  /** A right shift of a signed word by sixteen fills up with its sign bit. */
  function Add32(a: bv32, b: bv32): bv32 {
    var low := (a & 0xffff) + (b & 0xffff);
    var highA := (a >> 16) | ((0 - (a >> 31)) << 16);
    var highB := (b >> 16) | ((0 - (b >> 31)) << 16);
    var carry := (low >> 16) | ((0 - (low >> 31)) << 16);
    ((highA + highB + carry) << 16) | (low & 0xffff)
  }

  lemma LowHalf(a: bv32, b: bv32)
    ensures (a + b) & 0xffff == ((a & 0xffff) + (b & 0xffff)) & 0xffff
  {
  }

  lemma HighHalf(a: bv32, b: bv32)
    ensures (a + b) >> 16 == ((a >> 16) + (b >> 16) + (((a & 0xffff) + (b & 0xffff)) >> 16)) & 0xffff
  {
  }

  lemma HalvesJoin(a: bv32, b: bv32)
    ensures
      var low := (a & 0xffff) + (b & 0xffff);
      var highA := (a >> 16) | ((0 - (a >> 31)) << 16);
      var highB := (b >> 16) | ((0 - (b >> 31)) << 16);
      var carry := (low >> 16) | ((0 - (low >> 31)) << 16);
      ((highA + highB + carry) << 16) | (low & 0xffff) == a + b
  {
    LowHalf(a, b);
    HighHalf(a, b);
  }

  /** Adding by halves is addition modulo 2^32, whatever the sign bits. */
  lemma Add32IsAddition(a: bv32, b: bv32)
    ensures Add32(a, b) == a + b
    ensures Add32(a, b) == Plus(a, b)
  {
    HalvesJoin(a, b);
  }

  lemma SumsAssociate(u: bv32, x: bv32, t: bv32)
    ensures Plus(u, x + t) == Plus(u + x, t)
  {
  }

  lemma PlusAssociates(u: bv32, x: bv32, t: bv32)
    ensures Plus(u, Plus(x, t)) == Plus(Plus(u, x), t)
  {
    SumsAssociate(u, x, t);
  }

  lemma PlusCommutes(u: bv32, x: bv32)
    ensures Plus(u, x) == Plus(x, u)
  {
  }

  /* ------------------------------ one operation ----------------------------- */

  function Mix(f: bv32, a: bv32, b: bv32, x: bv32, s: nat, t: bv32): bv32
    requires 0 < s < 32
  {
    Add32(RotateLeft(Add32(Add32(a, f), Add32(x, t)), s), b)
  }

  lemma MixMeaning(f: bv32, a: bv32, b: bv32, x: bv32, s: nat, t: bv32)
    requires 0 < s < 32
    ensures Mix(f, a, b, x, s, t) == Plus(b, RotateLeft(Plus(Plus(Plus(a, f), x), t), s))
  {
    Add32IsAddition(a, f);
    Add32IsAddition(x, t);
    var p, q := Plus(a, f), Plus(x, t);
    Add32IsAddition(p, q);
    PlusAssociates(p, x, t);
    var r := RotateLeft(Plus(Plus(p, x), t), s);
    Add32IsAddition(r, b);
    PlusCommutes(r, b);
  }

  /** The step is operation after operation of section 3.4 on the block x. */
  ghost predicate Performs(step: Step<bv32>, x: seq<bv32>) {
    |x| == 16 && forall i: nat, a: bv32, b: bv32, c: bv32, d: bv32 {:trigger Operation(x, i, a, b, c, d)} ::
      i < 64 ==> step(i, a, b, c, d) == Operation(x, i, a, b, c, d)
  }

  method Ff(x: seq<bv32>, ghost step: Step<bv32>, ghost i: nat,
            a: bv32, b: bv32, c: bv32, d: bv32, k: nat, s: nat, t: bv32) returns (r: bv32)
    requires Performs(step, x) && 0 <= i < 16
    requires k == K(i) && s == S(i) && t == T(i)
    ensures r == step(i, a, b, c, d)
  {
    r := Mix(F(b, c, d), a, b, x[k], s, t);
    MixMeaning(F(b, c, d), a, b, x[k], s, t);
    assert r == Operation(x, i, a, b, c, d);
  }

  method Gg(x: seq<bv32>, ghost step: Step<bv32>, ghost i: nat,
            a: bv32, b: bv32, c: bv32, d: bv32, k: nat, s: nat, t: bv32) returns (r: bv32)
    requires Performs(step, x) && 16 <= i < 32
    requires k == K(i) && s == S(i) && t == T(i)
    ensures r == step(i, a, b, c, d)
  {
    r := Mix(G(b, c, d), a, b, x[k], s, t);
    MixMeaning(G(b, c, d), a, b, x[k], s, t);
    assert r == Operation(x, i, a, b, c, d);
  }

  method Hh(x: seq<bv32>, ghost step: Step<bv32>, ghost i: nat,
            a: bv32, b: bv32, c: bv32, d: bv32, k: nat, s: nat, t: bv32) returns (r: bv32)
    requires Performs(step, x) && 32 <= i < 48
    requires k == K(i) && s == S(i) && t == T(i)
    ensures r == step(i, a, b, c, d)
  {
    r := Mix(H(b, c, d), a, b, x[k], s, t);
    MixMeaning(H(b, c, d), a, b, x[k], s, t);
    assert r == Operation(x, i, a, b, c, d);
  }

  method Ii(x: seq<bv32>, ghost step: Step<bv32>, ghost i: nat,
            a: bv32, b: bv32, c: bv32, d: bv32, k: nat, s: nat, t: bv32) returns (r: bv32)
    requires Performs(step, x) && 48 <= i < 64
    requires k == K(i) && s == S(i) && t == T(i)
    ensures r == step(i, a, b, c, d)
  {
    r := Mix(I(b, c, d), a, b, x[k], s, t);
    MixMeaning(I(b, c, d), a, b, x[k], s, t);
    assert r == Operation(x, i, a, b, c, d);
  }

  lemma {:induction false} StepsSplit<W>(step: Step<W>, i: nat, m: nat, n: nat, q: Registers<W>)
    ensures Steps(step, i, m + n, q) == Steps(step, i + m, n, Steps(step, i, m, q))
  {
    if n > 0 {
      StepsSplit(step, i, m, n - 1, q);
    }
  }

  /** Four steps bring every register back to its own place. */
  lemma FourSteps<W>(step: Step<W>, i: nat, q: Registers<W>, a: W, b: W, c: W, d: W)
    requires a == step(i, q.a, q.b, q.c, q.d)
    requires d == step(i + 1, q.d, a, q.b, q.c)
    requires c == step(i + 2, q.c, d, a, q.b)
    requires b == step(i + 3, q.b, c, d, a)
    ensures Steps(step, i, 4, q) == Registers(a, b, c, d)
  {
    assert Steps(step, i, 1, q) == Registers(q.d, a, q.b, q.c);
    assert Steps(step, i, 2, q) == Registers(q.c, d, a, q.b);
    assert Steps(step, i, 3, q) == Registers(q.b, c, d, a);
  }

  lemma SixteenSteps<W>(step: Step<W>, i: nat, q0: Registers<W>, q1: Registers<W>, q2: Registers<W>,
                        q3: Registers<W>, q4: Registers<W>)
    requires q1 == Steps(step, i, 4, q0) && q2 == Steps(step, i + 4, 4, q1)
    requires q3 == Steps(step, i + 8, 4, q2) && q4 == Steps(step, i + 12, 4, q3)
    ensures q4 == Steps(step, i, 16, q0)
  {
    StepsSplit(step, i, 4, 4, q0);
    StepsSplit(step, i, 8, 4, q0);
    StepsSplit(step, i, 12, 4, q0);
  }

  /* -------------------------------- the rounds ------------------------------ */

  method Round1Row1(x: seq<bv32>, ghost step: Step<bv32>, q: Registers<bv32>)
    returns (a: bv32, b: bv32, c: bv32, d: bv32)
    requires Performs(step, x)
    ensures Registers(a, b, c, d) == Steps(step, 0, 4, q)
  {
    a, b, c, d := q.a, q.b, q.c, q.d;
    a := Ff(x, step, 0, a, b, c, d, 0, 7, 0xd76aa478);
    d := Ff(x, step, 1, d, a, b, c, 1, 12, 0xe8c7b756);
    c := Ff(x, step, 2, c, d, a, b, 2, 17, 0x242070db);
    b := Ff(x, step, 3, b, c, d, a, 3, 22, 0xc1bdceee);
    FourSteps(step, 0, q, a, b, c, d);
  }

  method Round1Row2(x: seq<bv32>, ghost step: Step<bv32>, q: Registers<bv32>)
    returns (a: bv32, b: bv32, c: bv32, d: bv32)
    requires Performs(step, x)
    ensures Registers(a, b, c, d) == Steps(step, 4, 4, q)
  {
    a, b, c, d := q.a, q.b, q.c, q.d;
    a := Ff(x, step, 4, a, b, c, d, 4, 7, 0xf57c0faf);
    d := Ff(x, step, 5, d, a, b, c, 5, 12, 0x4787c62a);
    c := Ff(x, step, 6, c, d, a, b, 6, 17, 0xa8304613);
    b := Ff(x, step, 7, b, c, d, a, 7, 22, 0xfd469501);
    FourSteps(step, 4, q, a, b, c, d);
  }

  method Round1Row3(x: seq<bv32>, ghost step: Step<bv32>, q: Registers<bv32>)
    returns (a: bv32, b: bv32, c: bv32, d: bv32)
    requires Performs(step, x)
    ensures Registers(a, b, c, d) == Steps(step, 8, 4, q)
  {
    a, b, c, d := q.a, q.b, q.c, q.d;
    a := Ff(x, step, 8, a, b, c, d, 8, 7, 0x698098d8);
    d := Ff(x, step, 9, d, a, b, c, 9, 12, 0x8b44f7af);
    c := Ff(x, step, 10, c, d, a, b, 10, 17, 0xffff5bb1);
    b := Ff(x, step, 11, b, c, d, a, 11, 22, 0x895cd7be);
    FourSteps(step, 8, q, a, b, c, d);
  }

  method Round1Row4(x: seq<bv32>, ghost step: Step<bv32>, q: Registers<bv32>)
    returns (a: bv32, b: bv32, c: bv32, d: bv32)
    requires Performs(step, x)
    ensures Registers(a, b, c, d) == Steps(step, 12, 4, q)
  {
    a, b, c, d := q.a, q.b, q.c, q.d;
    a := Ff(x, step, 12, a, b, c, d, 12, 7, 0x6b901122);
    d := Ff(x, step, 13, d, a, b, c, 13, 12, 0xfd987193);
    c := Ff(x, step, 14, c, d, a, b, 14, 17, 0xa679438e);
    b := Ff(x, step, 15, b, c, d, a, 15, 22, 0x49b40821);
    FourSteps(step, 12, q, a, b, c, d);
  }

  method Round1(x: seq<bv32>, ghost step: Step<bv32>, q: Registers<bv32>) returns (a: bv32, b: bv32, c: bv32, d: bv32)
    requires Performs(step, x)
    ensures Registers(a, b, c, d) == Steps(step, 0, 16, q)
  {
    a, b, c, d := Round1Row1(x, step, q);
    ghost var q1 := Registers(a, b, c, d);
    a, b, c, d := Round1Row2(x, step, Registers(a, b, c, d));
    ghost var q2 := Registers(a, b, c, d);
    a, b, c, d := Round1Row3(x, step, Registers(a, b, c, d));
    ghost var q3 := Registers(a, b, c, d);
    a, b, c, d := Round1Row4(x, step, Registers(a, b, c, d));
    SixteenSteps(step, 0, q, q1, q2, q3, Registers(a, b, c, d));
  }

  method Round2Row1(x: seq<bv32>, ghost step: Step<bv32>, q: Registers<bv32>)
    returns (a: bv32, b: bv32, c: bv32, d: bv32)
    requires Performs(step, x)
    ensures Registers(a, b, c, d) == Steps(step, 16, 4, q)
  {
    a, b, c, d := q.a, q.b, q.c, q.d;
    a := Gg(x, step, 16, a, b, c, d, 1, 5, 0xf61e2562);
    d := Gg(x, step, 17, d, a, b, c, 6, 9, 0xc040b340);
    c := Gg(x, step, 18, c, d, a, b, 11, 14, 0x265e5a51);
    b := Gg(x, step, 19, b, c, d, a, 0, 20, 0xe9b6c7aa);
    FourSteps(step, 16, q, a, b, c, d);
  }

  method Round2Row2(x: seq<bv32>, ghost step: Step<bv32>, q: Registers<bv32>)
    returns (a: bv32, b: bv32, c: bv32, d: bv32)
    requires Performs(step, x)
    ensures Registers(a, b, c, d) == Steps(step, 20, 4, q)
  {
    a, b, c, d := q.a, q.b, q.c, q.d;
    a := Gg(x, step, 20, a, b, c, d, 5, 5, 0xd62f105d);
    d := Gg(x, step, 21, d, a, b, c, 10, 9, 0x2441453);
    c := Gg(x, step, 22, c, d, a, b, 15, 14, 0xd8a1e681);
    b := Gg(x, step, 23, b, c, d, a, 4, 20, 0xe7d3fbc8);
    FourSteps(step, 20, q, a, b, c, d);
  }

  method Round2Row3(x: seq<bv32>, ghost step: Step<bv32>, q: Registers<bv32>)
    returns (a: bv32, b: bv32, c: bv32, d: bv32)
    requires Performs(step, x)
    ensures Registers(a, b, c, d) == Steps(step, 24, 4, q)
  {
    a, b, c, d := q.a, q.b, q.c, q.d;
    a := Gg(x, step, 24, a, b, c, d, 9, 5, 0x21e1cde6);
    d := Gg(x, step, 25, d, a, b, c, 14, 9, 0xc33707d6);
    c := Gg(x, step, 26, c, d, a, b, 3, 14, 0xf4d50d87);
    b := Gg(x, step, 27, b, c, d, a, 8, 20, 0x455a14ed);
    FourSteps(step, 24, q, a, b, c, d);
  }

  method Round2Row4(x: seq<bv32>, ghost step: Step<bv32>, q: Registers<bv32>)
    returns (a: bv32, b: bv32, c: bv32, d: bv32)
    requires Performs(step, x)
    ensures Registers(a, b, c, d) == Steps(step, 28, 4, q)
  {
    a, b, c, d := q.a, q.b, q.c, q.d;
    a := Gg(x, step, 28, a, b, c, d, 13, 5, 0xa9e3e905);
    d := Gg(x, step, 29, d, a, b, c, 2, 9, 0xfcefa3f8);
    c := Gg(x, step, 30, c, d, a, b, 7, 14, 0x676f02d9);
    b := Gg(x, step, 31, b, c, d, a, 12, 20, 0x8d2a4c8a);
    FourSteps(step, 28, q, a, b, c, d);
  }

  method Round2(x: seq<bv32>, ghost step: Step<bv32>, q: Registers<bv32>) returns (a: bv32, b: bv32, c: bv32, d: bv32)
    requires Performs(step, x)
    ensures Registers(a, b, c, d) == Steps(step, 16, 16, q)
  {
    a, b, c, d := Round2Row1(x, step, q);
    ghost var q1 := Registers(a, b, c, d);
    a, b, c, d := Round2Row2(x, step, Registers(a, b, c, d));
    ghost var q2 := Registers(a, b, c, d);
    a, b, c, d := Round2Row3(x, step, Registers(a, b, c, d));
    ghost var q3 := Registers(a, b, c, d);
    a, b, c, d := Round2Row4(x, step, Registers(a, b, c, d));
    SixteenSteps(step, 16, q, q1, q2, q3, Registers(a, b, c, d));
  }

  method Round3Row1(x: seq<bv32>, ghost step: Step<bv32>, q: Registers<bv32>)
    returns (a: bv32, b: bv32, c: bv32, d: bv32)
    requires Performs(step, x)
    ensures Registers(a, b, c, d) == Steps(step, 32, 4, q)
  {
    a, b, c, d := q.a, q.b, q.c, q.d;
    a := Hh(x, step, 32, a, b, c, d, 5, 4, 0xfffa3942);
    d := Hh(x, step, 33, d, a, b, c, 8, 11, 0x8771f681);
    c := Hh(x, step, 34, c, d, a, b, 11, 16, 0x6d9d6122);
    b := Hh(x, step, 35, b, c, d, a, 14, 23, 0xfde5380c);
    FourSteps(step, 32, q, a, b, c, d);
  }

  method Round3Row2(x: seq<bv32>, ghost step: Step<bv32>, q: Registers<bv32>)
    returns (a: bv32, b: bv32, c: bv32, d: bv32)
    requires Performs(step, x)
    ensures Registers(a, b, c, d) == Steps(step, 36, 4, q)
  {
    a, b, c, d := q.a, q.b, q.c, q.d;
    a := Hh(x, step, 36, a, b, c, d, 1, 4, 0xa4beea44);
    d := Hh(x, step, 37, d, a, b, c, 4, 11, 0x4bdecfa9);
    c := Hh(x, step, 38, c, d, a, b, 7, 16, 0xf6bb4b60);
    b := Hh(x, step, 39, b, c, d, a, 10, 23, 0xbebfbc70);
    FourSteps(step, 36, q, a, b, c, d);
  }

  method Round3Row3(x: seq<bv32>, ghost step: Step<bv32>, q: Registers<bv32>)
    returns (a: bv32, b: bv32, c: bv32, d: bv32)
    requires Performs(step, x)
    ensures Registers(a, b, c, d) == Steps(step, 40, 4, q)
  {
    a, b, c, d := q.a, q.b, q.c, q.d;
    a := Hh(x, step, 40, a, b, c, d, 13, 4, 0x289b7ec6);
    d := Hh(x, step, 41, d, a, b, c, 0, 11, 0xeaa127fa);
    c := Hh(x, step, 42, c, d, a, b, 3, 16, 0xd4ef3085);
    b := Hh(x, step, 43, b, c, d, a, 6, 23, 0x4881d05);
    FourSteps(step, 40, q, a, b, c, d);
  }

  method Round3Row4(x: seq<bv32>, ghost step: Step<bv32>, q: Registers<bv32>)
    returns (a: bv32, b: bv32, c: bv32, d: bv32)
    requires Performs(step, x)
    ensures Registers(a, b, c, d) == Steps(step, 44, 4, q)
  {
    a, b, c, d := q.a, q.b, q.c, q.d;
    a := Hh(x, step, 44, a, b, c, d, 9, 4, 0xd9d4d039);
    d := Hh(x, step, 45, d, a, b, c, 12, 11, 0xe6db99e5);
    c := Hh(x, step, 46, c, d, a, b, 15, 16, 0x1fa27cf8);
    b := Hh(x, step, 47, b, c, d, a, 2, 23, 0xc4ac5665);
    FourSteps(step, 44, q, a, b, c, d);
  }

  method Round3(x: seq<bv32>, ghost step: Step<bv32>, q: Registers<bv32>) returns (a: bv32, b: bv32, c: bv32, d: bv32)
    requires Performs(step, x)
    ensures Registers(a, b, c, d) == Steps(step, 32, 16, q)
  {
    a, b, c, d := Round3Row1(x, step, q);
    ghost var q1 := Registers(a, b, c, d);
    a, b, c, d := Round3Row2(x, step, Registers(a, b, c, d));
    ghost var q2 := Registers(a, b, c, d);
    a, b, c, d := Round3Row3(x, step, Registers(a, b, c, d));
    ghost var q3 := Registers(a, b, c, d);
    a, b, c, d := Round3Row4(x, step, Registers(a, b, c, d));
    SixteenSteps(step, 32, q, q1, q2, q3, Registers(a, b, c, d));
  }

  method Round4Row1(x: seq<bv32>, ghost step: Step<bv32>, q: Registers<bv32>)
    returns (a: bv32, b: bv32, c: bv32, d: bv32)
    requires Performs(step, x)
    ensures Registers(a, b, c, d) == Steps(step, 48, 4, q)
  {
    a, b, c, d := q.a, q.b, q.c, q.d;
    a := Ii(x, step, 48, a, b, c, d, 0, 6, 0xf4292244);
    d := Ii(x, step, 49, d, a, b, c, 7, 10, 0x432aff97);
    c := Ii(x, step, 50, c, d, a, b, 14, 15, 0xab9423a7);
    b := Ii(x, step, 51, b, c, d, a, 5, 21, 0xfc93a039);
    FourSteps(step, 48, q, a, b, c, d);
  }

  method Round4Row2(x: seq<bv32>, ghost step: Step<bv32>, q: Registers<bv32>)
    returns (a: bv32, b: bv32, c: bv32, d: bv32)
    requires Performs(step, x)
    ensures Registers(a, b, c, d) == Steps(step, 52, 4, q)
  {
    a, b, c, d := q.a, q.b, q.c, q.d;
    a := Ii(x, step, 52, a, b, c, d, 12, 6, 0x655b59c3);
    d := Ii(x, step, 53, d, a, b, c, 3, 10, 0x8f0ccc92);
    c := Ii(x, step, 54, c, d, a, b, 10, 15, 0xffeff47d);
    b := Ii(x, step, 55, b, c, d, a, 1, 21, 0x85845dd1);
    FourSteps(step, 52, q, a, b, c, d);
  }

  method Round4Row3(x: seq<bv32>, ghost step: Step<bv32>, q: Registers<bv32>)
    returns (a: bv32, b: bv32, c: bv32, d: bv32)
    requires Performs(step, x)
    ensures Registers(a, b, c, d) == Steps(step, 56, 4, q)
  {
    a, b, c, d := q.a, q.b, q.c, q.d;
    a := Ii(x, step, 56, a, b, c, d, 8, 6, 0x6fa87e4f);
    d := Ii(x, step, 57, d, a, b, c, 15, 10, 0xfe2ce6e0);
    c := Ii(x, step, 58, c, d, a, b, 6, 15, 0xa3014314);
    b := Ii(x, step, 59, b, c, d, a, 13, 21, 0x4e0811a1);
    FourSteps(step, 56, q, a, b, c, d);
  }

  method Round4Row4(x: seq<bv32>, ghost step: Step<bv32>, q: Registers<bv32>)
    returns (a: bv32, b: bv32, c: bv32, d: bv32)
    requires Performs(step, x)
    ensures Registers(a, b, c, d) == Steps(step, 60, 4, q)
  {
    a, b, c, d := q.a, q.b, q.c, q.d;
    a := Ii(x, step, 60, a, b, c, d, 4, 6, 0xf7537e82);
    d := Ii(x, step, 61, d, a, b, c, 11, 10, 0xbd3af235);
    c := Ii(x, step, 62, c, d, a, b, 2, 15, 0x2ad7d2bb);
    b := Ii(x, step, 63, b, c, d, a, 9, 21, 0xeb86d391);
    FourSteps(step, 60, q, a, b, c, d);
  }

  method Round4(x: seq<bv32>, ghost step: Step<bv32>, q: Registers<bv32>) returns (a: bv32, b: bv32, c: bv32, d: bv32)
    requires Performs(step, x)
    ensures Registers(a, b, c, d) == Steps(step, 48, 16, q)
  {
    a, b, c, d := Round4Row1(x, step, q);
    ghost var q1 := Registers(a, b, c, d);
    a, b, c, d := Round4Row2(x, step, Registers(a, b, c, d));
    ghost var q2 := Registers(a, b, c, d);
    a, b, c, d := Round4Row3(x, step, Registers(a, b, c, d));
    ghost var q3 := Registers(a, b, c, d);
    a, b, c, d := Round4Row4(x, step, Registers(a, b, c, d));
    SixteenSteps(step, 48, q, q1, q2, q3, Registers(a, b, c, d));
  }

  lemma AllSteps<W>(step: Step<W>, q0: Registers<W>, q1: Registers<W>, q2: Registers<W>, q3: Registers<W>, q4: Registers<W>)
    requires q1 == Steps(step, 0, 16, q0) && q2 == Steps(step, 16, 16, q1)
    requires q3 == Steps(step, 32, 16, q2) && q4 == Steps(step, 48, 16, q3)
    ensures q4 == Steps(step, 0, 64, q0)
  {
    StepsSplit(step, 0, 16, 16, q0);
    StepsSplit(step, 0, 32, 16, q0);
    StepsSplit(step, 0, 48, 16, q0);
  }

  method Rounds(x: seq<bv32>, ghost step: Step<bv32>, q: Registers<bv32>) returns (a: bv32, b: bv32, c: bv32, d: bv32)
    requires Performs(step, x)
    ensures Registers(a, b, c, d) == Steps(step, 0, 64, q)
  {
    a, b, c, d := Round1(x, step, q);
    ghost var q1 := Registers(a, b, c, d);
    a, b, c, d := Round2(x, step, Registers(a, b, c, d));
    ghost var q2 := Registers(a, b, c, d);
    a, b, c, d := Round3(x, step, Registers(a, b, c, d));
    ghost var q3 := Registers(a, b, c, d);
    a, b, c, d := Round4(x, step, Registers(a, b, c, d));
    AllSteps(step, q, q1, q2, q3, Registers(a, b, c, d));
  }

  /** One block: the 64 unrolled operations, then the registers are added to those from before. */
  method Compress(x: seq<bv32>, q: Registers<bv32>) returns (p: Registers<bv32>)
    requires |x| == 16
    ensures p == Block(q, x)
  {
    var a, b, c, d := Rounds(x, OnBlock(x), q);
    Add32IsAddition(q.a, a);
    Add32IsAddition(q.b, b);
    Add32IsAddition(q.c, c);
    Add32IsAddition(q.d, d);
    p := Registers(Add32(q.a, a), Add32(q.b, b), Add32(q.c, c), Add32(q.d, d));
  }

  /* --------------------------------- packing -------------------------------- */

  function Shifted(b: bv8, position: nat): bv32
    requires position < 4
  {
    if position == 0 then b as bv32
    else if position == 1 then b as bv32 << 8
    else if position == 2 then b as bv32 << 16
    else b as bv32 << 24
  }

  lemma SetFirst(b0: bv8, b1: bv8, b2: bv8, b3: bv8, b: bv8)
    requires b0 == 0
    ensures Word(b0, b1, b2, b3) | (b as bv32) == Word(b, b1, b2, b3)
  {
  }

  lemma SetSecond(b0: bv8, b1: bv8, b2: bv8, b3: bv8, b: bv8)
    requires b1 == 0
    ensures Word(b0, b1, b2, b3) | (b as bv32 << 8) == Word(b0, b, b2, b3)
  {
  }

  lemma SetThird(b0: bv8, b1: bv8, b2: bv8, b3: bv8, b: bv8)
    requires b2 == 0
    ensures Word(b0, b1, b2, b3) | (b as bv32 << 16) == Word(b0, b1, b, b3)
  {
  }

  lemma SetFourth(b0: bv8, b1: bv8, b2: bv8, b3: bv8, b: bv8)
    requires b3 == 0
    ensures Word(b0, b1, b2, b3) | (b as bv32 << 24) == Word(b0, b1, b2, b)
  {
  }

  lemma OwnFirst(bytes: seq<bv8>, i: nat, b: bv8)
    requires i % 4 == 0 && 4 * (i / 4) + 3 < |bytes| && bytes[i] == 0
    ensures WordOf(bytes[i := b], i / 4) == WordOf(bytes, i / 4) | Shifted(b, 0)
  {
    var w := i / 4;
    var b0, b1, b2, b3 := bytes[4 * w], bytes[4 * w + 1], bytes[4 * w + 2], bytes[4 * w + 3];
    assert WordOf(bytes[i := b], w) == Word(b, b1, b2, b3);
    SetFirst(b0, b1, b2, b3, b);
  }

  lemma OwnSecond(bytes: seq<bv8>, i: nat, b: bv8)
    requires i % 4 == 1 && 4 * (i / 4) + 3 < |bytes| && bytes[i] == 0
    ensures WordOf(bytes[i := b], i / 4) == WordOf(bytes, i / 4) | Shifted(b, 1)
  {
    var w := i / 4;
    var b0, b1, b2, b3 := bytes[4 * w], bytes[4 * w + 1], bytes[4 * w + 2], bytes[4 * w + 3];
    assert WordOf(bytes[i := b], w) == Word(b0, b, b2, b3);
    SetSecond(b0, b1, b2, b3, b);
  }

  lemma OwnThird(bytes: seq<bv8>, i: nat, b: bv8)
    requires i % 4 == 2 && 4 * (i / 4) + 3 < |bytes| && bytes[i] == 0
    ensures WordOf(bytes[i := b], i / 4) == WordOf(bytes, i / 4) | Shifted(b, 2)
  {
    var w := i / 4;
    var b0, b1, b2, b3 := bytes[4 * w], bytes[4 * w + 1], bytes[4 * w + 2], bytes[4 * w + 3];
    assert WordOf(bytes[i := b], w) == Word(b0, b1, b, b3);
    SetThird(b0, b1, b2, b3, b);
  }

  lemma OwnFourth(bytes: seq<bv8>, i: nat, b: bv8)
    requires i % 4 == 3 && 4 * (i / 4) + 3 < |bytes| && bytes[i] == 0
    ensures WordOf(bytes[i := b], i / 4) == WordOf(bytes, i / 4) | Shifted(b, 3)
  {
    var w := i / 4;
    var b0, b1, b2, b3 := bytes[4 * w], bytes[4 * w + 1], bytes[4 * w + 2], bytes[4 * w + 3];
    assert WordOf(bytes[i := b], w) == Word(b0, b1, b2, b);
    SetFourth(b0, b1, b2, b3, b);
  }

  lemma OtherWords(bytes: seq<bv8>, i: nat, b: bv8, v: nat)
    requires i < |bytes| && 4 * v + 3 < |bytes| && v != i / 4
    ensures WordOf(bytes[i := b], v) == WordOf(bytes, v)
  {
  }

  /** Or-ing a byte into its place in a word sets it, as long as the place was empty. */
  lemma OwnWord(bytes: seq<bv8>, i: nat, b: bv8)
    requires 4 * (i / 4) + 3 < |bytes| && i < |bytes| && bytes[i] == 0
    ensures WordOf(bytes[i := b], i / 4) == WordOf(bytes, i / 4) | Shifted(b, i % 4)
  {
    if i % 4 == 0 {
      OwnFirst(bytes, i, b);
    } else if i % 4 == 1 {
      OwnSecond(bytes, i, b);
    } else if i % 4 == 2 {
      OwnThird(bytes, i, b);
    } else {
      OwnFourth(bytes, i, b);
    }
  }

  lemma PutByte(bytes: seq<bv8>, i: nat, b: bv8)
    requires i < |bytes| && |bytes| % 4 == 0 && bytes[i] == 0
    ensures Words(bytes[i := b]) == Words(bytes)[i / 4 := Words(bytes)[i / 4] | Shifted(b, i % 4)]
  {
    assert 4 * (i / 4) + 3 < |bytes|;
    OwnWord(bytes, i, b);
    forall v | 0 <= v < |bytes| / 4 && v != i / 4 ensures WordOf(bytes[i := b], v) == WordOf(bytes, v) {
      OtherWords(bytes, i, b, v);
    }
  }

  /** paddingBytes of the source, which counts words. */
  function WordCount(n: nat): nat {
    (8 * n + 64) / 512 * 16 + 16
  }

  /** The array of the source is exactly as long as the padded message. */
  lemma PaddingFits(n: nat)
    ensures 4 * WordCount(n) == n + 1 + ZeroCount(n) + 8
    ensures WordCount(n) % 16 == 0
  {
    var k, r := n / 64, n % 64;
    assert n == 64 * k + r;
    if r < 56 {
      assert (8 * n + 64) / 512 == k;
    } else {
      assert (8 * n + 64) / 512 == k + 1;
    }
  }

  lemma BytesOfWord(w: bv32)
    ensures Word(Bytes(w)[0], Bytes(w)[1], Bytes(w)[2], Bytes(w)[3]) == w
  {
    WordOfParts(w);
  }

  lemma WordOfParts(w: bv32)
    ensures Word((w & 0xff) as bv8, ((w >> 8) & 0xff) as bv8, ((w >> 16) & 0xff) as bv8, ((w >> 24) & 0xff) as bv8) == w
  {
  }

  /** The padded message before the length is written. */
  function Marked(m: seq<bv8>): seq<bv8> {
    m + [0x80] + Zeros(ZeroCount(|m|) + 8)
  }

  lemma PaddedLength(m: seq<bv8>, low: bv32, high: bv32)
    ensures |WithLength(m, low, high)| == |Marked(m)| == |m| + 1 + ZeroCount(|m|) + 8
    ensures |Marked(m)| % 64 == 0
  {
    PaddingFits(|m|);
  }

  lemma PaddedPrefix(m: seq<bv8>, low: bv32, high: bv32, v: nat)
    requires 4 * v + 3 < |m| + 1 + ZeroCount(|m|)
    ensures WordOf(WithLength(m, low, high), v) == WordOf(Marked(m), v)
  {
    var body := m + [0x80] + Zeros(ZeroCount(|m|));
    assert WithLength(m, low, high) == body + (Bytes(low) + Bytes(high));
    assert Marked(m) == body + Zeros(8);
  }

  lemma WordInside(before: seq<bv8>, w: bv32, rest: seq<bv8>, v: nat)
    requires |before| == 4 * v
    ensures WordOf(before + Bytes(w) + rest, v) == w
  {
    var all := before + Bytes(w) + rest;
    assert all[4 * v] == Bytes(w)[0] && all[4 * v + 1] == Bytes(w)[1];
    assert all[4 * v + 2] == Bytes(w)[2] && all[4 * v + 3] == Bytes(w)[3];
    BytesOfWord(w);
  }

  lemma LastWords(m: seq<bv8>, low: bv32, high: bv32, n: nat)
    requires 4 * n == |m| + 1 + ZeroCount(|m|) + 8
    ensures n >= 2 && |WithLength(m, low, high)| == 4 * n
    ensures WordOf(WithLength(m, low, high), n - 2) == low && WordOf(WithLength(m, low, high), n - 1) == high
  {
    var body := m + [0x80] + Zeros(ZeroCount(|m|));
    WordInside(body, low, Bytes(high), n - 2);
    WordInside(body + Bytes(low), high, [], n - 1);
    assert body + Bytes(low) + Bytes(high) + [] == WithLength(m, low, high);
  }

  /** Writing the two length words last completes the padded message. */
  lemma LengthWords(m: seq<bv8>, low: bv32, high: bv32)
    ensures var n := |Marked(m)| / 4;
      n >= 2 && Words(WithLength(m, low, high)) == Words(Marked(m))[n - 2 := low][n - 1 := high]
  {
    PaddedLength(m, low, high);
    var n := |Marked(m)| / 4;
    LastWords(m, low, high, n);
    forall v | 0 <= v < n - 2 ensures WordOf(WithLength(m, low, high), v) == WordOf(Marked(m), v) {
      PaddedPrefix(m, low, high, v);
    }
  }

  lemma EmptyWords(n: nat)
    ensures Words(Zeros(4 * n)) == seq(n, _ => 0)
  {
    forall v | 0 <= v < n ensures WordOf(Zeros(4 * n), v) == 0 {
      assert Word(0, 0, 0, 0) == 0;
    }
  }

  /** words[i >> 2] |= b << ((i % 4) * 8). */
  method OrInto(words: array<bv32>, ghost bytes: seq<bv8>, i: nat, b: bv8)
    requires words[..] == Words(bytes) && |bytes| % 4 == 0
    requires i < |bytes| && bytes[i] == 0
    modifies words
    ensures words[..] == Words(bytes[i := b])
  {
    PutByte(bytes, i, b);
    words[i / 4] := words[i / 4] | Shifted(b, i % 4);
  }

  /** Writes the message and the 0x80 marker behind it into empty words. */
  method PackMessage(words: array<bv32>, m: seq<bv8>)
    requires words[..] == Words(Zeros(4 * words.Length)) && 4 * words.Length == |m| + 1 + ZeroCount(|m|) + 8
    modifies words
    ensures words[..] == Words(Marked(m))
  {
    var n := 4 * words.Length;
    ghost var bytes := Zeros(n);
    for i := 0 to |m|
      invariant |bytes| == n && bytes == m[..i] + Zeros(n - i)
      invariant words[..] == Words(bytes)
    {
      OrInto(words, bytes, i, m[i]);
      bytes := bytes[i := m[i]];
    }
    assert m[..|m|] == m;
    OrInto(words, bytes, |m|, 0x80);
    assert bytes[|m| := 0x80] == Marked(m);
  }

  /** The bit length goes into the last two words, low-order word first. */
  method WriteLength(words: array<bv32>, m: seq<bv8>)
    requires |m| < 0x2000_0000 - 8
    requires words[..] == Words(Marked(m))
    modifies words
    ensures words[..] == Words(Padded(m))
  {
    var binaryLength := 8 * |m|;
    var low, high := (binaryLength % 0x1_0000_0000) as bv32, (binaryLength / 0x1_0000_0000) as bv32;
    LengthWords(m, low, high);
    words[words.Length - 2] := low;
    words[words.Length - 1] := high;
  }

  method EmptyArray(count: nat) returns (words: array<bv32>)
    ensures fresh(words) && words.Length == count && words[..] == Words(Zeros(4 * count))
  {
    words := new bv32[count](_ => 0);
    EmptyWords(count);
    assert words[..] == seq(count, _ => 0);
  }

  /** Padding and word packing, in place. */
  method Pack(m: seq<bv8>) returns (words: array<bv32>)
    requires |m| < 0x2000_0000 - 8
    ensures fresh(words) && words.Length == WordCount(|m|) && words[..] == Words(Padded(m))
  {
    PaddingFits(|m|);
    words := EmptyArray(WordCount(|m|));
    PackMessage(words, m);
    WriteLength(words, m);
  }

  /* ----------------------------------- hex ---------------------------------- */

  /** toString(16): no leading zero. */
  function HexOf(b: bv8): string {
    HexShift(b);
    if b < 16 then [HexDigit(b)] else [HexDigit(b >> 4), HexDigit(b & 15)]
  }

  function PadStart(s: string): string {
    if |s| < 2 then "0" + s else s
  }

  lemma SmallByte(b: bv8)
    ensures b >> 4 < 16 && b & 15 < 16
    ensures b < 16 ==> b >> 4 == 0 && b & 15 == b
  {
  }

  lemma PaddedHex(b: bv8)
    ensures b >> 4 < 16 && b & 15 < 16
    ensures PadStart(HexOf(b)) == [HexDigit(b >> 4), HexDigit(b & 15)]
  {
    SmallByte(b);
  }

  function ToHex(w: bv32): string {
    var b := Bytes(w);
    PadStart(HexOf(b[0])) + PadStart(HexOf(b[1])) + PadStart(HexOf(b[2])) + PadStart(HexOf(b[3]))
  }

  lemma {:induction false} HexConcat(s: seq<bv8>, t: seq<bv8>)
    ensures Hex(s + t) == Hex(s) + Hex(t)
  {
    if t == [] {
      assert s + t == s;
    } else {
      var n := |t| - 1;
      HexConcat(s, t[..n]);
      assert (s + t)[..|s + t| - 1] == s + t[..n];
    }
  }

  lemma HexOne(b: bv8)
    ensures Hex([b]) == PadStart(HexOf(b))
  {
    PaddedHex(b);
    assert [b][..0] == [];
  }

  lemma HexFour(b0: bv8, b1: bv8, b2: bv8, b3: bv8)
    ensures Hex([b0, b1, b2, b3]) == PadStart(HexOf(b0)) + PadStart(HexOf(b1)) + PadStart(HexOf(b2)) + PadStart(HexOf(b3))
  {
    HexOne(b0);
    HexOne(b1);
    HexOne(b2);
    HexOne(b3);
    HexConcat([b0], [b1]);
    HexConcat([b0] + [b1], [b2]);
    HexConcat([b0] + [b1] + [b2], [b3]);
    assert [b0] + [b1] + [b2] + [b3] == [b0, b1, b2, b3];
  }

  lemma ToHexIsHex(w: bv32)
    ensures ToHex(w) == Hex(Bytes(w))
  {
    var b := Bytes(w);
    HexFour(b[0], b[1], b[2], b[3]);
    assert b == [b[0], b[1], b[2], b[3]];
  }

  lemma OutputHex(q: Registers<bv32>)
    ensures ToHex(q.a) + ToHex(q.b) + ToHex(q.c) + ToHex(q.d) == Hex(Output(q))
  {
    ToHexIsHex(q.a);
    ToHexIsHex(q.b);
    ToHexIsHex(q.c);
    ToHexIsHex(q.d);
    HexConcat(Bytes(q.a), Bytes(q.b));
    HexConcat(Bytes(q.a) + Bytes(q.b), Bytes(q.c));
    HexConcat(Bytes(q.a) + Bytes(q.b) + Bytes(q.c), Bytes(q.d));
  }

  ghost predicate Compresses(compress: Compression<Registers<bv32>>) {
    forall q: Registers<bv32>, x: seq<bv32> {:trigger Block(q, x)} :: |x| == 16 ==> compress(q, x) == Block(q, x)
  }

  method CompressBlock(x: seq<bv32>, q: Registers<bv32>, ghost compress: Compression<Registers<bv32>>)
    returns (p: Registers<bv32>)
    requires |x| == 16 && Compresses(compress)
    ensures p == compress(q, x)
  {
    p := Compress(x, q);
  }

  /** The loop over blocks of sixteen words. */
  method Hash(words: array<bv32>, ghost compress: Compression<Registers<bv32>>) returns (q: Registers<bv32>)
    requires words.Length % 16 == 0 && Compresses(compress)
    ensures q == Chain(compress, INITIAL, words[..], words.Length / 16)
  {
    q := INITIAL;
    for k := 0 to words.Length / 16
      invariant q == Chain(compress, INITIAL, words[..], k)
    {
      var x := words[16 * k..16 * k + 16];
      assert x == words[..][16 * k..16 * (k + 1)];
      q := CompressBlock(x, q, compress);
    }
  }

  /** The unrolled program computes the digest of RFC 1321. */
  method Md5(m: seq<bv8>) returns (hex: string)
    requires |m| < 0x2000_0000 - 8
    ensures hex == Digest(m)
  {
    var words := Pack(m);
    PaddingFits(|m|);
    var q := Hash(words, ByBlock());
    OutputHex(q);
    hex := ToHex(q.a) + ToHex(q.b) + ToHex(q.c) + ToHex(q.d);
  }
}
