/**
 Strings and their bytes.  A text is a sequence of Unicode scalar values; its bytes are its encoding
 by section 3 of RFC 3629.
 */
module Utf8 {

  type Byte = b: int | 0 <= b < 256

  type Scalar = c: int | 0 <= c < 0xD800 || 0xE000 <= c < 0x11_0000

  type Text = seq<Scalar>

  function Enc(c: Scalar): (bytes: seq<Byte>)
    ensures 1 <= |bytes| <= 4
    ensures !IsContinuation(bytes[0]) && forall j :: 0 < j < |bytes| ==> IsContinuation(bytes[j])
    ensures bytes[0] < 0x80 <==> c < 0x80
  {
    var (c1, c2, c3) := (c / 64, c / 64 / 64, c / 64 / 64 / 64);
    if c < 0x80 then [c]
    else if c < 0x800 then [0xC0 + c1, 0x80 + c % 64]
    else if c < 0x1_0000 then [0xE0 + c2, 0x80 + c1 % 64, 0x80 + c % 64]
    else [0xF0 + c3, 0x80 + c2 % 64, 0x80 + c1 % 64, 0x80 + c % 64]
  }

  predicate IsContinuation(b: Byte) {
    0x80 <= b < 0xC0
  }

  function Encode(s: Text): seq<Byte> {
    if s == [] then [] else Enc(s[0]) + Encode(s[1..])
  }

  lemma {:induction false} EncodeAppend(a: Text, b: Text)
    ensures Encode(a + b) == Encode(a) + Encode(b)
  {
    if a == [] {
      assert a + b == b;
    } else {
      assert (a + b)[0] == a[0] && (a + b)[1..] == a[1..] + b;
      EncodeAppend(a[1..], b);
    }
  }

  /** The scalar values of a string. */
  function Codes(s: string): Text {
    seq(|s|, i requires 0 <= i < |s| => s[i] as int)
  }

  // ---------------------------------------------------------------- decoding

  /** The first character of well-formed bytes. */
  function FirstChar(bytes: seq<Byte>): int
    requires bytes != []
  {
    var b: int := bytes[0];
    if b < 0x80 || |bytes| < 2 then b
    else if b < 0xE0 || |bytes| < 3 then Shifted(b - 0xC0, bytes[1])
    else if b < 0xF0 || |bytes| < 4 then Shifted(Shifted(b - 0xE0, bytes[1]), bytes[2])
    else Shifted(Shifted(Shifted(b - 0xF0, bytes[1]), bytes[2]), bytes[3])
  }

  /** The bits of `high` followed by the six bits of a continuation byte. */
  function Shifted(high: int, b: int): int {
    64 * high + (b - 0x80)
  }

  lemma {:induction false} FirstCharDecodes(c: Scalar, rest: seq<Byte>)
    ensures FirstChar(Enc(c) + rest) == c
  {
    var bytes := Enc(c) + rest;
    assert bytes[0] == Enc(c)[0];
    if |Enc(c)| > 1 {
      assert bytes[1] == Enc(c)[1];
    }
    if |Enc(c)| > 2 {
      assert bytes[2] == Enc(c)[2];
    }
    if |Enc(c)| > 3 {
      assert bytes[3] == Enc(c)[3];
    }
  }

  /** No two strings have the same bytes. */
  lemma {:induction false} EncodeIsInjective(s: Text, t: Text)
    requires Encode(s) == Encode(t)
    ensures s == t
  {
    if s == [] || t == [] {
      assert s != [] ==> |Encode(s)| > 0;
      assert t != [] ==> |Encode(t)| > 0;
    } else {
      FirstCharDecodes(s[0], Encode(s[1..]));
      FirstCharDecodes(t[0], Encode(t[1..]));
      var n := |Enc(s[0])|;
      assert Encode(s)[n..] == Encode(s[1..]) && Encode(t)[n..] == Encode(t[1..]);
      EncodeIsInjective(s[1..], t[1..]);
    }
  }

  // ---------------------------------------------------------------- order

  /** Lexicographic order. */
  predicate LexLess(a: seq<int>, b: seq<int>) {
    b != [] && (a == [] || a[0] < b[0] || (a[0] == b[0] && LexLess(a[1..], b[1..])))
  }

  lemma {:induction false} LexLessAsymmetric(a: seq<int>, b: seq<int>)
    ensures !(LexLess(a, b) && LexLess(b, a)) && !LexLess(a, a)
  {
    if a != [] {
      LexLessAsymmetric(a[1..], a[1..]);
      if b != [] {
        LexLessAsymmetric(a[1..], b[1..]);
      }
    }
  }

  lemma {:induction false} LexLessTotal(a: seq<int>, b: seq<int>)
    ensures LexLess(a, b) || a == b || LexLess(b, a)
  {
    if a != [] && b != [] && a[0] == b[0] {
      LexLessTotal(a[1..], b[1..]);
      if a[1..] == b[1..] {
        assert a == [a[0]] + a[1..] && b == [b[0]] + b[1..];
      }
    }
  }

  /** The first difference decides. */
  lemma {:induction false} DifferenceDecides(a: seq<int>, b: seq<int>, i: nat)
    requires i < |a| && i < |b| && a[..i] == b[..i] && a[i] < b[i]
    ensures LexLess(a, b)
  {
    if i > 0 {
      assert a[..i][0] == b[..i][0] && a[1..][..i - 1] == a[..i][1..] && b[1..][..i - 1] == b[..i][1..];
      DifferenceDecides(a[1..], b[1..], i - 1);
    }
  }

  lemma {:induction false} SameFrontDecides(front: seq<int>, a: seq<int>, b: seq<int>)
    ensures LexLess(front + a, front + b) <==> LexLess(a, b)
  {
    if front == [] {
      assert front + a == a && front + b == b;
    } else {
      assert (front + a)[1..] == front[1..] + a && (front + b)[1..] == front[1..] + b;
      SameFrontDecides(front[1..], a, b);
    }
  }

  /** Of two numbers, the greater has the greater quotient, or the same one and the greater remainder. */
  lemma {:induction false} DigitOrder(c: nat, d: nat)
    requires c < d
    ensures c / 64 < d / 64 || (c / 64 == d / 64 && c % 64 < d % 64)
  {
    assert c == 64 * (c / 64) + c % 64 && d == 64 * (d / 64) + d % 64;
  }

  /** The encoding in terms of the digits to base 64. */
  lemma {:induction false} EncDigits(c: Scalar)
    ensures c < 0x80 ==> Enc(c) == [c]
    ensures 0x80 <= c < 0x800 ==> Enc(c) == [0xC0 + c / 64, 0x80 + c % 64]
    ensures 0x800 <= c < 0x1_0000 ==> Enc(c) == [0xE0 + c / 64 / 64, 0x80 + c / 64 % 64, 0x80 + c % 64]
    ensures 0x1_0000 <= c ==> Enc(c) == [0xF0 + c / 64 / 64 / 64, 0x80 + c / 64 / 64 % 64, 0x80 + c / 64 % 64, 0x80 + c % 64]
  {
  }

  /** Digit strings of one length differ first where the numbers do. */
  lemma {:induction false} DigitsDiffer(a: seq<int>, b: seq<int>, c: nat, d: nat) returns (i: nat)
    requires c < d && |a| == |b| && 1 <= |a| <= 4
    requires a[|a| - 1] - b[|a| - 1] == if |a| == 1 then c - d else c % 64 - d % 64
    requires |a| > 1 ==> a[|a| - 2] - b[|a| - 2] == if |a| == 2 then c / 64 - d / 64 else c / 64 % 64 - d / 64 % 64
    requires |a| > 2 ==> a[|a| - 3] - b[|a| - 3] == if |a| == 3 then c / 64 / 64 - d / 64 / 64 else c / 64 / 64 % 64 - d / 64 / 64 % 64
    requires |a| > 3 ==> a[0] - b[0] == c / 64 / 64 / 64 - d / 64 / 64 / 64
    ensures i < |a| && a[..i] == b[..i] && a[i] < b[i]
    decreases |a|
  {
    if |a| == 1 {
      i := 0;
    } else {
      DigitOrder(c, d);
      if c / 64 < d / 64 {
        var n := |a| - 1;
        i := DigitsDiffer(a[..n], b[..n], c / 64, d / 64);
        assert a[..n][..i] == a[..i] && b[..n][..i] == b[..i];
      } else {
        i := |a| - 1;
      }
    }
  }

  lemma {:induction false} EncOrderSameLength(c: Scalar, d: Scalar) returns (i: nat)
    requires c < d && |Enc(c)| == |Enc(d)|
    ensures i < |Enc(c)| && Enc(c)[..i] == Enc(d)[..i] && Enc(c)[i] < Enc(d)[i]
  {
    EncDigits(c);
    EncDigits(d);
    i := DigitsDiffer(Enc(c), Enc(d), c, d);
  }

  lemma {:induction false} EncOrder(c: Scalar, d: Scalar, x: seq<Byte>, y: seq<Byte>)
    requires c < d
    ensures LexLess(Enc(c) + x, Enc(d) + y)
  {
    var a, b := Enc(c) + x, Enc(d) + y;
    if |Enc(c)| == |Enc(d)| {
      var i := EncOrderSameLength(c, d);
      assert a[..i] == Enc(c)[..i] && b[..i] == Enc(d)[..i];
      DifferenceDecides(a, b, i);
    } else {
      assert a[0] < b[0];
    }
  }

  /** The order of the bytes is the order of the characters. */
  lemma {:induction false} EncodeKeepsOrder(s: Text, t: Text)
    requires LexLess(s, t)
    ensures LexLess(Encode(s), Encode(t))
  {
    if s != [] {
      if s[0] < t[0] {
        EncOrder(s[0], t[0], Encode(s[1..]), Encode(t[1..]));
      } else {
        EncodeKeepsOrder(s[1..], t[1..]);
        SameFrontDecides(Enc(s[0]), Encode(s[1..]), Encode(t[1..]));
      }
    }
  }

  lemma {:induction false} ByteOrderIsTextOrder(s: Text, t: Text)
    ensures LexLess(Encode(s), Encode(t)) <==> LexLess(s, t)
  {
    if LexLess(s, t) {
      EncodeKeepsOrder(s, t);
    } else if s == t {
      LexLessAsymmetric(Encode(s), Encode(t));
    } else {
      LexLessTotal(s, t);
      EncodeKeepsOrder(t, s);
      LexLessAsymmetric(Encode(s), Encode(t));
    }
  }
}
