/**
  UTF-8 (RFC 3629, section 3) as Python's codec reads and writes it.

  `Encode` is `str.encode('utf-8')` on strings of Unicode scalar values.  `DecodeIgnore` is
  `bytes.decode('utf-8', errors='ignore')` on arbitrary bytes: a malformed sequence is dropped up to
  the first byte that cannot continue it, and decoding goes on from there.
 */
module Utf8 {

  type Scalar = c: int | 0 <= c < 0xD800 || 0xE000 <= c <= 0x10FFFF witness 0
  type Byte = b: int | 0 <= b < 256 witness 0
  type Text = seq<Scalar>

  predicate IsContinuation(b: Byte) {
    0x80 <= b < 0xC0
  }

  function EncodeScalar(c: Scalar): (bs: seq<Byte>)
    ensures 1 <= |bs| <= 4
    ensures forall k :: 0 < k < |bs| ==> IsContinuation(bs[k])
  {
    if c < 0x80 then [c]
    else if c < 0x800 then [0xC0 + c / 64, 0x80 + c % 64]
    else if c < 0x10000 then [0xE0 + c / 4096, 0x80 + c / 64 % 64, 0x80 + c % 64]
    else [0xF0 + c / 262144, 0x80 + c / 4096 % 64, 0x80 + c / 64 % 64, 0x80 + c % 64]
  }

  function Encode(s: Text): (bs: seq<Byte>) {
    if s == [] then [] else EncodeScalar(s[0]) + Encode(s[1..])
  }

  // What the decoder does at the front of a non-empty input.
  datatype DecodeStep = Emit(c: Scalar, width: nat) | Skip(width: nat)

  // The range of a legal second byte depends on the lead byte (RFC 3629, section 4): it excludes
  // overlong forms, surrogates and values above 0x10FFFF.
  predicate IsSecondByte(lead: Byte, b: Byte) {
    if lead == 0xE0 then 0xA0 <= b < 0xC0
    else if lead == 0xED then 0x80 <= b < 0xA0
    else if lead == 0xF0 then 0x90 <= b < 0xC0
    else if lead == 0xF4 then 0x80 <= b < 0x90
    else IsContinuation(b)
  }

  // The payload of a continuation byte.
  function SixBits(b: Byte): (v: int) {
    b - 0x80
  }

  function Step(bs: seq<Byte>): (step: DecodeStep)
    requires bs != []
    ensures 1 <= step.width <= |bs|
  {
    var lead: int := bs[0];
    if lead < 0x80 then Emit(lead, 1)
    else if lead < 0xC2 || lead >= 0xF5 then Skip(1)
    else if |bs| < 2 || !IsSecondByte(lead, bs[1]) then Skip(1)
    else if lead < 0xE0 then Emit((lead - 0xC0) * 64 + SixBits(bs[1]), 2)
    else if |bs| < 3 || !IsContinuation(bs[2]) then Skip(2)
    else if lead < 0xF0 then
      Emit((lead - 0xE0) * 4096 + SixBits(bs[1]) * 64 + SixBits(bs[2]), 3)
    else if |bs| < 4 || !IsContinuation(bs[3]) then Skip(3)
    else
      Emit((lead - 0xF0) * 262144 + SixBits(bs[1]) * 4096 + SixBits(bs[2]) * 64 + SixBits(bs[3]), 4)
  }

  function DecodeIgnore(bs: seq<Byte>): (s: Text)
    decreases |bs|
  {
    if bs == [] then []
    else
      match Step(bs)
      case Emit(c, width) => [c] + DecodeIgnore(bs[width..])
      case Skip(width) => DecodeIgnore(bs[width..])
  }

  lemma StepReadsTwoBytes(c: Scalar, rest: seq<Byte>)
    requires 0x80 <= c < 0x800
    ensures Step(EncodeScalar(c) + rest) == Emit(c, 2)
  {
    var bs := EncodeScalar(c) + rest;
    assert bs[0] == 0xC0 + c / 64 && bs[1] == 0x80 + c % 64;
  }

  lemma StepReadsThreeBytes(c: Scalar, rest: seq<Byte>)
    requires 0x800 <= c < 0x10000
    ensures Step(EncodeScalar(c) + rest) == Emit(c, 3)
  {
    var bs, top, mid, low := EncodeScalar(c) + rest, c / 4096, c / 64 % 64, c % 64;
    assert bs[0] == 0xE0 + top && bs[1] == 0x80 + mid && bs[2] == 0x80 + low;
    assert c == top * 4096 + mid * 64 + low;
  }

  // A scalar of the highest planes in base 64.
  lemma FourDigits(c: Scalar)
    requires 0x10000 <= c
    ensures c == c / 262144 * 262144 + c / 4096 % 64 * 4096 + c / 64 % 64 * 64 + c % 64
    ensures 0x10 <= c / 262144 * 64 + c / 4096 % 64 < 0x110
  {
    assert c / 4096 == c / 262144 * 64 + c / 4096 % 64;
    assert c / 64 == c / 4096 * 64 + c / 64 % 64;
  }

  lemma StepReadsFourBytes(c: Scalar, rest: seq<Byte>)
    requires 0x10000 <= c
    ensures Step(EncodeScalar(c) + rest) == Emit(c, 4)
  {
    var bs, top, high, mid, low := EncodeScalar(c) + rest, c / 262144, c / 4096 % 64, c / 64 % 64, c % 64;
    assert bs[0] == 0xF0 + top && bs[1] == 0x80 + high && bs[2] == 0x80 + mid && bs[3] == 0x80 + low;
    FourDigits(c);
    assert 0 <= top <= 4 && (top == 0 ==> high >= 0x10) && (top == 4 ==> high < 0x10);
  }

  // An encoded scalar is read back whatever follows it.
  lemma StepReadsEncodedScalar(c: Scalar, rest: seq<Byte>)
    ensures Step(EncodeScalar(c) + rest) == Emit(c, |EncodeScalar(c)|)
  {
    if c < 0x80 {
      assert (EncodeScalar(c) + rest)[0] == c;
    } else if c < 0x800 {
      StepReadsTwoBytes(c, rest);
    } else if c < 0x10000 {
      StepReadsThreeBytes(c, rest);
    } else {
      StepReadsFourBytes(c, rest);
    }
  }

  // The ranges of RFC 3629, section 3.
  lemma EncodedLength(c: Scalar)
    ensures |EncodeScalar(c)| == if c < 128 then 1 else if c < 2048 then 2 else if c < 65536 then 3 else 4
    ensures var lead := EncodeScalar(c)[0];
            if c < 128 then lead == c
            else if c < 2048 then 0xC2 <= lead < 0xE0
            else if c < 65536 then 0xE0 <= lead < 0xF0
            else 0xF0 <= lead < 0xF5
    ensures |EncodeScalar(c)| > 1 ==> IsSecondByte(EncodeScalar(c)[0], EncodeScalar(c)[1])
  {
    if c >= 65536 {
      FourDigits(c);
    }
  }

  lemma TwoBytes(a: Byte, b: Byte) returns (c: Scalar)
    requires 0xC2 <= a < 0xE0 && IsContinuation(b)
    ensures c == (a - 0xC0) * 64 + SixBits(b) && EncodeScalar(c) == [a, b]
  {
    c := (a - 0xC0) * 64 + SixBits(b);
    assert c / 64 == a - 0xC0;
  }

  lemma ThreeBytes(a: Byte, b: Byte, d: Byte) returns (c: Scalar)
    requires 0xE0 <= a < 0xF0 && IsSecondByte(a, b) && IsContinuation(d)
    ensures c == (a - 0xE0) * 4096 + SixBits(b) * 64 + SixBits(d) && EncodeScalar(c) == [a, b, d]
  {
    c := (a - 0xE0) * 4096 + SixBits(b) * 64 + SixBits(d);
    assert c / 64 == (a - 0xE0) * 64 + SixBits(b) && c / 4096 == a - 0xE0;
  }

  lemma FourBytes(a: Byte, b: Byte, d: Byte, e: Byte) returns (c: Scalar)
    requires 0xF0 <= a < 0xF5 && IsSecondByte(a, b) && IsContinuation(d) && IsContinuation(e)
    ensures c == (a - 0xF0) * 262144 + SixBits(b) * 4096 + SixBits(d) * 64 + SixBits(e)
    ensures EncodeScalar(c) == [a, b, d, e]
  {
    c := (a - 0xF0) * 262144 + SixBits(b) * 4096 + SixBits(d) * 64 + SixBits(e);
    assert c / 64 == (a - 0xF0) * 4096 + SixBits(b) * 64 + SixBits(d);
    assert c / 4096 == (a - 0xF0) * 64 + SixBits(b) && c / 262144 == a - 0xF0;
  }

  // The decoder emits nothing but what its bytes encode.
  lemma EmitsWhatIsEncoded(bs: seq<Byte>)
    requires bs != [] && Step(bs).Emit?
    ensures bs[..Step(bs).width] == EncodeScalar(Step(bs).c)
  {
    if bs[0] < 0x80 {
      assert bs[..1] == [bs[0]];
    } else if bs[0] < 0xE0 {
      var c := TwoBytes(bs[0], bs[1]);
      assert bs[..2] == [bs[0], bs[1]];
    } else if bs[0] < 0xF0 {
      var c := ThreeBytes(bs[0], bs[1], bs[2]);
      assert bs[..3] == [bs[0], bs[1], bs[2]];
    } else {
      var c := FourBytes(bs[0], bs[1], bs[2], bs[3]);
      assert bs[..4] == [bs[0], bs[1], bs[2], bs[3]];
    }
  }

  lemma EncodedIsRead(bs: seq<Byte>, c: Scalar)
    requires EncodeScalar(c) <= bs
    ensures bs != [] && Step(bs) == Emit(c, |EncodeScalar(c)|)
  {
    StepReadsEncodedScalar(c, bs[|EncodeScalar(c)|..]);
    assert bs == EncodeScalar(c) + bs[|EncodeScalar(c)|..];
  }

  lemma BeginningIsNotSkipped(bs: seq<Byte>, c: Scalar, n: nat)
    requires 0 < n < |bs| && bs[..n + 1] <= EncodeScalar(c)
    ensures Step(bs) != Skip(n)
  {
    var encoded := EncodeScalar(c);
    EncodedLength(c);
    assert forall k :: 0 <= k <= n ==> bs[..n + 1][k] == bs[k] == encoded[k];
    assert bs[0] == encoded[0] && bs[1] == encoded[1] && IsContinuation(bs[n]);
  }

  // What it skips is no encoded scalar: none starts there, and of several bytes skipped at once all
  // could still have begun one, which the byte after them cannot continue.
  lemma SkipsNothingEncoded(bs: seq<Byte>, c: Scalar)
    requires bs != [] && Step(bs).Skip?
    ensures !(EncodeScalar(c) <= bs)
    ensures Step(bs).width < |bs| ==> !(bs[..Step(bs).width + 1] <= EncodeScalar(c))
  {
    if EncodeScalar(c) <= bs {
      EncodedIsRead(bs, c);
    }
    if Step(bs).width < |bs| && bs[..Step(bs).width + 1] <= EncodeScalar(c) {
      BeginningIsNotSkipped(bs, c, Step(bs).width);
    }
  }

  lemma SkipsBeginnings(bs: seq<Byte>) returns (c: Scalar)
    requires bs != [] && Step(bs).Skip? && Step(bs).width > 1
    ensures bs[..Step(bs).width] < EncodeScalar(c)
  {
    if bs[0] < 0xF0 {
      c := ThreeBytes(bs[0], bs[1], 0x80);
    } else if Step(bs).width == 2 {
      c := FourBytes(bs[0], bs[1], 0x80, 0x80);
    } else {
      c := FourBytes(bs[0], bs[1], bs[2], 0x80);
    }
  }

  lemma {:induction false} DecodeInvertsEncode(s: Text)
    ensures DecodeIgnore(Encode(s)) == s
  {
    if s != [] {
      var head, tail := EncodeScalar(s[0]), Encode(s[1..]);
      StepReadsEncodedScalar(s[0], tail);
      assert (head + tail)[|head|..] == tail;
      DecodeInvertsEncode(s[1..]);
    }
  }

  lemma {:induction false} LeadingContinuationsAreDropped(junk: seq<Byte>, rest: seq<Byte>)
    requires forall k :: 0 <= k < |junk| ==> IsContinuation(junk[k])
    ensures DecodeIgnore(junk + rest) == DecodeIgnore(rest)
  {
    if junk == [] {
      assert junk + rest == rest;
    } else {
      assert Step(junk + rest) == Skip(1);
      assert (junk + rest)[1..] == junk[1..] + rest;
      LeadingContinuationsAreDropped(junk[1..], rest);
    }
  }

  /* Keeping the end of a string within a byte budget */

  // Python's bs[-n:], for n > 0.
  function LastBytes(bs: seq<Byte>, n: nat): (tail: seq<Byte>) {
    if |bs| <= n then bs else bs[|bs| - n..]
  }

  function Truncate(s: Text, n: nat): (t: Text) {
    DecodeIgnore(LastBytes(Encode(s), n))
  }

  // The number of leading scalars to drop until the rest fits.
  function Excess(s: Text, n: nat): (i: nat)
    ensures i <= |s|
  {
    if |Encode(s)| <= n then 0 else 1 + Excess(s[1..], n)
  }

  lemma {:induction false} TruncateDropsExcess(s: Text, n: nat)
    ensures Truncate(s, n) == s[Excess(s, n)..]
    ensures |Encode(s)| > n ==> n - |Encode(s[Excess(s, n)..])| <= 3
  {
    if |Encode(s)| <= n {
      DecodeInvertsEncode(s);
    } else {
      var head, tail := EncodeScalar(s[0]), Encode(s[1..]);
      if |tail| > n {
        assert LastBytes(Encode(s), n) == LastBytes(tail, n);
        TruncateDropsExcess(s[1..], n);
        assert s[1..][Excess(s[1..], n)..] == s[Excess(s, n)..];
      } else {
        // The cut falls behind the first scalar's lead byte.
        var cut := |Encode(s)| - n;
        assert LastBytes(Encode(s), n) == head[cut..] + tail;
        LeadingContinuationsAreDropped(head[cut..], tail);
        DecodeInvertsEncode(s[1..]);
      }
    }
  }

  lemma {:induction false} SuffixesShrink(s: Text, j: nat)
    requires j <= |s|
    ensures |Encode(s[j..])| <= |Encode(s)|
  {
    if j == 0 {
      assert s[0..] == s;
    } else {
      assert s[1..][j - 1..] == s[j..];
      SuffixesShrink(s[1..], j - 1);
    }
  }

  lemma {:induction false} ExcessSeparates(s: Text, n: nat, j: nat)
    requires j <= |s|
    ensures |Encode(s[j..])| <= n <==> Excess(s, n) <= j
  {
    if |Encode(s)| <= n {
      SuffixesShrink(s, j);
    } else if j == 0 {
      assert s[0..] == s;
    } else {
      assert s[1..][j - 1..] == s[j..];
      ExcessSeparates(s[1..], n, j - 1);
    }
  }

  // Truncation keeps a suffix, and a suffix fits the budget exactly when it is no longer than that:
  // it is the longest one that fits.  At most three bytes of the budget are left unused.
  lemma TruncateKeepsLongestFittingSuffix(s: Text, n: nat)
    ensures |Truncate(s, n)| <= |s|
    ensures Truncate(s, n) == s[|s| - |Truncate(s, n)|..]
    ensures forall j :: 0 <= j <= |s| ==>
              (|Encode(s[j..])| <= n <==> |s[j..]| <= |Truncate(s, n)|)
    ensures |Encode(s)| > n ==> 0 <= n - |Encode(Truncate(s, n))| <= 3
    ensures |Encode(s)| <= n ==> Truncate(s, n) == s
  {
    TruncateDropsExcess(s, n);
    forall j | 0 <= j <= |s|
      ensures |Encode(s[j..])| <= n <==> |s[j..]| <= |Truncate(s, n)|
    {
      ExcessSeparates(s, n, j);
    }
    ExcessSeparates(s, n, Excess(s, n));
  }

  lemma TruncateIsIdempotent(s: Text, n: nat)
    ensures Truncate(Truncate(s, n), n) == Truncate(s, n)
  {
    TruncateKeepsLongestFittingSuffix(s, n);
    var t := Truncate(s, n);
    assert |Encode(s[|s| - |t|..])| <= n;
    DecodeInvertsEncode(t);
  }
}
