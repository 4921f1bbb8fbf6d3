/**
  Base64 (RFC 4648, section 4) as browsers have it: `Btoa` writes it, and `Atob` reads it leniently,
  skipping ASCII whitespace and doing without padding.
 */
module Base64 {
  import opened Wrappers

  type Byte = b: int | 0 <= b < 256 witness 0
  type Sextet = n: int | 0 <= n < 64 witness 0

  // Table 1 of the RFC: letters, lower-case letters, figures, plus and slash.
  function Digit(n: Sextet): (c: char) {
    if n < 26 then 'A' + n as char
    else if n < 52 then 'a' + (n - 26) as char
    else if n < 62 then '0' + (n - 52) as char
    else if n == 62 then '+'
    else '/'
  }

  function ValueOf(c: char): (n: Option<Sextet>) {
    if 'A' <= c <= 'Z' then Some((c - 'A') as int)
    else if 'a' <= c <= 'z' then Some((c - 'a') as int + 26)
    else if '0' <= c <= '9' then Some((c - '0') as int + 52)
    else if c == '+' then Some(62)
    else if c == '/' then Some(63)
    else None
  }

  lemma DigitHasItsValue(n: Sextet)
    ensures ValueOf(Digit(n)) == Some(n) && Digit(n) != '='
  {
  }

  function Btoa(bs: seq<Byte>): (s: string) {
    if bs == [] then ""
    else if |bs| == 1 then [Digit(bs[0] / 4), Digit(bs[0] % 4 * 16), '=', '=']
    else if |bs| == 2 then
      [Digit(bs[0] / 4), Digit(bs[0] % 4 * 16 + bs[1] / 16), Digit(bs[1] % 16 * 4), '=']
    else
      [Digit(bs[0] / 4), Digit(bs[0] % 4 * 16 + bs[1] / 16), Digit(bs[1] % 16 * 4 + bs[2] / 64), Digit(bs[2] % 64)]
      + Btoa(bs[3..])
  }

  predicate IsSpace(c: char) {
    c == ' ' || c == '\t' || c == '\n' || c == '\r' || c == 12 as char
  }

  function WithoutSpaces(s: string): (r: string) {
    if s == "" then ""
    else if IsSpace(s[0]) then WithoutSpaces(s[1..])
    else [s[0]] + WithoutSpaces(s[1..])
  }

  // Up to two padding characters are taken off a string of full groups.
  function WithoutPadding(s: string): (r: string) {
    if |s| % 4 != 0 || s == "" || s[|s| - 1] != '=' then s
    else if s[|s| - 2] == '=' then s[..|s| - 2]
    else s[..|s| - 1]
  }

  // Groups of four digits, the last of which may be short.  What is left of a short group's last digit
  // is dropped; a single digit is no group.
  function Groups(s: string): (bs: Option<seq<Byte>>) {
    if s == "" then Some([])
    else if |s| == 1 then None
    else
      var a, b := ValueOf(s[0]), ValueOf(s[1]);
      if a.None? || b.None? then None
      else
        var first := a.value * 4 + b.value / 16;
        if |s| == 2 then Some([first])
        else
          var c := ValueOf(s[2]);
          if c.None? then None
          else
            var second := b.value % 16 * 16 + c.value / 4;
            if |s| == 3 then Some([first, second])
            else
              var d, rest := ValueOf(s[3]), Groups(s[4..]);
              if d.None? || rest.None? then None
              else Some([first, second, c.value % 4 * 64 + d.value] + rest.value)
  }

  function Atob(s: string): (bs: Option<seq<Byte>>) {
    Groups(WithoutPadding(WithoutSpaces(s)))
  }

  // What base64 is made of: no space, and nothing that a URL would escape with '%'.
  predicate IsDigitOrPad(c: char) {
    ValueOf(c).Some? || c == '='
  }

  lemma {:induction false} BtoaDigits(bs: seq<Byte>)
    ensures |Btoa(bs)| % 4 == 0
    ensures forall c :: c in Btoa(bs) ==> IsDigitOrPad(c)
  {
    if |bs| >= 3 {
      BtoaDigits(bs[3..]);
    }
  }

  lemma {:induction false} NoSpaces(s: string)
    requires forall c :: c in s ==> !IsSpace(c)
    ensures WithoutSpaces(s) == s
  {
    if s != "" {
      NoSpaces(s[1..]);
    }
  }

  // The encoding without its padding.
  function Unpadded(bs: seq<Byte>): (s: string) {
    if bs == [] then ""
    else if |bs| == 1 then Btoa(bs)[..2]
    else if |bs| == 2 then Btoa(bs)[..3]
    else Btoa(bs)[..4] + Unpadded(bs[3..])
  }

  lemma {:induction false} PaddingComesOff(bs: seq<Byte>)
    ensures WithoutPadding(Btoa(bs)) == Unpadded(bs)
  {
    if |bs| >= 3 {
      var group, rest := Btoa(bs)[..4], Btoa(bs[3..]);
      assert Btoa(bs) == group + rest;
      PaddingComesOff(bs[3..]);
      BtoaDigits(bs[3..]);
      DigitHasItsValue(bs[2] % 64);
      PaddingComesOffRest(group, rest);
    } else if bs != [] {
      DigitHasItsValue(if |bs| == 1 then 0 else bs[1] % 16 * 4);
    }
  }

  lemma PaddingComesOffRest(group: string, rest: string)
    requires |group| == 4 && group[3] != '=' && |rest| % 4 == 0
    ensures WithoutPadding(group + rest) == group + WithoutPadding(rest)
  {
    var s := group + rest;
    if rest == "" {
      assert s == group;
    } else {
      assert s[|s| - 1] == rest[|rest| - 1] && s[|s| - 2] == rest[|rest| - 2];
      assert s[..|s| - 2] == group + rest[..|rest| - 2] && s[..|s| - 1] == group + rest[..|rest| - 1];
    }
  }

  lemma SextetsOfBytes(a: Byte, b: Byte, c: Byte)
    ensures a / 4 * 4 + (a % 4 * 16 + b / 16) / 16 == a
    ensures (a % 4 * 16 + b / 16) % 16 * 16 + (b % 16 * 4 + c / 64) / 4 == b
    ensures (b % 16 * 4 + c / 64) % 4 * 64 + c % 64 == c
  {
  }

  lemma GroupOfDigits(s: string, p: Sextet, q: Sextet, r: Sextet, t: Sextet)
    requires |s| >= 4 && Groups(s[4..]).Some?
    requires ValueOf(s[0]) == Some(p) && ValueOf(s[1]) == Some(q)
    requires ValueOf(s[2]) == Some(r) && ValueOf(s[3]) == Some(t)
    ensures Groups(s) == Some([p * 4 + q / 16, q % 16 * 16 + r / 4, r % 4 * 64 + t] + Groups(s[4..]).value)
  {
  }

  lemma FullGroup(a: Byte, b: Byte, c: Byte, rest: string)
    requires Groups(rest).Some?
    ensures Groups(Btoa([a, b, c])[..4] + rest) == Some([a, b, c] + Groups(rest).value)
  {
    var s := Btoa([a, b, c])[..4] + rest;
    var p, q, r, t := a / 4, a % 4 * 16 + b / 16, b % 16 * 4 + c / 64, c % 64;
    assert s[0] == Digit(p) && s[1] == Digit(q) && s[2] == Digit(r) && s[3] == Digit(t);
    assert ValueOf(s[0]) == Some(p) by { DigitHasItsValue(p); }
    assert ValueOf(s[1]) == Some(q) by { DigitHasItsValue(q); }
    assert ValueOf(s[2]) == Some(r) by { DigitHasItsValue(r); }
    assert ValueOf(s[3]) == Some(t) by { DigitHasItsValue(t); }
    assert s[4..] == rest;
    GroupOfDigits(s, p, q, r, t);
    SextetsOfBytes(a, b, c);
  }

  lemma ShortGroup(a: Byte, b: Byte)
    ensures Groups(Unpadded([a])) == Some([a]) && Groups(Unpadded([a, b])) == Some([a, b])
  {
    DigitHasItsValue(a / 4);
    DigitHasItsValue(a % 4 * 16);
    DigitHasItsValue(a % 4 * 16 + b / 16);
    DigitHasItsValue(b % 16 * 4);
    SextetsOfBytes(a, 0, 0);
    SextetsOfBytes(a, b, 0);
  }

  lemma {:induction false} GroupsInvertUnpadded(bs: seq<Byte>)
    ensures Groups(Unpadded(bs)) == Some(bs)
  {
    if |bs| == 1 {
      ShortGroup(bs[0], 0);
      assert bs == [bs[0]];
    } else if |bs| == 2 {
      ShortGroup(bs[0], bs[1]);
      assert bs == [bs[0], bs[1]];
    } else if |bs| > 2 {
      GroupsInvertUnpadded(bs[3..]);
      FullGroup(bs[0], bs[1], bs[2], Unpadded(bs[3..]));
      assert Btoa(bs)[..4] == Btoa([bs[0], bs[1], bs[2]])[..4];
      assert bs == [bs[0], bs[1], bs[2]] + bs[3..];
    }
  }

  lemma AtobInvertsBtoa(bs: seq<Byte>)
    ensures Atob(Btoa(bs)) == Some(bs)
  {
    BtoaDigits(bs);
    assert forall c :: IsDigitOrPad(c) ==> !IsSpace(c);
    NoSpaces(Btoa(bs));
    PaddingComesOff(bs);
    GroupsInvertUnpadded(bs);
  }

  /* Leniency */

  lemma {:induction false} SpacesComeOut(a: string, c: char, b: string)
    requires IsSpace(c)
    ensures WithoutSpaces(a + [c] + b) == WithoutSpaces(a + b)
  {
    if a == "" {
      assert a + [c] + b == [c] + b && a + b == b;
    } else {
      assert (a + [c] + b)[1..] == a[1..] + [c] + b && (a + b)[1..] == a[1..] + b;
      SpacesComeOut(a[1..], c, b);
    }
  }

  // White space anywhere makes no difference.
  lemma AtobIgnoresSpaces(a: string, c: char, b: string)
    requires IsSpace(c)
    ensures Atob(a + [c] + b) == Atob(a + b)
  {
    SpacesComeOut(a, c, b);
  }

  ghost predicate AllDigits(s: string) {
    forall c :: c in s ==> ValueOf(c).Some?
  }

  lemma FirstIsDigit(s: string)
    requires s != ""
    ensures AllDigits(s) <==> ValueOf(s[0]).Some? && AllDigits(s[1..])
  {
    assert s == [s[0]] + s[1..];
  }

  lemma FourAreDigits(s: string)
    requires |s| >= 4
    ensures AllDigits(s) <==>
              ValueOf(s[0]).Some? && ValueOf(s[1]).Some? && ValueOf(s[2]).Some? && ValueOf(s[3]).Some? && AllDigits(s[4..])
  {
    assert s[1..][1..] == s[2..] && s[2..][1..] == s[3..] && s[3..][1..] == s[4..];
    FirstIsDigit(s);
    FirstIsDigit(s[1..]);
    FirstIsDigit(s[2..]);
    FirstIsDigit(s[3..]);
  }

  lemma ShortGroupIff(s: string)
    requires |s| < 4
    ensures Groups(s).Some? <==> |s| != 1 && AllDigits(s)
  {
    assert |s| == 2 ==> s == [s[0], s[1]];
    assert |s| == 3 ==> s == [s[0], s[1], s[2]];
  }

  lemma {:induction false} GroupsIff(s: string)
    ensures Groups(s).Some? <==> |s| % 4 != 1 && AllDigits(s)
  {
    if |s| < 4 {
      ShortGroupIff(s);
    } else {
      FourAreDigits(s);
      GroupsIff(s[4..]);
    }
  }

  // A text without white space is read exactly when, without its padding, it has only digits and does not
  // end in a lone one.
  lemma AtobReadsIff(s: string)
    requires forall c :: c in s ==> !IsSpace(c)
    ensures Atob(s).Some? <==> |WithoutPadding(s)| % 4 != 1 && AllDigits(WithoutPadding(s))
  {
    NoSpaces(s);
    GroupsIff(WithoutPadding(s));
  }

  // Nor does the padding have to be there.
  lemma AtobNeedsNoPadding(bs: seq<Byte>)
    ensures Atob(WithoutPadding(Btoa(bs))) == Some(bs)
  {
    PaddingComesOff(bs);
    GroupsInvertUnpadded(bs);
    GroupsIff(Unpadded(bs));
    assert forall c :: ValueOf(c).Some? ==> !IsSpace(c) && c != '=';
    NoSpaces(Unpadded(bs));
    assert Unpadded(bs) != "" ==> Unpadded(bs)[|Unpadded(bs)| - 1] in Unpadded(bs);
  }
}
