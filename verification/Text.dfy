// The text functions that the audio operator writes and reads its properties
// with: fields and joins, trims, splits, and decimal and hexadecimal numbers.
module Text {
  import opened Basics
  import opened Sorting

  // ---------------------------------------------------------------------------
  // The order of texts

  predicate NameBefore(a: string, b: string) {
    if b == [] then false
    else if a == [] then true
    else a[0] < b[0] || (a[0] == b[0] && NameBefore(a[1..], b[1..]))
  }

  // The order of names is decided at the first place where they differ, where one
  // of them may have ended.
  lemma {:induction false} NamesDifferFirstAt(a: string, b: string)
    ensures NameBefore(a, b)
       <==> exists k :: 0 <= k <= |a| && k < |b| && a[..k] == b[..k] && (k == |a| || a[k] < b[k])
    decreases |a|
  {
    if a != [] && b != [] && a[0] == b[0] {
      NamesDifferFirstAt(a[1..], b[1..]);
      if k :| 0 <= k < |a| && k < |b| - 1 && a[1..][..k] == b[1..][..k] && (k == |a| - 1 || a[1..][k] < b[1..][k]) {
        assert a[..k + 1] == [a[0]] + a[1..][..k] && b[..k + 1] == [b[0]] + b[1..][..k];
      }
      if k :| 0 <= k <= |a| && k < |b| && a[..k] == b[..k] && (k == |a| || a[k] < b[k]) {
        assert k > 0;
        assert a[1..][..k - 1] == a[..k][1..] && b[1..][..k - 1] == b[..k][1..];
      }
    } else if a == [] && b != [] {
      assert a[..0] == b[..0];
    } else if a != [] && b != [] {
      assert a[..0] == b[..0];
      forall k | 0 < k <= |a| && k < |b| ensures a[..k] != b[..k] {
        assert a[..k][0] == a[0] && b[..k][0] == b[0];
      }
    }
  }

  predicate NameUpTo(a: string, b: string) {
    !NameBefore(b, a)
  }

  lemma {:induction false} NamesAreOrdered(a: string, b: string, c: string)
    ensures !NameBefore(a, a)
    ensures a != b ==> NameBefore(a, b) || NameBefore(b, a)
    ensures NameBefore(a, b) && NameBefore(b, c) ==> NameBefore(a, c)
    decreases |a| + |b| + |c|
  {
    var x, y, z := if a == [] then a else a[1..], if b == [] then b else b[1..], if c == [] then c else c[1..];
    if a != [] || b != [] || c != [] {
      NamesAreOrdered(x, y, z);
      if a != [] && b != [] && a[0] == b[0] && x == y {
        assert a == [a[0]] + x && b == [b[0]] + y;
      }
    }
  }

  lemma NamesAreAPreorder()
    ensures TotalPreorder(NameUpTo)
  {
    forall a, b ensures NameUpTo(a, b) || NameUpTo(b, a) { NamesAreOrdered(a, b, a); }
    forall a, b, c | NameUpTo(a, b) && NameUpTo(b, c) ensures NameUpTo(a, c) {
      NamesAreOrdered(c, a, b);
      NamesAreOrdered(b, c, a);
    }
  }

  // ---------------------------------------------------------------------------
  // Fields and joins

  predicate IsSpace(c: char) {
    || c == ' ' || c == '\t' || c == '\n' || c == '\U{b}' || c == '\U{c}' || c == '\r' || c == '\U{85}' || c == '\U{a0}'
    || c == '\U{1680}' || '\U{2000}' <= c <= '\U{200a}' || c == '\U{2028}' || c == '\U{2029}' || c == '\U{202f}'
    || c == '\U{205f}' || c == '\U{3000}'
  }

  predicate IsWord(s: string) {
    s != [] && forall i :: 0 <= i < |s| ==> !IsSpace(s[i])
  }

  // How many characters of a text come before its first space.
  function WordLength(s: string): (n: nat)
    ensures n <= |s|
    ensures s != [] && !IsSpace(s[0]) ==> n > 0
  {
    if s == [] || IsSpace(s[0]) then 0 else 1 + WordLength(s[1..])
  }

  function Fields(s: string): seq<string>
    decreases |s|
  {
    if s == [] then []
    else if IsSpace(s[0]) then Fields(s[1..])
    else [s[..WordLength(s)]] + Fields(s[WordLength(s)..])
  }

  function Join(parts: seq<string>, separator: string): string {
    if parts == [] then "" else if |parts| == 1 then parts[0]
    else parts[0] + separator + Join(parts[1..], separator)
  }

  lemma {:induction false} WordLengthOfWord(w: string, rest: string)
    requires forall i :: 0 <= i < |w| ==> !IsSpace(w[i])
    requires rest == [] || IsSpace(rest[0])
    ensures WordLength(w + rest) == |w|
  {
    if w == [] {
      assert w + rest == rest;
    } else {
      assert (w + rest)[1..] == w[1..] + rest;
      WordLengthOfWord(w[1..], rest);
    }
  }

  predicate AllWords(parts: seq<string>) {
    forall i :: 0 <= i < |parts| ==> IsWord(parts[i])
  }

  lemma {:induction false} FieldsOfJoin(parts: seq<string>)
    requires AllWords(parts)
    ensures Fields(Join(parts, " ")) == parts
  {
    if |parts| == 1 {
      var w := parts[0];
      WordLengthOfWord(w, []);
      assert w + [] == w;
      assert w[|w|..] == [] && w[..|w|] == w;
    } else if parts != [] {
      var w, rest := parts[0], Join(parts[1..], " ");
      var all := w + " " + rest;
      assert all == w + (" " + rest);
      WordLengthOfWord(w, " " + rest);
      assert all[0] == w[0];
      assert all[..|w|] == w && all[|w|..] == " " + rest;
      assert (" " + rest)[1..] == rest;
      FieldsOfJoin(parts[1..]);
      assert parts == [w] + parts[1..];
    }
  }

  // ---------------------------------------------------------------------------
  // Trims

  function TrimSpace(s: string): string
    decreases |s|
  {
    if s != [] && IsSpace(s[0]) then TrimSpace(s[1..])
    else if s != [] && IsSpace(s[|s| - 1]) then TrimSpace(s[..|s| - 1])
    else s
  }

  function TrimLeft(s: string, cut: set<char>): string {
    if s != [] && s[0] in cut then TrimLeft(s[1..], cut) else s
  }

  function TrimRight(s: string, cut: set<char>): (out: string)
    ensures |out| <= |s|
  {
    if s != [] && s[|s| - 1] in cut then TrimRight(s[..|s| - 1], cut) else s
  }

  // What a trim cuts is its own characters, up to the first of another.
  lemma {:induction false} TrimRightCuts(s: string, cut: set<char>)
    ensures var t := TrimRight(s, cut);
            && t <= s && (t != [] ==> t[|t| - 1] !in cut)
            && forall i :: |t| <= i < |s| ==> s[i] in cut
  {
    if s != [] && s[|s| - 1] in cut { TrimRightCuts(s[..|s| - 1], cut); }
  }

  function Trim(s: string, cut: set<char>): string {
    TrimRight(TrimLeft(s, cut), cut)
  }

  lemma {:induction false} TrimLeftOf(front: string, body: string, cut: set<char>)
    requires forall i :: 0 <= i < |front| ==> front[i] in cut
    requires body == [] || body[0] !in cut
    ensures TrimLeft(front + body, cut) == body
  {
    if front == [] {
      assert front + body == body;
    } else {
      assert (front + body)[1..] == front[1..] + body;
      TrimLeftOf(front[1..], body, cut);
    }
  }

  lemma {:induction false} TrimRightOf(body: string, back: string, cut: set<char>)
    requires forall i :: 0 <= i < |back| ==> back[i] in cut
    requires body == [] || body[|body| - 1] !in cut
    ensures TrimRight(body + back, cut) == body
  {
    if back == [] {
      assert body + back == body;
    } else {
      var n := |back| - 1;
      assert (body + back)[..|body| + n] == body + back[..n];
      assert (body + back)[|body| + n] == back[n];
      TrimRightOf(body, back[..n], cut);
    }
  }

  // ---------------------------------------------------------------------------
  // Splits at one character

  function IndexOf(s: string, c: char): (i: int)
    ensures -1 <= i < |s|
    ensures i >= 0 ==> s[i] == c
    ensures forall k :: 0 <= k < (if i < 0 then |s| else i) ==> s[k] != c
  {
    if s == [] then -1
    else if s[0] == c then 0
    else
      var rest := IndexOf(s[1..], c);
      assert forall k :: 0 < k < |s| ==> s[k] == s[1..][k - 1];
      if rest < 0 then -1 else rest + 1
  }

  function Split(s: string, c: char): (parts: seq<string>)
    ensures |parts| > 0
    decreases |s|
  {
    var i := IndexOf(s, c);
    if i < 0 then [s] else [s[..i]] + Split(s[i + 1..], c)
  }

  lemma SplitAtFirst(a: string, b: string, c: char)
    requires c !in a
    ensures Split(a + [c] + b, c) == [a] + Split(b, c)
  {
    var s := a + [c] + b;
    var i := IndexOf(s, c);
    assert s[|a|] == c;
    assert forall k :: 0 <= k < |a| ==> s[k] == a[k];
    assert i == |a|;
    assert s[..i] == a && s[i + 1..] == b;
  }

  lemma SplitWhole(a: string, c: char)
    requires c !in a
    ensures Split(a, c) == [a]
  {
  }

  // ---------------------------------------------------------------------------
  // Numbers

  const DIGITS := "0123456789abcdef"

  function DigitOf(d: nat): (c: char)
    requires d < 16
  {
    DIGITS[d]
  }

  // A digit's value, or 16 for a character that is no digit.
  function ValueOf(c: char): (d: nat)
    ensures d <= 16
  {
    if '0' <= c <= '9' then c as int - '0' as int
    else if 'a' <= c <= 'f' then c as int - 'a' as int + 10
    else if 'A' <= c <= 'F' then c as int - 'A' as int + 10
    else 16
  }

  lemma DigitHasItsValue(d: nat)
    requires d < 16
    ensures ValueOf(DigitOf(d)) == d && DigitOf(d) != '-' && DigitOf(d) != '+' && !IsSpace(DigitOf(d))
  {
  }

  function Digits(n: nat): (s: string)
    ensures s != []
  {
    if n < 10 then [DigitOf(n)] else Digits(n / 10) + [DigitOf(n % 10)]
  }

  predicate IsBase(base: nat) {
    base == 10 || base == 16
  }

  function Shifted(v: nat, base: nat): nat
    requires IsBase(base)
  {
    if base == 16 then 16 * v else 10 * v
  }

  // The number that a text of digits writes, or none.
  function Number(s: string, base: nat): Option<nat>
    requires IsBase(base)
  {
    if s == [] then None
    else
      var d := ValueOf(s[|s| - 1]);
      if d >= base then None
      else if |s| == 1 then Some(d)
      else
        var front := Number(s[..|s| - 1], base);
        if front.None? then None else Some(Shifted(front.value, base) + d)
  }

  // One more digit behind a number.
  lemma NumberExtends(front: string, v: nat, d: nat, base: nat)
    requires IsBase(base) && d < base
    requires front != [] && Number(front, base) == Some(v)
    ensures Number(front + [DigitOf(d)], base) == Some(Shifted(v, base) + d)
  {
    DigitHasItsValue(d);
    assert (front + [DigitOf(d)])[..|front|] == front;
  }

  lemma OneDigit(d: nat, base: nat)
    requires IsBase(base) && d < base
    ensures Number([DigitOf(d)], base) == Some(d)
  {
    DigitHasItsValue(d);
  }

  lemma {:induction false} NumberOfDigits(n: nat)
    ensures Number(Digits(n), 10) == Some(n)
  {
    if n < 10 {
      OneDigit(n, 10);
    } else {
      NumberOfDigits(n / 10);
      NumberExtends(Digits(n / 10), n / 10, n % 10, 10);
    }
  }

  lemma {:induction false} DigitsAreDigits(n: nat)
    ensures forall i :: 0 <= i < |Digits(n)| ==> '0' <= Digits(n)[i] <= '9'
  {
    if n >= 10 { DigitsAreDigits(n / 10); }
  }

  // A text that opens with another character than a digit is no number.
  lemma {:induction false} NoDigitNoNumber(s: string, base: nat)
    requires IsBase(base) && s != [] && ValueOf(s[0]) >= base
    ensures Number(s, base).None?
  {
    if |s| > 1 { NoDigitNoNumber(s[..|s| - 1], base); }
  }

  function Itoa(n: int): string {
    if n < 0 then "-" + Digits(-n) else Digits(n)
  }

  function Atoi(s: string): Option<int> {
    var signed := s != [] && (s[0] == '-' || s[0] == '+');
    var n := Number(if signed then s[1..] else s, 10);
    if n.None? then None
    else
      var value: int := n.value;
      Some(if signed && s[0] == '-' then -value else value)
  }

  lemma {:induction false} NumbersOpenWithADigit(s: string, base: nat)
    requires IsBase(base) && Number(s, base).Some?
    ensures s != [] && ValueOf(s[0]) < base
  {
    if |s| > 1 { NumbersOpenWithADigit(s[..|s| - 1], base); }
  }

  // A number may stand behind one sign.
  lemma SignsRead(digits: string, n: int)
    requires n >= 0 && Number(digits, 10) == Some(n)
    ensures Atoi(digits) == Some(n) && Atoi("+" + digits) == Some(n) && Atoi("-" + digits) == Some(-n)
  {
    NumbersOpenWithADigit(digits, 10);
    assert ("+" + digits)[1..] == digits && ("-" + digits)[1..] == digits;
    assert ValueOf('-') == 16 && ValueOf('+') == 16;
  }

  lemma AtoiOfItoa(n: int)
    ensures Atoi(Itoa(n)) == Some(n)
  {
    var m := if n < 0 then -n else n;
    NumberOfDigits(m);
    DigitsAreDigits(m);
    if n < 0 { assert Itoa(n)[1..] == Digits(m); }
  }

  // Four hexadecimal digits, with zeros in front.
  function Hex4(n: nat): (s: string)
    requires n < 0x1_0000
    ensures |s| == 4
  {
    [DigitOf(n / 4096), DigitOf(n / 256 % 16), DigitOf(n / 16 % 16), DigitOf(n % 16)]
  }

  lemma HexParts(n: nat)
    requires n < 0x1_0000
    ensures n / 4096 < 16
    ensures n == ((n / 4096 * 16 + n / 256 % 16) * 16 + n / 16 % 16) * 16 + n % 16
  {
    assert n / 16 / 16 == n / 256 && n / 256 / 16 == n / 4096;
  }

  // Digits put behind a number, one by one.
  lemma ThreeMore(front: string, v: nat, b: nat, c: nat, d: nat)
    requires front != [] && Number(front, 16) == Some(v) && b < 16 && c < 16 && d < 16
    ensures Number(front + [DigitOf(b), DigitOf(c), DigitOf(d)], 16) == Some(((v * 16 + b) * 16 + c) * 16 + d)
  {
    var one := front + [DigitOf(b)];
    var two := one + [DigitOf(c)];
    NumberExtends(front, v, b, 16);
    NumberExtends(one, v * 16 + b, c, 16);
    NumberExtends(two, (v * 16 + b) * 16 + c, d, 16);
    assert two + [DigitOf(d)] == front + [DigitOf(b), DigitOf(c), DigitOf(d)];
  }

  lemma NumberOfFour(a: nat, b: nat, c: nat, d: nat)
    requires a < 16 && b < 16 && c < 16 && d < 16
    ensures Number([DigitOf(a), DigitOf(b), DigitOf(c), DigitOf(d)], 16) == Some(((a * 16 + b) * 16 + c) * 16 + d)
  {
    OneDigit(a, 16);
    ThreeMore([DigitOf(a)], a, b, c, d);
    assert [DigitOf(a)] + [DigitOf(b), DigitOf(c), DigitOf(d)] == [DigitOf(a), DigitOf(b), DigitOf(c), DigitOf(d)];
  }

  lemma NumberOfHex4(n: nat)
    requires n < 0x1_0000
    ensures Number(Hex4(n), 16) == Some(n)
  {
    HexParts(n);
    NumberOfFour(n / 4096, n / 256 % 16, n / 16 % 16, n % 16);
  }

  lemma Hex4HasNoPrefix(n: nat)
    requires n < 0x1_0000
    ensures Hex4(n)[1] != 'x'
  {
    DigitHasItsValue(n / 256 % 16);
    assert ValueOf('x') == 16;
  }
}
