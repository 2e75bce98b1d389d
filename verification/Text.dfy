/** The few facts about strings that the wire formats rely on: fields, decimals and fixed-width hex. */
module Text {

  /** Lexicographic order on code points, as Python's sorted uses on str. */
  predicate Before(a: string, b: string) {
    if b == [] then false
    else if a == [] then true
    else a[0] < b[0] || (a[0] == b[0] && Before(a[1..], b[1..]))
  }

  lemma {:induction false} BeforeIsTotal(a: string, b: string)
    ensures a != b ==> (Before(a, b) <==> !Before(b, a))
    ensures a == b ==> !Before(a, b)
  {
    if a != [] && b != [] {
      BeforeIsTotal(a[1..], b[1..]);
      assert a == [a[0]] + a[1..] && b == [b[0]] + b[1..];
    }
  }

  /** The first field ends at the first separator, so it and the rest can be read back. */
  lemma {:induction false} FieldInjective(a: string, x: string, b: string, y: string, bar: char)
    requires bar !in a && bar !in b && a + [bar] + x == b + [bar] + y
    ensures a == b && x == y
  {
    if a == [] || b == [] {
      assert (a + [bar] + x)[0] == (b + [bar] + y)[0];
      assert a == b == [];
      assert ([bar] + x)[1..] == x && ([bar] + y)[1..] == y;
      assert [] + [bar] + x == [bar] + x && [] + [bar] + y == [bar] + y;
    } else {
      assert (a + [bar] + x)[0] == a[0] && (b + [bar] + y)[0] == b[0];
      assert (a + [bar] + x)[1..] == a[1..] + [bar] + x;
      assert (b + [bar] + y)[1..] == b[1..] + [bar] + y;
      FieldInjective(a[1..], x, b[1..], y, bar);
      assert a == [a[0]] + a[1..] && b == [b[0]] + b[1..];
    }
  }

  function Digit(d: nat): char
    requires d < 16
  {
    if d < 10 then '0' + d as char else 'a' + (d - 10) as char
  }

  function DigitValue(c: char): int {
    if '0' <= c <= '9' then (c - '0') as int
    else if 'a' <= c <= 'f' then (c - 'a') as int + 10
    else -1
  }

  lemma DigitsRead(d: nat)
    requires d < 16
    ensures DigitValue(Digit(d)) == d && Digit(d) != '|'
    ensures d < 10 ==> '0' <= Digit(d) <= '9'
  {
  }

  /** Exactly `width` hex digits, most significant first. */
  function Hex(n: nat, width: nat): string {
    if width == 0 then "" else Hex(n / 16, width - 1) + [Digit(n % 16)]
  }

  function HexValue(s: string): int {
    if s == [] then 0 else HexValue(s[..|s| - 1]) * 16 + DigitValue(s[|s| - 1])
  }

  function Pow16(width: nat): nat {
    if width == 0 then 1 else 16 * Pow16(width - 1)
  }

  lemma {:induction false} HexReads(n: nat, width: nat)
    requires n < Pow16(width)
    ensures |Hex(n, width)| == width && HexValue(Hex(n, width)) == n
  {
    if width > 0 {
      HexReads(n / 16, width - 1);
      DigitsRead(n % 16);
      var s := Hex(n, width);
      assert s[..|s| - 1] == Hex(n / 16, width - 1);
    }
  }

  function Decimal(n: nat): string {
    (if n < 10 then "" else Decimal(n / 10)) + [Digit(n % 10)]
  }

  function DecimalValue(s: string): int {
    if s == [] then 0 else DecimalValue(s[..|s| - 1]) * 10 + DigitValue(s[|s| - 1])
  }

  predicate AllDigits(s: string) {
    forall i :: 0 <= i < |s| ==> '0' <= s[i] <= '9'
  }

  lemma {:induction false} DecimalReads(n: nat)
    ensures Decimal(n) != [] && AllDigits(Decimal(n)) && DecimalValue(Decimal(n)) == n
  {
    DigitsRead(n % 10);
    var front := if n < 10 then "" else Decimal(n / 10);
    if n >= 10 {
      DecimalReads(n / 10);
    }
    assert Decimal(n)[..|Decimal(n)| - 1] == front;
  }
}
