/** Base64 text as section 4 of RFC 4648 defines it. */
module Base64 {
  import opened Wrappers
  import opened Bytes

  function Char(v: nat): char
    requires v < 64
  {
    if v < 26 then 'A' + v as char
    else if v < 52 then 'a' + (v - 26) as char
    else if v < 62 then '0' + (v - 52) as char
    else if v == 62 then '+' else '/'
  }

  function CharValue(c: char): int {
    if 'A' <= c <= 'Z' then (c - 'A') as int
    else if 'a' <= c <= 'z' then (c - 'a') as int + 26
    else if '0' <= c <= '9' then (c - '0') as int + 52
    else if c == '+' then 62 else if c == '/' then 63 else -1
  }

  lemma CharReads(v: nat)
    requires v < 64
    ensures CharValue(Char(v)) == v && Char(v) != '='
  {
  }

  /** The longest text that `n` bytes may need. */
  function MaxChars(n: int): nat {
    if n <= 0 then 0 else ((n + 2) / 3) * 4
  }

  function Quad(a: byte, b: byte, c: byte): string {
    var (x, y, z) := (a as int, b as int, c as int);
    [Char(x / 4), Char((x % 4) * 16 + y / 16), Char((y % 16) * 4 + z / 64), Char(z % 64)]
  }

  function Encode(s: seq<byte>): string {
    if |s| == 0 then ""
    else if |s| == 1 then Quad(s[0], 0, 0)[..2] + "=="
    else if |s| == 2 then Quad(s[0], s[1], 0)[..3] + "="
    else Quad(s[0], s[1], s[2]) + Encode(s[3..])
  }

  /** The first `n` bytes of one group of four characters. */
  function Group(s: string, n: nat): Option<seq<byte>>
    requires |s| == 4 && 1 <= n <= 3
  {
    var v0, v1 := CharValue(s[0]), CharValue(s[1]);
    var v2, v3 := if n >= 2 then CharValue(s[2]) else 0, if n == 3 then CharValue(s[3]) else 0;
    if v0 < 0 || v1 < 0 || v2 < 0 || v3 < 0 then None
    else
      var all := [(v0 * 4 + v1 / 16) as byte, ((v1 % 16) * 16 + v2 / 4) as byte, ((v2 % 4) * 64 + v3) as byte];
      Some(all[..n])
  }

  /** None: not groups of four characters of the alphabet, with padding only at the very end. */
  function Decode(s: string): Option<seq<byte>> {
    if s == "" then Some([])
    else if |s| < 4 then None
    else if |s| == 4 && s[2..] == "==" then Group(s, 1)
    else if |s| == 4 && s[3] == '=' then Group(s, 2)
    else
      var first, rest := Group(s[..4], 3), Decode(s[4..]);
      if first.None? || rest.None? then None else Some(first.value + rest.value)
  }

  /** The three bytes of a group from its four values, and back. */
  lemma ValuesReadBack(x: nat, y: nat, z: nat)
    requires x < 256 && y < 256 && z < 256
    ensures var (v0, v1, v2, v3) := (x / 4, (x % 4) * 16 + y / 16, (y % 16) * 4 + z / 64, z % 64);
            && v0 < 64 && v1 < 64 && v2 < 64 && v3 < 64
            && v0 * 4 + v1 / 16 == x && (v1 % 16) * 16 + v2 / 4 == y && (v2 % 4) * 64 + v3 == z
  {
  }

  lemma QuadReads(a: byte, b: byte, c: byte)
    ensures var q := Quad(a, b, c); q[2] != '=' && q[3] != '=' && Group(q, 3) == Some([a, b, c])
  {
    var (x, y, z) := (a as nat, b as nat, c as nat);
    ValuesReadBack(x, y, z);
    QuadValues(a, b, c);
    var q := Quad(a, b, c);
    assert [a, b, c][..3] == [a, b, c];
  }

  lemma QuadValues(a: byte, b: byte, c: byte)
    ensures var q, (x, y, z) := Quad(a, b, c), (a as nat, b as nat, c as nat);
            && CharValue(q[0]) == x / 4 && CharValue(q[1]) == (x % 4) * 16 + y / 16
            && CharValue(q[2]) == (y % 16) * 4 + z / 64 && CharValue(q[3]) == z % 64
            && q[2] != '=' && q[3] != '='
  {
    var (x, y, z) := (a as nat, b as nat, c as nat);
    CharReads(x / 4);
    CharReads((x % 4) * 16 + y / 16);
    CharReads((y % 16) * 4 + z / 64);
    CharReads(z % 64);
  }

  lemma PairReads(a: byte, b: byte)
    ensures var q := Quad(a, b, 0)[..3] + "="; q[2] != '=' && Group(q, 2) == Some([a, b])
  {
    ValuesReadBack(a as nat, b as nat, 0);
    QuadValues(a, b, 0);
    var q := Quad(a, b, 0)[..3] + "=";
    assert q[0] == Quad(a, b, 0)[0] && q[1] == Quad(a, b, 0)[1] && q[2] == Quad(a, b, 0)[2];
    assert [a, b, 0][..2] == [a, b];
  }

  lemma OneReads(a: byte)
    ensures Group(Quad(a, 0, 0)[..2] + "==", 1) == Some([a])
  {
    ValuesReadBack(a as nat, 0, 0);
    QuadValues(a, 0, 0);
    var q := Quad(a, 0, 0)[..2] + "==";
    assert q[0] == Quad(a, 0, 0)[0] && q[1] == Quad(a, 0, 0)[1];
    assert [a, 0, 0][..1] == [a];
  }

  lemma LastOne(a: byte)
    ensures Decode(Encode([a])) == Some([a]) && |Encode([a])| == 4
  {
    OneReads(a);
    var t := Quad(a, 0, 0)[..2] + "==";
    assert t[2..] == "==" && Encode([a]) == t;
  }

  lemma LastTwo(a: byte, b: byte)
    ensures Decode(Encode([a, b])) == Some([a, b]) && |Encode([a, b])| == 4
  {
    PairReads(a, b);
    var t := Quad(a, b, 0)[..3] + "=";
    assert t[2..][0] == t[2] && Encode([a, b]) == t;
  }

  predicate ReadsBackAs(s: seq<byte>, text: string) {
    Decode(text) == Some(s) && |text| == MaxChars(|s|)
  }

  lemma ShortReads(s: seq<byte>)
    requires |s| <= 2
    ensures ReadsBackAs(s, Encode(s))
  {
    if |s| == 1 {
      LastOne(s[0]);
      assert s == [s[0]];
    } else if |s| == 2 {
      LastTwo(s[0], s[1]);
      assert s == [s[0], s[1]];
    }
  }

  lemma GroupThenRest(q: string, bytes: seq<byte>, text: string, tail: seq<byte>)
    requires |q| == 4 && q[2] != '=' && q[3] != '=' && Group(q, 3) == Some(bytes) && |bytes| == 3
    requires ReadsBackAs(tail, text)
    ensures ReadsBackAs(bytes + tail, q + text)
  {
    FirstGroup(q, text);
    GroupCounts(|tail|);
  }

  lemma EncodeStep(s: seq<byte>)
    requires |s| >= 3
    ensures Encode(s) == Quad(s[0], s[1], s[2]) + Encode(s[3..])
  {
  }

  lemma QuadThenRest(a: byte, b: byte, c: byte, text: string, tail: seq<byte>)
    requires ReadsBackAs(tail, text)
    ensures ReadsBackAs([a, b, c] + tail, Quad(a, b, c) + text)
  {
    QuadReads(a, b, c);
    GroupThenRest(Quad(a, b, c), [a, b, c], text, tail);
  }

  lemma GroupCounts(n: nat)
    ensures MaxChars(n + 3) == 4 + MaxChars(n)
  {
  }

  /** Decoding gives the bytes back, and the text is exactly as long as the bound says. */
  lemma {:induction false} RoundTrip(s: seq<byte>)
    ensures ReadsBackAs(s, Encode(s))
    decreases |s|
  {
    if |s| <= 2 {
      ShortReads(s);
    } else {
      RoundTrip(s[3..]);
      EncodeStep(s);
      QuadThenRest(s[0], s[1], s[2], Encode(s[3..]), s[3..]);
      assert [s[0], s[1], s[2]] + s[3..] == s;
    }
  }

  lemma FirstGroup(q: string, rest: string)
    requires |q| == 4 && q[2] != '=' && q[3] != '=' && Group(q, 3).Some? && Decode(rest).Some?
    ensures Decode(q + rest) == Some(Group(q, 3).value + Decode(rest).value)
  {
    var t := q + rest;
    assert t[..4] == q && t[4..] == rest;
    assert t[2..][0] == q[2];
  }

  /** Fewer bytes never need more text, so a text over the bound never held a fitting chunk. */
  lemma MaxCharsGrows(m: nat, n: nat)
    requires m <= n
    ensures MaxChars(m) <= MaxChars(n)
  {
  }
}
