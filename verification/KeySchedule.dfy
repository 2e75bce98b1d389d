/**
  Derivation of the per-message BlindBox keys. The hash and HKDF are ideal: what they return is
  identified with what they are applied to, so two lookup tokens (or blob keys, or state tags) are
  equal exactly when the root, the salt and the context are.
 */
module KeySchedule {
  import opened Wrappers
  import opened Text
  import opened BlindBoxRoots

  datatype Direction = Send | Recv

  /** Stands for lookup token, blob key and state tag of one message slot. */
  datatype Keys = Keys(root: Secret, salt: string, context: string)

  const SUFFIX := ".b32.i2p"

  predicate IsSpace(c: char) {
    c == ' ' || '\t' <= c <= '\r'
  }

  function LStrip(s: string): string {
    if s != [] && IsSpace(s[0]) then LStrip(s[1..]) else s
  }

  function RStrip(s: string): string {
    if s != [] && IsSpace(s[|s| - 1]) then RStrip(s[..|s| - 1]) else s
  }

  function Lower(s: string): string {
    seq(|s|, i requires 0 <= i < |s| => if 'A' <= s[i] <= 'Z' then (s[i] - 'A') + 'a' else s[i])
  }

  /** None stands for the ValueError on an empty id. */
  function NormalizePeer(id: string): Option<string> {
    var s := Lower(RStrip(LStrip(id)));
    if s == "" then None
    else if |SUFFIX| <= |s| && s[|s| - |SUFFIX|..] == SUFFIX then Some(s[..|s| - |SUFFIX|])
    else Some(s)
  }

  /** The two ids in order, or None when one is empty or they name the same peer. */
  function CanonicalPair(local: string, remote: string): Option<(string, string)> {
    var l, r := NormalizePeer(local), NormalizePeer(remote);
    if l.None? || r.None? || l == r then None
    else if Before(l.value, r.value) then Some((l.value, r.value))
    else Some((r.value, l.value))
  }

  function Label(lowToHigh: bool): string {
    if lowToHigh then "LOW_TO_HIGH" else "HIGH_TO_LOW"
  }

  function GoesLowToHigh(local: string, low: string, direction: Direction): bool {
    (local == low) == direction.Send?
  }

  function Context(low: string, high: string, lowToHigh: bool, epoch: nat, index: nat): string {
    low + ['|'] + (high + ['|'] + (Label(lowToHigh) + ['|']
      + ("epoch=" + Decimal(epoch) + ['|'] + Hex(index, 16))))
  }

  const SALT_PREFIX := "BLINDBOX-SALT-V1|"

  function Derive(low: string, high: string, root: Secret, lowToHigh: bool, epoch: nat, index: nat): Keys {
    Keys(root, SALT_PREFIX + low + ['|'] + high, Context(low, high, lowToHigh, epoch, index))
  }

  /** None where the source raises: a negative number, an index past 64 bits, or a bad pair of ids. */
  function DeriveMessageKeys(root: Secret, local: string, remote: string, direction: Direction,
                             index: int, epoch: int): Option<Keys>
  {
    var pair := CanonicalPair(local, remote);
    if index < 0 || epoch < 0 || pair.None? || index >= Pow16(16) then None
    else
      var (low, high) := pair.value;
      Some(Derive(low, high, root,
                  GoesLowToHigh(NormalizePeer(local).value, low, direction), epoch, index))
  }

  function Opposite(d: Direction): Direction {
    if d.Send? then Recv else Send
  }

  /** My send slot is my peer's receive slot, and the other way round, errors included. */
  lemma MySendIsYourReceive(root: Secret, a: string, b: string, d: Direction, index: int, epoch: int)
    ensures DeriveMessageKeys(root, a, b, d, index, epoch)
         == DeriveMessageKeys(root, b, a, Opposite(d), index, epoch)
  {
    var l, r := NormalizePeer(a), NormalizePeer(b);
    if l.Some? && r.Some? {
      BeforeIsTotal(l.value, r.value);
    }
  }

  lemma ContextInjective(low: string, high: string, up: bool, epoch: nat, index: nat,
                         low': string, high': string, up': bool, epoch': nat, index': nat)
    requires '|' !in low && '|' !in high && '|' !in low' && '|' !in high'
    requires index < Pow16(16) && index' < Pow16(16)
    requires Context(low, high, up, epoch, index) == Context(low', high', up', epoch', index')
    ensures low == low' && high == high' && up == up' && epoch == epoch' && index == index'
  {
    var e, e' := "epoch=" + Decimal(epoch), "epoch=" + Decimal(epoch');
    var x, x' := e + ['|'] + Hex(index, 16), e' + ['|'] + Hex(index', 16);
    var y, y' := Label(up) + ['|'] + x, Label(up') + ['|'] + x';
    FieldInjective(low, high + ['|'] + y, low', high' + ['|'] + y', '|');
    FieldInjective(high, y, high', y', '|');
    FieldInjective(Label(up), x, Label(up'), x', '|');
    DecimalReads(epoch);
    DecimalReads(epoch');
    FieldInjective(e, Hex(index, 16), e', Hex(index', 16), '|');
    assert Label(up)[0] == (if up then 'L' else 'H') && Label(up')[0] == (if up' then 'L' else 'H');
    assert e[6..] == Decimal(epoch) && e'[6..] == Decimal(epoch');
    HexReads(index, 16);
    HexReads(index', 16);
  }

  /**
    Distinct slots never share a lookup token: for ids without the separator, equal keys mean the
    same root, the same pair, the same flow between them, the same epoch and the same index.
   */
  lemma SlotsNeverShare(root: Secret, local: string, remote: string, d: Direction, index: int, epoch: int,
                        root': Secret, local': string, remote': string, d': Direction, index': int, epoch': int)
    requires var k := DeriveMessageKeys(root, local, remote, d, index, epoch);
             k.Some? && k == DeriveMessageKeys(root', local', remote', d', index', epoch')
    requires forall s :: s in [local, remote, local', remote'] ==> '|' !in NormalizePeer(s).value
    ensures root == root' && index == index' && epoch == epoch'
    ensures CanonicalPair(local, remote) == CanonicalPair(local', remote')
    ensures NormalizePeer(local) == NormalizePeer(local') <==> d == d'
  {
    var (low, high) := CanonicalPair(local, remote).value;
    var (low', high') := CanonicalPair(local', remote').value;
    assert '|' !in low && '|' !in high && '|' !in low' && '|' !in high' by {
      assert local in [local, remote, local', remote'] && remote in [local, remote, local', remote'];
      assert local' in [local, remote, local', remote'] && remote' in [local, remote, local', remote'];
    }
    ContextInjective(low, high, GoesLowToHigh(NormalizePeer(local).value, low, d), epoch, index,
                     low', high', GoesLowToHigh(NormalizePeer(local').value, low', d'), epoch', index');
  }

  /** With the separator inside an id the pairs ("a|b", "c") and ("a", "b|c") share every slot. */
  lemma BarsCollide(root: Secret, index: nat, epoch: nat)
    requires index < Pow16(16)
    ensures DeriveMessageKeys(root, "a|b", "c", Send, index, epoch)
         == DeriveMessageKeys(root, "a", "b|c", Send, index, epoch)
    ensures DeriveMessageKeys(root, "a", "b|c", Send, index, epoch).Some?
    ensures CanonicalPair("a|b", "c") != CanonicalPair("a", "b|c")
  {
    var x := Label(true) + ['|'] + ("epoch=" + Decimal(epoch) + ['|'] + Hex(index, 16));
    assert Lower("a|b") == "a|b" && Lower("c") == "c" && Lower("a") == "a" && Lower("b|c") == "b|c";
    assert "a|b" + ['|'] + ("c" + ['|'] + x) == "a" + ['|'] + ("b|c" + ['|'] + x);
    assert SALT_PREFIX + "a|b" + ['|'] + "c" == SALT_PREFIX + "a" + ['|'] + "b|c";
    assert CanonicalPair("a|b", "c") == Some(("a|b", "c"));
    assert CanonicalPair("a", "b|c") == Some(("a", "b|c"));
  }
}
