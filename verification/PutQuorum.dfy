/** What an accepted put guarantees about the replicas, under every interleaving and loss pattern. */
module PutQuorum {
  import opened Wrappers
  import opened KeySchedule
  import opened Replicas
  import opened BlobClient

  predicate Holds(stores: seq<Store>, box: nat, key: Keys, blob: Blob) {
    box < |stores| && key in stores[box] && stores[box][key] == blob
  }

  /** The addresses among `boxes` whose replica holds exactly this blob. */
  function Holders(stores: seq<Store>, boxes: seq<nat>, key: Keys, blob: Blob): set<nat> {
    set b <- boxes | Holds(stores, b, key, blob)
  }

  function SetOf(boxes: seq<nat>): set<nat> {
    set x <- boxes
  }

  ghost predicate NoRepeats(boxes: seq<nat>) {
    forall i, j :: 0 <= i < j < |boxes| ==> boxes[i] != boxes[j]
  }

  // ---------- one box ----------

  lemma {:induction false} PutTryGrows(w: World, box: nat, key: Keys, blob: Blob, attempts: nat)
    requires box < |w.stores|
    ensures var (w', reply) := PutTry(w, box, key, blob, attempts);
            && Grows(w.stores, w'.stores)
            && (reply.Some? ==> key in w'.stores[box])
            && (reply == Some(OK) ==> w'.stores[box][key] == blob)
    decreases attempts
  {
    if attempts > 0 {
      PutOnceGrows(w, box, key, blob);
      var (w1, reply) := PutOnce(w, box, key, blob);
      if reply.None? {
        PutTryGrows(w1, box, key, blob, attempts - 1);
        GrowsTrans(w.stores, w1.stores, PutTry(w1, box, key, blob, attempts - 1).0.stores);
      }
    }
  }

  lemma {:induction false} GetTryReads(w: World, box: nat, key: Keys, attempts: nat)
    requires box < |w.stores|
    ensures var (w', found) := GetTry(w, box, key, attempts);
            && Grows(w.stores, w'.stores)
            && (found.Some? ==>
                  found.value == (if key in w'.stores[box] then Some(w'.stores[box][key]) else None))
    decreases attempts
  {
    if attempts > 0 {
      var (w1, found) := GetOnce(w, box, key);
      InterfereGrows(w.stores, w.others(w.clock));
      if found.None? {
        GetTryReads(w1, box, key, attempts - 1);
        GrowsTrans(w.stores, w1.stores, GetTry(w1, box, key, attempts - 1).0.stores);
      }
    }
  }

  /** A box is counted only when it holds this very blob; a conflict only when its slot is taken. */
  lemma VisitCounts(t: Tally, box: nat, key: Keys, blob: Blob, putAttempts: nat, attempts: nat)
    requires box < |t.world.stores|
    ensures var t' := Visit(t, box, key, blob, putAttempts, attempts);
            && Grows(t.world.stores, t'.world.stores)
            && (t'.stored == t.stored || (t'.stored == t.stored + 1 && Holds(t'.world.stores, box, key, blob)))
            && t.failures <= t'.failures && |t'.failures| <= |t.failures| + 1
            && (t'.stored == t.stored <==> |t'.failures| == |t.failures| + 1)
            && (|t'.failures| == |t.failures| + 1 && t'.failures[|t.failures|] != Unavailable ==>
                  key in t'.world.stores[box])
  {
    PutTryGrows(t.world, box, key, blob, putAttempts);
    var (w, reply) := PutTry(t.world, box, key, blob, putAttempts);
    if reply == Some(EXISTS) {
      GetTryReads(w, box, key, attempts);
      GrowsTrans(t.world.stores, w.stores, GetTry(w, box, key, attempts).0.stores);
    }
  }

  // ---------- the whole put ----------

  lemma HoldersGrow(stores: seq<Store>, stores': seq<Store>, boxes: seq<nat>, key: Keys, blob: Blob)
    requires Grows(stores, stores')
    ensures Holders(stores, boxes, key, blob) <= Holders(stores', boxes, key, blob)
  {
  }

  /** The tally never counts more boxes than hold the blob. */
  lemma {:induction false} CollectCounts(c: Config, t: Tally, seen: seq<nat>, order: seq<nat>,
                                         key: Keys, blob: Blob, putAttempts: nat)
    requires InRange(order, |t.world.stores|) && NoRepeats(seen + order)
    requires t.stored <= |Holders(t.world.stores, seen, key, blob)|
    ensures var t' := Collect(c, t, order, key, blob, putAttempts);
            && Grows(t.world.stores, t'.world.stores)
            && t'.stored <= |Holders(t'.world.stores, seen + order, key, blob)|
    decreases |order|
  {
    if order == [] || t.stored >= c.quorum {
      assert Holders(t.world.stores, seen, key, blob) <= Holders(t.world.stores, seen + order, key, blob);
      SmallerSet(Holders(t.world.stores, seen, key, blob), Holders(t.world.stores, seen + order, key, blob));
    } else {
      var box := order[0];
      VisitCounts(t, box, key, blob, putAttempts, c.attempts);
      var t1 := Visit(t, box, key, blob, putAttempts, c.attempts);
      OneMoreHolder(t.world.stores, t1.world.stores, seen, box, key, blob) by {
        assert (seen + order)[|seen|] == box;
        forall i | 0 <= i < |seen| ensures seen[i] != box {
          assert (seen + order)[i] == seen[i];
        }
      }
      assert (seen + [box]) + order[1..] == seen + order;
      CollectCounts(c, t1, seen + [box], order[1..], key, blob, putAttempts);
      GrowsTrans(t.world.stores, t1.world.stores,
                 Collect(c, t1, order[1..], key, blob, putAttempts).world.stores);
    }
  }

  lemma SmallerSet(a: set<nat>, b: set<nat>)
    requires a <= b
    ensures |a| <= |b|
  {
    assert b == a + (b - a);
  }

  lemma OneMoreHolder(s: seq<Store>, s': seq<Store>, seen: seq<nat>, box: nat, key: Keys, blob: Blob)
    requires Grows(s, s') && box !in seen
    ensures |Holders(s', seen + [box], key, blob)|
            >= |Holders(s, seen, key, blob)| + (if Holds(s', box, key, blob) then 1 else 0)
  {
    var before, after := Holders(s, seen, key, blob), Holders(s', seen + [box], key, blob);
    HoldersGrow(s, s', seen, key, blob);
    if Holds(s', box, key, blob) {
      assert box in seen + [box];
      SmallerSet(before + {box}, after);
    } else {
      SmallerSet(before, after);
    }
  }

  /**
    When a put over distinct boxes is accepted, at least `quorum` of them hold exactly this blob,
    whatever was lost on the way, and still do in every later state.
   */
  lemma AcceptedMeansQuorum(c: Config, w: World, order: seq<nat>, key: Keys, blob: Blob, later: seq<Store>)
    requires c.Valid(|w.stores|) && NoRepeats(c.boxes) && AnswerOrder(c, order)
    requires InRange(order, |w.stores|)
    requires Put(c, w, order, key, blob).1.Accepted? && Grows(Put(c, w, order, key, blob).0.stores, later)
    ensures Grows(w.stores, later)
    ensures |Holders(later, c.boxes, key, blob)| >= c.quorum
  {
    OrderHasNoRepeats(c, order);
    var t0 := Tally(w, 0, [], []);
    assert [] + order == order;
    CollectCounts(c, t0, [], order, key, blob, PutAttempts(c));
    var t := Collect(c, t0, order, key, blob, PutAttempts(c));
    GrowsTrans(w.stores, t.world.stores, later);
    HoldersGrow(t.world.stores, later, order, key, blob);
    SmallerSet(Holders(t.world.stores, order, key, blob), Holders(later, order, key, blob));
    SmallerSet(Holders(later, order, key, blob), Holders(later, c.boxes, key, blob));
  }

  lemma OrderHasNoRepeats(c: Config, order: seq<nat>)
    requires NoRepeats(c.boxes) && AnswerOrder(c, order)
    ensures NoRepeats(order) && (forall b :: b in order ==> b in c.boxes)
  {
    if c.quorum != 1 {
      forall i, j | 0 <= i < j < |order|
        ensures order[i] != order[j]
      {
        if order[i] == order[j] {
          assert order == order[..j] + [order[j]] + order[j + 1..];
          assert order[i] in order[..j];
          assert multiset(order)[order[i]] >= 2;
          CountsOne(c.boxes, order[i]);
        }
      }
      forall b | b in order ensures b in c.boxes {
        assert b in multiset(order);
      }
    }
  }

  lemma {:induction false} CountsOne(s: seq<nat>, x: nat)
    requires NoRepeats(s)
    ensures multiset(s)[x] <= 1
  {
    if s != [] {
      assert s == [s[0]] + s[1..];
      CountsOne(s[1..], x);
      if x == s[0] && x in s[1..] {
        assert false;
      }
    }
  }

  // ---------- two puts to one slot ----------

  /** Two different blobs never both get a quorum in one slot when quorums overlap. */
  lemma OverlapExcludes(n: nat, boxes: seq<nat>, stores: seq<Store>, key: Keys, a: Blob, b: Blob, q: nat)
    requires |boxes| == n && 2 * q > n
    requires |Holders(stores, boxes, key, a)| >= q && |Holders(stores, boxes, key, b)| >= q
    ensures a == b
  {
    if a != b {
      var ha, hb := Holders(stores, boxes, key, a), Holders(stores, boxes, key, b);
      assert ha !! hb;
      var all := SetOf(boxes);
      assert |ha + hb| == |ha| + |hb|;
      SmallerSet(ha + hb, all);
      AtMostLength(boxes);
    }
  }

  lemma {:induction false} AtMostLength(boxes: seq<nat>)
    ensures |SetOf(boxes)| <= |boxes|
  {
    if boxes != [] {
      AtMostLength(boxes[1..]);
      assert SetOf(boxes) == {boxes[0]} + SetOf(boxes[1..]);
    }
  }

  // ---------- a network that loses nothing, for the converse directions ----------

  ghost predicate Quiet(w: World) {
    forall t: nat :: w.fault(t) == Answered && w.others(t) == []
  }

  function QuietWorld(stores: seq<Store>): World {
    World(stores, 0, (t: nat) => Answered, (t: nat) => [])
  }

  lemma QuietTick(w: World)
    requires Quiet(w)
    ensures Tick(w).stores == w.stores && Quiet(Tick(w))
  {
    assert w.others(w.clock) == [];
    assert Interfere(w.stores, []) == w.stores;
  }

  lemma QuietFree(t: Tally, box: nat, key: Keys, blob: Blob, putAttempts: nat, attempts: nat)
    requires Quiet(t.world) && box < |t.world.stores| && key !in t.world.stores[box] && putAttempts >= 1
    ensures var t' := Visit(t, box, key, blob, putAttempts, attempts);
            && t'.stored == t.stored + 1 && Quiet(t'.world)
            && t'.world.stores == t.world.stores[box := t.world.stores[box][key := blob]]
  {
    QuietTick(t.world);
    assert t.world.fault(t.world.clock) == Answered;
  }

  lemma QuietTaken(t: Tally, box: nat, key: Keys, blob: Blob, putAttempts: nat, attempts: nat)
    requires Quiet(t.world) && box < |t.world.stores| && key in t.world.stores[box]
    requires putAttempts >= 1 && attempts >= 1
    ensures var t' := Visit(t, box, key, blob, putAttempts, attempts);
            && Quiet(t'.world) && t'.world.stores == t.world.stores
            && t'.stored == t.stored + (if t.world.stores[box][key] == blob then 1 else 0)
            && (t.world.stores[box][key] != blob ==> t'.failures == t.failures + [Mismatch])
  {
    QuietTick(t.world);
    assert t.world.fault(t.world.clock) == Answered;
    var (w, reply) := PutTry(t.world, box, key, blob, putAttempts);
    assert w.stores == t.world.stores && reply == Some(EXISTS);
    QuietTick(w);
    assert w.fault(w.clock) == Answered;
  }

  /** With enough free boxes ahead, the put fills them in order until it has its quorum. */
  lemma {:induction false} QuietCollect(c: Config, t: Tally, order: seq<nat>, key: Keys, blob: Blob, putAttempts: nat)
    requires Quiet(t.world) && InRange(order, |t.world.stores|) && NoRepeats(order) && putAttempts >= 1
    requires t.stored <= c.quorum <= t.stored + |order|
    requires forall i :: 0 <= i < c.quorum - t.stored ==> key !in t.world.stores[order[i]]
    ensures var t' := Collect(c, t, order, key, blob, putAttempts);
            && t'.stored == c.quorum && Quiet(t'.world) && |t'.world.stores| == |t.world.stores|
            && (forall i :: 0 <= i < c.quorum - t.stored ==> Holds(t'.world.stores, order[i], key, blob))
            && forall b :: 0 <= b < |t.world.stores| && b !in order[..c.quorum - t.stored] ==>
                 t'.world.stores[b] == t.world.stores[b]
    decreases |order|
  {
    if order != [] && t.stored < c.quorum {
      QuietFree(t, order[0], key, blob, putAttempts, c.attempts);
      var t1 := Visit(t, order[0], key, blob, putAttempts, c.attempts);
      forall i | 0 <= i < c.quorum - t1.stored
        ensures key !in t1.world.stores[order[1..][i]]
      {
        assert order[1..][i] == order[i + 1] && order[i + 1] != order[0];
      }
      QuietCollect(c, t1, order[1..], key, blob, putAttempts);
      var t' := Collect(c, t1, order[1..], key, blob, putAttempts);
      assert order[..c.quorum - t.stored] == [order[0]] + order[1..][..c.quorum - t1.stored];
      forall i | 0 <= i < c.quorum - t.stored
        ensures Holds(t'.world.stores, order[i], key, blob)
      {
        if i > 0 {
          assert order[1..][i - 1] == order[i];
        } else {
          assert order[0] !in order[1..][..c.quorum - t1.stored];
        }
      }
    }
  }

  // ---------- when exactly a quorum is enough ----------

  /** Two puts of different blobs to the same slot, one after the other, are both accepted. */
  ghost predicate BothAccepted(c: Config, w: World, first: seq<nat>, second: seq<nat>, key: Keys, a: Blob, b: Blob)
    requires InRange(first, |w.stores|) && InRange(second, |w.stores|)
  {
    && c.Valid(|w.stores|) && AnswerOrder(c, first) && AnswerOrder(c, second) && a != b
    && var (w', r) := Put(c, w, first, key, a);
       r.Accepted? && Put(c, w', second, key, b).1.Accepted?
  }

  ghost predicate CanSplit(c: Config, n: nat) {
    exists w: World, first: seq<nat>, second: seq<nat>, key: Keys, a: Blob, b: Blob ::
      && |w.stores| == n && InRange(first, n) && InRange(second, n)
      && BothAccepted(c, w, first, second, key, a, b)
  }

  /** Two different blobs can be accepted in one slot exactly when quorums need not overlap. */
  lemma SplitIffQuorumsDisjoint(c: Config, n: nat)
    requires c.Valid(n) && NoRepeats(c.boxes)
    ensures CanSplit(c, n) <==> 2 * c.quorum <= |c.boxes|
  {
    if CanSplit(c, n) {
      var w: World, first: seq<nat>, second: seq<nat>, key, a, b :|
        && |w.stores| == n && InRange(first, n) && InRange(second, n)
        && BothAccepted(c, w, first, second, key, a, b);
      var w1 := Put(c, w, first, key, a).0;
      var final := Put(c, w1, second, key, b).0.stores;
      SelfGrows(final);
      AcceptedMeansQuorum(c, w1, second, key, b, final);
      AcceptedMeansQuorum(c, w, first, key, a, final);
      if 2 * c.quorum > |c.boxes| {
        OverlapExcludes(|c.boxes|, c.boxes, final, key, a, b, c.quorum);
      }
    }
    if 2 * c.quorum <= |c.boxes| {
      SplitRun(c, n, Keys(0, "", ""), Junk("a"), Junk("b"));
    }
  }

  lemma SelfGrows(s: seq<Store>)
    ensures Grows(s, s)
  {
  }

  function Reversed(s: seq<nat>): (r: seq<nat>)
    ensures |r| == |s| && forall i :: 0 <= i < |s| ==> r[i] == s[|s| - 1 - i]
  {
    if s == [] then [] else [s[|s| - 1]] + Reversed(s[..|s| - 1])
  }

  lemma {:induction false} ReversedSame(s: seq<nat>)
    ensures multiset(Reversed(s)) == multiset(s)
  {
    if s != [] {
      ReversedSame(s[..|s| - 1]);
      assert s == s[..|s| - 1] + [s[|s| - 1]];
    }
  }

  lemma SplitRun(c: Config, n: nat, key: Keys, a: Blob, b: Blob)
    requires c.Valid(n) && NoRepeats(c.boxes) && 2 * c.quorum <= |c.boxes| && a != b
    ensures CanSplit(c, n)
  {
    var w := QuietWorld(seq(n, i => map[]));
    if c.quorum == 1 {
      SplitFirstTwo(c, w, key, a, b);
      assert BothAccepted(c, w, c.boxes[..2], c.boxes[..2], key, a, b);
    } else {
      SplitFarEnds(c, w, key, a, b);
      assert BothAccepted(c, w, c.boxes, Reversed(c.boxes), key, a, b);
    }
  }

  lemma SplitFirstTwo(c: Config, w: World, key: Keys, a: Blob, b: Blob)
    requires c.Valid(|w.stores|) && NoRepeats(c.boxes) && c.quorum == 1 && 2 <= |c.boxes| && a != b
    requires Quiet(w) && forall i :: 0 <= i < |w.stores| ==> w.stores[i] == map[]
    ensures BothAccepted(c, w, c.boxes[..2], c.boxes[..2], key, a, b)
  {
    var order := c.boxes[..2];
    QuietCollect(c, Tally(w, 0, [], []), order, key, a, 1);
    var w1 := Put(c, w, order, key, a).0;
    assert Holds(w1.stores, order[0], key, a);
    assert order[1] !in order[..1];
    SkipTaken(c, w1, order, key, b);
  }

  lemma SplitFarEnds(c: Config, w: World, key: Keys, a: Blob, b: Blob)
    requires c.Valid(|w.stores|) && NoRepeats(c.boxes) && 2 <= c.quorum && 2 * c.quorum <= |c.boxes| && a != b
    requires Quiet(w) && forall i :: 0 <= i < |w.stores| ==> w.stores[i] == map[]
    ensures InRange(Reversed(c.boxes), |w.stores|)
    ensures BothAccepted(c, w, c.boxes, Reversed(c.boxes), key, a, b)
  {
    QuietCollect(c, Tally(w, 0, [], []), c.boxes, key, a, PutAttempts(c));
    var w1 := Put(c, w, c.boxes, key, a).0;
    FarEndIsFree(c, w, w1, key);
    ReversedSame(c.boxes);
    QuietCollect(c, Tally(w1, 0, [], []), Reversed(c.boxes), key, b, PutAttempts(c));
  }

  lemma FarEndIsFree(c: Config, w: World, w1: World, key: Keys)
    requires c.Valid(|w.stores|) && NoRepeats(c.boxes) && 2 * c.quorum <= |c.boxes|
    requires |w1.stores| == |w.stores| && forall b :: 0 <= b < |w.stores| ==> w.stores[b] == map[]
    requires forall b :: 0 <= b < |w.stores| && b !in c.boxes[..c.quorum] ==> w1.stores[b] == w.stores[b]
    ensures InRange(Reversed(c.boxes), |w.stores|) && NoRepeats(Reversed(c.boxes))
    ensures forall i :: 0 <= i < c.quorum ==> key !in w1.stores[Reversed(c.boxes)[i]]
  {
    forall i | 0 <= i < c.quorum
      ensures key !in w1.stores[Reversed(c.boxes)[i]]
    {
      assert Reversed(c.boxes)[i] == c.boxes[|c.boxes| - 1 - i];
    }
  }

  /** A box whose slot is taken by another blob is passed over; the next free ones make the quorum. */
  lemma SkipTaken(c: Config, w: World, order: seq<nat>, key: Keys, b: Blob)
    requires Quiet(w) && InRange(order, |w.stores|) && NoRepeats(order)
    requires c.attempts >= 1 && 1 <= c.quorum < |order|
    requires key in w.stores[order[0]] && w.stores[order[0]][key] != b
    requires forall i :: 1 <= i <= c.quorum ==> key !in w.stores[order[i]]
    ensures var (w', r) := Put(c, w, order, key, b);
            && r.Accepted? && Quiet(w')
            && |w'.stores| == |w.stores| && w'.stores[order[0]] == w.stores[order[0]]
  {
    var t := Tally(w, 0, [], []);
    QuietTaken(t, order[0], key, b, PutAttempts(c), c.attempts);
    var t1 := Visit(t, order[0], key, b, PutAttempts(c), c.attempts);
    var rest := order[1..];
    forall i | 0 <= i < c.quorum ensures key !in t1.world.stores[rest[i]] {
      assert rest[i] == order[i + 1];
    }
    QuietCollect(c, t1, rest, key, b, PutAttempts(c));
    assert order[0] !in rest[..c.quorum];
  }

  /** An accepted put although some configured box serves another blob from the same slot. */
  ghost predicate CanBeAmbiguous(c: Config, n: nat) {
    exists w: World, order: seq<nat>, key: Keys, blob: Blob ::
      && |w.stores| == n && InRange(order, n) && AnswerOrder(c, order)
      && var (w', r) := Put(c, w, order, key, blob);
         r.Accepted? && exists box :: box in c.boxes && OtherBlob(w'.stores, box, key, blob)
  }

  predicate OtherBlob(stores: seq<Store>, box: nat, key: Keys, blob: Blob) {
    box < |stores| && key in stores[box] && stores[box][key] != blob
  }

  /**
    An accepted put leaves the slot unambiguous, so that whichever replica answers the receiver first
    it hands on this blob or nothing, exactly when the quorum is all replicas. Overlapping quorums are
    not enough.
   */
  lemma AmbiguousIffNotUnanimous(c: Config, n: nat)
    requires c.Valid(n) && NoRepeats(c.boxes)
    ensures CanBeAmbiguous(c, n) <==> c.quorum < |c.boxes|
  {
    if CanBeAmbiguous(c, n) {
      var w: World, order: seq<nat>, key: Keys, blob: Blob :|
        && |w.stores| == n && InRange(order, n) && AnswerOrder(c, order)
        && var (w', r) := Put(c, w, order, key, blob);
           r.Accepted? && exists box :: box in c.boxes && OtherBlob(w'.stores, box, key, blob);
      var final := Put(c, w, order, key, blob).0.stores;
      SelfGrows(final);
      AcceptedMeansQuorum(c, w, order, key, blob, final);
      var box :| box in c.boxes && OtherBlob(final, box, key, blob);
      var holders := Holders(final, c.boxes, key, blob);
      SmallerSet(holders, SetOf(c.boxes) - {box});
      AtMostLength(c.boxes);
    }
    if c.quorum < |c.boxes| {
      AmbiguousRun(c, n, Keys(0, "", ""), Junk("a"), Junk("b"));
    }
  }

  lemma AmbiguousRun(c: Config, n: nat, key: Keys, stale: Blob, blob: Blob)
    requires c.Valid(n) && NoRepeats(c.boxes) && c.quorum < |c.boxes| && stale != blob
    ensures CanBeAmbiguous(c, n)
  {
    var taken := c.boxes[0];
    var w := QuietWorld(seq(n, i => if i == taken then map[key := stale] else map[]));
    var order := if c.quorum == 1 then c.boxes[..2] else c.boxes;
    forall i | 1 <= i <= c.quorum ensures key !in w.stores[order[i]] {
      assert order[i] == c.boxes[i] != taken;
    }
    SkipTaken(c, w, order, key, blob);
    assert OtherBlob(Put(c, w, order, key, blob).0.stores, taken, key, blob);
    assert taken in c.boxes;
  }

  /** The same address listed twice counts twice: a quorum of two with one copy. */
  lemma RepeatedAddressCountsTwice(key: Keys, blob: Blob)
    ensures var c, w := Config([0, 0], 2, 1), QuietWorld([map[]]);
            && AnswerOrder(c, [0, 0]) && Put(c, w, [0, 0], key, blob).1.Accepted?
            && |Holders(Put(c, w, [0, 0], key, blob).0.stores, c.boxes, key, blob)| == 1
  {
    var c, w := Config([0, 0], 2, 1), QuietWorld([map[]]);
    var t := Tally(w, 0, [], []);
    QuietFree(t, 0, key, blob, 1, 1);
    var t1 := Visit(t, 0, key, blob, 1, 1);
    QuietTaken(t1, 0, key, blob, 1, 1);
    var t2 := Visit(t1, 0, key, blob, 1, 1);
    assert [0, 0][1..] == [0] && [0][1..] == [];
    assert Collect(c, t1, [0], key, blob, 1) == Collect(c, t2, [], key, blob, 1) == t2;
    assert Holders(t2.world.stores, [0, 0], key, blob) == {0};
  }

  /** A write whose reply was lost is recognised on the retry and counted. */
  lemma LostReplyIsRecovered(t: Tally, box: nat, key: Keys, blob: Blob, putAttempts: nat, attempts: nat)
    requires box < |t.world.stores| && putAttempts >= 2 && attempts >= 1
    requires key !in Tick(t.world).stores[box]
    requires var w := t.world; w.fault(w.clock) == ReplyLost && w.fault(w.clock + 1) == w.fault(w.clock + 2) == Answered
    ensures var t' := Visit(t, box, key, blob, putAttempts, attempts);
            t'.stored == t.stored + 1 && Holds(t'.world.stores, box, key, blob)
  {
    var (w1, reply1) := PutOnce(t.world, box, key, blob);
    assert Holds(w1.stores, box, key, blob);
    PutOnceGrows(w1, box, key, blob);
    var (w2, reply2) := PutOnce(w1, box, key, blob);
    InterfereGrows(w1.stores, w1.others(w1.clock));
    assert reply2 == Some(EXISTS) && Holds(w2.stores, box, key, blob);
    assert PutTry(t.world, box, key, blob, putAttempts) == PutTry(w1, box, key, blob, putAttempts - 1)
        == (w2, reply2);
    InterfereGrows(w2.stores, w2.others(w2.clock));
    var (w3, found) := GetOnce(w2, box, key);
    assert found == Some(Some(blob)) && GetTry(w2, box, key, attempts) == (w3, found);
  }
}
