/** What every run of the replica server keeps, whatever removals fail and in whatever order files are listed. */
module ServerGuarantees {
  import opened Wrappers
  import opened ReplicaServer

  // ---------- files, live files and their bytes ----------

  lemma {:induction false} WithoutKeeps(files: seq<File>, key: Key)
    ensures forall f :: f in Without(files, key) <==> f in files && f.key != key
    ensures Distinct(files) ==> Distinct(Without(files, key))
  {
    if files != [] {
      WithoutKeeps(files[1..], key);
      if Distinct(files) && files[0].key != key {
        forall j | 0 <= j < |Without(files[1..], key)|
          ensures Without(files[1..], key)[j].key != files[0].key
        {
          assert Without(files[1..], key)[j] in files[1..];
        }
      }
    }
  }

  lemma {:induction false} LiveOfKeeps(files: seq<File>, now: int, ttl: nat)
    ensures forall f :: f in LiveOf(files, now, ttl) <==> f in files && !Expired(f, now, ttl)
    ensures Distinct(files) ==> Distinct(LiveOf(files, now, ttl))
  {
    if files != [] {
      var rest := LiveOf(files[1..], now, ttl);
      LiveOfKeeps(files[1..], now, ttl);
      if Distinct(files) {
        forall j | 0 <= j < |rest| ensures rest[j].key != files[0].key {
          assert rest[j] in files[1..];
        }
      }
    }
  }

  lemma {:induction false} BytesAppend(s: seq<File>, t: seq<File>)
    ensures Bytes(s + t) == Bytes(s) + Bytes(t)
  {
    if s == [] {
      assert s + t == t;
    } else {
      assert (s + t)[1..] == s[1..] + t;
      BytesAppend(s[1..], t);
    }
  }

  lemma {:induction false} LiveAppend(s: seq<File>, t: seq<File>, now: int, ttl: nat)
    ensures LiveOf(s + t, now, ttl) == LiveOf(s, now, ttl) + LiveOf(t, now, ttl)
  {
    if s == [] {
      assert s + t == t;
    } else {
      assert (s + t)[1..] == s[1..] + t;
      LiveAppend(s[1..], t, now, ttl);
    }
  }

  function LiveBytes(files: seq<File>, now: int, ttl: nat): nat {
    Bytes(LiveOf(files, now, ttl))
  }

  lemma LiveStep(files: seq<File>, now: int, ttl: nat)
    requires files != []
    ensures LiveBytes(files, now, ttl)
         == (if Expired(files[0], now, ttl) then 0 else |files[0].body|) + LiveBytes(files[1..], now, ttl)
  {
    BytesAppend(if Expired(files[0], now, ttl) then [] else [files[0]], LiveOf(files[1..], now, ttl));
  }

  /** Removing one live file frees its bytes; removing an expired one changes nothing that is live. */
  lemma {:induction false} RemovalFrees(files: seq<File>, f: File, now: int, ttl: nat)
    requires Distinct(files) && f in files
    ensures var files' := Without(files, f.key);
            && LiveBytes(files', now, ttl)
               == LiveBytes(files, now, ttl) - (if Expired(f, now, ttl) then 0 else |f.body|)
            && |LiveOf(files', now, ttl)| == |LiveOf(files, now, ttl)| - (if Expired(f, now, ttl) then 0 else 1)
  {
    LiveStep(files, now, ttl);
    if files[0] == f {
      forall g | g in files[1..] ensures g.key != f.key {
        var j :| 0 <= j < |files[1..]| && files[1..][j] == g;
        assert files[j + 1] == g;
      }
      WithoutAbsent(files[1..], f.key);
      assert Without(files, f.key) == files[1..];
    } else {
      assert f in files[1..];
      var j :| 0 <= j < |files[1..]| && files[1..][j] == f;
      assert files[j + 1].key == f.key != files[0].key;
      RemovalFrees(files[1..], f, now, ttl);
      assert Without(files, f.key) == [files[0]] + Without(files[1..], f.key);
      assert Without(files, f.key)[1..] == Without(files[1..], f.key);
      LiveStep(Without(files, f.key), now, ttl);
    }
  }

  /** Time only takes files out of the live set. */
  lemma {:induction false} LiveShrinks(files: seq<File>, now: int, later: int, ttl: nat)
    requires now <= later
    ensures LiveBytes(files, later, ttl) <= LiveBytes(files, now, ttl)
    ensures |LiveOf(files, later, ttl)| <= |LiveOf(files, now, ttl)|
  {
    if files != [] {
      LiveStep(files, now, ttl);
      LiveStep(files, later, ttl);
      LiveShrinks(files[1..], now, later, ttl);
    }
  }

  lemma MinusAt(b: seq<File>, i: nat)
    requires i < |b|
    ensures multiset(b[..i] + b[i + 1..]) == multiset(b) - multiset{b[i]}
  {
    assert b == b[..i] + [b[i]] + b[i + 1..];
  }

  lemma MinusFirst(a: seq<File>)
    requires a != []
    ensures multiset(a[1..]) == multiset(a) - multiset{a[0]}
  {
    assert a == [a[0]] + a[1..];
  }

  lemma PlaceOf(b: seq<File>, f: File) returns (i: nat)
    requires f in multiset(b)
    ensures i < |b| && b[i] == f
  {
    assert f in b;
    i :| 0 <= i < |b| && b[i] == f;
  }

  lemma TakeOut(a: seq<File>, b: seq<File>) returns (i: nat)
    requires multiset(a) == multiset(b) && a != []
    ensures i < |b| && b[i] == a[0] && multiset(a[1..]) == multiset(b[..i] + b[i + 1..])
  {
    assert a[0] in multiset(a);
    i := PlaceOf(b, a[0]);
    MinusAt(b, i);
    MinusFirst(a);
  }

  /** The order in which the directory is listed does not matter. */
  lemma {:induction false} ListingOrder(a: seq<File>, b: seq<File>, now: int, ttl: nat)
    requires multiset(a) == multiset(b)
    ensures LiveBytes(a, now, ttl) == LiveBytes(b, now, ttl) && |LiveOf(a, now, ttl)| == |LiveOf(b, now, ttl)|
    decreases |a|
  {
    if a == [] {
      assert |multiset(b)| == 0;
    } else {
      var i := TakeOut(a, b);
      var rest := b[..i] + b[i + 1..];
      ListingOrder(a[1..], rest, now, ttl);
      assert b == b[..i] + ([b[i]] + b[i + 1..]);
      LiveAppend(b[..i], [b[i]] + b[i + 1..], now, ttl);
      LiveAppend([b[i]], b[i + 1..], now, ttl);
      LiveAppend(b[..i], b[i + 1..], now, ttl);
      assert a == [a[0]] + a[1..];
      LiveAppend([a[0]], a[1..], now, ttl);
      var x, y, z := LiveOf(b[..i], now, ttl), LiveOf([b[i]], now, ttl), LiveOf(b[i + 1..], now, ttl);
      BytesAppend(x, y + z);
      BytesAppend(y, z);
      BytesAppend(x, z);
      BytesAppend(y, LiveOf(a[1..], now, ttl));
    }
  }

  lemma SameFilesDistinct(a: seq<File>, b: seq<File>)
    requires multiset(a) == multiset(b) && Distinct(a)
    ensures Distinct(b) && forall f :: f in a <==> f in b
  {
    forall f ensures f in a <==> f in b {
      assert f in a <==> f in multiset(a);
    }
    forall i, j | 0 <= i < j < |b| ensures b[i].key != b[j].key {
      if b[i].key == b[j].key {
        assert b[i] in a && b[j] in a;
        assert b[i] == b[j];
        assert b == b[..j] + [b[j]] + b[j + 1..] && b[i] in b[..j];
        assert multiset(b)[b[i]] >= 2;
        OnceOnly(a, b[i]);
      }
    }
  }

  lemma {:induction false} OnceOnly(files: seq<File>, f: File)
    requires Distinct(files)
    ensures multiset(files)[f] <= 1
  {
    if files != [] {
      assert files == [files[0]] + files[1..];
      OnceOnly(files[1..], f);
      if f == files[0] && f in files[1..] {
        assert false;
      }
    }
  }

  // ---------- sorting by age ----------

  ghost predicate ByAge(s: seq<File>) {
    forall i, j :: 0 <= i < j < |s| ==> s[i].written <= s[j].written
  }

  lemma {:induction false} InsertAdds(s: seq<File>, f: File)
    ensures multiset(InsertByAge(s, f)) == multiset(s) + multiset{f}
  {
    if s != [] && s[|s| - 1].written > f.written {
      var front, last := s[..|s| - 1], s[|s| - 1];
      InsertAdds(front, f);
      assert s == front + [last];
    }
  }

  /** The newest file of the list stays last unless the new one is newer. */
  lemma {:induction false} InsertSorts(s: seq<File>, f: File)
    requires ByAge(s)
    ensures ByAge(InsertByAge(s, f))
  {
    if s != [] && s[|s| - 1].written > f.written {
      var front, last := s[..|s| - 1], s[|s| - 1];
      InsertSorts(front, f);
      InsertAdds(front, f);
      var t := InsertByAge(front, f);
      forall i | 0 <= i < |t| ensures t[i].written <= last.written {
        assert t[i] in multiset(t);
        assert t[i] == f || t[i] in front;
      }
    }
  }

  /** The files in order of age, each one once. */
  lemma {:induction false} OldestFirstSorts(files: seq<File>)
    ensures ByAge(OldestFirst(files)) && multiset(OldestFirst(files)) == multiset(files)
  {
    if files != [] {
      OldestFirstSorts(files[..|files| - 1]);
      assert files == files[..|files| - 1] + [files[|files| - 1]];
      InsertSorts(OldestFirst(files[..|files| - 1]), files[|files| - 1]);
      InsertAdds(OldestFirst(files[..|files| - 1]), files[|files| - 1]);
    }
  }

  // ---------- what a pruning counts ----------

  /** Bytes are those of the unexpired files in the directory, whatever removals failed. */
  ghost predicate CountsRight(p: Pruning, now: int, ttl: nat) {
    && Distinct(p.files) && Distinct(p.live)
    && (forall f :: f in p.live ==> f in p.files && !Expired(f, now, ttl))
    && p.total == LiveBytes(p.files, now, ttl)
  }

  lemma EvictOneCounts(p: Pruning, now: int, ttl: nat, fails: Fails)
    requires CountsRight(p, now, ttl) && p.live != []
    ensures CountsRight(EvictOne(p, fails), now, ttl)
    ensures var f, p' := p.live[0], EvictOne(p, fails);
            |LiveOf(p'.files, now, ttl)| == |LiveOf(p.files, now, ttl)| - (if fails(f.key) then 0 else 1)
  {
    var f := p.live[0];
    assert f in p.live;
    RemovalFrees(p.files, f, now, ttl);
    WithoutKeeps(p.files, f.key);
    forall g | g in p.live[1..] ensures g in p.live && g.key != f.key {
      var j :| 0 <= j < |p.live[1..]| && p.live[1..][j] == g;
      assert p.live[j + 1] == g;
    }
  }

  /** Bytes freed by removing what can be removed among the first `k` entries. */
  function Freed(live: seq<File>, k: nat, fails: Fails): nat
    requires k <= |live|
  {
    if k == 0 then 0 else (if fails(live[0].key) then 0 else |live[0].body|) + Freed(live[1..], k - 1, fails)
  }

  /** The first `k` entries were popped: a removable one is gone, every other file is as before. */
  ghost predicate Popped(p: Pruning, p': Pruning, k: nat, fails: Fails) {
    && k <= |p.live| && p'.live == p.live[k..] && p'.total == p.total - Freed(p.live, k, fails)
    && (forall f :: f in p'.files <==> f in p.files && !RemovedBy(p.live, k, f.key, fails))
  }

  ghost predicate RemovedBy(live: seq<File>, k: nat, key: Key, fails: Fails)
    requires k <= |live|
  {
    !fails(key) && exists i :: 0 <= i < k && live[i].key == key
  }

  /** Room is still needed after every shorter prefix. */
  ghost predicate NeededAll(p: Pruning, k: nat, incoming: nat, l: Limits, fails: Fails)
    requires k <= |p.live|
  {
    forall j :: 0 <= j < k ==> NeedsRoom(|p.live| - j, p.total - Freed(p.live, j, fails), incoming, l)
  }

  function PoppedCount(p: Pruning, incoming: nat, l: Limits, fails: Fails): (k: nat)
    ensures k <= |p.live|
    decreases |p.live|
  {
    if p.live != [] && NeedsRoom(|p.live|, p.total, incoming, l) then
      1 + PoppedCount(EvictOne(p, fails), incoming, l, fails)
    else 0
  }

  /** What is evicted is the shortest oldest-first prefix that makes room. */
  lemma {:induction false} EvictsShortestPrefix(p: Pruning, incoming: nat, l: Limits, fails: Fails)
    ensures var k, p' := PoppedCount(p, incoming, l, fails), Evict(p, incoming, l, fails);
            && Popped(p, p', k, fails) && NeededAll(p, k, incoming, l, fails)
            && (k == |p.live| || !NeedsRoom(|p'.live|, p'.total, incoming, l))
    decreases |p.live|
  {
    if p.live != [] && NeedsRoom(|p.live|, p.total, incoming, l) {
      var p1 := EvictOne(p, fails);
      EvictsShortestPrefix(p1, incoming, l, fails);
      var k := PoppedCount(p1, incoming, l, fails);
      PopOneMore(p, p1, Evict(p1, incoming, l, fails), k, fails);
      forall j | 0 <= j < k + 1
        ensures NeedsRoom(|p.live| - j, p.total - Freed(p.live, j, fails), incoming, l)
      {
        if j > 0 {
          assert NeedsRoom(|p1.live| - (j - 1), p1.total - Freed(p1.live, j - 1, fails), incoming, l);
        }
      }
    }
  }

  lemma PopOneMore(p: Pruning, p1: Pruning, p': Pruning, k: nat, fails: Fails)
    requires p.live != [] && p1 == EvictOne(p, fails) && Popped(p1, p', k, fails)
    ensures Popped(p, p', k + 1, fails)
  {
    WithoutKeeps(p.files, p.live[0].key);
    forall key ensures RemovedBy(p.live, k + 1, key, fails)
                   <==> RemovedBy(p1.live, k, key, fails) || (key == p.live[0].key && !fails(key))
    {
      if RemovedBy(p.live, k + 1, key, fails) {
        var i :| 0 <= i < k + 1 && p.live[i].key == key;
        assert i > 0 ==> p1.live[i - 1].key == key;
      }
      if RemovedBy(p1.live, k, key, fails) {
        var i :| 0 <= i < k && p1.live[i].key == key;
        assert p.live[i + 1].key == key;
      }
    }
  }

  lemma {:induction false} EvictCounts(p: Pruning, incoming: nat, l: Limits, fails: Fails, now: int)
    requires CountsRight(p, now, l.ttl)
    ensures var p' := Evict(p, incoming, l, fails);
            && CountsRight(p', now, l.ttl)
            && ((forall f :: f in p.live ==> !fails(f.key)) ==>
                  |LiveOf(p'.files, now, l.ttl)| - |p'.live| == |LiveOf(p.files, now, l.ttl)| - |p.live|)
            && |LiveOf(p'.files, now, l.ttl)| <= |LiveOf(p.files, now, l.ttl)|
            && p'.total <= p.total
    decreases |p.live|
  {
    if p.live != [] && NeedsRoom(|p.live|, p.total, incoming, l) {
      EvictOneCounts(p, now, l.ttl, fails);
      EvictCounts(EvictOne(p, fails), incoming, l, fails, now);
      assert p.live[0] in p.live;
    }
  }

  // ---------- the sweep over expired files ----------

  ghost predicate SweptSo(p: Pruning, files: seq<File>, done: seq<File>, now: int, ttl: nat, fails: Fails) {
    && Distinct(p.files)
    && p.live == LiveOf(done, now, ttl) && p.total == Bytes(p.live)
    && (forall f :: f in p.files <==> f in files && !(f in done && Expired(f, now, ttl) && !fails(f.key)))
    && LiveBytes(p.files, now, ttl) == LiveBytes(files, now, ttl)
    && |LiveOf(p.files, now, ttl)| == |LiveOf(files, now, ttl)|
  }

  lemma SweepOneSo(p: Pruning, files: seq<File>, done: seq<File>, f: File, now: int, ttl: nat, fails: Fails)
    requires SweptSo(p, files, done, now, ttl, fails) && Distinct(files) && f in files && f !in done
    ensures SweptSo(SweepOne(p, f, now, ttl, fails), files, done + [f], now, ttl, fails)
  {
    LiveAppend(done, [f], now, ttl);
    if !Expired(f, now, ttl) {
      BytesAppend(p.live, [f]);
      assert LiveOf([f], now, ttl) == [f];
    } else if !fails(f.key) {
      assert f in p.files;
      RemovalFrees(p.files, f, now, ttl);
      WithoutKeeps(p.files, f.key);
    }
  }

  lemma {:induction false} SweepSo(p: Pruning, files: seq<File>, done: seq<File>, entries: seq<File>,
                                   now: int, ttl: nat, fails: Fails)
    requires SweptSo(p, files, done, now, ttl, fails) && Distinct(files) && files == done + entries
    ensures SweptSo(Sweep(p, entries, now, ttl, fails), files, files, now, ttl, fails)
    decreases |entries|
  {
    if entries != [] {
      var f := entries[0];
      assert files[|done|] == f;
      assert f !in done by {
        forall i | 0 <= i < |done| ensures done[i] != f {
          assert files[i] == done[i];
        }
      }
      SweepOneSo(p, files, done, f, now, ttl, fails);
      assert (done + [f]) + entries[1..] == files;
      SweepSo(SweepOne(p, f, now, ttl, fails), files, done + [f], entries[1..], now, ttl, fails);
    } else {
      assert done == files;
    }
  }

  /** The state in which the eviction starts. */
  function Swept(files: seq<File>, now: int, ttl: nat, fails: Fails): Pruning {
    var p := Sweep(Pruning(files, [], 0), files, now, ttl, fails);
    p.(live := OldestFirst(p.live))
  }

  lemma SweptCounts(files: seq<File>, now: int, ttl: nat, fails: Fails)
    requires Distinct(files)
    ensures var p := Swept(files, now, ttl, fails);
            && CountsRight(p, now, ttl) && ByAge(p.live)
            && (forall f :: f in p.live <==> f in files && !Expired(f, now, ttl))
            && (forall f :: f in p.files <==> f in files && !(Expired(f, now, ttl) && !fails(f.key)))
            && p.total == LiveBytes(files, now, ttl) && |p.live| == |LiveOf(p.files, now, ttl)|
            && |p.live| == |LiveOf(files, now, ttl)|
            && p.live == OldestFirst(LiveOf(files, now, ttl))
  {
    SweepSo(Pruning(files, [], 0), files, [], files, now, ttl, fails);
    LiveOfKeeps(files, now, ttl);
    var live := LiveOf(files, now, ttl);
    OldestFirstSorts(live);
    SameFilesDistinct(live, OldestFirst(live));
    SameLength(live, OldestFirst(live));
  }

  lemma SameLength(a: seq<File>, b: seq<File>)
    requires multiset(a) == multiset(b)
    ensures |a| == |b|
  {
    assert |multiset(a)| == |a| && |multiset(b)| == |b|;
  }

  // ---------- a whole pruning ----------

  /**
    After a pruning that reports room, the unexpired bytes and the incoming ones fit even if removals
    failed, and so does the file count if none did.
   */
  lemma PruneMakesRoom(files: seq<File>, incoming: nat, now: int, l: Limits, fails: Fails)
    requires Distinct(files)
    ensures var (files', room) := Prune(files, incoming, now, l, fails);
            && Distinct(files') && (forall f :: f in files' ==> f in files)
            && LiveBytes(files', now, l.ttl) <= LiveBytes(files, now, l.ttl)
            && |LiveOf(files', now, l.ttl)| <= |LiveOf(files, now, l.ttl)|
            && (room ==> LiveBytes(files', now, l.ttl) + incoming <= l.maxBytes)
            && (room && (forall f :: f in files ==> !fails(f.key)) ==> |LiveOf(files', now, l.ttl)| < l.maxFiles)
  {
    var p := Swept(files, now, l.ttl, fails);
    SweptCounts(files, now, l.ttl, fails);
    if incoming <= l.maxBytes {
      EvictsShortestPrefix(p, incoming, l, fails);
      EvictCounts(p, incoming, l, fails, now);
    }
  }

  /**
    What is left: expired files whose removal failed, and the live files less the shortest oldest-first
    prefix that makes room, of which only files whose removal failed stay.
   */
  lemma PruneRemovesExactly(files: seq<File>, incoming: nat, now: int, l: Limits, fails: Fails, f: File)
    requires Distinct(files) && f in files && incoming <= l.maxBytes
    ensures var p := Swept(files, now, l.ttl, fails);
            var k := PoppedCount(p, incoming, l, fails);
            f in Prune(files, incoming, now, l, fails).0
            <==> fails(f.key) || (!Expired(f, now, l.ttl) && f !in p.live[..k])
  {
    var p := Swept(files, now, l.ttl, fails);
    var k := PoppedCount(p, incoming, l, fails);
    SweptCounts(files, now, l.ttl, fails);
    EvictsShortestPrefix(p, incoming, l, fails);
    assert Prune(files, incoming, now, l, fails).0 == Evict(p, incoming, l, fails).files;
    RemovedIsPopped(files, p.live, k, f, fails);
  }

  lemma RemovedIsPopped(files: seq<File>, live: seq<File>, k: nat, f: File, fails: Fails)
    requires Distinct(files) && f in files && k <= |live| && (forall g :: g in live ==> g in files)
    ensures RemovedBy(live, k, f.key, fails) <==> !fails(f.key) && f in live[..k]
  {
    if f in live[..k] {
      var i :| 0 <= i < k && live[..k][i] == f;
      assert live[i].key == f.key;
    }
    if i :| 0 <= i < k && live[i].key == f.key {
      assert live[i] in live;
      SameKeySameFile(files, f, live[i]);
      assert live[..k][i] == f;
    }
  }

  lemma SameKeySameFile(files: seq<File>, f: File, g: File)
    requires Distinct(files) && f in files && g in files && f.key == g.key
    ensures f == g
  {
  }

  /** A live file is evicted only if everything removable and older goes too. */
  lemma EvictsOldestFirst(files: seq<File>, incoming: nat, now: int, l: Limits, fails: Fails, f: File, g: File)
    requires Distinct(files) && f in files && g in files && incoming <= l.maxBytes
    requires !Expired(f, now, l.ttl) && !Expired(g, now, l.ttl)
    requires var left := Prune(files, incoming, now, l, fails).0; f !in left && g in left
    ensures f.written <= g.written || fails(g.key)
  {
    var p := Swept(files, now, l.ttl, fails);
    var k := PoppedCount(p, incoming, l, fails);
    PruneRemovesExactly(files, incoming, now, l, fails, f);
    PruneRemovesExactly(files, incoming, now, l, fails, g);
    SweptCounts(files, now, l.ttl, fails);
    var i :| 0 <= i < k && p.live[..k][i] == f;
    var j :| 0 <= j < |p.live| && p.live[j] == g;
    if j < k {
      assert p.live[..k][j] == g;
    }
  }

  function StuckOf(files: seq<File>, fails: Fails): seq<File> {
    if files == [] then []
    else (if fails(files[0].key) then [files[0]] else []) + StuckOf(files[1..], fails)
  }

  lemma {:induction false} FreedAll(live: seq<File>, fails: Fails)
    ensures Bytes(live) - Freed(live, |live|, fails) == Bytes(StuckOf(live, fails))
  {
    if live != [] {
      FreedAll(live[1..], fails);
      BytesAppend(if fails(live[0].key) then [live[0]] else [], StuckOf(live[1..], fails));
    }
  }

  lemma {:induction false} FreedGrows(live: seq<File>, k: nat, fails: Fails)
    requires k <= |live|
    ensures Freed(live, k, fails) <= Freed(live, |live|, fails)
  {
    if k > 0 {
      FreedGrows(live[1..], k - 1, fails);
    }
  }

  lemma StuckStep(files: seq<File>, fails: Fails)
    requires files != []
    ensures Bytes(StuckOf(files, fails)) == StuckBytes(files[0], fails) + Bytes(StuckOf(files[1..], fails))
  {
    BytesAppend(if fails(files[0].key) then [files[0]] else [], StuckOf(files[1..], fails));
  }

  function StuckBytes(f: File, fails: Fails): nat {
    if fails(f.key) then |f.body| else 0
  }

  lemma {:induction false} WeighLast(files: seq<File>, f: File, fails: Fails)
    ensures Bytes(files + [f]) == Bytes(files) + |f.body|
    ensures Bytes(StuckOf(files + [f], fails)) == Bytes(StuckOf(files, fails)) + StuckBytes(f, fails)
  {
    StuckStep(files + [f], fails);
    if files == [] {
      assert [] + [f] == [f];
    } else {
      assert (files + [f])[1..] == files[1..] + [f];
      WeighLast(files[1..], f, fails);
      StuckStep(files, fails);
    }
  }

  lemma WeighFront(s: seq<File>, front: seq<File>, fails: Fails)
    requires s != [] && front == s[..|s| - 1]
    ensures Bytes(s) == Bytes(front) + |s[|s| - 1].body|
    ensures Bytes(StuckOf(s, fails)) == Bytes(StuckOf(front, fails)) + StuckBytes(s[|s| - 1], fails)
  {
    WeighLast(front, s[|s| - 1], fails);
    assert front + [s[|s| - 1]] == s;
  }

  lemma {:induction false} InsertWeighs(s: seq<File>, f: File, fails: Fails)
    ensures Bytes(InsertByAge(s, f)) == Bytes(s) + |f.body|
    ensures Bytes(StuckOf(InsertByAge(s, f), fails)) == Bytes(StuckOf(s, fails)) + StuckBytes(f, fails)
  {
    if s == [] || s[|s| - 1].written <= f.written {
      WeighLast(s, f, fails);
      assert InsertByAge(s, f) == s + [f];
    } else {
      var front, last := s[..|s| - 1], s[|s| - 1];
      InsertWeighs(front, f, fails);
      WeighLast(InsertByAge(front, f), last, fails);
      WeighFront(s, front, fails);
    }
  }

  lemma {:induction false} SortWeighs(files: seq<File>, fails: Fails)
    ensures Bytes(OldestFirst(files)) == Bytes(files)
    ensures Bytes(StuckOf(OldestFirst(files), fails)) == Bytes(StuckOf(files, fails))
  {
    if files != [] {
      var front, last := files[..|files| - 1], files[|files| - 1];
      SortWeighs(front, fails);
      InsertWeighs(OldestFirst(front), last, fails);
      WeighFront(files, front, fails);
    }
  }

  /**
    Exactly when a pruning reports room: the incoming bytes fit beside the live files that cannot be
    removed. So without failing removals only a blob larger than the store is refused.
   */
  lemma RoomIff(files: seq<File>, incoming: nat, now: int, l: Limits, fails: Fails)
    requires Distinct(files)
    ensures Prune(files, incoming, now, l, fails).1
            <==> l.maxFiles > 0 && Bytes(StuckOf(LiveOf(files, now, l.ttl), fails)) + incoming <= l.maxBytes
  {
    if incoming <= l.maxBytes {
      var p := Swept(files, now, l.ttl, fails);
      var k := PoppedCount(p, incoming, l, fails);
      var live := LiveOf(files, now, l.ttl);
      SweptCounts(files, now, l.ttl, fails);
      EvictsShortestPrefix(p, incoming, l, fails);
      SortWeighs(live, fails);
      FreedAll(p.live, fails);
      FreedGrows(p.live, k, fails);
    }
  }

  /** How many of the first `k` entries can be removed. */
  function Removable(live: seq<File>, k: nat, fails: Fails): nat
    requires k <= |live|
  {
    if k == 0 then 0 else (if fails(live[0].key) then 0 else 1) + Removable(live[1..], k - 1, fails)
  }

  lemma {:induction false} EvictLeaves(p: Pruning, incoming: nat, l: Limits, fails: Fails, now: int)
    requires CountsRight(p, now, l.ttl)
    ensures |LiveOf(Evict(p, incoming, l, fails).files, now, l.ttl)|
         == |LiveOf(p.files, now, l.ttl)| - Removable(p.live, PoppedCount(p, incoming, l, fails), fails)
    decreases |p.live|
  {
    if p.live != [] && NeedsRoom(|p.live|, p.total, incoming, l) {
      EvictOneCounts(p, now, l.ttl, fails);
      EvictLeaves(EvictOne(p, fails), incoming, l, fails, now);
    }
  }

  /** What a prune leaves live: all but what can be removed of the prefix it walks over. */
  lemma PruneLeavesCount(files: seq<File>, incoming: nat, now: int, l: Limits, fails: Fails)
    requires Distinct(files) && incoming <= l.maxBytes
    ensures var p := Swept(files, now, l.ttl, fails);
            |LiveOf(Prune(files, incoming, now, l, fails).0, now, l.ttl)|
            == |LiveOf(files, now, l.ttl)| - Removable(p.live, PoppedCount(p, incoming, l, fails), fails)
  {
    SweptCounts(files, now, l.ttl, fails);
    EvictLeaves(Swept(files, now, l.ttl, fails), incoming, l, fails, now);
  }
}
