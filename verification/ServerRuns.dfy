/** The replica server as a system of atomic steps: every interleaving of connections is one of its runs. */
module ServerRuns {
  import opened Wrappers
  import opened ReplicaServer
  import opened ServerGuarantees

  datatype World = World(files: seq<File>, clock: int)

  /** `walk` is the directory as the step happens to list it. */
  datatype Step =
    | PutStep(key: Key, body: string, now: int, written: int, walk: seq<File>, fails: Fails)
    | GetStep(key: Key, now: int, walk: seq<File>, fails: Fails)
    | CollectStep(now: int, walk: seq<File>, fails: Fails)

  /** Time does not run backwards, and a listing is complete. */
  ghost predicate StepOk(w: World, s: Step) {
    && w.clock <= s.now && (s.PutStep? ==> s.now <= s.written)
    && multiset(s.walk) == multiset(w.files)
  }

  function Apply(s: Step, l: Limits): World {
    match s
    case PutStep(key, body, now, written, walk, fails) => World(Put(walk, key, body, now, written, l, fails).0, written)
    case GetStep(key, now, walk, fails) => World(Get(walk, key, now, l, fails).0, now)
    case CollectStep(now, walk, fails) => World(Prune(walk, 0, now, l, fails).0, now)
  }

  ghost predicate RunOk(w: World, steps: seq<Step>, l: Limits)
    decreases |steps|
  {
    steps != [] ==> StepOk(w, steps[0]) && RunOk(Apply(steps[0], l), steps[1..], l)
  }

  function Exec(w: World, steps: seq<Step>, l: Limits): World
    decreases |steps|
  {
    if steps == [] then w else Exec(Apply(steps[0], l), steps[1..], l)
  }

  // ---------- bounds ----------

  ghost predicate Inv(w: World, l: Limits) {
    Distinct(w.files) && LiveBytes(w.files, w.clock, l.ttl) <= l.maxBytes
  }

  ghost predicate CountOk(w: World, l: Limits) {
    |LiveOf(w.files, w.clock, l.ttl)| <= l.maxFiles
  }

  ghost predicate RemovalsSucceed(s: Step) {
    forall f :: f in s.walk ==> !s.fails(f.key)
  }

  lemma WithoutShrinks(files: seq<File>, key: Key, now: int, ttl: nat)
    requires Distinct(files)
    ensures LiveBytes(Without(files, key), now, ttl) <= LiveBytes(files, now, ttl)
    ensures |LiveOf(Without(files, key), now, ttl)| <= |LiveOf(files, now, ttl)|
  {
    var f := Find(files, key);
    if f.Some? {
      RemovalFrees(files, f.value, now, ttl);
    } else {
      WithoutAbsent(files, key);
    }
  }

  lemma AppendFresh(files: seq<File>, f: File, now: int, ttl: nat)
    requires Distinct(files) && forall g :: g in files ==> g.key != f.key
    ensures Distinct(files + [f])
    ensures LiveBytes(files + [f], now, ttl) <= LiveBytes(files, now, ttl) + |f.body|
    ensures |LiveOf(files + [f], now, ttl)| <= |LiveOf(files, now, ttl)| + 1
  {
    LiveAppend(files, [f], now, ttl);
    BytesAppend(LiveOf(files, now, ttl), LiveOf([f], now, ttl));
    forall i | 0 <= i < |files| ensures files[i].key != f.key {
      assert files[i] in files;
    }
  }

  lemma PutKeepsBounds(w: World, s: Step, l: Limits)
    requires s.PutStep? && StepOk(w, s) && Distinct(s.walk) && LiveBytes(s.walk, s.now, l.ttl) <= l.maxBytes
    ensures Inv(Apply(s, l), l)
    ensures RemovalsSucceed(s) && |LiveOf(s.walk, s.now, l.ttl)| <= l.maxFiles ==> CountOk(Apply(s, l), l)
  {
    var w' := Apply(s, l);
    if StillThere(Find(s.walk, s.key), s.now, l, s.fails) {
      LiveShrinks(s.walk, s.now, s.written, l.ttl);
    } else {
      var files := Without(s.walk, s.key);
      WithoutKeeps(s.walk, s.key);
      WithoutShrinks(s.walk, s.key, s.now, l.ttl);
      PruneMakesRoom(files, |s.body|, s.now, l, s.fails);
      var (files', room) := Prune(files, |s.body|, s.now, l, s.fails);
      LiveShrinks(files', s.now, s.written, l.ttl);
      if room {
        AppendFresh(files', File(s.key, s.body, s.written), s.written, l.ttl);
      }
    }
  }

  lemma StepKeepsInv(w: World, s: Step, l: Limits)
    requires Inv(w, l) && StepOk(w, s)
    ensures Inv(Apply(s, l), l)
    ensures CountOk(w, l) && RemovalsSucceed(s) ==> CountOk(Apply(s, l), l)
  {
    SameFilesDistinct(w.files, s.walk);
    ListingOrder(w.files, s.walk, w.clock, l.ttl);
    LiveShrinks(s.walk, w.clock, s.now, l.ttl);
    match s
    case PutStep(_, _, _, _, _, _) => PutKeepsBounds(w, s, l);
    case GetStep(key, now, walk, _) =>
      WithoutKeeps(walk, key);
      WithoutShrinks(walk, key, now, l.ttl);
    case CollectStep(now, walk, fails) => PruneMakesRoom(walk, 0, now, l, fails);
  }

  ghost predicate AllRemovalsSucceed(steps: seq<Step>) {
    forall i :: 0 <= i < |steps| ==> RemovalsSucceed(steps[i])
  }

  /**
    In every run the unexpired bytes stay within the limit even if removals fail, now and at every later
    time; so does the number of unexpired files if removals succeed.
   */
  lemma {:induction false} RunKeepsBounds(w: World, steps: seq<Step>, l: Limits, later: int)
    requires Inv(w, l) && RunOk(w, steps, l) && Exec(w, steps, l).clock <= later
    ensures Inv(Exec(w, steps, l), l) && LiveBytes(Exec(w, steps, l).files, later, l.ttl) <= l.maxBytes
    ensures CountOk(w, l) && AllRemovalsSucceed(steps) ==> CountOk(Exec(w, steps, l), l)
    decreases |steps|
  {
    if steps == [] {
      LiveShrinks(w.files, w.clock, later, l.ttl);
    } else {
      StepKeepsInv(w, steps[0], l);
      RunKeepsBounds(Apply(steps[0], l), steps[1..], l, later);
      if AllRemovalsSucceed(steps) {
        assert RemovalsSucceed(steps[0]);
        assert forall i :: 0 <= i < |steps[1..]| ==> steps[1..][i] == steps[i + 1];
      }
    }
  }

  lemma {:induction false} LiveAddsOne(files: seq<File>, f: File, now: int, ttl: nat)
    requires !Expired(f, now, ttl)
    ensures |LiveOf(files + [f], now, ttl)| == |LiveOf(files, now, ttl)| + 1
  {
    LiveAppend(files, [f], now, ttl);
    assert LiveOf([f], now, ttl) == [f];
  }

  /** After the oldest `k` of these files were tried there is room, and not before; failed removals free no bytes. */
  ghost predicate MakesRoomAt(live: seq<File>, k: nat, incoming: nat, l: Limits, fails: Fails) {
    && k <= |live| && !NeedsRoom(|live| - k, Bytes(live) - Freed(live, k, fails), incoming, l)
    && forall j :: 0 <= j < k ==> NeedsRoom(|live| - j, Bytes(live) - Freed(live, j, fails), incoming, l)
  }

  lemma RoomAtPopped(files: seq<File>, incoming: nat, now: int, l: Limits, fails: Fails, k: nat)
    requires Distinct(files) && Prune(files, incoming, now, l, fails).1
    ensures MakesRoomAt(OldestFirst(LiveOf(files, now, l.ttl)), k, incoming, l, fails)
            <==> k == PoppedCount(Swept(files, now, l.ttl, fails), incoming, l, fails)
  {
    var p := Swept(files, now, l.ttl, fails);
    SweptCounts(files, now, l.ttl, fails);
    SortWeighs(LiveOf(files, now, l.ttl), fails);
    EvictsShortestPrefix(p, incoming, l, fails);
  }

  /**
    Exactly when an accepted PUT leaves more unexpired files than the limit: too few of the oldest files that
    were tried to make room could be removed.
   */
  lemma OverfillsIff(files: seq<File>, key: Key, body: string, now: int, written: int, l: Limits, fails: Fails)
    requires Distinct(files) && (forall f :: f in files ==> f.key != key) && now <= written
    requires Put(files, key, body, now, written, l, fails).1 == OK
    ensures var live := OldestFirst(LiveOf(files, now, l.ttl));
            |LiveOf(Put(files, key, body, now, written, l, fails).0, now, l.ttl)| > l.maxFiles
            <==> exists k: nat ::
                   MakesRoomAt(live, k, |body|, l, fails) && |live| - Removable(live, k, fails) >= l.maxFiles
  {
    var k := PoppedCount(Swept(files, now, l.ttl, fails), |body|, l, fails);
    WithoutAbsent(files, key);
    RoomAtPopped(files, |body|, now, l, fails, k);
    forall k': nat | MakesRoomAt(OldestFirst(LiveOf(files, now, l.ttl)), k', |body|, l, fails) ensures k' == k {
      RoomAtPopped(files, |body|, now, l, fails, k');
    }
    PruneLeavesCount(files, |body|, now, l, fails);
    SweptCounts(files, now, l.ttl, fails);
    LiveAddsOne(Prune(files, |body|, now, l, fails).0, File(key, body, written), now, l.ttl);
  }

  function Stuck(key: Key): Fails {
    (k: Key) => k == key
  }

  /** With a removal that fails, a store of one file comes to hold two. */
  lemma FailedRemovalOverfills()
    ensures var l := Limits(10, 1, 10);
            var a := File("a", "x", 0);
            var put := PutStep("b", "y", 1, 1, [a], Stuck("a"));
            && Inv(World([a], 0), l) && CountOk(World([a], 0), l) && StepOk(World([a], 0), put)
            && |LiveOf(Apply(put, l).files, 1, l.ttl)| == 2
  {
    var l := Limits(10, 1, 10);
    var a, b := File("a", "x", 0), File("b", "y", 1);
    var fails := Stuck("a");
    assert [a][1..] == [] && Find([a], "b") == None;
    assert Without([a], "b") == [a];
    var p := Swept([a], 1, l.ttl, fails);
    assert Sweep(Pruning([a], [], 0), [a], 1, l.ttl, fails) == Pruning([a], [a], 1);
    assert OldestFirst([a]) == [a] by {
      assert [a][..0] == [];
    }
    assert Evict(p, 1, l, fails) == Pruning([a], [], 1);
    assert LiveOf([a, b], 1, l.ttl) == [a, b] by {
      assert [a, b][1..] == [b] && [b][1..] == [];
      assert LiveOf([b], 1, l.ttl) == [b];
    }
    assert LiveOf([a], 0, l.ttl) == [a];
    assert Bytes([a]) == |a.body| + Bytes([]) == 1;
  }

  // ---------- write-once ----------

  /** The live files a step removes to make room. */
  ghost function MadeRoomWith(s: Step, l: Limits): seq<File> {
    match s
    case GetStep(_, _, _, _) => []
    case CollectStep(now, walk, fails) =>
      var p := Swept(walk, now, l.ttl, fails);
      p.live[..PoppedCount(p, 0, l, fails)]
    case PutStep(key, body, now, _, walk, fails) =>
      if |body| > l.maxBytes then []
      else
        var p := Swept(Without(walk, key), now, l.ttl, fails);
        p.live[..PoppedCount(p, |body|, l, fails)]
  }

  ghost predicate Loses(w: World, s: Step, l: Limits, f: File) {
    f in w.files && f !in Apply(s, l).files
  }

  lemma SweepAlone(files: seq<File>, incoming: nat, now: int, l: Limits, fails: Fails, f: File)
    requires Distinct(files) && f in files && incoming > l.maxBytes && !Expired(f, now, l.ttl)
    ensures f in Prune(files, incoming, now, l, fails).0
  {
    SweptCounts(files, now, l.ttl, fails);
  }

  /** A file goes only when it has expired, or in the prefix that made room for a write or a tick. */
  lemma LossHasCause(w: World, s: Step, l: Limits, f: File)
    requires Distinct(w.files) && StepOk(w, s) && Loses(w, s, l, f)
    ensures Expired(f, s.now, l.ttl) || f in MadeRoomWith(s, l)
  {
    SameFilesDistinct(w.files, s.walk);
    if !Expired(f, s.now, l.ttl) {
      match s
      case GetStep(key, _, _, _) => WithoutKeeps(s.walk, key);
        KeyHolder(s.walk, f);
      case CollectStep(now, walk, fails) => PruneRemovesExactly(walk, 0, now, l, fails, f);
      case PutStep(key, body, now, written, walk, fails) =>
        KeyHolder(walk, f);
        var files := Without(walk, key);
        WithoutKeeps(walk, key);
        if |body| > l.maxBytes {
          SweepAlone(files, |body|, now, l, fails, f);
        } else {
          PruneRemovesExactly(files, |body|, now, l, fails, f);
        }
    }
  }

  lemma KeyHolder(files: seq<File>, f: File)
    requires Distinct(files) && f in files
    ensures Find(files, f.key) == Some(f)
  {
    SameKeySameFile(files, f, Find(files, f.key).value);
  }

  ghost predicate LostDuring(w: World, steps: seq<Step>, l: Limits, f: File)
    decreases |steps|
  {
    steps != [] && (Loses(w, steps[0], l, f) || LostDuring(Apply(steps[0], l), steps[1..], l, f))
  }

  /**
    A stored file is never overwritten: in every run, until a step removes it as expired or to make
    room, its key finds exactly this file and no other.
   */
  lemma {:induction false} NeverOverwritten(w: World, steps: seq<Step>, l: Limits, f: File)
    requires Inv(w, l) && RunOk(w, steps, l) && f in w.files
    ensures LostDuring(w, steps, l, f) || Find(Exec(w, steps, l).files, f.key) == Some(f)
    decreases |steps|
  {
    if steps == [] {
      KeyHolder(w.files, f);
    } else if !Loses(w, steps[0], l, f) {
      StepKeepsInv(w, steps[0], l);
      NeverOverwritten(Apply(steps[0], l), steps[1..], l, f);
    }
  }

  // ---------- what requests answer ----------

  /** A PUT of a stored key changes nothing, unless that file has expired and can be removed. */
  lemma PutOfStoredKey(s: Step, l: Limits, f: File)
    requires s.PutStep? && Distinct(s.walk) && f in s.walk && f.key == s.key
    ensures var (files', reply) := Put(s.walk, s.key, s.body, s.now, s.written, l, s.fails);
            && (reply == EXISTS <==> !Expired(f, s.now, l.ttl) || s.fails(s.key))
            && (reply == EXISTS ==> files' == s.walk)
  {
    KeyHolder(s.walk, f);
  }

  /** What an accepted PUT stores is what the next GET within its time to live answers. */
  lemma GetAfterPut(s: Step, l: Limits, now: int, fails: Fails)
    requires s.PutStep? && Distinct(s.walk) && now - s.written <= l.ttl
    requires Put(s.walk, s.key, s.body, s.now, s.written, l, s.fails).1 == OK
    ensures Get(Apply(s, l).files, s.key, now, l, fails) == (Apply(s, l).files, Some(s.body))
  {
    var files := Without(s.walk, s.key);
    WithoutKeeps(s.walk, s.key);
    PruneMakesRoom(files, |s.body|, s.now, l, s.fails);
    var files' := Prune(files, |s.body|, s.now, l, s.fails).0;
    var f := File(s.key, s.body, s.written);
    AppendFresh(files', f, s.written, l.ttl);
    assert (files' + [f])[|files'|] == f;
    KeyHolder(files' + [f], f);
  }

  /** Exactly when a GET answers with an expired blob: its removal failed. */
  lemma ServesExpiredIffStuck(files: seq<File>, f: File, now: int, l: Limits, fails: Fails)
    requires Distinct(files) && f in files && Expired(f, now, l.ttl)
    ensures Get(files, f.key, now, l, fails).1 == (if fails(f.key) then Some(f.body) else None)
    ensures Get(files, f.key, now, l, fails).1.Some? <==> f in Get(files, f.key, now, l, fails).0
  {
    KeyHolder(files, f);
    WithoutKeeps(files, f.key);
  }

  /** The exact answers to a PUT of a key that is not stored. */
  lemma PutOfNewKey(files: seq<File>, key: Key, body: string, now: int, written: int, l: Limits, fails: Fails)
    requires Distinct(files) && forall f :: f in files ==> f.key != key
    ensures Put(files, key, body, now, written, l, fails).1
         == if l.maxFiles > 0 && Bytes(StuckOf(LiveOf(files, now, l.ttl), fails)) + |body| <= l.maxBytes then OK
            else FULL
  {
    if Find(files, key).Some? {
      assert false;
    }
    WithoutAbsent(files, key);
    RoomIff(files, |body|, now, l, fails);
  }

  /** A collection tick evicts unexpired files exactly when the store is at its file limit. */
  lemma TickEvictsIffFull(w: World, s: Step, l: Limits)
    requires Inv(w, l) && StepOk(w, s) && s.CollectStep?
    ensures MadeRoomWith(s, l) != [] <==>
              |LiveOf(s.walk, s.now, l.ttl)| >= l.maxFiles && LiveOf(s.walk, s.now, l.ttl) != []
  {
    SameFilesDistinct(w.files, s.walk);
    ListingOrder(w.files, s.walk, w.clock, l.ttl);
    LiveShrinks(s.walk, w.clock, s.now, l.ttl);
    SweptCounts(s.walk, s.now, l.ttl, s.fails);
  }

  // ---------- the plain write-once map ----------

  /** The in-memory replica: its PUT with a bound on entries. */
  function LocalPut(store: map<Key, string>, key: Key, body: string, maxEntries: nat): (map<Key, string>, PutReply) {
    if key in store then (store, EXISTS)
    else if |store| >= maxEntries then (store, FULL)
    else (store[key := body], OK)
  }

  function LocalGet(store: map<Key, string>, key: Key): Option<string> {
    if key in store then Some(store[key]) else None
  }

  class LocalReplica {
    const maxEntries: nat
    var storage: map<Key, string>

    constructor (maxEntries: nat)
      ensures this.maxEntries == maxEntries && storage == map[]
    {
      this.maxEntries, storage := maxEntries, map[];
    }

    method HandlePut(key: Key, body: string) returns (reply: PutReply)
      modifies this
      ensures (storage, reply) == LocalPut(old(storage), key, body, maxEntries)
    {
      if key in storage {
        return EXISTS;
      }
      if |storage| >= maxEntries {
        return FULL;
      }
      storage := storage[key := body];
      reply := OK;
    }

    method HandleGet(key: Key) returns (body: Option<string>)
      ensures body == LocalGet(storage, key)
    {
      body := if key in storage then Some(storage[key]) else None;
    }
  }

  function Contents(files: seq<File>): map<Key, string> {
    if files == [] then map[] else Contents(files[1..])[files[0].key := files[0].body]
  }

  lemma {:induction false} ContentsFinds(files: seq<File>, key: Key)
    requires Distinct(files)
    ensures LocalGet(Contents(files), key)
         == (var f := Find(files, key); if f.Some? then Some(f.value.body) else None)
    ensures |Contents(files)| == |files|
  {
    if files != [] {
      ContentsFinds(files[1..], key);
      ContentsFinds(files[1..], files[0].key);
      forall g | g in files[1..] ensures g.key != files[0].key {
        var j :| 0 <= j < |files[1..]| && files[1..][j] == g;
        assert files[j + 1] == g;
      }
      assert files[0].key !in Contents(files[1..]);
      assert Contents(files).Keys == Contents(files[1..]).Keys + {files[0].key};
      assert |Contents(files).Keys| == |Contents(files)| && |Contents(files[1..]).Keys| == |Contents(files[1..])|;
    }
  }

  /** Nothing has expired and the blob fits as things are. */
  ghost predicate Calm(files: seq<File>, incoming: nat, now: int, l: Limits) {
    && (forall f :: f in files ==> !Expired(f, now, l.ttl))
    && (incoming > 0 ==> !NeedsRoom(|files|, Bytes(files), incoming, l))
  }

  lemma {:induction false} CalmSweep(files: seq<File>, entries: seq<File>, p: Pruning, now: int, ttl: nat, fails: Fails)
    requires forall f :: f in entries ==> !Expired(f, now, ttl)
    ensures Sweep(p, entries, now, ttl, fails) == Pruning(p.files, p.live + entries, p.total + Bytes(entries))
    decreases |entries|
  {
    if entries == [] {
      assert p.live + entries == p.live;
    } else {
      assert entries[0] in entries;
      CalmSweep(files, entries[1..], SweepOne(p, entries[0], now, ttl, fails), now, ttl, fails);
      assert (p.live + [entries[0]]) + entries[1..] == p.live + entries;
    }
  }

  lemma CalmPut(files: seq<File>, key: Key, body: string, now: int, written: int, l: Limits, fails: Fails)
    requires Distinct(files) && Calm(files, |body|, now, l) && body != [] && Find(files, key).None?
    ensures Put(files, key, body, now, written, l, fails) == (files + [File(key, body, written)], OK)
  {
    WithoutAbsent(files, key);
    CalmSweep(files, files, Pruning(files, [], 0), now, l.ttl, fails);
    assert [] + files == files;
    OldestFirstSorts(files);
    SameLength(files, OldestFirst(files));
  }

  lemma CalmContents(files: seq<File>, f: File, key: Key)
    requires Distinct(files) && forall g :: g in files ==> g.key != f.key
    ensures LocalGet(Contents(files + [f]), key) == LocalGet(Contents(files)[f.key := f.body], key)
  {
    AppendFresh(files, f, 0, 0);
    ContentsFinds(files + [f], key);
    ContentsFinds(files, key);
    FindAppended(files, f, key);
  }

  /** While nothing expires and nothing must be evicted, the server is the plain write-once map. */
  lemma ServerIsMapWhenCalm(files: seq<File>, key: Key, body: string, now: int, written: int, l: Limits, fails: Fails)
    requires Distinct(files) && Calm(files, |body|, now, l) && body != []
    ensures var (files', reply) := Put(files, key, body, now, written, l, fails);
            var (store', localReply) := LocalPut(Contents(files), key, body, l.maxFiles);
            reply == localReply && forall k :: LocalGet(Contents(files'), k) == LocalGet(store', k)
    ensures Get(files, key, now, l, fails) == (files, LocalGet(Contents(files), key))
  {
    ContentsFinds(files, key);
    if Find(files, key).None? {
      WithoutAbsent(files, key);
      CalmPut(files, key, body, now, written, l, fails);
      forall k
        ensures LocalGet(Contents(files + [File(key, body, written)]), k) == LocalGet(Contents(files)[key := body], k)
      {
        CalmContents(files, File(key, body, written), k);
      }
    }
  }

  lemma {:induction false} FindAppended(files: seq<File>, f: File, key: Key)
    requires forall g :: g in files ==> g.key != f.key
    ensures Find(files + [f], key) == if key == f.key then Some(f) else Find(files, key)
  {
    if files == [] {
      assert files + [f] == [f];
    } else {
      assert (files + [f])[1..] == files[1..] + [f];
      assert files[0] in files;
      FindAppended(files[1..], f, key);
    }
  }
}
