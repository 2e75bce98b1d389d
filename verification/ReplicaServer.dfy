/**
  The replica server's store: one file per key, removed after its time to live or, oldest first, to make
  room. Removing a file may fail; the segment from the existence check to the write runs without
  interruption, so it is one step of the server.
 */
module ReplicaServer {
  import opened Wrappers

  type Key = string

  /** Stored under a path that stands for its key; `written` is the modification time. */
  datatype File = File(key: Key, body: string, written: int)

  datatype Limits = Limits(ttl: nat, maxFiles: nat, maxBytes: nat)

  /** Which removals fail in one step. */
  type Fails = Key -> bool

  predicate Expired(f: File, now: int, ttl: nat) {
    now - f.written > ttl
  }

  function LiveOf(files: seq<File>, now: int, ttl: nat): seq<File> {
    if files == [] then []
    else (if Expired(files[0], now, ttl) then [] else [files[0]]) + LiveOf(files[1..], now, ttl)
  }

  function Bytes(files: seq<File>): nat {
    if files == [] then 0 else |files[0].body| + Bytes(files[1..])
  }

  function Without(files: seq<File>, key: Key): seq<File> {
    if files == [] then []
    else (if files[0].key == key then [] else [files[0]]) + Without(files[1..], key)
  }

  function Find(files: seq<File>, key: Key): (found: Option<File>)
    ensures found.Some? ==> found.value in files && found.value.key == key
    ensures found.None? ==> forall f :: f in files ==> f.key != key
  {
    if files == [] then None else if files[0].key == key then Some(files[0]) else Find(files[1..], key)
  }

  // ---------- pruning ----------

  /** The directory, the entries still taken for live, and their bytes as the pruning counts them. */
  datatype Pruning = Pruning(files: seq<File>, live: seq<File>, total: int)

  function SweepOne(p: Pruning, f: File, now: int, ttl: nat, fails: Fails): Pruning {
    if !Expired(f, now, ttl) then p.(live := p.live + [f], total := p.total + |f.body|)
    else if fails(f.key) then p
    else p.(files := Without(p.files, f.key))
  }

  function Sweep(p: Pruning, entries: seq<File>, now: int, ttl: nat, fails: Fails): Pruning
    decreases |entries|
  {
    if entries == [] then p else Sweep(SweepOne(p, entries[0], now, ttl, fails), entries[1..], now, ttl, fails)
  }

  function InsertByAge(sorted: seq<File>, f: File): seq<File> {
    if sorted == [] then [f]
    else if sorted[|sorted| - 1].written > f.written then
      InsertByAge(sorted[..|sorted| - 1], f) + [sorted[|sorted| - 1]]
    else sorted + [f]
  }

  /** Stable, by modification time. */
  function OldestFirst(files: seq<File>): seq<File> {
    if files == [] then [] else InsertByAge(OldestFirst(files[..|files| - 1]), files[|files| - 1])
  }

  predicate NeedsRoom(count: nat, total: int, incoming: nat, l: Limits) {
    count >= l.maxFiles || total + incoming > l.maxBytes
  }

  function EvictOne(p: Pruning, fails: Fails): Pruning
    requires p.live != []
  {
    var f := p.live[0];
    if fails(f.key) then p.(live := p.live[1..])
    else Pruning(Without(p.files, f.key), p.live[1..], p.total - |f.body|)
  }

  function Evict(p: Pruning, incoming: nat, l: Limits, fails: Fails): Pruning
    decreases |p.live|
  {
    if p.live != [] && NeedsRoom(|p.live|, p.total, incoming, l) then Evict(EvictOne(p, fails), incoming, l, fails)
    else p
  }

  function Prune(files: seq<File>, incoming: nat, now: int, l: Limits, fails: Fails): (seq<File>, bool) {
    var p := Sweep(Pruning(files, [], 0), files, now, l.ttl, fails);
    if incoming > l.maxBytes then (p.files, false)
    else
      var p' := Evict(p.(live := OldestFirst(p.live)), incoming, l, fails);
      (p'.files, !NeedsRoom(|p'.live|, p'.total, incoming, l))
  }

  // ---------- requests ----------

  datatype PutReply = OK | EXISTS | FULL

  /** The file of this key is still there after the existence check of a request. */
  predicate StillThere(f: Option<File>, now: int, l: Limits, fails: Fails) {
    f.Some? && (!Expired(f.value, now, l.ttl) || fails(f.value.key))
  }

  /** A PUT once its body is read; `written` is the time of the write that ends it. */
  function Put(files: seq<File>, key: Key, body: string, now: int, written: int, l: Limits, fails: Fails)
    : (seq<File>, PutReply)
  {
    if StillThere(Find(files, key), now, l, fails) then (files, EXISTS)
    else
      var (files', room) := Prune(Without(files, key), |body|, now, l, fails);
      if room then (files' + [File(key, body, written)], OK) else (files', FULL)
  }

  /** None is a MISS. */
  function Get(files: seq<File>, key: Key, now: int, l: Limits, fails: Fails): (seq<File>, Option<string>) {
    var f := Find(files, key);
    if StillThere(f, now, l, fails) then (files, Some(f.value.body)) else (Without(files, key), None)
  }

  class Server {
    const limits: Limits
    var files: seq<File>

    constructor (limits: Limits)
      ensures this.limits == limits && files == []
    {
      this.limits := limits;
      files := [];
    }

    /** The in-place pass before a write and on every collection tick. */
    method PruneStore(incoming: nat, now: int, fails: Fails) returns (room: bool)
      modifies this
      ensures (files, room) == Prune(old(files), incoming, now, limits, fails)
    {
      var entries := files;
      var total: int := 0;
      var live: seq<File> := [];
      ghost var swept := Sweep(Pruning(files, [], 0), entries, now, limits.ttl, fails);
      var i := 0;
      while i < |entries|
        invariant i <= |entries|
        invariant swept == Sweep(Pruning(files, live, total), entries[i..], now, limits.ttl, fails)
      {
        var f := entries[i];
        assert entries[i..][0] == f && entries[i..][1..] == entries[i + 1..];
        if Expired(f, now, limits.ttl) {
          if !fails(f.key) {
            files := Without(files, f.key);
          }
        } else {
          live := live + [f];
          total := total + |f.body|;
        }
        i := i + 1;
      }
      if incoming > limits.maxBytes {
        return false;
      }
      live := OldestFirst(live);
      ghost var evicted := Evict(Pruning(files, live, total), incoming, limits, fails);
      while live != [] && NeedsRoom(|live|, total, incoming, limits)
        invariant evicted == Evict(Pruning(files, live, total), incoming, limits, fails)
        decreases |live|
      {
        var f := live[0];
        live := live[1..];
        if !fails(f.key) {
          files := Without(files, f.key);
          total := total - |f.body|;
        }
      }
      room := !NeedsRoom(|live|, total, incoming, limits);
    }

    method RemoveIfExpired(key: Key, now: int, fails: Fails) returns (removed: bool)
      modifies this
      ensures var f := Find(old(files), key);
              && removed == (f.Some? && !StillThere(f, now, limits, fails))
              && files == if removed then Without(old(files), key) else old(files)
    {
      var f := Find(files, key);
      if f.None? || !Expired(f.value, now, limits.ttl) || fails(key) {
        return false;
      }
      files := Without(files, key);
      removed := true;
    }

    method HandlePut(key: Key, body: string, now: int, written: int, fails: Fails) returns (reply: PutReply)
      requires Distinct(files)
      modifies this
      ensures (files, reply) == Put(old(files), key, body, now, written, limits, fails)
    {
      var found := Find(files, key);
      if found.Some? {
        var removed := RemoveIfExpired(key, now, fails);
        if !removed {
          return EXISTS;
        }
      } else {
        WithoutAbsent(files, key);
      }
      var room := PruneStore(|body|, now, fails);
      if !room {
        return FULL;
      }
      files := files + [File(key, body, written)];
      reply := OK;
    }

    method HandleGet(key: Key, now: int, fails: Fails) returns (body: Option<string>)
      modifies this
      ensures (files, body) == Get(old(files), key, now, limits, fails)
    {
      var found := Find(files, key);
      if found.None? {
        WithoutAbsent(files, key);
        return None;
      }
      var removed := RemoveIfExpired(key, now, fails);
      if removed {
        return None;
      }
      body := Some(found.value.body);
    }
  }

  /** One file per path. */
  ghost predicate Distinct(files: seq<File>) {
    forall i, j :: 0 <= i < j < |files| ==> files[i].key != files[j].key
  }

  lemma {:induction false} WithoutAbsent(files: seq<File>, key: Key)
    requires forall f :: f in files ==> f.key != key
    ensures Without(files, key) == files
  {
    if files != [] {
      WithoutAbsent(files[1..], key);
      assert files[0] in files;
    }
  }
}
