/**
  Lifecycle of the live path per peer, with an aggregate state and a merged stream table that mirror the
  per-peer records. A stream record is an object shared by both tables, so the mirror holds its
  identity; a key is a peer id after normalisation, and "" is no peer.
 */
module SessionManager {
  import opened Wrappers

  type Key = string

  datatype PeerState = Disconnected | Connecting | Handshaking | Secure | Stale | Failed

  datatype Stream = Stream(id: nat, state: PeerState)

  datatype Peer = Peer(state: PeerState, connected: bool, complete: bool, secureSince: int, staleSince: int,
                       lastActivity: int, lastOk: int, attempt: nat, streams: map<string, Stream>, inflight: set<nat>)

  function NewPeer(now: int): Peer {
    Peer(Disconnected, false, false, 0, 0, now, 0, 0, map[], {})
  }

  /** `order` is the order in which the peers were added. */
  datatype Manager = Manager(order: seq<Key>, peers: map<Key, Peer>, aggregate: PeerState, merged: map<string, nat>,
                             nextId: nat)

  const EMPTY := Manager([], map[], Disconnected, map[], 0)

  predicate AnyIn(peers: map<Key, Peer>, s: PeerState) {
    exists k :: k in peers && peers[k].state == s
  }

  function Derive(peers: map<Key, Peer>): PeerState {
    if AnyIn(peers, Secure) then Secure
    else if AnyIn(peers, Handshaking) then Handshaking
    else if AnyIn(peers, Connecting) then Connecting
    else if AnyIn(peers, Stale) then Stale
    else if AnyIn(peers, Failed) then Failed
    else Disconnected
  }

  function Ids(streams: map<string, Stream>): map<string, nat> {
    map d | d in streams :: streams[d].id
  }

  /** Later peers win where two hold a stream to one destination. */
  function Merge(order: seq<Key>, peers: map<Key, Peer>): map<string, nat> {
    if order == [] then map[]
    else
      var k := order[|order| - 1];
      Merge(order[..|order| - 1], peers) + (if k in peers then Ids(peers[k].streams) else map[])
  }

  function Sync(m: Manager): Manager {
    m.(aggregate := Derive(m.peers), merged := Merge(m.order, m.peers))
  }

  /** The record of a peer, or the one that would be added for it. */
  function Record(m: Manager, key: Key, now: int): Peer {
    if key in m.peers then m.peers[key] else NewPeer(now)
  }

  /** Puts a record in place, a new one at the end of the order. */
  function Put(m: Manager, key: Key, p: Peer): Manager {
    m.(order := if key in m.peers then m.order else m.order + [key], peers := m.peers[key := p])
  }

  // ---------- what a call makes of one record ----------

  function OpenedAs(p: Peer, s: PeerState, now: int): Peer {
    p.(connected := true, state := s, lastActivity := now)
  }

  function Completed(p: Peer, now: int): Peer {
    p.(connected := true, complete := true, state := Secure, secureSince := now, staleSince := 0, lastOk := now,
       lastActivity := now)
  }

  function Cleared(p: Peer, keepReconnect: bool, now: int): Peer {
    p.(connected := false, complete := false, state := Disconnected, secureSince := 0, staleSince := 0,
       streams := map[],
       inflight := {}, lastActivity := now, attempt := if keepReconnect then p.attempt else 0)
  }

  function FailedPeer(p: Peer, now: int): Peer {
    p.(connected := false, complete := false, state := Failed, staleSince := 0, lastActivity := now)
  }

  function WithStream(p: Peer, dest: string, id: nat, s: PeerState, now: int): Peer {
    OpenedAs(p, s, now).(streams := p.streams[dest := Stream(id, s)])
  }

  function WithoutStream(p: Peer, dest: string, now: int): Peer {
    var q := p.(streams := p.streams - {dest}, lastActivity := now);
    if q.streams == map[] then
      q.(connected := false, complete := false, state := Disconnected, secureSince := 0, staleSince := 0,
         inflight := {})
    else q
  }

  function Updated(p: Peer, dest: string, id: nat, s: PeerState, now: int): Peer {
    var q := WithStream(p, dest, if dest in p.streams then p.streams[dest].id else id, s, now);
    if s.Secure? then
      q.(complete := true, staleSince := 0, secureSince := if p.secureSince <= 0 then now else p.secureSince)
    else q
  }

  function Later(a: int, b: int): int {
    if a >= b then a else b
  }

  /** Past its time to live a complete session is marked stale. */
  function Aged(p: Peer, ttl: int, now: int): Peer {
    if ttl > 0 && p.connected && p.complete && p.secureSince > 0
       && now - Later(Later(p.lastActivity, p.lastOk), p.secureSince) >= ttl then
      p.(staleSince := if p.staleSince <= 0 then now else p.staleSince,
         state := if p.state.Secure? then Stale else p.state)
    else p
  }

  function Healthy(p: Peer, now: int): Peer {
    p.(connected := true, complete := true, state := Secure, lastOk := now, staleSince := 0, lastActivity := now,
       secureSince := if p.secureSince <= 0 then now else p.secureSince, attempt := 0)
  }

  function Troubled(p: Peer, markStale: bool, now: int): Peer {
    var q := p.(lastActivity := now);
    if markStale then q.(state := Stale, staleSince := if p.staleSince <= 0 then now else p.staleSince) else q
  }

  function BackedOff(p: Peer, now: int): Peer {
    p.(attempt := p.attempt + 1, lastActivity := now)
  }

  function Pow2(n: nat): (p: nat)
    ensures p >= 1
  {
    if n == 0 then 1 else 2 * Pow2(n - 1)
  }

  const MAX_DELAY := 30.0
  const LARGEST_EXPONENT := 1023

  /**
    The delay before jitter after one more failure, from one second up. None: the power no longer fits a
    floating-point number, and the call raises before it records anything.
   */
  function BackoffDelay(attempt: nat): Option<real> {
    if attempt > LARGEST_EXPONENT then None
    else Some(if Pow2(attempt) as real <= MAX_DELAY then Pow2(attempt) as real else MAX_DELAY)
  }

  // ---------- calls ----------

  datatype Call =
    | SetConnected(key: Key, state: PeerState)
    | SetComplete(key: Key)
    | ResetPeer(key: Key, keepReconnect: bool, drop: bool)
    | MarkFailed(key: Key)
    | ConnectBusy(key: Key, busy: bool)
    | Register(key: Key, dest: string, state: PeerState)
    | Unregister(key: Key, dest: string)
    | Update(key: Key, dest: string, state: PeerState)
    | Touch(key: Key)
    | RegisterMessage(key: Key, id: nat)
    | AckMessage(key: Key, id: nat)
    | ClearMessages(key: Key)
    | RefreshHealth(key: Key)
    | MarkHealthy(key: Key)
    | MarkTrouble(key: Key, markStale: bool)
    | Backoff(key: Key)
    | CloseAll

  /** The key is used as it is, or the first peer that has the destination is looked up. */
  function OwnerOf(order: seq<Key>, peers: map<Key, Peer>, key: Key, dest: string): Key {
    if key != "" || order == [] then key
    else if order[0] in peers && dest in peers[order[0]].streams then order[0]
    else OwnerOf(order[1..], peers, key, dest)
  }

  function Without(order: seq<Key>, key: Key): seq<Key> {
    if order == [] then [] else (if order[0] == key then [] else [order[0]]) + Without(order[1..], key)
  }

  /** A change of one record, then the mirrors. */
  function Change(m: Manager, key: Key, p: Peer): Manager {
    Sync(Put(m, key, p))
  }

  function AfterBusy(m: Manager, key: Key): Manager {
    if key in m.peers && m.peers[key].state.Connecting? && !m.peers[key].connected then
      Change(m, key, m.peers[key].(state := Disconnected))
    else m
  }

  /** A refresh touches the mirrors only where the state changes. */
  function Refresh(m: Manager, key: Key, ttl: int, now: int): Manager {
    if key !in m.peers then m
    else
      var p := Aged(m.peers[key], ttl, now);
      if p.state != m.peers[key].state then Change(m, key, p) else Put(m, key, p)
  }

  function Ready(p: Peer, staleIsOffline: bool): bool {
    p.connected && p.complete && !(p.state.Stale? && staleIsOffline)
  }

  /** Looking for a ready peer refreshes each one on the way. */
  function FindReady(m: Manager, order: seq<Key>, ttl: int, staleIsOffline: bool, now: int): Manager
    decreases |order|
  {
    if order == [] then m
    else
      var m' := Refresh(m, order[0], ttl, now);
      if order[0] in m'.peers && Ready(m'.peers[order[0]], staleIsOffline) then m'
      else FindReady(m', order[1..], ttl, staleIsOffline, now)
  }

  datatype Settings = Settings(ttl: int, staleIsOffline: bool)

  /** Activity and messages in flight, without the mirrors. */
  function Note(m: Manager, key: Key, inflight: set<nat>, now: int): Manager {
    Put(m, key, Record(m, key, now).(lastActivity := now, inflight := inflight))
  }

  /** An identity has been given to a stream record. */
  function NextId(m: Manager): Manager {
    m.(nextId := m.nextId + 1)
  }

  function Settle(m: Manager, s: Settings, now: int): Manager {
    FindReady(m, m.order, s.ttl, s.staleIsOffline, now)
  }

  function DropPeer(m: Manager, key: Key): Manager {
    Sync(m.(order := Without(m.order, key), peers := m.peers - {key}))
  }

  function Apply(m: Manager, c: Call, s: Settings, now: int): Manager {
    match c
    case SetConnected(key, state) => if key == "" then m else Change(m, key, OpenedAs(Record(m, key, now), state, now))
    case SetComplete(key) => if key == "" then m else Change(m, key, Completed(Record(m, key, now), now))
    case ResetPeer(key, keepReconnect, drop) =>
      if key == "" || key !in m.peers then m
      else if drop then DropPeer(m, key)
      else Change(m, key, Cleared(m.peers[key], keepReconnect, now))
    case MarkFailed(key) => if key == "" then m else Change(m, key, FailedPeer(Record(m, key, now), now))
    case ConnectBusy(key, busy) => if busy || key == "" then m else AfterBusy(m, key)
    case Register(key, dest, state) =>
      if key == "" then NextId(m.(aggregate := state))
      else NextId(Change(m, key, WithStream(Record(m, key, now), dest, m.nextId, state, now)))
    case Unregister(key, dest) =>
      var k := OwnerOf(m.order, m.peers, key, dest);
      if k in m.peers then Change(m, k, WithoutStream(m.peers[k], dest, now)) else Sync(m)
    case Update(key, dest, state) =>
      if key == "" then m.(aggregate := state)
      else NextId(Change(m, key, Updated(Record(m, key, now), dest, m.nextId, state, now)))
    case Touch(key) => if key in m.peers then Note(m, key, m.peers[key].inflight, now) else m
    case RegisterMessage(key, id) => if key == "" then m else Note(m, key, Record(m, key, now).inflight + {id}, now)
    case AckMessage(key, id) =>
      if key in m.peers && id in m.peers[key].inflight then Note(m, key, m.peers[key].inflight - {id}, now) else m
    case ClearMessages(key) => if key in m.peers then Note(m, key, {}, now) else m
    case RefreshHealth(key) => Refresh(m, key, s.ttl, now)
    case MarkHealthy(key) => if key == "" then m else Change(m, key, Healthy(Record(m, key, now), now))
    case MarkTrouble(key, markStale) =>
      if key == "" then Settle(m, s, now)
      else Settle(Change(m, key, Troubled(Record(m, key, now), markStale, now)), s, now)
    case Backoff(key) =>
      if key == "" then Settle(m, s, now)
      else if BackoffDelay(Record(m, key, now).attempt).None? then m
      else Settle(Change(m, key, BackedOff(Record(m, key, now), now)), s, now)
    case CloseAll => Manager([], map[], Disconnected, map[], m.nextId)
  }

  // ---------- invariants ----------

  ghost predicate TableOk(m: Manager) {
    && (forall k :: k in m.order <==> k in m.peers)
    && (forall i, j :: 0 <= i < j < |m.order| ==> m.order[i] != m.order[j])
  }

  /** Both mirrors equal recomputation from the per-peer table. */
  ghost predicate Agrees(m: Manager) {
    m.aggregate == Derive(m.peers) && m.merged == Merge(m.order, m.peers)
  }

  predicate PeerOk(p: Peer) {
    && (p.complete ==> p.connected)
    && (p.state.Secure? ==> p.complete && p.secureSince > 0 && p.staleSince == 0)
  }

  ghost predicate PeersOk(m: Manager) {
    forall k :: k in m.peers ==> PeerOk(m.peers[k])
  }

  ghost predicate Inv(m: Manager) {
    TableOk(m) && Agrees(m) && PeersOk(m)
  }

  /** A record that may be opened as secure again. */
  predicate IsSecured(p: Peer) {
    p.complete && p.secureSince > 0 && p.staleSince == 0
  }

  /** A peer or stream is opened as secure only where it already is; without a peer the state must be the aggregate. */
  predicate Guard(m: Manager, c: Call, now: int) {
    match c
    case SetConnected(key, state) => key == "" || !state.Secure? || IsSecured(Record(m, key, now))
    case Register(key, _, state) =>
      if key == "" then state == m.aggregate else !state.Secure? || IsSecured(Record(m, key, now))
    case Update(key, _, state) => key == "" ==> state == m.aggregate
    case _ => true
  }

  // ---------- mirrors under a change of one record ----------

  lemma {:induction false} MergeIgnores(order: seq<Key>, a: map<Key, Peer>, b: map<Key, Peer>)
    requires forall k :: k in order ==> (k in a <==> k in b)
    requires forall k :: k in order && k in a ==> a[k].streams == b[k].streams
    ensures Merge(order, a) == Merge(order, b)
  {
    if order != [] {
      MergeIgnores(order[..|order| - 1], a, b);
      assert order[|order| - 1] in order;
    }
  }

  lemma SameStates(a: map<Key, Peer>, b: map<Key, Peer>)
    requires forall k :: k in a && !a[k].state.Disconnected? ==> k in b && b[k].state == a[k].state
    requires forall k :: k in b && !b[k].state.Disconnected? ==> k in a && a[k].state == b[k].state
    ensures Derive(a) == Derive(b)
  {
    assert forall s :: s != Disconnected ==> (AnyIn(a, s) <==> AnyIn(b, s));
  }

  lemma PutKeepsTable(m: Manager, key: Key, p: Peer)
    requires TableOk(m) && PeersOk(m) && PeerOk(p)
    ensures TableOk(Put(m, key, p)) && PeersOk(Put(m, key, p))
  {
  }

  lemma ChangeKeepsInv(m: Manager, key: Key, p: Peer)
    requires TableOk(m) && PeersOk(m) && PeerOk(p)
    ensures Inv(Change(m, key, p))
  {
    PutKeepsTable(m, key, p);
  }

  /** Without a change of state or streams the mirrors stay right as they are. */
  lemma QuietPutKeepsInv(m: Manager, key: Key, p: Peer, now: int)
    requires Inv(m) && PeerOk(p)
    requires p.state == Record(m, key, now).state && p.streams == Record(m, key, now).streams
    ensures Inv(Put(m, key, p))
  {
    PutKeepsTable(m, key, p);
    SameStates(m.peers, m.peers[key := p]);
    if key in m.peers {
      MergeIgnores(m.order, m.peers, m.peers[key := p]);
    } else {
      NewcomerAddsNothing(m, key, p);
    }
  }

  lemma NewcomerAddsNothing(m: Manager, key: Key, p: Peer)
    requires TableOk(m) && key !in m.peers && p.streams == map[]
    ensures Merge(m.order + [key], m.peers[key := p]) == Merge(m.order, m.peers)
  {
    var order, peers := m.order + [key], m.peers[key := p];
    MergeIgnores(m.order, m.peers, peers);
    assert order[..|order| - 1] == m.order && order[|order| - 1] == key;
    assert Ids(p.streams) == map[];
  }

  lemma RefreshKeepsInv(m: Manager, key: Key, ttl: int, now: int)
    requires Inv(m) && now > 0
    ensures Inv(Refresh(m, key, ttl, now)) && Refresh(m, key, ttl, now).order == m.order
  {
    if key in m.peers {
      var p := Aged(m.peers[key], ttl, now);
      assert PeerOk(p);
      if p.state != m.peers[key].state {
        ChangeKeepsInv(m, key, p);
      } else {
        QuietPutKeepsInv(m, key, p, now);
      }
    }
  }

  lemma {:induction false} FindReadyKeepsInv(m: Manager, order: seq<Key>, ttl: int, staleIsOffline: bool, now: int)
    requires Inv(m) && now > 0
    ensures Inv(FindReady(m, order, ttl, staleIsOffline, now))
    decreases |order|
  {
    if order != [] {
      RefreshKeepsInv(m, order[0], ttl, now);
      FindReadyKeepsInv(Refresh(m, order[0], ttl, now), order[1..], ttl, staleIsOffline, now);
    }
  }

  lemma {:induction false} WithoutIs(order: seq<Key>, key: Key)
    ensures forall k :: k in Without(order, key) <==> k in order && k != key
    ensures (forall i, j :: 0 <= i < j < |order| ==> order[i] != order[j]) ==>
              forall i, j :: 0 <= i < j < |Without(order, key)| ==> Without(order, key)[i] != Without(order, key)[j]
  {
    if order != [] {
      WithoutIs(order[1..], key);
      var rest := Without(order[1..], key);
      forall j | 0 <= j < |rest| ensures rest[j] in order[1..] {
        assert rest[j] in rest;
      }
    }
  }

  lemma DropKeepsInv(m: Manager, key: Key)
    requires Inv(m)
    ensures Inv(DropPeer(m, key))
  {
    WithoutIs(m.order, key);
  }

  /** Calls that open, complete or fail a peer. */
  predicate Opens(c: Call) {
    c.SetConnected? || c.SetComplete? || c.MarkFailed? || (c.MarkHealthy? && c.key != "")
  }

  lemma RecordOk(m: Manager, key: Key, now: int)
    requires PeersOk(m)
    ensures PeerOk(Record(m, key, now))
  {
  }

  lemma OpensKeepsInv(m: Manager, c: Call, s: Settings, now: int)
    requires Inv(m) && Guard(m, c, now) && now > 0 && Opens(c)
    ensures Inv(Apply(m, c, s, now))
  {
    var p := Record(m, c.key, now);
    RecordOk(m, c.key, now);
    match c
    case SetConnected(key, state) =>
      if key != "" {
        ChangeKeepsInv(m, key, OpenedAs(p, state, now));
      }
    case SetComplete(key) => ChangeKeepsInv(m, key, Completed(p, now));
    case MarkFailed(key) => ChangeKeepsInv(m, key, FailedPeer(p, now));
    case MarkHealthy(key) => ChangeKeepsInv(m, key, Healthy(p, now));
  }

  lemma StreamRecordsOk(p: Peer, dest: string, id: nat, state: PeerState, now: int)
    requires PeerOk(p) && now > 0
    ensures !state.Secure? || IsSecured(p) ==> PeerOk(WithStream(p, dest, id, state, now))
    ensures PeerOk(Updated(p, dest, id, state, now))
  {
  }

  lemma NextIdKeepsInv(m: Manager)
    requires Inv(m)
    ensures Inv(NextId(m))
  {
  }

  lemma StreamsKeepInv(m: Manager, key: Key, dest: string, state: PeerState, now: int)
    requires Inv(m) && now > 0
    ensures !state.Secure? || IsSecured(Record(m, key, now)) ==>
              Inv(NextId(Change(m, key, WithStream(Record(m, key, now), dest, m.nextId, state, now))))
    ensures Inv(NextId(Change(m, key, Updated(Record(m, key, now), dest, m.nextId, state, now))))
  {
    var p := Record(m, key, now);
    var q, r := WithStream(p, dest, m.nextId, state, now), Updated(p, dest, m.nextId, state, now);
    RecordOk(m, key, now);
    StreamRecordsOk(p, dest, m.nextId, state, now);
    ChangeKeepsInv(m, key, r);
    NextIdKeepsInv(Change(m, key, r));
    if !state.Secure? || IsSecured(p) {
      ChangeKeepsInv(m, key, q);
      NextIdKeepsInv(Change(m, key, q));
    }
  }

  lemma ClosesKeepInv(m: Manager, c: Call, s: Settings, now: int)
    requires Inv(m) && now > 0 && (c.ResetPeer? || c.Unregister? || c.ConnectBusy? || c.CloseAll?)
    ensures Inv(Apply(m, c, s, now))
  {
    match c
    case ResetPeer(key, keepReconnect, drop) =>
      if key in m.peers {
        if drop {
          DropKeepsInv(m, key);
        } else {
          ChangeKeepsInv(m, key, Cleared(m.peers[key], keepReconnect, now));
        }
      }
    case Unregister(key, dest) =>
      var k := OwnerOf(m.order, m.peers, key, dest);
      if k in m.peers {
        assert PeerOk(m.peers[k]);
        ChangeKeepsInv(m, k, WithoutStream(m.peers[k], dest, now));
      }
    case ConnectBusy(key, busy) =>
      if key in m.peers {
        assert PeerOk(m.peers[key]);
        ChangeKeepsInv(m, key, m.peers[key].(state := Disconnected));
      }
    case CloseAll =>
  }

  /** Bookkeeping that touches neither state nor streams. */
  lemma NoteKeepsInv(m: Manager, key: Key, inflight: set<nat>, now: int)
    requires Inv(m)
    ensures Inv(Note(m, key, inflight, now))
  {
    RecordOk(m, key, now);
    QuietPutKeepsInv(m, key, Record(m, key, now).(lastActivity := now, inflight := inflight), now);
  }

  lemma QuietKeepInv(m: Manager, c: Call, s: Settings, now: int)
    requires Inv(m) && (c.Touch? || c.RegisterMessage? || c.AckMessage? || c.ClearMessages?)
    ensures Inv(Apply(m, c, s, now))
  {
    var m' := Apply(m, c, s, now);
    if m' != m {
      var inflight :| m' == Note(m, c.key, inflight, now);
      NoteKeepsInv(m, c.key, inflight, now);
    }
  }

  lemma SettleKeepsInv(m: Manager, s: Settings, now: int)
    requires Inv(m) && now > 0
    ensures Inv(Settle(m, s, now))
  {
    FindReadyKeepsInv(m, m.order, s.ttl, s.staleIsOffline, now);
  }

  lemma ChangeThenSettle(m: Manager, key: Key, p: Peer, s: Settings, now: int)
    requires Inv(m) && PeerOk(p) && now > 0
    ensures Inv(Settle(Change(m, key, p), s, now))
  {
    ChangeKeepsInv(m, key, p);
    SettleKeepsInv(Change(m, key, p), s, now);
  }

  lemma TroubleKeepsInv(m: Manager, c: Call, s: Settings, now: int)
    requires Inv(m) && now > 0 && (c.MarkTrouble? || c.Backoff?)
    ensures Inv(Apply(m, c, s, now))
  {
    SettleKeepsInv(m, s, now);
    ReportsOk(m, c.key, now);
    var p, m' := Record(m, c.key, now), Apply(m, c, s, now);
    var q := if c.MarkTrouble? then Troubled(p, c.markStale, now) else BackedOff(p, now);
    if m' != m && m' != Settle(m, s, now) {
      assert m' == Settle(Change(m, c.key, q), s, now);
      ChangeThenSettle(m, c.key, q, s, now);
    }
  }

  lemma ReportsOk(m: Manager, key: Key, now: int)
    requires PeersOk(m)
    ensures PeerOk(BackedOff(Record(m, key, now), now))
    ensures forall markStale :: PeerOk(Troubled(Record(m, key, now), markStale, now))
  {
    RecordOk(m, key, now);
  }

  lemma GuardedKeepsInv(m: Manager, c: Call, s: Settings, now: int)
    requires Inv(m) && Guard(m, c, now) && now > 0
    ensures Inv(Apply(m, c, s, now))
  {
    if Opens(c) {
      OpensKeepsInv(m, c, s, now);
    } else if c.Register? || c.Update? {
      StreamsKeepInv(m, c.key, c.dest, c.state, now);
    } else if c.ResetPeer? || c.Unregister? || c.ConnectBusy? || c.CloseAll? {
      ClosesKeepInv(m, c, s, now);
    } else if c.MarkTrouble? || c.Backoff? {
      TroubleKeepsInv(m, c, s, now);
    } else if c.RefreshHealth? {
      RefreshKeepsInv(m, c.key, s.ttl, now);
    } else if !c.MarkHealthy? {
      QuietKeepInv(m, c, s, now);
    }
  }

  lemma UnguardedBreaksInv(m: Manager, c: Call, s: Settings, now: int)
    requires Inv(m) && !Guard(m, c, now) && now > 0
    ensures !Inv(Apply(m, c, s, now))
  {
    var m' := Apply(m, c, s, now);
    if c.key != "" {
      assert c.key in m'.peers && !PeerOk(m'.peers[c.key]);
    }
  }

  /**
    Every call, with or without a peer: afterwards the mirrors equal recomputation and every record is
    consistent, exactly when the call meets its guard.
   */
  lemma CallKeepsInvIff(m: Manager, c: Call, s: Settings, now: int)
    requires Inv(m) && now > 0
    ensures Inv(Apply(m, c, s, now)) <==> Guard(m, c, now)
  {
    if Guard(m, c, now) {
      GuardedKeepsInv(m, c, s, now);
    } else {
      UnguardedBreaksInv(m, c, s, now);
    }
  }

  datatype Timed = Timed(call: Call, at: int)

  function ApplyAll(m: Manager, calls: seq<Timed>, s: Settings): Manager
    decreases |calls|
  {
    if calls == [] then m else ApplyAll(Apply(m, calls[0].call, s, calls[0].at), calls[1..], s)
  }

  /** The mirrors and records are right after every call of the run. */
  ghost predicate AlwaysOk(m: Manager, calls: seq<Timed>, s: Settings)
    decreases |calls|
  {
    Inv(m) && (calls != [] ==> AlwaysOk(Apply(m, calls[0].call, s, calls[0].at), calls[1..], s))
  }

  predicate AllGuarded(m: Manager, calls: seq<Timed>, s: Settings)
    decreases |calls|
  {
    calls != [] ==>
      Guard(m, calls[0].call, calls[0].at) && AllGuarded(Apply(m, calls[0].call, s, calls[0].at), calls[1..], s)
  }

  /** Over every run they are right throughout exactly when every call meets its guard. */
  lemma {:induction false} RunKeepsInvIff(m: Manager, calls: seq<Timed>, s: Settings)
    requires Inv(m) && forall i :: 0 <= i < |calls| ==> calls[i].at > 0
    ensures AlwaysOk(m, calls, s) <==> AllGuarded(m, calls, s)
    ensures AllGuarded(m, calls, s) ==> Inv(ApplyAll(m, calls, s))
    decreases |calls|
  {
    if calls != [] {
      CallKeepsInvIff(m, calls[0].call, s, calls[0].at);
      if Guard(m, calls[0].call, calls[0].at) {
        RunKeepsInvIff(Apply(m, calls[0].call, s, calls[0].at), calls[1..], s);
      }
    }
  }

  // ---------- what the mirrors mean, and where they part ----------

  function Rank(s: PeerState): nat {
    match s
    case Secure => 5
    case Handshaking => 4
    case Connecting => 3
    case Stale => 2
    case Failed => 1
    case Disconnected => 0
  }

  /** The aggregate is the highest state that any peer is in. */
  lemma AggregateIsHighest(m: Manager, k: Key)
    requires Agrees(m) && k in m.peers
    ensures Rank(m.aggregate) >= Rank(m.peers[k].state)
    ensures m.aggregate == Disconnected || exists j :: j in m.peers && m.peers[j].state == m.aggregate
  {
    assert AnyIn(m.peers, m.peers[k].state);
  }

  /** A destination is in the merged table exactly when some peer has a stream to it, with such a stream's identity. */
  lemma {:induction false} MergedIsUnion(order: seq<Key>, peers: map<Key, Peer>, dest: string)
    requires forall k :: k in order ==> k in peers
    ensures dest in Merge(order, peers) <==> exists k :: k in order && dest in peers[k].streams
    ensures dest in Merge(order, peers) ==>
              exists k :: && k in order && dest in peers[k].streams
                          && peers[k].streams[dest].id == Merge(order, peers)[dest]
  {
    if order != [] {
      var front, last := order[..|order| - 1], order[|order| - 1];
      assert last in order && order == front + [last];
      MergedIsUnion(front, peers, dest);
      assert dest in Ids(peers[last].streams) <==> dest in peers[last].streams;
    }
  }

  /** Once the time to live has passed, a secure peer is reported stale everywhere. */
  lemma OldSessionTurnsStale(m: Manager, key: Key, ttl: int, now: int)
    requires Inv(m) && key in m.peers && m.peers[key].state.Secure? && ttl > 0 && now > 0
    ensures var p := m.peers[key];
            var stale := now - Later(Later(p.lastActivity, p.lastOk), p.secureSince) >= ttl;
            && Refresh(m, key, ttl, now).peers[key].state == (if stale then Stale else Secure)
            && (stale && (forall k :: k in m.peers && k != key ==> m.peers[k].state.Disconnected?) ==>
                  Refresh(m, key, ttl, now).aggregate == Stale)
  {
    var p := Aged(m.peers[key], ttl, now);
    assert PeerOk(m.peers[key]);
    if p.state.Stale? {
      var peers := Put(m, key, p).peers;
      assert key in peers && peers[key].state == Stale;
      assert forall k :: k in peers && k != key ==> peers[k] == m.peers[k];
    }
  }

  // ---------- backing off ----------

  lemma {:induction false} Pow2Grows(m: nat, n: nat)
    requires m <= n
    ensures Pow2(m) <= Pow2(n)
  {
    if m < n {
      Pow2Grows(m, n - 1);
    }
  }

  function BackoffAll(m: Manager, key: Key, times: seq<int>, s: Settings): Manager
    decreases |times|
  {
    if times == [] then m else BackoffAll(Apply(m, Backoff(key), s, times[0]), key, times[1..], s)
  }

  lemma {:induction false} FindReadyKeepsAttempts(m: Manager, order: seq<Key>, s: Settings, now: int, key: Key)
    ensures var m' := FindReady(m, order, s.ttl, s.staleIsOffline, now);
            (key in m'.peers <==> key in m.peers) && Record(m', key, 0).attempt == Record(m, key, 0).attempt
    decreases |order|
  {
    if order != [] {
      FindReadyKeepsAttempts(Refresh(m, order[0], s.ttl, now), order[1..], s, now, key);
    }
  }

  lemma BackoffStep(m: Manager, key: Key, now: int, s: Settings)
    requires key != ""
    ensures var before, after := Record(m, key, 0).attempt, Record(Apply(m, Backoff(key), s, now), key, 0).attempt;
            after == if before > LARGEST_EXPONENT then before else before + 1
  {
    var m1 := Change(m, key, BackedOff(Record(m, key, now), now));
    FindReadyKeepsAttempts(m1, m1.order, s, now, key);
  }

  /**
    Failures in a row are counted one by one up to the largest exponent; from then on scheduling a
    retry raises every time, until the peer is healthy again or forgotten.
   */
  lemma {:induction false} BackoffCounts(m: Manager, key: Key, times: seq<int>, s: Settings)
    requires key != "" && Record(m, key, 0).attempt <= LARGEST_EXPONENT + 1
    ensures var before, after := Record(m, key, 0).attempt, Record(BackoffAll(m, key, times, s), key, 0).attempt;
            after == if before + |times| <= LARGEST_EXPONENT + 1 then before + |times| else LARGEST_EXPONENT + 1
    decreases |times|
  {
    if times != [] {
      BackoffStep(m, key, times[0], s);
      BackoffCounts(Apply(m, Backoff(key), s, times[0]), key, times[1..], s);
    }
  }

  /** The delay the `k`-th of these failures in a row leads to. */
  function DelayAt(m: Manager, key: Key, times: seq<int>, s: Settings, k: nat): Option<real>
    requires k < |times|
  {
    BackoffDelay(Record(BackoffAll(m, key, times[..k], s), key, 0).attempt)
  }

  /** Over every row of failures the delays never shrink and never pass the longest one. */
  lemma DelaysNeverShrink(m: Manager, key: Key, times: seq<int>, s: Settings, i: nat, j: nat)
    requires key != "" && Record(m, key, 0).attempt <= LARGEST_EXPONENT + 1
    requires i <= j < |times| && DelayAt(m, key, times, s, j).Some?
    ensures DelayAt(m, key, times, s, i).Some?
    ensures 1.0 <= DelayAt(m, key, times, s, i).value <= DelayAt(m, key, times, s, j).value <= MAX_DELAY
  {
    BackoffCounts(m, key, times[..i], s);
    BackoffCounts(m, key, times[..j], s);
    var before := Record(m, key, 0).attempt;
    Pow2Grows(before + i, before + j);
  }

  // ---------- the manager ----------

  class Lifecycle {
    const settings: Settings
    var order: seq<Key>
    var peers: map<Key, Peer>
    var aggregate: PeerState
    var merged: map<string, nat>
    var nextId: nat

    constructor (settings: Settings)
      ensures this.settings == settings && View() == EMPTY
    {
      this.settings := settings;
      order, peers, aggregate, merged, nextId := [], map[], Disconnected, map[], 0;
    }

    function View(): Manager
      reads this
    {
      Manager(order, peers, aggregate, merged, nextId)
    }

    /** Both mirrors, rebuilt from the per-peer table. */
    method SyncLegacyViews()
      modifies this
      ensures View() == Sync(old(View()))
    {
      var all: map<string, nat> := map[];
      var i := 0;
      while i < |order|
        invariant i <= |order| && View() == old(View()) && all == Merge(order[..i], peers)
      {
        assert order[..i + 1][..i] == order[..i];
        if order[i] in peers {
          all := all + Ids(peers[order[i]].streams);
        } else {
          assert all + map[] == all;
        }
        i := i + 1;
      }
      assert order[..i] == order;
      merged := all;
      aggregate := Derive(peers);
    }

    method EnsurePeer(key: Key, now: int) returns (p: Peer)
      modifies this
      ensures p == Record(old(View()), key, now)
      ensures View() == Put(old(View()), key, p)
    {
      if key !in peers {
        order := order + [key];
        peers := peers[key := NewPeer(now)];
      }
      p := peers[key];
      assert peers == old(peers)[key := p];
    }

    /** Replaces the record just looked up, then the mirrors. */
    method SavePeer(key: Key, before: Peer, p: Peer, ghost was: Manager)
      requires View() == Put(was, key, before)
      modifies this
      ensures View() == Change(was, key, p)
    {
      assert was.peers[key := before][key := p] == was.peers[key := p];
      peers := peers[key := p];
      SyncLegacyViews();
    }

    method SetPeerConnected(key: Key, state: PeerState, now: int)
      modifies this
      ensures View() == Apply(old(View()), SetConnected(key, state), settings, now)
    {
      if key == "" {
        return;
      }
      var p := EnsurePeer(key, now);
      SavePeer(key, p, OpenedAs(p, state, now), old(View()));
    }

    method SetPeerHandshakeComplete(key: Key, now: int)
      modifies this
      ensures View() == Apply(old(View()), SetComplete(key), settings, now)
    {
      if key == "" {
        return;
      }
      var p := EnsurePeer(key, now);
      SavePeer(key, p, Completed(p, now), old(View()));
    }

    method ResetPeerLifecycle(key: Key, keepReconnect: bool, drop: bool, now: int)
      modifies this
      ensures View() == Apply(old(View()), ResetPeer(key, keepReconnect, drop), settings, now)
    {
      if key == "" || key !in peers {
        return;
      }
      if drop {
        order, peers := Without(order, key), peers - {key};
      } else {
        peers := peers[key := Cleared(peers[key], keepReconnect, now)];
      }
      SyncLegacyViews();
    }

    method MarkPeerFailed(key: Key, now: int)
      modifies this
      ensures View() == Apply(old(View()), MarkFailed(key), settings, now)
    {
      if key == "" {
        return;
      }
      var p := EnsurePeer(key, now);
      SavePeer(key, p, FailedPeer(p, now), old(View()));
    }

    method RegisterStream(key: Key, dest: string, state: PeerState, now: int)
      modifies this
      ensures View() == Apply(old(View()), Register(key, dest, state), settings, now)
    {
      if key == "" {
        aggregate := state;
      } else {
        var p := EnsurePeer(key, now);
        SavePeer(key, p, WithStream(p, dest, nextId, state, now), old(View()));
      }
      nextId := nextId + 1;
    }

    method UnregisterStream(key: Key, dest: string, now: int)
      modifies this
      ensures View() == Apply(old(View()), Unregister(key, dest), settings, now)
    {
      var k := OwnerOf(order, peers, key, dest);
      if k in peers {
        peers := peers[k := WithoutStream(peers[k], dest, now)];
      }
      SyncLegacyViews();
    }

    method UpdateStreamState(key: Key, dest: string, state: PeerState, now: int)
      modifies this
      ensures View() == Apply(old(View()), Update(key, dest, state), settings, now)
    {
      if key == "" {
        aggregate := state;
        return;
      }
      var p := EnsurePeer(key, now);
      SavePeer(key, p, Updated(p, dest, nextId, state, now), old(View()));
      nextId := nextId + 1;
    }

    method RefreshPeerHealth(key: Key, now: int)
      modifies this
      ensures View() == Refresh(old(View()), key, settings.ttl, now)
    {
      if key !in peers {
        return;
      }
      var before := peers[key].state;
      peers := peers[key := Aged(peers[key], settings.ttl, now)];
      if peers[key].state != before {
        SyncLegacyViews();
      }
    }

    /** Looks for a ready peer, refreshing each one on the way. */
    method HasReadyPeer(now: int) returns (found: bool)
      modifies this
      ensures View() == Settle(old(View()), settings, now)
    {
      var keys := order;
      var i := 0;
      found := false;
      while i < |keys| && !found
        invariant i <= |keys|
        invariant Settle(old(View()), settings, now)
               == if found then View() else FindReady(View(), keys[i..], settings.ttl, settings.staleIsOffline, now)
        decreases |keys| - i
      {
        assert keys[i..][0] == keys[i] && keys[i..][1..] == keys[i + 1..];
        RefreshPeerHealth(keys[i], now);
        found := keys[i] in peers && Ready(peers[keys[i]], settings.staleIsOffline);
        i := i + 1;
      }
    }

    method MarkLiveHealthy(key: Key, now: int)
      modifies this
      ensures View() == Apply(old(View()), MarkHealthy(key), settings, now)
    {
      if key == "" {
        return;
      }
      var p := EnsurePeer(key, now);
      SavePeer(key, p, Healthy(p, now), old(View()));
    }

    method MarkLiveFailure(key: Key, markStale: bool, now: int)
      modifies this
      ensures View() == Apply(old(View()), MarkTrouble(key, markStale), settings, now)
    {
      if key != "" {
        var p := EnsurePeer(key, now);
        SavePeer(key, p, Troubled(p, markStale, now), old(View()));
      }
      var _ := HasReadyPeer(now);
    }

    method ScheduleReconnectBackoff(key: Key, now: int) returns (delay: Option<real>)
      requires key != ""
      modifies this
      ensures View() == Apply(old(View()), Backoff(key), settings, now)
      ensures delay == BackoffDelay(Record(old(View()), key, now).attempt)
    {
      var p := if key in peers then peers[key] else NewPeer(now);
      delay := BackoffDelay(p.attempt);
      if delay.None? {
        return;
      }
      p := EnsurePeer(key, now);
      SavePeer(key, p, BackedOff(p, now), old(View()));
      var _ := HasReadyPeer(now);
    }
  }
}
