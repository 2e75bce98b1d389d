/** What every run of offline sends guarantees: dense slots, increasing receipts, bounded requests. */
module SlotGuarantees {
  import opened Wrappers
  import opened BlindBoxRoots
  import opened KeySchedule
  import opened Replicas
  import opened BlobClient
  import opened PutQuorum
  import opened SlotSend

  /** Some box of the list holds a blob under this key. */
  ghost predicate Occupied(stores: seq<Store>, boxes: seq<nat>, key: Keys) {
    exists b :: b in boxes && b < |stores| && key in stores[b]
  }

  lemma OccupiedGrows(s: seq<Store>, s': seq<Store>, boxes: seq<nat>, key: Keys)
    requires Occupied(s, boxes, key) && Grows(s, s')
    ensures Occupied(s', boxes, key)
  {
    var b :| b in boxes && b < |s| && key in s[b];
    assert key in s'[b];
  }

  /** The first failure of a put, when it reports a taken slot, tells the truth. */
  ghost predicate ConflictIsReal(t: Tally, boxes: seq<nat>, key: Keys) {
    IsSlotConflict(t.failures) ==> Occupied(t.world.stores, boxes, key)
  }

  ghost predicate Among(order: seq<nat>, boxes: seq<nat>) {
    forall i :: 0 <= i < |order| ==> order[i] in boxes
  }

  lemma {:induction false} CollectConflicts(c: Config, t: Tally, order: seq<nat>, key: Keys, blob: Blob,
                                            putAttempts: nat)
    requires InRange(order, |t.world.stores|) && Among(order, c.boxes) && ConflictIsReal(t, c.boxes, key)
    ensures var t' := Collect(c, t, order, key, blob, putAttempts);
            Grows(t.world.stores, t'.world.stores) && ConflictIsReal(t', c.boxes, key)
    decreases |order|
  {
    if order == [] || t.stored >= c.quorum {
      SelfGrows(t.world.stores);
    } else {
      VisitCounts(t, order[0], key, blob, putAttempts, c.attempts);
      var t1 := Visit(t, order[0], key, blob, putAttempts, c.attempts);
      if IsSlotConflict(t.failures) {
        OccupiedGrows(t.world.stores, t1.world.stores, c.boxes, key);
      }
      CollectConflicts(c, t1, order[1..], key, blob, putAttempts);
      GrowsTrans(t.world.stores, t1.world.stores,
                 Collect(c, t1, order[1..], key, blob, putAttempts).world.stores);
    }
  }

  lemma OrderIsAmong(c: Config, order: seq<nat>)
    requires NoRepeats(c.boxes) && AnswerOrder(c, order)
    ensures Among(order, c.boxes)
  {
    OrderHasNoRepeats(c, order);
  }

  /** What the sender knows about a frame it reports as queued. */
  ghost predicate Receipt(c: Config, stores: seq<Store>, derive: DeriveKeys, frame: Frame, r: SendResult) {
    && r.Queued? && derive(r.slot) == Some(r.key)
    && (exists nonce :: r.blob == Sealed(r.key, r.slot, frame, nonce))
    && |Holders(stores, c.boxes, r.key, r.blob)| >= c.quorum
  }

  ghost predicate PassedSlot(c: Config, stores: seq<Store>, derive: DeriveKeys, i: nat) {
    derive(i).Some? && Occupied(stores, c.boxes, derive(i).value)
  }

  lemma PutConflicts(c: Config, w: World, order: seq<nat>, key: Keys, blob: Blob)
    requires InRange(order, |w.stores|) && Among(order, c.boxes)
    ensures var (w', r) := Put(c, w, order, key, blob);
            && Grows(w.stores, w'.stores)
            && (r.Rejected? && IsSlotConflict(r.failures) ==> Occupied(w'.stores, c.boxes, key))
  {
    CollectConflicts(c, Tally(w, 0, [], []), order, key, blob, PutAttempts(c));
  }

  lemma CutGrows(c: Config, w: World, a: Attempt, key: Keys, blob: Blob)
    requires InRange(a.order, |w.stores|) && Among(a.order, c.boxes)
    ensures Grows(w.stores, CutPut(c, w, a, key, blob).stores)
  {
    CollectConflicts(c, Tally(w, 0, [], []), BeforeCut(a), key, blob, PutAttempts(c));
  }

  lemma AcceptedOccupies(c: Config, stores: seq<Store>, key: Keys, blob: Blob)
    requires |Holders(stores, c.boxes, key, blob)| >= c.quorum >= 1
    ensures Occupied(stores, c.boxes, key)
  {
    var b :| b in Holders(stores, c.boxes, key, blob);
  }

  /**
    The replicas only gain blobs, every slot passed over is taken, at most `tries` puts are made, and
    a frame reported queued sits in the last slot passed, at a quorum of the boxes.
   */
  ghost predicate SendOk(derive: DeriveKeys, c: Config, w: World, index: nat, frame: Frame, tries: nat, s: Sent) {
    && Grows(w.stores, s.world.stores)
    && index <= s.sendIndex
    && s.puts <= tries
    && (forall i :: index <= i < s.sendIndex ==> PassedSlot(c, s.world.stores, derive, i))
    && (s.result.Queued? ==>
          s.result.slot + 1 == s.sendIndex && index <= s.result.slot
          && Receipt(c, s.world.stores, derive, frame, s.result))
    && s.sendIndex - index <= s.puts
    && (s.result.TimedOut? ==> s.sendIndex - index == s.puts - 1)
  }

  lemma StoppedSend(derive: DeriveKeys, c: Config, w: World, w': World, index: nat, nonce: nat, frame: Frame,
                    tries: nat,
                    puts: nat, r: SendResult)
    requires Grows(w.stores, w'.stores) && puts <= tries && (r.PutFailed? || (r.TimedOut? && puts == 1))
    ensures SendOk(derive, c, w, index, frame, tries, Sent(w', index, nonce, puts, r))
  {
  }

  lemma ConflictThenSend(derive: DeriveKeys, c: Config, w: World, w': World, index: nat, frame: Frame, tries: nat,
                         s: Sent)
    requires Grows(w.stores, w'.stores) && PassedSlot(c, w'.stores, derive, index)
    requires SendOk(derive, c, w', index + 1, frame, tries, s)
    ensures SendOk(derive, c, w, index, frame, tries + 1, After(1, s))
  {
    GrowsTrans(w.stores, w'.stores, s.world.stores);
    OccupiedGrows(w'.stores, s.world.stores, c.boxes, derive(index).value);
  }

  lemma AcceptedSend(derive: DeriveKeys, c: Config, w: World, order: seq<nat>, index: nat, nonce: nat, frame: Frame,
                     tries: nat)
    requires tries >= 1 && c.Valid(|w.stores|) && NoRepeats(c.boxes) && InRange(order, |w.stores|)
    requires AnswerOrder(c, order)
    requires derive(index).Some?
    requires Put(c, w, order, derive(index).value,
                 Sealed(derive(index).value, index, frame, nonce)).1.Accepted?
    ensures var key := derive(index).value;
            var blob := Sealed(key, index, frame, nonce);
            SendOk(derive, c, w, index, frame, tries,
                   Sent(Put(c, w, order, key, blob).0, index + 1, nonce + 1, 1, Queued(index, key, blob)))
  {
    var key := derive(index).value;
    var blob := Sealed(key, index, frame, nonce);
    var w' := Put(c, w, order, key, blob).0;
    OrderIsAmong(c, order);
    PutConflicts(c, w, order, key, blob);
    SelfGrows(w'.stores);
    AcceptedMeansQuorum(c, w, order, key, blob, w'.stores);
    AcceptedOccupies(c, w'.stores, key, blob);
  }

  /** A put that ends the send ends it well; a conflict leaves a slot that is taken. */
  ghost predicate TryOk(derive: DeriveKeys, c: Config, w: World, index: nat, frame: Frame, tries: nat, t: Try) {
    match t
    case Done(sent) => SendOk(derive, c, w, index, frame, tries, sent)
    case Conflict(w') => Grows(w.stores, w'.stores) && PassedSlot(c, w'.stores, derive, index)
  }

  lemma TrySlotOk(derive: DeriveKeys, c: Config, w: World, index: nat, nonce: nat, frame: Frame, a: Attempt, tries: nat)
    requires c.Valid(|w.stores|) && AttemptOk(c, |w.stores|, a) && NoRepeats(c.boxes) && tries >= 1
    ensures TryOk(derive, c, w, index, frame, tries, TrySlot(derive, c, w, index, nonce, frame, a))
  {
    var key := derive(index);
    if key.None? {
      SelfGrows(w.stores);
      StoppedSend(derive, c, w, w, index, nonce, frame, tries, 0, PutFailed);
    } else {
      var blob := Sealed(key.value, index, frame, nonce);
      OrderIsAmong(c, a.order);
      if a.cut.Some? {
        CutGrows(c, w, a, key.value, blob);
        StoppedSend(derive, c, w, CutPut(c, w, a, key.value, blob), index, nonce + 1, frame, tries, 1, TimedOut);
      } else {
        var (w', r) := Put(c, w, a.order, key.value, blob);
        PutConflicts(c, w, a.order, key.value, blob);
        if r.Accepted? {
          AcceptedSend(derive, c, w, a.order, index, nonce, frame, tries);
        } else {
          StoppedSend(derive, c, w, w', index, nonce + 1, frame, tries, 1, PutFailed);
        }
      }
    }
  }

  /** A send whose first put went well and whose rest, if any, does too. */
  lemma DenseFrom(derive: DeriveKeys, c: Config, w: World, index: nat, nonce: nat, frame: Frame, tries: nat, t: Try,
                  rest: Option<Sent>, all: Sent)
    requires TryOk(derive, c, w, index, frame, tries, t) && tries >= 1
    requires t.Done? ==> all == t.sent
    requires t.Conflict? && rest.None? ==> all == Sent(t.world, index, nonce, 1, PutFailed)
    requires t.Conflict? && rest.Some? ==>
               all == After(1, rest.value) && SendOk(derive, c, t.world, index + 1, frame, tries - 1, rest.value)
    ensures SendOk(derive, c, w, index, frame, tries, all)
  {
    if t.Conflict? {
      if rest.None? {
        StoppedSend(derive, c, w, t.world, index, nonce, frame, tries, 1, PutFailed);
      } else {
        ConflictThenSend(derive, c, w, t.world, index, frame, tries - 1, rest.value);
      }
    }
  }

  lemma LastTryIsDense(derive: DeriveKeys, c: Config, w: World, index: nat, nonce: nat, frame: Frame,
                       schedule: Schedule, attempt: nat, limit: nat)
    requires ScheduleOk(c, |w.stores|, schedule) && attempt <= limit && NoRepeats(c.boxes)
    requires TrySlot(derive, c, w, index, nonce, frame, At(c, |w.stores|, schedule, attempt)).Done? || attempt == limit
    ensures SendOk(derive, c, w, index, frame, limit - attempt + 1,
                   SendFrame(derive, c, w, index, nonce, frame, schedule, attempt, limit))
  {
    var a := At(c, |w.stores|, schedule, attempt);
    TrySlotOk(derive, c, w, index, nonce, frame, a, limit - attempt + 1);
    SendFrameStops(derive, c, w, index, nonce, frame, schedule, attempt, limit);
    DenseFrom(derive, c, w, index, nonce + 1, frame, limit - attempt + 1,
              TrySlot(derive, c, w, index, nonce, frame, a), None,
              SendFrame(derive, c, w, index, nonce, frame, schedule, attempt, limit));
  }

  lemma NextTryIsDense(derive: DeriveKeys, c: Config, w: World, index: nat, nonce: nat, frame: Frame,
                       schedule: Schedule, attempt: nat, limit: nat, w': World)
    requires ScheduleOk(c, |w.stores|, schedule) && attempt < limit && NoRepeats(c.boxes) && |w'.stores| == |w.stores|
    requires TrySlot(derive, c, w, index, nonce, frame, At(c, |w.stores|, schedule, attempt)) == Conflict(w')
    requires SendOk(derive, c, w', index + 1, frame, limit - attempt,
                    SendFrame(derive, c, w', index + 1, nonce + 1, frame, schedule, attempt + 1, limit))
    ensures SendOk(derive, c, w, index, frame, limit - attempt + 1,
                   SendFrame(derive, c, w, index, nonce, frame, schedule, attempt, limit))
  {
    TrySlotOk(derive, c, w, index, nonce, frame, At(c, |w.stores|, schedule, attempt), limit - attempt + 1);
    SendFrameGoesOn(derive, c, w, index, nonce, frame, schedule, attempt, limit, w');
    DenseFrom(derive, c, w, index, nonce + 1, frame, limit - attempt + 1, Conflict(w'),
              Some(SendFrame(derive, c, w', index + 1, nonce + 1, frame, schedule, attempt + 1, limit)),
              SendFrame(derive, c, w, index, nonce, frame, schedule, attempt, limit));
  }

  /** The answers of one attempt, which a schedule that is in order has in order. */
  ghost function At(c: Config, replicas: nat, schedule: Schedule, attempt: nat): (a: Attempt)
    requires ScheduleOk(c, replicas, schedule)
    ensures a == schedule(attempt) && AttemptOk(c, replicas, a)
  {
    schedule(attempt)
  }

  /** One frame, under every pattern of conflicts, losses, timeouts and other writers. */
  lemma {:induction false} SendFrameIsDense(derive: DeriveKeys, c: Config, w: World, index: nat, nonce: nat,
                                            frame: Frame,
                                            schedule: Schedule, attempt: nat, limit: nat)
    requires ScheduleOk(c, |w.stores|, schedule) && attempt <= limit && NoRepeats(c.boxes)
    ensures SendOk(derive, c, w, index, frame, limit - attempt + 1,
                   SendFrame(derive, c, w, index, nonce, frame, schedule, attempt, limit))
    decreases limit - attempt
  {
    var t := TrySlot(derive, c, w, index, nonce, frame, At(c, |w.stores|, schedule, attempt));
    if t.Done? || attempt == limit {
      LastTryIsDense(derive, c, w, index, nonce, frame, schedule, attempt, limit);
    } else {
      SendFrameIsDense(derive, c, t.world, index + 1, nonce + 1, frame, schedule, attempt + 1, limit);
      NextTryIsDense(derive, c, w, index, nonce, frame, schedule, attempt, limit, t.world);
    }
  }

  // ---------- every run of direct sends of one copy of the index ----------

  ghost predicate EntryOk(c: Config, o: Outbox, e: Entry) {
    && e.slot < |o.passed| && o.passed[e.slot] == Some(e.key)
    && e.blob.Sealed? && e.blob.key == e.key && e.blob.index == e.slot
    && |Holders(o.world.stores, c.boxes, e.key, e.blob)| >= c.quorum
  }

  /** Slots are dense: every index below the send index was left taken, under the key logged for it. */
  ghost predicate PassedOk(c: Config, o: Outbox) {
    && |o.passed| == o.sendIndex
    && (forall i :: 0 <= i < |o.passed| ==> o.passed[i].Some? && Occupied(o.world.stores, c.boxes, o.passed[i].value))
  }

  /** Receipts come in strictly increasing slots, and each queued blob is still at a quorum. */
  ghost predicate QueuedOk(c: Config, o: Outbox, queued: seq<Entry>) {
    && (forall k :: 0 <= k < |queued| ==> EntryOk(c, o, queued[k]))
    && (forall a, b :: 0 <= a < b < |queued| ==> queued[a].slot < queued[b].slot)
  }

  ghost predicate OutboxOk(c: Config, o: Outbox) {
    PassedOk(c, o) && QueuedOk(c, o, o.queued)
  }

  lemma EntryStays(c: Config, o: Outbox, o': Outbox, e: Entry)
    requires o.passed <= o'.passed
    requires Grows(o.world.stores, o'.world.stores) && EntryOk(c, o, e)
    ensures EntryOk(c, o', e)
  {
    HoldersGrow(o.world.stores, o'.world.stores, c.boxes, e.key, e.blob);
    SmallerSet(Holders(o.world.stores, c.boxes, e.key, e.blob), Holders(o'.world.stores, c.boxes, e.key, e.blob));
  }

  lemma PassedAfterSend(c: Config, o: Outbox, derive: DeriveKeys, frame: Frame, tries: nat, s: Sent)
    requires OutboxOk(c, o) && SendOk(derive, c, o.world, o.sendIndex, frame, tries, s)
    ensures var o' := AfterSend(o, derive, s);
            && PassedOk(c, o') && o.passed <= o'.passed
            && (forall i :: o.sendIndex <= i < s.sendIndex ==> o'.passed[i] == derive(i))
  {
    var o' := AfterSend(o, derive, s);
    forall i | 0 <= i < |o'.passed|
      ensures o'.passed[i].Some? && Occupied(o'.world.stores, c.boxes, o'.passed[i].value)
    {
      if i < |o.passed| {
        OccupiedGrows(o.world.stores, o'.world.stores, c.boxes, o.passed[i].value);
      } else {
        assert PassedSlot(c, s.world.stores, derive, i);
      }
    }
  }

  lemma NewEntryOk(c: Config, o: Outbox, derive: DeriveKeys, frame: Frame, tries: nat, s: Sent)
    requires OutboxOk(c, o) && SendOk(derive, c, o.world, o.sendIndex, frame, tries, s) && s.result.Queued?
    ensures EntryOk(c, AfterSend(o, derive, s), Entry(s.result.slot, s.result.key, s.result.blob))
    ensures s.result.slot >= o.sendIndex
  {
    PassedAfterSend(c, o, derive, frame, tries, s);
  }

  lemma QueuedStay(c: Config, o: Outbox, o': Outbox)
    requires OutboxOk(c, o) && PassedOk(c, o') && o.passed <= o'.passed
    requires Grows(o.world.stores, o'.world.stores)
    ensures QueuedOk(c, o', o.queued)
  {
    forall k | 0 <= k < |o.queued| ensures EntryOk(c, o', o.queued[k]) {
      EntryStays(c, o, o', o.queued[k]);
    }
  }

  lemma QueuedAppend(c: Config, o: Outbox, queued: seq<Entry>, e: Entry, bound: nat)
    requires QueuedOk(c, o, queued) && EntryOk(c, o, e) && bound <= e.slot
    requires forall k :: 0 <= k < |queued| ==> queued[k].slot < bound
    ensures QueuedOk(c, o, queued + [e])
  {
  }

  lemma SendKeepsOutbox(c: Config, o: Outbox, derive: DeriveKeys, frame: Frame, tries: nat, s: Sent)
    requires OutboxOk(c, o) && SendOk(derive, c, o.world, o.sendIndex, frame, tries, s)
    ensures var o' := AfterSend(o, derive, s);
            OutboxOk(c, o') && o.queued <= o'.queued && Grows(o.world.stores, o'.world.stores)
  {
    var o' := AfterSend(o, derive, s);
    PassedAfterSend(c, o, derive, frame, tries, s);
    QueuedStay(c, o, o');
    if s.result.Queued? {
      NewEntryOk(c, o, derive, frame, tries, s);
      forall k | 0 <= k < |o.queued| ensures o.queued[k].slot < o.sendIndex {
        assert EntryOk(c, o, o.queued[k]);
      }
      QueuedAppend(c, o', o.queued, Entry(s.result.slot, s.result.key, s.result.blob), o.sendIndex);
    }
  }

  lemma {:induction false} ChunksKeepOutbox(derive: DeriveKeys, c: Config, o: Outbox, chunks: seq<Frame>,
                                            schedules: seq<Schedule>, limit: nat)
    requires OutboxOk(c, o) && NoRepeats(c.boxes) && |schedules| == |chunks|
    requires forall i :: 0 <= i < |schedules| ==> ScheduleOk(c, |o.world.stores|, schedules[i])
    ensures var o' := SendChunks(derive, c, o, chunks, schedules, limit).0;
            OutboxOk(c, o') && o.queued <= o'.queued && Grows(o.world.stores, o'.world.stores)
    decreases |chunks|
  {
    if chunks == [] {
      SelfGrows(o.world.stores);
    } else {
      var s := SendFrame(derive, c, o.world, o.sendIndex, o.nonce, chunks[0], schedules[0], 0, limit);
      SendFrameIsDense(derive, c, o.world, o.sendIndex, o.nonce, chunks[0], schedules[0], 0, limit);
      SendKeepsOutbox(c, o, derive, chunks[0], limit + 1, s);
      var o1 := AfterSend(o, derive, s);
      if s.result.Queued? {
        ChunksKeepOutbox(derive, c, o1, chunks[1..], schedules[1..], limit);
        GrowsTrans(o.world.stores, o1.world.stores,
                   SendChunks(derive, c, o1, chunks[1..], schedules[1..], limit).0.world.stores);
      }
    }
  }

  /** Over every run of direct sends of one copy of the index, under any losses, timeouts and other writers. */
  lemma {:induction false} RunKeepsOutbox(c: Config, o: Outbox, jobs: seq<Job>, limit: nat)
    requires OutboxOk(c, o) && NoRepeats(c.boxes) && JobsOk(c, |o.world.stores|, jobs)
    ensures var o' := SendAll(c, o, jobs, limit);
            OutboxOk(c, o') && o.queued <= o'.queued && Grows(o.world.stores, o'.world.stores)
    decreases |jobs|
  {
    if jobs == [] {
      SelfGrows(o.world.stores);
    } else {
      var j := jobs[0];
      assert JobOk(c, |o.world.stores|, j);
      ChunksKeepOutbox(j.derive, c, o, j.chunks, j.schedules, limit);
      var o1 := SendChunks(j.derive, c, o, j.chunks, j.schedules, limit).0;
      RunKeepsOutbox(c, o1, jobs[1..], limit);
      GrowsTrans(o.world.stores, o1.world.stores, SendAll(c, o1, jobs[1..], limit).world.stores);
    }
  }

  /** While quorums overlap, no other blob ever reaches a quorum in a slot that has a receipt. */
  lemma QueuedSlotIsExclusive(c: Config, o: Outbox, e: Entry, later: seq<Store>, other: Blob)
    requires c.Valid(|o.world.stores|) && NoRepeats(c.boxes) && 2 * c.quorum > |c.boxes|
    requires OutboxOk(c, o) && e in o.queued && Grows(o.world.stores, later)
    requires |Holders(later, c.boxes, e.key, other)| >= c.quorum
    ensures other == e.blob
  {
    var k :| 0 <= k < |o.queued| && o.queued[k] == e;
    assert EntryOk(c, o, o.queued[k]);
    HoldersGrow(o.world.stores, later, c.boxes, e.key, e.blob);
    SmallerSet(Holders(o.world.stores, c.boxes, e.key, e.blob), Holders(later, c.boxes, e.key, e.blob));
    OverlapExcludes(|c.boxes|, c.boxes, later, e.key, e.blob, other, c.quorum);
  }

  // ---------- two sends from the same stale index ----------

  /** A group send reads the index before it takes the lock, so two of them may start from the same one. */
  ghost predicate SameSlotTwice(c: Config, w: World, derive: DeriveKeys, index: nat, f: Frame, g: Frame,
                                first: Schedule, second: Schedule, limit: nat)
    requires ScheduleOk(c, |w.stores|, first) && ScheduleOk(c, |w.stores|, second)
  {
    var s := SendFrame(derive, c, w, index, 0, f, first, 0, limit);
    var t := SendFrame(derive, c, s.world, index, s.nonce, g, second, 0, limit);
    s.result.Queued? && t.result.Queued? && s.result.slot == t.result.slot
  }

  ghost predicate StaleCanCollide(c: Config, n: nat, limit: nat) {
    exists w: World, derive: DeriveKeys, index: nat, f: Frame, g: Frame, first: Schedule, second: Schedule ::
      && |w.stores| == n && ScheduleOk(c, n, first) && ScheduleOk(c, n, second)
      && SameSlotTwice(c, w, derive, index, f, g, first, second, limit)
  }

  /** Two frames can both be reported queued in one slot exactly when quorums need not overlap. */
  lemma StaleCollidesIffQuorumsDisjoint(c: Config, n: nat, limit: nat)
    requires c.Valid(n) && NoRepeats(c.boxes)
    ensures StaleCanCollide(c, n, limit) <==> 2 * c.quorum <= |c.boxes|
  {
    if StaleCanCollide(c, n, limit) {
      var w: World, derive: DeriveKeys, index: nat, f: Frame, g: Frame, first: Schedule, second: Schedule :|
        && |w.stores| == n && ScheduleOk(c, n, first) && ScheduleOk(c, n, second)
        && SameSlotTwice(c, w, derive, index, f, g, first, second, limit);
      CollisionNeedsRoom(c, w, derive, index, f, g, first, second, limit);
    }
    if 2 * c.quorum <= |c.boxes| {
      var k := Keys(0, "", "");
      CollisionRun(c, QuietWorld(seq(n, i => map[])), k, limit);
    }
  }

  lemma CollisionNeedsRoom(c: Config, w: World, derive: DeriveKeys, index: nat, f: Frame, g: Frame,
                           first: Schedule, second: Schedule, limit: nat)
    requires ScheduleOk(c, |w.stores|, first) && ScheduleOk(c, |w.stores|, second) && NoRepeats(c.boxes)
    requires SameSlotTwice(c, w, derive, index, f, g, first, second, limit)
    ensures 2 * c.quorum <= |c.boxes|
  {
    var s := SendFrame(derive, c, w, index, 0, f, first, 0, limit);
    var t := SendFrame(derive, c, s.world, index, s.nonce, g, second, 0, limit);
    SendFrameIsDense(derive, c, w, index, 0, f, first, 0, limit);
    SendFrameIsDense(derive, c, s.world, index, s.nonce, g, second, 0, limit);
    NoncesAdvance(derive, c, w, index, 0, f, first, 0, limit);
    NoncesAdvance(derive, c, s.world, index, s.nonce, g, second, 0, limit);
    var a, b := s.result, t.result;
    var final := t.world.stores;
    HoldersGrow(s.world.stores, final, c.boxes, a.key, a.blob);
    SmallerSet(Holders(s.world.stores, c.boxes, a.key, a.blob), Holders(final, c.boxes, a.key, a.blob));
    if 2 * c.quorum > |c.boxes| {
      OverlapExcludes(|c.boxes|, c.boxes, final, a.key, a.blob, b.blob, c.quorum);
    }
  }

  /** A queued blob carries a nonce drawn during its own send. */
  lemma {:induction false} NoncesAdvance(derive: DeriveKeys, c: Config, w: World, index: nat, nonce: nat, frame: Frame,
                                         schedule: Schedule, attempt: nat, limit: nat)
    requires ScheduleOk(c, |w.stores|, schedule) && attempt <= limit
    ensures var s := SendFrame(derive, c, w, index, nonce, frame, schedule, attempt, limit);
            && nonce <= s.nonce
            && (s.result.Queued? ==> s.result.blob.Sealed? && nonce <= s.result.blob.nonce < s.nonce)
    decreases limit - attempt
  {
    assert AttemptOk(c, |w.stores|, schedule(attempt));
    match TrySlot(derive, c, w, index, nonce, frame, schedule(attempt))
    case Done(_) =>
    case Conflict(w') =>
      if attempt < limit {
        NoncesAdvance(derive, c, w', index + 1, nonce + 1, frame, schedule, attempt + 1, limit);
      }
  }

  /** A send whose first put is accepted is queued at the index it started from. */
  lemma FirstTryQueues(derive: DeriveKeys, c: Config, w: World, index: nat, nonce: nat, frame: Frame,
                       schedule: Schedule,
                       limit: nat, order: seq<nat>, key: Keys)
    requires ScheduleOk(c, |w.stores|, schedule) && schedule(0) == Attempt(order, None) && derive(index) == Some(key)
    requires InRange(order, |w.stores|) && Put(c, w, order, key, Sealed(key, index, frame, nonce)).1.Accepted?
    ensures SendFrame(derive, c, w, index, nonce, frame, schedule, 0, limit)
         == Sent(Put(c, w, order, key, Sealed(key, index, frame, nonce)).0, index + 1, nonce + 1, 1,
                 Queued(index, key, Sealed(key, index, frame, nonce)))
  {
    var a := At(c, |w.stores|, schedule, 0);
    SendFrameStops(derive, c, w, index, nonce, frame, schedule, 0, limit);
  }

  lemma CollisionRun(c: Config, w: World, key: Keys, limit: nat)
    requires c.Valid(|w.stores|) && NoRepeats(c.boxes) && 2 * c.quorum <= |c.boxes|
    requires Quiet(w) && forall i :: 0 <= i < |w.stores| ==> w.stores[i] == map[]
    ensures StaleCanCollide(c, |w.stores|, limit)
  {
    var a, b := Sealed(key, 0, "a", 0), Sealed(key, 0, "b", 1);
    var order1 := if c.quorum == 1 then c.boxes[..2] else c.boxes;
    var order2 := if c.quorum == 1 then c.boxes[..2] else Reversed(c.boxes);
    if c.quorum == 1 {
      SplitFirstTwo(c, w, key, a, b);
    } else {
      SplitFarEnds(c, w, key, a, b);
    }
    TwoSendsCollide(c, w, order1, order2, key, limit);
  }

  lemma TwoSendsCollide(c: Config, w: World, order1: seq<nat>, order2: seq<nat>, key: Keys, limit: nat)
    requires InRange(order1, |w.stores|) && InRange(order2, |w.stores|)
    requires BothAccepted(c, w, order1, order2, key, Sealed(key, 0, "a", 0), Sealed(key, 0, "b", 1))
    ensures StaleCanCollide(c, |w.stores|, limit)
  {
    var derive: DeriveKeys := (i: nat) => Some(key);
    var first: Schedule := (k: nat) => Attempt(order1, None);
    var second: Schedule := (k: nat) => Attempt(order2, None);
    assert AttemptOk(c, |w.stores|, Attempt(order1, None)) && AttemptOk(c, |w.stores|, Attempt(order2, None));
    FirstTryQueues(derive, c, w, 0, 0, "a", first, limit, order1, key);
    var s := SendFrame(derive, c, w, 0, 0, "a", first, 0, limit);
    FirstTryQueues(derive, c, s.world, 0, 1, "b", second, limit, order2, key);
    assert SameSlotTwice(c, w, derive, 0, "a", "b", first, second, limit);
  }
}
