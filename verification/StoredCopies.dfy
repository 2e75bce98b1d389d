/**
  Sends from several copies of one peer's state. The send index stands on disk, in memory for the selected
  peer, and in every copy a group send or the poller has loaded; each of them may lag behind the others.
 */
module StoredCopies {
  import opened Wrappers
  import opened KeySchedule
  import opened Replicas
  import opened BlobClient
  import opened PutQuorum
  import opened SlotSend
  import opened SlotGuarantees

  /** What the sends to one peer have left behind, whichever copy of the index each started from. */
  datatype Ledger = Ledger(world: World, nonce: nat, passed: seq<Option<Keys>>, queued: seq<Entry>)

  /** A send from a copy whose index is `behind` the highest index reached so far. */
  datatype StaleSend = StaleSend(behind: nat, job: Job)

  function NewLedger(w: World): Ledger {
    Ledger(w, 0, [], [])
  }

  function StartOf(l: Ledger, behind: nat): (start: nat)
    ensures start <= |l.passed|
  {
    if behind <= |l.passed| then |l.passed| - behind else 0
  }

  function OutboxAt(l: Ledger, start: nat): Outbox
    requires start <= |l.passed|
  {
    Outbox(l.world, start, l.nonce, l.passed[..start], [])
  }

  function Merged(l: Ledger, o: Outbox): Ledger {
    Ledger(o.world, o.nonce, l.passed + (if |o.passed| > |l.passed| then o.passed[|l.passed|..] else []),
           l.queued + o.queued)
  }

  function Sending(c: Config, l: Ledger, start: nat, j: Job, limit: nat): (o: Outbox)
    requires start <= |l.passed| && JobOk(c, |l.world.stores|, j)
    ensures |o.world.stores| == |l.world.stores|
  {
    SendChunks(j.derive, c, OutboxAt(l, start), j.chunks, j.schedules, limit).0
  }

  function SendStale(c: Config, l: Ledger, start: nat, j: Job, limit: nat): (l': Ledger)
    requires start <= |l.passed| && JobOk(c, |l.world.stores|, j)
    ensures |l'.world.stores| == |l.world.stores|
  {
    Merged(l, Sending(c, l, start, j, limit))
  }

  ghost predicate SendsOk(c: Config, replicas: nat, sends: seq<StaleSend>) {
    forall i :: 0 <= i < |sends| ==> JobOk(c, replicas, sends[i].job)
  }

  function SendAllStale(c: Config, l: Ledger, sends: seq<StaleSend>, limit: nat): Ledger
    requires SendsOk(c, |l.world.stores|, sends)
    decreases |sends|
  {
    if sends == [] then l
    else
      assert JobOk(c, |l.world.stores|, sends[0].job);
      SendAllStale(c, SendStale(c, l, StartOf(l, sends[0].behind), sends[0].job, limit), sends[1..], limit)
  }

  // ---------- what every such run keeps ----------

  ghost predicate KeptEntry(c: Config, l: Ledger, e: Entry) {
    && e.slot < |l.passed| && e.blob.Sealed? && e.blob.key == e.key && e.blob.index == e.slot
    && e.blob.nonce < l.nonce && |Holders(l.world.stores, c.boxes, e.key, e.blob)| >= c.quorum
  }

  /** Every index below the highest is taken, and every receipt's blob is still at a quorum. */
  ghost predicate LedgerOk(c: Config, l: Ledger) {
    && (forall i :: 0 <= i < |l.passed| ==> l.passed[i].Some? && Occupied(l.world.stores, c.boxes, l.passed[i].value))
    && (forall k :: 0 <= k < |l.queued| ==> KeptEntry(c, l, l.queued[k]))
  }

  /** No two receipts are for the same slot under the same key. */
  ghost predicate Apart(queued: seq<Entry>) {
    forall a, b :: 0 <= a < b < |queued| ==> queued[a].slot != queued[b].slot || queued[a].key != queued[b].key
  }

  /** Each receipt was sealed in the send it is for, at or past its start, under the key that send derived. */
  ghost predicate Drawn(derive: DeriveKeys, from: nat, low: nat, o: Outbox, start: nat) {
    && start <= |o.queued| && from <= o.nonce && low <= o.sendIndex
    && forall k :: start <= k < |o.queued| ==>
         o.queued[k].blob.Sealed? && from <= o.queued[k].blob.nonce < o.nonce && low <= o.queued[k].slot
         && derive(o.queued[k].slot) == Some(o.queued[k].key)
  }

  lemma {:induction false} ChunksDraw(derive: DeriveKeys, c: Config, o: Outbox, chunks: seq<Frame>,
                                      schedules: seq<Schedule>, limit: nat, from: nat, low: nat, start: nat)
    requires NoRepeats(c.boxes) && |schedules| == |chunks| && Drawn(derive, from, low, o, start)
    requires forall i :: 0 <= i < |schedules| ==> ScheduleOk(c, |o.world.stores|, schedules[i])
    ensures Drawn(derive, from, low, SendChunks(derive, c, o, chunks, schedules, limit).0, start)
    decreases |chunks|
  {
    if chunks != [] {
      var s := SendFrame(derive, c, o.world, o.sendIndex, o.nonce, chunks[0], schedules[0], 0, limit);
      SendFrameIsDense(derive, c, o.world, o.sendIndex, o.nonce, chunks[0], schedules[0], 0, limit);
      NoncesAdvance(derive, c, o.world, o.sendIndex, o.nonce, chunks[0], schedules[0], 0, limit);
      assert Drawn(derive, from, low, AfterSend(o, derive, s), start);
      if s.result.Queued? {
        ChunksDraw(derive, c, AfterSend(o, derive, s), chunks[1..], schedules[1..], limit, from, low, start);
      }
    }
  }

  /** One send from any index reached before, as the ledger sees it. */
  lemma SendingOk(c: Config, l: Ledger, start: nat, j: Job, limit: nat)
    requires LedgerOk(c, l) && NoRepeats(c.boxes) && start <= |l.passed| && JobOk(c, |l.world.stores|, j)
    ensures var o := Sending(c, l, start, j, limit);
            OutboxOk(c, o) && Drawn(j.derive, l.nonce, start, o, 0) && Grows(l.world.stores, o.world.stores)
  {
    var o := OutboxAt(l, start);
    ChunksKeepOutbox(j.derive, c, o, j.chunks, j.schedules, limit);
    ChunksDraw(j.derive, c, o, j.chunks, j.schedules, limit, l.nonce, start, 0);
  }

  lemma KeptStays(c: Config, l: Ledger, l': Ledger, e: Entry)
    requires KeptEntry(c, l, e) && Grows(l.world.stores, l'.world.stores)
    requires |l.passed| <= |l'.passed| && l.nonce <= l'.nonce
    ensures KeptEntry(c, l', e)
  {
    HoldersGrow(l.world.stores, l'.world.stores, c.boxes, e.key, e.blob);
    SmallerSet(Holders(l.world.stores, c.boxes, e.key, e.blob), Holders(l'.world.stores, c.boxes, e.key, e.blob));
  }

  lemma MergedOk(c: Config, l: Ledger, o: Outbox, derive: DeriveKeys, low: nat)
    requires LedgerOk(c, l) && OutboxOk(c, o) && Drawn(derive, l.nonce, low, o, 0)
    requires Grows(l.world.stores, o.world.stores)
    ensures LedgerOk(c, Merged(l, o))
  {
    var l' := Merged(l, o);
    forall i | 0 <= i < |l'.passed|
      ensures l'.passed[i].Some? && Occupied(l'.world.stores, c.boxes, l'.passed[i].value)
    {
      if i < |l.passed| {
        OccupiedGrows(l.world.stores, l'.world.stores, c.boxes, l.passed[i].value);
      } else {
        assert l'.passed[i] == o.passed[i];
      }
    }
    forall k | 0 <= k < |l'.queued| ensures KeptEntry(c, l', l'.queued[k]) {
      if k < |l.queued| {
        KeptStays(c, l, l', l.queued[k]);
      } else {
        assert EntryOk(c, o, o.queued[k - |l.queued|]);
      }
    }
  }

  /** Overlapping quorums keep a new receipt out of any slot an earlier send was told it had. */
  lemma MergedApart(c: Config, l: Ledger, o: Outbox, derive: DeriveKeys, low: nat)
    requires LedgerOk(c, l) && OutboxOk(c, o) && Drawn(derive, l.nonce, low, o, 0)
    requires Grows(l.world.stores, o.world.stores)
    requires Apart(l.queued) && 2 * c.quorum > |c.boxes|
    ensures Apart(Merged(l, o).queued)
  {
    var l' := Merged(l, o);
    MergedOk(c, l, o, derive, low);
    forall a, b | 0 <= a < b < |l'.queued|
      ensures l'.queued[a].slot != l'.queued[b].slot || l'.queued[a].key != l'.queued[b].key
    {
      var x, y := l'.queued[a], l'.queued[b];
      if a < |l.queued| <= b && x.key == y.key {
        assert KeptEntry(c, l, x) && KeptEntry(c, l', x) && KeptEntry(c, l', y);
        assert y == o.queued[b - |l.queued|];
        OverlapExcludes(|c.boxes|, c.boxes, l'.world.stores, x.key, x.blob, y.blob, c.quorum);
      } else if a >= |l.queued| {
        assert x == o.queued[a - |l.queued|] && y == o.queued[b - |l.queued|];
      }
    }
  }

  /**
    Over every run of sends, each from any index reached before it, under any roots: every index below the
    highest stays taken, every receipt's blob stays at a quorum, and while quorums overlap no two receipts
    are for one slot under one key.
   */
  lemma {:induction false} StaleRunKeepsLedger(c: Config, l: Ledger, sends: seq<StaleSend>, limit: nat)
    requires LedgerOk(c, l) && NoRepeats(c.boxes) && SendsOk(c, |l.world.stores|, sends)
    ensures var l' := SendAllStale(c, l, sends, limit);
            && LedgerOk(c, l') && l.passed <= l'.passed && l.queued <= l'.queued
            && Grows(l.world.stores, l'.world.stores)
            && (2 * c.quorum > |c.boxes| && Apart(l.queued) ==> Apart(l'.queued))
    decreases |sends|
  {
    SelfGrows(l.world.stores);
    if sends != [] {
      var j, start := sends[0].job, StartOf(l, sends[0].behind);
      assert JobOk(c, |l.world.stores|, j);
      var o := Sending(c, l, start, j, limit);
      SendingOk(c, l, start, j, limit);
      MergedOk(c, l, o, j.derive, start);
      if 2 * c.quorum > |c.boxes| && Apart(l.queued) {
        MergedApart(c, l, o, j.derive, start);
      }
      StaleRunKeepsLedger(c, Merged(l, o), sends[1..], limit);
      GrowsTrans(l.world.stores, o.world.stores, SendAllStale(c, Merged(l, o), sends[1..], limit).world.stores);
    }
  }

  // ---------- one derivation for the whole run ----------

  ghost predicate AllUnder(queued: seq<Entry>, derive: DeriveKeys) {
    forall k :: 0 <= k < |queued| ==> derive(queued[k].slot) == Some(queued[k].key)
  }

  ghost predicate OneRoot(sends: seq<StaleSend>, derive: DeriveKeys) {
    forall i :: 0 <= i < |sends| ==> sends[i].job.derive == derive
  }

  lemma {:induction false} OneRootKeeps(c: Config, l: Ledger, sends: seq<StaleSend>, limit: nat, derive: DeriveKeys)
    requires LedgerOk(c, l) && NoRepeats(c.boxes) && SendsOk(c, |l.world.stores|, sends)
    requires OneRoot(sends, derive) && AllUnder(l.queued, derive)
    ensures AllUnder(SendAllStale(c, l, sends, limit).queued, derive)
    decreases |sends|
  {
    if sends != [] {
      var j, start := sends[0].job, StartOf(l, sends[0].behind);
      assert JobOk(c, |l.world.stores|, j);
      var o := Sending(c, l, start, j, limit);
      SendingOk(c, l, start, j, limit);
      MergedOk(c, l, o, j.derive, start);
      OneRootKeeps(c, Merged(l, o), sends[1..], limit, derive);
    }
  }

  ghost predicate SharesSlot(queued: seq<Entry>) {
    exists a, b :: 0 <= a < b < |queued| && queued[a].slot == queued[b].slot
  }

  /** Some run of sends from stale indexes is told of two frames that both are queued at one index. */
  ghost predicate CanShare(c: Config, n: nat, limit: nat, oneRoot: bool) {
    exists w: World, sends: seq<StaleSend> ::
      && |w.stores| == n && SendsOk(c, n, sends)
      && (oneRoot ==> exists derive :: OneRoot(sends, derive))
      && SharesSlot(SendAllStale(c, NewLedger(w), sends, limit).queued)
  }

  lemma OverlapSharesNothing(c: Config, w: World, sends: seq<StaleSend>, limit: nat, derive: DeriveKeys)
    requires NoRepeats(c.boxes) && SendsOk(c, |w.stores|, sends) && OneRoot(sends, derive) && 2 * c.quorum > |c.boxes|
    ensures !SharesSlot(SendAllStale(c, NewLedger(w), sends, limit).queued)
  {
    StaleRunKeepsLedger(c, NewLedger(w), sends, limit);
    OneRootKeeps(c, NewLedger(w), sends, limit, derive);
  }

  // ---------- the copies a node really has ----------

  /** The index on disk, and every copy of it that something holds; the first is the selected peer's. */
  datatype Desk = Desk(ledger: Ledger, disk: nat, copies: seq<nat>)

  /**
    A copy is loaded from disk (by a group send, a poll, or when the peer is selected again), used for a
    send, which saves every index it moves on to, or written back as it is by a poll that took a blob.
   */
  datatype Step = Load | SendFrom(copy: nat, job: Job) | SaveBack(copy: nat)

  ghost predicate StepsOk(c: Config, replicas: nat, steps: seq<Step>) {
    forall i :: 0 <= i < |steps| ==> steps[i].SendFrom? ==> JobOk(c, replicas, steps[i].job)
  }

  ghost predicate DeskOk(c: Config, d: Desk) {
    && LedgerOk(c, d.ledger) && d.disk <= |d.ledger.passed|
    && forall k :: 0 <= k < |d.copies| ==> d.copies[k] <= |d.ledger.passed|
  }

  function NewDesk(w: World): Desk {
    Desk(NewLedger(w), 0, [0])
  }

  function Apply(c: Config, d: Desk, step: Step, limit: nat): (d': Desk)
    requires step.SendFrom? ==> JobOk(c, |d.ledger.world.stores|, step.job)
    ensures |d'.ledger.world.stores| == |d.ledger.world.stores|
  {
    match step
    case Load => d.(copies := d.copies + [d.disk])
    case SaveBack(k) => if k < |d.copies| then d.(disk := d.copies[k]) else d
    case SendFrom(k, j) =>
      if k < |d.copies| && d.copies[k] <= |d.ledger.passed| then
        var start := d.copies[k];
        var reached := Sending(c, d.ledger, start, j, limit).sendIndex;
        Desk(SendStale(c, d.ledger, start, j, limit), if reached != start then reached else d.disk,
             d.copies[k := reached])
      else d
  }

  function Exec(c: Config, d: Desk, steps: seq<Step>, limit: nat): Desk
    requires StepsOk(c, |d.ledger.world.stores|, steps)
    decreases |steps|
  {
    if steps == [] then d
    else
      assert steps[0].SendFrom? ==> JobOk(c, |d.ledger.world.stores|, steps[0].job);
      Exec(c, Apply(c, d, steps[0], limit), steps[1..], limit)
  }

  /** The sends of a run, each with the lag of the copy it starts from. */
  function AsSends(c: Config, d: Desk, steps: seq<Step>, limit: nat): (sends: seq<StaleSend>)
    requires StepsOk(c, |d.ledger.world.stores|, steps)
    ensures SendsOk(c, |d.ledger.world.stores|, sends)
    decreases |steps|
  {
    if steps == [] then []
    else
      assert steps[0].SendFrom? ==> JobOk(c, |d.ledger.world.stores|, steps[0].job);
      var rest := AsSends(c, Apply(c, d, steps[0], limit), steps[1..], limit);
      match steps[0]
      case SendFrom(k, j) =>
        if k < |d.copies| && d.copies[k] <= |d.ledger.passed| then
          [StaleSend(|d.ledger.passed| - d.copies[k], j)] + rest
        else rest
      case _ => rest
  }

  ghost predicate JobsUnder(steps: seq<Step>, derive: DeriveKeys) {
    forall i :: 0 <= i < |steps| ==> steps[i].SendFrom? ==> steps[i].job.derive == derive
  }

  lemma {:induction false} SendsUnder(c: Config, d: Desk, steps: seq<Step>, limit: nat, derive: DeriveKeys)
    requires StepsOk(c, |d.ledger.world.stores|, steps) && JobsUnder(steps, derive)
    ensures OneRoot(AsSends(c, d, steps, limit), derive)
    decreases |steps|
  {
    if steps != [] {
      SendsUnder(c, Apply(c, d, steps[0], limit), steps[1..], limit, derive);
    }
  }

  lemma ApplyKeepsDesk(c: Config, d: Desk, step: Step, limit: nat)
    requires DeskOk(c, d) && NoRepeats(c.boxes) && (step.SendFrom? ==> JobOk(c, |d.ledger.world.stores|, step.job))
    ensures DeskOk(c, Apply(c, d, step, limit))
  {
    if step.SendFrom? && step.copy < |d.copies| {
      var l, start, j := d.ledger, d.copies[step.copy], step.job;
      SendingOk(c, l, start, j, limit);
      MergedOk(c, l, Sending(c, l, start, j, limit), j.derive, start);
    }
  }

  // ---------- the receipts of one step ----------

  ghost predicate Increasing(queued: seq<Entry>) {
    forall a, b :: 0 <= a < b < |queued| ==> queued[a].slot < queued[b].slot
  }

  /** The copy a send starts from is not behind any other. */
  predicate FromHighest(d: Desk, step: Step) {
    step.SendFrom? && step.copy < |d.copies| ==> d.copies[step.copy] == |d.ledger.passed|
  }

  lemma MergedIncreases(c: Config, l: Ledger, o: Outbox, derive: DeriveKeys)
    requires LedgerOk(c, l) && OutboxOk(c, o) && Drawn(derive, l.nonce, |l.passed|, o, 0) && Increasing(l.queued)
    ensures Increasing(Merged(l, o).queued)
  {
    var queued := Merged(l, o).queued;
    forall a, b | 0 <= a < b < |queued| ensures queued[a].slot < queued[b].slot {
      if a < |l.queued| {
        assert KeptEntry(c, l, queued[a]);
      }
    }
  }

  /** Receipts only join; they stay apart while quorums overlap, and in order while no send starts behind. */
  lemma ApplyKeepsReceipts(c: Config, d: Desk, step: Step, limit: nat)
    requires DeskOk(c, d) && NoRepeats(c.boxes) && (step.SendFrom? ==> JobOk(c, |d.ledger.world.stores|, step.job))
    ensures var l, l' := d.ledger, Apply(c, d, step, limit).ledger;
            && l.queued <= l'.queued && Grows(l.world.stores, l'.world.stores)
            && (2 * c.quorum > |c.boxes| && Apart(l.queued) ==> Apart(l'.queued))
            && (FromHighest(d, step) && Increasing(l.queued) ==> Increasing(l'.queued))
  {
    SelfGrows(d.ledger.world.stores);
    if step.SendFrom? && step.copy < |d.copies| {
      var l, start, j := d.ledger, d.copies[step.copy], step.job;
      var o := Sending(c, l, start, j, limit);
      SendingOk(c, l, start, j, limit);
      if 2 * c.quorum > |c.boxes| && Apart(l.queued) {
        MergedApart(c, l, o, j.derive, start);
      }
      if FromHighest(d, step) && Increasing(l.queued) {
        MergedIncreases(c, l, o, j.derive);
      }
    }
  }

  /** One send of a run is a send from an index reached; anything else leaves the ledger as it is. */
  lemma StepIsStale(c: Config, d: Desk, steps: seq<Step>, limit: nat)
    requires StepsOk(c, |d.ledger.world.stores|, steps) && steps != [] && DeskOk(c, d)
    ensures var d', sends := Apply(c, d, steps[0], limit), AsSends(c, d, steps, limit);
            var rest := AsSends(c, d', steps[1..], limit);
            || (sends == rest && d'.ledger == d.ledger)
            || (sends != [] && sends[1..] == rest
                && d'.ledger == SendStale(c, d.ledger, StartOf(d.ledger, sends[0].behind), sends[0].job, limit))
  {
  }

  /** Whatever is loaded, saved and written back in between, the sends of a run are sends from indexes reached. */
  lemma {:induction false} CopiesAreStale(c: Config, d: Desk, steps: seq<Step>, limit: nat)
    requires DeskOk(c, d) && NoRepeats(c.boxes) && StepsOk(c, |d.ledger.world.stores|, steps)
    ensures Exec(c, d, steps, limit).ledger == SendAllStale(c, d.ledger, AsSends(c, d, steps, limit), limit)
    decreases |steps|
  {
    if steps != [] {
      ApplyKeepsDesk(c, d, steps[0], limit);
      StepIsStale(c, d, steps, limit);
      CopiesAreStale(c, Apply(c, d, steps[0], limit), steps[1..], limit);
    }
  }

  /** The same for a run that starts as new and only has the copies a node really has. */
  ghost predicate DeskCanShare(c: Config, n: nat, limit: nat, oneRoot: bool) {
    exists w: World, steps: seq<Step> ::
      && |w.stores| == n && StepsOk(c, n, steps)
      && (oneRoot ==> exists derive :: JobsUnder(steps, derive))
      && SharesSlot(Exec(c, NewDesk(w), steps, limit).ledger.queued)
  }

  // ---------- exactly when two receipts share an index ----------

  /** One frame, all of whose puts are answered in this order. */
  function OneFrame(key: Keys, frame: Frame, order: seq<nat>): Job {
    Job((i: nat) => Some(key), [frame], [(k: nat) => Attempt(order, None)])
  }

  /** A group send and then a text to the selected peer, one after the other. */
  function GroupThenDirect(first: Job, second: Job): seq<Step> {
    [Load, SendFrom(1, first), SendFrom(0, second)]
  }

  lemma OneFrameIsQueued(c: Config, l: Ledger, key: Keys, frame: Frame, order: seq<nat>, limit: nat)
    requires c.Valid(|l.world.stores|) && InRange(order, |l.world.stores|) && AnswerOrder(c, order)
    requires Put(c, l.world, order, key, Sealed(key, 0, frame, l.nonce)).1.Accepted?
    ensures JobOk(c, |l.world.stores|, OneFrame(key, frame, order))
    ensures var o, blob := Sending(c, l, 0, OneFrame(key, frame, order), limit), Sealed(key, 0, frame, l.nonce);
            && o.world == Put(c, l.world, order, key, blob).0 && o.sendIndex == 1 && o.nonce == l.nonce + 1
            && |o.passed| == 1 && o.queued == [Entry(0, key, blob)]
  {
    var j := OneFrame(key, frame, order);
    assert AttemptOk(c, |l.world.stores|, Attempt(order, None));
    assert ScheduleOk(c, |l.world.stores|, j.schedules[0]);
    FirstTryQueues(j.derive, c, l.world, 0, l.nonce, frame, j.schedules[0], limit, order, key);
    var s := SendFrame(j.derive, c, l.world, 0, l.nonce, frame, j.schedules[0], 0, limit);
    var o := AfterSend(OutboxAt(l, 0), j.derive, s);
    assert j.chunks[1..] == [] && j.schedules[1..] == [];
    assert SendChunks(j.derive, c, o, [], [], limit) == (o, true);
  }

  /** Both frames are queued at index 0, whenever the boxes accept both puts. */
  lemma BothAtIndexZero(c: Config, w: World, first: seq<nat>, second: seq<nat>, key: Keys, key': Keys, limit: nat)
    requires c.Valid(|w.stores|) && InRange(first, |w.stores|) && InRange(second, |w.stores|)
    requires AnswerOrder(c, first) && AnswerOrder(c, second)
    requires var (w', r) := Put(c, w, first, key, Sealed(key, 0, "a", 0));
             r.Accepted? && Put(c, w', second, key', Sealed(key', 0, "b", 1)).1.Accepted?
    ensures var steps := GroupThenDirect(OneFrame(key, "a", first), OneFrame(key', "b", second));
            && StepsOk(c, |w.stores|, steps)
            && Exec(c, NewDesk(w), steps, limit).ledger.queued
               == [Entry(0, key, Sealed(key, 0, "a", 0)), Entry(0, key', Sealed(key', 0, "b", 1))]
  {
    var a, b := OneFrame(key, "a", first), OneFrame(key', "b", second);
    var steps := GroupThenDirect(a, b);
    OneFrameIsQueued(c, NewLedger(w), key, "a", first, limit);
    var l := SendStale(c, NewLedger(w), 0, a, limit);
    OneFrameIsQueued(c, l, key', "b", second, limit);
    var d1 := Apply(c, NewDesk(w), Load, limit);
    var d2 := Apply(c, d1, SendFrom(1, a), limit);
    assert d1.copies == [0, 0] && d2.ledger == l && d2.copies == [0, 1];
    var d3 := Apply(c, d2, SendFrom(0, b), limit);
    assert steps[1..] == [SendFrom(1, a), SendFrom(0, b)] && steps[1..][1..] == [SendFrom(0, b)];
    assert [SendFrom(0, b)][1..] == [];
    assert Exec(c, d3, [], limit) == d3;
    assert Exec(c, d2, [SendFrom(0, b)], limit) == d3;
    assert Exec(c, d1, [SendFrom(1, a), SendFrom(0, b)], limit) == d3;
  }

  /** With a quorum of one of two boxes both frames are queued in the very same slot. */
  lemma GroupThenDirectCollides(limit: nat)
    ensures var c, w, key := Config([0, 1], 1, 1), QuietWorld([map[], map[]]), Keys(0, "", "");
            var steps := GroupThenDirect(OneFrame(key, "a", [0, 1]), OneFrame(key, "b", [0, 1]));
            && StepsOk(c, 2, steps)
            && Exec(c, NewDesk(w), steps, limit).ledger.queued
               == [Entry(0, key, Sealed(key, 0, "a", 0)), Entry(0, key, Sealed(key, 0, "b", 1))]
  {
    var c, w, key := Config([0, 1], 1, 1), QuietWorld([map[], map[]]), Keys(0, "", "");
    SplitFirstTwo(c, w, key, Sealed(key, 0, "a", 0), Sealed(key, 0, "b", 1));
    assert c.boxes[..2] == [0, 1];
    BothAtIndexZero(c, w, [0, 1], [0, 1], key, key, limit);
  }

  lemma SlotsShared(c: Config, w: World, first: seq<nat>, second: seq<nat>, key: Keys, key': Keys, limit: nat,
                    oneRoot: bool)
    requires c.Valid(|w.stores|) && InRange(first, |w.stores|) && InRange(second, |w.stores|)
    requires AnswerOrder(c, first) && AnswerOrder(c, second) && (oneRoot ==> key == key')
    requires var (w', r) := Put(c, w, first, key, Sealed(key, 0, "a", 0));
             r.Accepted? && Put(c, w', second, key', Sealed(key', 0, "b", 1)).1.Accepted?
    ensures DeskCanShare(c, |w.stores|, limit, oneRoot)
  {
    BothAtIndexZero(c, w, first, second, key, key', limit);
    var steps := GroupThenDirect(OneFrame(key, "a", first), OneFrame(key', "b", second));
    var queued := Exec(c, NewDesk(w), steps, limit).ledger.queued;
    assert queued[0].slot == queued[1].slot;
    if oneRoot {
      assert JobsUnder(steps, OneFrame(key, "a", first).derive);
    }
  }

  lemma {:induction false} OtherKeysUntouched(c: Config, t: Tally, order: seq<nat>, key: Keys, blob: Blob,
                                              putAttempts: nat, other: Keys)
    requires Quiet(t.world) && InRange(order, |t.world.stores|) && NoRepeats(order) && putAttempts >= 1
    requires other != key && forall i :: 0 <= i < |order| ==> key !in t.world.stores[order[i]]
    requires forall b :: 0 <= b < |t.world.stores| ==> other !in t.world.stores[b]
    ensures var t' := Collect(c, t, order, key, blob, putAttempts);
            Quiet(t'.world) && forall b :: 0 <= b < |t'.world.stores| ==> other !in t'.world.stores[b]
    decreases |order|
  {
    if order != [] && t.stored < c.quorum {
      QuietFree(t, order[0], key, blob, putAttempts, c.attempts);
      var t1 := Visit(t, order[0], key, blob, putAttempts, c.attempts);
      forall i | 0 <= i < |order[1..]| ensures key !in t1.world.stores[order[1..][i]] {
        assert order[1..][i] == order[i + 1] != order[0];
      }
      OtherKeysUntouched(c, t1, order[1..], key, blob, putAttempts, other);
    }
  }

  /** After a change of the root the same index names another slot, so no quorum stands in the way. */
  lemma TwoRootsShare(c: Config, n: nat, limit: nat)
    requires c.Valid(n) && NoRepeats(c.boxes)
    ensures DeskCanShare(c, n, limit, false)
  {
    var w, key, key' := QuietWorld(seq(n, i => map[])), Keys(0, "", ""), Keys(1, "", "");
    var order := if c.quorum == 1 && |c.boxes| >= 2 then c.boxes[..2] else c.boxes;
    var t := Tally(w, 0, [], []);
    QuietCollect(c, t, order, key, Sealed(key, 0, "a", 0), PutAttempts(c));
    OtherKeysUntouched(c, t, order, key, Sealed(key, 0, "a", 0), PutAttempts(c), key');
    var w' := Put(c, w, order, key, Sealed(key, 0, "a", 0)).0;
    QuietCollect(c, Tally(w', 0, [], []), order, key', Sealed(key', 0, "b", 1), PutAttempts(c));
    SlotsShared(c, w, order, order, key, key', limit, false);
  }

  lemma OneRootShares(c: Config, n: nat, limit: nat)
    requires c.Valid(n) && NoRepeats(c.boxes) && 2 * c.quorum <= |c.boxes|
    ensures DeskCanShare(c, n, limit, true)
  {
    var w, key := QuietWorld(seq(n, i => map[])), Keys(0, "", "");
    var a, b := Sealed(key, 0, "a", 0), Sealed(key, 0, "b", 1);
    if c.quorum == 1 {
      SplitFirstTwo(c, w, key, a, b);
      SlotsShared(c, w, c.boxes[..2], c.boxes[..2], key, key, limit, true);
    } else {
      SplitFarEnds(c, w, key, a, b);
      SlotsShared(c, w, c.boxes, Reversed(c.boxes), key, key, limit, true);
    }
  }

  lemma DeskShareIsShare(c: Config, n: nat, limit: nat, oneRoot: bool)
    requires c.Valid(n) && NoRepeats(c.boxes) && DeskCanShare(c, n, limit, oneRoot)
    ensures CanShare(c, n, limit, oneRoot)
  {
    var w: World, steps: seq<Step> :|
      && |w.stores| == n && StepsOk(c, n, steps)
      && (oneRoot ==> exists derive :: JobsUnder(steps, derive))
      && SharesSlot(Exec(c, NewDesk(w), steps, limit).ledger.queued);
    CopiesAreStale(c, NewDesk(w), steps, limit);
    var sends := AsSends(c, NewDesk(w), steps, limit);
    if oneRoot {
      var derive :| JobsUnder(steps, derive);
      SendsUnder(c, NewDesk(w), steps, limit, derive);
      assert OneRoot(sends, derive);
    }
    assert SharesSlot(SendAllStale(c, NewLedger(w), sends, limit).queued);
  }

  /**
    Two frames can be reported queued at one index exactly when quorums need not overlap or the root
    changed in between, both over runs of sends from any indexes reached and over runs of the copies a
    node really has.
   */
  lemma ReceiptsShareIff(c: Config, n: nat, limit: nat, oneRoot: bool)
    requires c.Valid(n) && NoRepeats(c.boxes)
    ensures CanShare(c, n, limit, oneRoot) <==> !oneRoot || 2 * c.quorum <= |c.boxes|
    ensures DeskCanShare(c, n, limit, oneRoot) <==> !oneRoot || 2 * c.quorum <= |c.boxes|
  {
    if !oneRoot {
      TwoRootsShare(c, n, limit);
    } else if 2 * c.quorum <= |c.boxes| {
      OneRootShares(c, n, limit);
    } else if CanShare(c, n, limit, true) {
      var w: World, sends: seq<StaleSend> :|
        && |w.stores| == n && SendsOk(c, n, sends)
        && (true ==> exists derive :: OneRoot(sends, derive))
        && SharesSlot(SendAllStale(c, NewLedger(w), sends, limit).queued);
      var derive :| OneRoot(sends, derive);
      OverlapSharesNothing(c, w, sends, limit, derive);
    }
    if DeskCanShare(c, n, limit, oneRoot) {
      DeskShareIsShare(c, n, limit, oneRoot);
    }
  }
}
