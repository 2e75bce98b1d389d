/**
  Offline sending: each frame goes to the write-once slot named by the send index. A taken slot is
  skipped, a timed-out put leaves the index where it is, and every change of the index is saved.
 */
module SlotSend {
  import opened Wrappers
  import opened BlindBoxRoots
  import opened KeySchedule
  import opened Replicas
  import opened BlobClient
  import opened PutQuorum

  /** The key derivation handed to a send: the keys of a slot, or None where deriving them raises. */
  type DeriveKeys = nat -> Option<Keys>

  /** How the boxes answer one put; `cut` is set when it times out after that many answers. */
  datatype Attempt = Attempt(order: seq<nat>, cut: Option<nat>)

  type Schedule = nat -> Attempt

  datatype SendResult = Queued(slot: nat, key: Keys, blob: Blob) | TimedOut | PutFailed

  datatype Sent = Sent(world: World, sendIndex: nat, nonce: nat, puts: nat, result: SendResult)

  ghost predicate ScheduleOk(c: Config, replicas: nat, schedule: Schedule) {
    c.Valid(replicas) && forall k: nat :: AttemptOk(c, replicas, schedule(k))
  }

  ghost predicate AttemptOk(c: Config, replicas: nat, a: Attempt) {
    InRange(a.order, replicas) && AnswerOrder(c, a.order)
  }

  /** Only the first failure is looked at: it is a conflict when that box said EXISTS. */
  predicate IsSlotConflict(failures: seq<Failure>) {
    failures != [] && failures[0] != Unavailable
  }

  function BeforeCut(a: Attempt): seq<nat> {
    if a.cut.Some? && a.cut.value < |a.order| then a.order[..a.cut.value] else a.order
  }

  /** What a put cut off by the timeout leaves behind: some boxes may have stored the blob. */
  function CutPut(c: Config, w: World, a: Attempt, key: Keys, blob: Blob): World
    requires InRange(a.order, |w.stores|)
  {
    Collect(c, Tally(w, 0, [], []), BeforeCut(a), key, blob, PutAttempts(c)).world
  }

  /** One put of the frame into the slot at the send index; a conflict leaves only the new world. */
  datatype Try = Done(sent: Sent) | Conflict(world: World)

  function TrySlot(derive: DeriveKeys, c: Config, w: World, index: nat, nonce: nat, frame: Frame, a: Attempt): (t: Try)
    requires InRange(a.order, |w.stores|)
    ensures |(if t.Conflict? then t.world else t.sent.world).stores| == |w.stores|
  {
    var key := derive(index);
    if key.None? then Done(Sent(w, index, nonce, 0, PutFailed))
    else
      var blob := Sealed(key.value, index, frame, nonce);
      if a.cut.Some? then Done(Sent(CutPut(c, w, a, key.value, blob), index, nonce + 1, 1, TimedOut))
      else
        var (w', r) := Put(c, w, a.order, key.value, blob);
        if r.Accepted? then Done(Sent(w', index + 1, nonce + 1, 1, Queued(index, key.value, blob)))
        else if IsSlotConflict(r.failures) then Conflict(w')
        else Done(Sent(w', index, nonce + 1, 1, PutFailed))
  }

  function SendFrame(derive: DeriveKeys, c: Config, w: World, index: nat, nonce: nat, frame: Frame,
                     schedule: Schedule, attempt: nat, limit: nat): (s: Sent)
    requires ScheduleOk(c, |w.stores|, schedule) && attempt <= limit
    ensures |s.world.stores| == |w.stores|
    decreases limit - attempt
  {
    assert AttemptOk(c, |w.stores|, schedule(attempt));
    match TrySlot(derive, c, w, index, nonce, frame, schedule(attempt))
    case Done(sent) => sent
    case Conflict(w') =>
      if attempt == limit then Sent(w', index, nonce + 1, 1, PutFailed)
      else
        var s := SendFrame(derive, c, w', index + 1, nonce + 1, frame, schedule, attempt + 1, limit);
        s.(puts := s.puts + 1)
  }

  /** A send that goes on after some puts. */
  function After(puts: nat, s: Sent): Sent {
    s.(puts := puts + s.puts)
  }

  lemma SendFrameStops(derive: DeriveKeys, c: Config, w: World, index: nat, nonce: nat, frame: Frame,
                       schedule: Schedule, attempt: nat, limit: nat)
    requires ScheduleOk(c, |w.stores|, schedule) && attempt <= limit && AttemptOk(c, |w.stores|, schedule(attempt))
    requires TrySlot(derive, c, w, index, nonce, frame, schedule(attempt)).Done? || attempt == limit
    ensures SendFrame(derive, c, w, index, nonce, frame, schedule, attempt, limit)
         == match TrySlot(derive, c, w, index, nonce, frame, schedule(attempt))
            case Done(sent) => sent
            case Conflict(w') => Sent(w', index, nonce + 1, 1, PutFailed)
  {
  }

  lemma SendFrameGoesOn(derive: DeriveKeys, c: Config, w: World, index: nat, nonce: nat, frame: Frame,
                        schedule: Schedule, attempt: nat, limit: nat, w': World)
    requires ScheduleOk(c, |w.stores|, schedule) && attempt < limit && AttemptOk(c, |w.stores|, schedule(attempt))
    requires TrySlot(derive, c, w, index, nonce, frame, schedule(attempt)) == Conflict(w') && |w'.stores| == |w.stores|
    ensures SendFrame(derive, c, w, index, nonce, frame, schedule, attempt, limit)
         == After(1, SendFrame(derive, c, w', index + 1, nonce + 1, frame, schedule, attempt + 1, limit))
  {
  }

  /** A frame reported as queued. */
  datatype Entry = Entry(slot: nat, key: Keys, blob: Blob)

  /** The sender's side of one peer: `passed` logs under which key each slot below the index was left. */
  datatype Outbox = Outbox(world: World, sendIndex: nat, nonce: nat, passed: seq<Option<Keys>>, queued: seq<Entry>)

  function KeysBetween(derive: DeriveKeys, from: nat, to: nat): seq<Option<Keys>>
    requires from <= to
  {
    seq(to - from, i requires 0 <= i < to - from => derive(from + i))
  }

  function AfterSend(o: Outbox, derive: DeriveKeys, s: Sent): Outbox {
    Outbox(s.world, s.sendIndex, s.nonce,
           if o.sendIndex <= s.sendIndex then o.passed + KeysBetween(derive, o.sendIndex, s.sendIndex) else o.passed,
           if s.result.Queued? then o.queued + [Entry(s.result.slot, s.result.key, s.result.blob)] else o.queued)
  }

  /** One text: its chunks in order, up to the first that is not queued. */
  function SendChunks(derive: DeriveKeys, c: Config, o: Outbox, chunks: seq<Frame>, schedules: seq<Schedule>,
                      limit: nat)
    : (r: (Outbox, bool))
    requires |schedules| == |chunks|
    requires forall i :: 0 <= i < |schedules| ==> ScheduleOk(c, |o.world.stores|, schedules[i])
    ensures |r.0.world.stores| == |o.world.stores|
    decreases |chunks|
  {
    if chunks == [] then (o, true)
    else
      var s := SendFrame(derive, c, o.world, o.sendIndex, o.nonce, chunks[0], schedules[0], 0, limit);
      var o' := AfterSend(o, derive, s);
      if s.result.Queued? then SendChunks(derive, c, o', chunks[1..], schedules[1..], limit)
      else (o', false)
  }

  /** A direct text send under the send lock; a run of them shares one copy of the index. */
  datatype Job = Job(derive: DeriveKeys, chunks: seq<Frame>, schedules: seq<Schedule>)

  ghost predicate JobOk(c: Config, replicas: nat, j: Job) {
    && |j.schedules| == |j.chunks|
    && forall i :: 0 <= i < |j.schedules| ==> ScheduleOk(c, replicas, j.schedules[i])
  }

  ghost predicate JobsOk(c: Config, replicas: nat, jobs: seq<Job>) {
    forall i :: 0 <= i < |jobs| ==> JobOk(c, replicas, jobs[i])
  }

  function SendAll(c: Config, o: Outbox, jobs: seq<Job>, limit: nat): Outbox
    requires JobsOk(c, |o.world.stores|, jobs)
    decreases |jobs|
  {
    if jobs == [] then o
    else
      assert JobOk(c, |o.world.stores|, jobs[0]);
      var o' := SendChunks(jobs[0].derive, c, o, jobs[0].chunks, jobs[0].schedules, limit).0;
      SendAll(c, o', jobs[1..], limit)
  }

  class Sender {
    const client: BlindBoxClient
    var sendIndex: nat
    var saved: nat
    var nonce: nat

    constructor (client: BlindBoxClient, sendIndex: nat)
      ensures this.client == client && this.sendIndex == saved == sendIndex && nonce == 0
    {
      this.client := client;
      this.sendIndex, saved, nonce := sendIndex, sendIndex, 0;
    }

    /** One put into the slot at the send index; None where another frame holds the slot. */
    method PutIntoSlot(derive: DeriveKeys, frame: Frame, a: Attempt) returns (result: Option<SendResult>, puts: nat)
      requires client.config.Valid(|client.world.stores|) && AttemptOk(client.config, |client.world.stores|, a)
      requires saved == sendIndex
      modifies this, client
      ensures saved == sendIndex
      ensures var t := TrySlot(derive, client.config, old(client.world), old(sendIndex), old(nonce), frame, a);
              && (t.Done? <==> result.Some?)
              && (t.Done? ==> t.sent == Sent(client.world, sendIndex, nonce, puts, result.value))
              && (t.Conflict? ==> t.world == client.world && sendIndex == old(sendIndex)
                                  && nonce == old(nonce) + 1 && puts == 1)
    {
      var key := derive(sendIndex);
      if key.None? {
        return Some(PutFailed), 0;
      }
      var blob := Sealed(key.value, sendIndex, frame, nonce);
      nonce := nonce + 1;
      puts := 1;
      if a.cut.Some? {
        client.world := CutPut(client.config, client.world, a, key.value, blob);
        return Some(TimedOut), puts;
      }
      var put := client.PutBlob(a.order, key.value, blob);
      if put.Accepted? {
        result := Some(Queued(sendIndex, key.value, blob));
        sendIndex := sendIndex + 1;
        saved := sendIndex;
      } else {
        result := if IsSlotConflict(put.failures) then None else Some(PutFailed);
      }
    }

    /** One turn of the retry loop; None where it goes on with the next slot. */
    method TryNext(derive: DeriveKeys, frame: Frame, schedule: Schedule, attempt: nat, limit: nat)
      returns (result: Option<SendResult>, puts: nat)
      requires ScheduleOk(client.config, |client.world.stores|, schedule) && saved == sendIndex && attempt <= limit
      modifies this, client
      ensures saved == sendIndex && |client.world.stores| == |old(client.world.stores)|
      ensures var was := SendFrame(derive, client.config, old(client.world), old(sendIndex), old(nonce), frame,
                                   schedule,
                                   attempt, limit);
              && (result.Some? ==> was == Sent(client.world, sendIndex, nonce, puts, result.value))
              && (result.None? ==> attempt < limit && was == After(puts, SendFrame(derive, client.config, client.world,
                                     sendIndex, nonce, frame, schedule, attempt + 1, limit)))
    {
      ghost var w, index, drawn := client.world, sendIndex, nonce;
      assert AttemptOk(client.config, |client.world.stores|, schedule(attempt));
      result, puts := PutIntoSlot(derive, frame, schedule(attempt));
      if result.Some? || attempt == limit {
        SendFrameStops(derive, client.config, w, index, drawn, frame, schedule, attempt, limit);
        result := Some(if result.Some? then result.value else PutFailed);
      } else {
        SendFrameGoesOn(derive, client.config, w, index, drawn, frame, schedule, attempt, limit, client.world);
        sendIndex := sendIndex + 1;
        saved := sendIndex;
      }
    }

    /** Puts one frame into the first free slot from the send index on. */
    method PutFrameWithSlotRetry(derive: DeriveKeys, frame: Frame, schedule: Schedule, limit: nat)
      returns (result: SendResult, puts: nat)
      requires ScheduleOk(client.config, |client.world.stores|, schedule) && saved == sendIndex
      modifies this, client
      ensures saved == sendIndex
      ensures Sent(client.world, sendIndex, nonce, puts, result)
           == SendFrame(derive, client.config, old(client.world), old(sendIndex), old(nonce), frame,
                        schedule, 0, limit)
    {
      var attempt := 0;
      puts := 0;
      ghost var all := SendFrame(derive, client.config, client.world, sendIndex, nonce, frame, schedule, 0, limit);
      while true
        invariant attempt <= limit && saved == sendIndex && |client.world.stores| == |old(client.world.stores)|
        invariant all == After(puts, SendFrame(derive, client.config, client.world, sendIndex, nonce, frame, schedule,
                                               attempt, limit))
        decreases limit - attempt
      {
        var outcome, made := TryNext(derive, frame, schedule, attempt, limit);
        puts := puts + made;
        if outcome.Some? {
          return outcome.value, puts;
        }
        attempt := attempt + 1;
      }
    }

    /** The loop of a text send over its chunks; stops at the first chunk that is not queued. */
    method SendTextChunks(derive: DeriveKeys, chunks: seq<Frame>, schedules: seq<Schedule>, limit: nat,
                          ghost before: Outbox)
      returns (queued: seq<Entry>, complete: bool)
      requires |schedules| == |chunks| && saved == sendIndex
      requires forall i :: 0 <= i < |schedules| ==> ScheduleOk(client.config, |client.world.stores|, schedules[i])
      requires before == Outbox(client.world, sendIndex, nonce, before.passed, [])
      modifies this, client
      ensures saved == sendIndex
      ensures var (after, all) := SendChunks(derive, client.config, before, chunks, schedules, limit);
              && (client.world, sendIndex, nonce) == (after.world, after.sendIndex, after.nonce)
              && queued == after.queued && complete == all
    {
      queued := [];
      ghost var o := before;
      ghost var all := SendChunks(derive, client.config, before, chunks, schedules, limit);
      var i := 0;
      while i < |chunks|
        invariant i <= |chunks| && saved == sendIndex
        invariant o == Outbox(client.world, sendIndex, nonce, o.passed, queued)
        invariant |client.world.stores| == |before.world.stores|
        invariant all == SendChunks(derive, client.config, o, chunks[i..], schedules[i..], limit)
      {
        ghost var o' := o;
        assert chunks[i..][0] == chunks[i] && schedules[i..][0] == schedules[i];
        assert chunks[i..][1..] == chunks[i + 1..] && schedules[i..][1..] == schedules[i + 1..];
        var result, _ := PutFrameWithSlotRetry(derive, chunks[i], schedules[i], limit);
        if result.Queued? {
          queued := queued + [Entry(result.slot, result.key, result.blob)];
        }
        o := Outbox(client.world, sendIndex, nonce,
                    if o'.sendIndex <= sendIndex then o'.passed + KeysBetween(derive, o'.sendIndex, sendIndex)
                    else o'.passed,
                    queued);
        if !result.Queued? {
          return queued, false;
        }
        i := i + 1;
      }
      complete := true;
    }
  }
}
