/** The quorum PUT of the BlindBox client. */
module BlobClient {
  import opened Wrappers
  import opened KeySchedule
  import opened Replicas

  datatype Failure = Unavailable | VerificationFailed | Mismatch

  datatype Verdict = Stored | Failed(failure: Failure)

  predicate InRange(boxes: seq<nat>, replicas: nat) {
    forall i :: 0 <= i < |boxes| ==> boxes[i] < replicas
  }

  datatype Config = Config(boxes: seq<nat>, quorum: nat, attempts: nat)
  {
    /** What the client's constructor checks, and that every configured box exists. */
    predicate Valid(replicas: nat) {
      && 1 <= quorum <= |boxes| && attempts >= 1
      && InRange(boxes, replicas)
    }
  }

  /** What one put has counted so far; `answers` is the list a successful put returns. */
  datatype Tally = Tally(world: World, stored: nat, answers: seq<(nat, Reply)>, failures: seq<Failure>)

  datatype PutResult = Accepted(answers: seq<(nat, Reply)>) | Rejected(failures: seq<Failure>)

  function PutTry(w: World, box: nat, key: Keys, blob: Blob, attempts: nat): (r: (World, Option<Reply>))
    requires box < |w.stores|
    ensures |r.0.stores| == |w.stores|
    decreases attempts
  {
    if attempts == 0 then (w, None)
    else
      var (w', reply) := PutOnce(w, box, key, blob);
      if reply.Some? then (w', reply) else PutTry(w', box, key, blob, attempts - 1)
  }

  function GetTry(w: World, box: nat, key: Keys, attempts: nat): (r: (World, Option<Option<Blob>>))
    requires box < |w.stores|
    ensures |r.0.stores| == |w.stores|
    decreases attempts
  {
    if attempts == 0 then (w, None)
    else
      var (w', found) := GetOnce(w, box, key);
      if found.Some? then (w', found) else GetTry(w', box, key, attempts - 1)
  }

  /** An EXISTS answer counts only after reading the very same blob back. */
  function Verify(w: World, box: nat, key: Keys, blob: Blob, attempts: nat): (r: (World, Verdict))
    requires box < |w.stores|
    ensures |r.0.stores| == |w.stores|
  {
    var (w', found) := GetTry(w, box, key, attempts);
    (w', if found.None? then Failed(VerificationFailed)
         else if found.value == Some(blob) then Stored
         else Failed(Mismatch))
  }

  /** One box: PUT with retries, then verification. */
  function Visit(t: Tally, box: nat, key: Keys, blob: Blob, putAttempts: nat, attempts: nat): (t': Tally)
    requires box < |t.world.stores|
    ensures |t'.world.stores| == |t.world.stores|
  {
    var (w, reply) := PutTry(t.world, box, key, blob, putAttempts);
    if reply.None? then t.(world := w, failures := t.failures + [Unavailable])
    else
      var answers := t.answers + [(box, reply.value)];
      if reply.value.OK? then Tally(w, t.stored + 1, answers, t.failures)
      else
        var (w', verdict) := Verify(w, box, key, blob, attempts);
        if verdict.Stored? then Tally(w', t.stored + 1, answers, t.failures)
        else Tally(w', t.stored, answers, t.failures + [verdict.failure])
  }

  /** Boxes answer in some order; the put stops as soon as the quorum is reached. */
  function Collect(c: Config, t: Tally, order: seq<nat>, key: Keys, blob: Blob, putAttempts: nat): (t': Tally)
    requires InRange(order, |t.world.stores|)
    ensures |t'.world.stores| == |t.world.stores|
    decreases |order|
  {
    if order == [] || t.stored >= c.quorum then t
    else Collect(c, Visit(t, order[0], key, blob, putAttempts, c.attempts), order[1..], key, blob, putAttempts)
  }

  /** The boxes tried, in the order their answers come: the first two one by one, or all at once. */
  ghost predicate AnswerOrder(c: Config, order: seq<nat>) {
    if c.quorum == 1 then order == (if |c.boxes| < 2 then c.boxes else c.boxes[..2])
    else multiset(order) == multiset(c.boxes)
  }

  function PutAttempts(c: Config): nat {
    if c.quorum == 1 then 1 else c.attempts
  }

  function Put(c: Config, w: World, order: seq<nat>, key: Keys, blob: Blob): (r: (World, PutResult))
    requires InRange(order, |w.stores|)
    ensures |r.0.stores| == |w.stores|
  {
    var t := Collect(c, Tally(w, 0, [], []), order, key, blob, PutAttempts(c));
    (t.world, if t.stored >= c.quorum then Accepted(t.answers) else Rejected(t.failures))
  }

  class BlindBoxClient {
    const config: Config
    var world: World

    constructor (config: Config, world: World)
      ensures this.config == config && this.world == world
    {
      this.config := config;
      this.world := world;
    }

    method PutWithRetries(box: nat, key: Keys, blob: Blob, attempts: nat) returns (reply: Option<Reply>)
      requires box < |world.stores|
      modifies this
      ensures (world, reply) == PutTry(old(world), box, key, blob, attempts)
    {
      var attempt := 0;
      reply := None;
      ghost var w0 := world;
      while attempt < attempts && reply.None?
        invariant attempt <= attempts && |world.stores| == |w0.stores|
        invariant reply.None? ==>
                    PutTry(w0, box, key, blob, attempts) == PutTry(world, box, key, blob, attempts - attempt)
        invariant reply.Some? ==> PutTry(w0, box, key, blob, attempts) == (world, reply)
      {
        var (w, answer) := PutOnce(world, box, key, blob);
        world := w;
        reply := answer;
        attempt := attempt + 1;
      }
    }

    method GetWithRetries(box: nat, key: Keys, attempts: nat) returns (found: Option<Option<Blob>>)
      requires box < |world.stores|
      modifies this
      ensures (world, found) == GetTry(old(world), box, key, attempts)
    {
      var attempt := 0;
      found := None;
      ghost var w0 := world;
      while attempt < attempts && found.None?
        invariant attempt <= attempts && |world.stores| == |w0.stores|
        invariant found.None? ==>
                    GetTry(w0, box, key, attempts) == GetTry(world, box, key, attempts - attempt)
        invariant found.Some? ==> GetTry(w0, box, key, attempts) == (world, found)
      {
        var (w, answer) := GetOnce(world, box, key);
        world := w;
        found := answer;
        attempt := attempt + 1;
      }
    }

    /** One answer of a put: the reply is counted at once, or after reading the blob back. */
    method CountAnswer(stored: nat, answers: seq<(nat, Reply)>, failures: seq<Failure>,
                       box: nat, key: Keys, blob: Blob)
      returns (stored': nat, answers': seq<(nat, Reply)>, failures': seq<Failure>)
      requires box < |world.stores|
      modifies this
      ensures Tally(world, stored', answers', failures')
           == Visit(Tally(old(world), stored, answers, failures), box, key, blob,
                    PutAttempts(config), config.attempts)
    {
      stored', answers', failures' := stored, answers, failures;
      var reply := PutWithRetries(box, key, blob, PutAttempts(config));
      if reply.None? {
        failures' := failures + [Unavailable];
        return;
      }
      answers' := answers + [(box, reply.value)];
      if reply.value.OK? {
        stored' := stored + 1;
      } else {
        var found := GetWithRetries(box, key, config.attempts);
        if found.None? {
          failures' := failures + [VerificationFailed];
        } else if found.value == Some(blob) {
          stored' := stored + 1;
        } else {
          failures' := failures + [Mismatch];
        }
      }
    }

    /** The put of one blob; `order` is the order in which the boxes happen to answer. */
    method PutBlob(order: seq<nat>, key: Keys, blob: Blob) returns (result: PutResult)
      requires config.Valid(|world.stores|) && AnswerOrder(config, order)
      requires InRange(order, |world.stores|)
      modifies this
      ensures (world, result) == Put(config, old(world), order, key, blob)
    {
      var stored: nat := 0;
      var answers: seq<(nat, Reply)>, failures: seq<Failure> := [], [];
      var pending: seq<nat> := order;
      ghost var all := Collect(config, Tally(world, 0, [], []), order, key, blob, PutAttempts(config));
      while pending != [] && stored < config.quorum
        invariant InRange(pending, |world.stores|)
        invariant all == Collect(config, Tally(world, stored, answers, failures), pending, key, blob,
                                 PutAttempts(config))
        decreases |pending|
      {
        stored, answers, failures := CountAnswer(stored, answers, failures, pending[0], key, blob);
        pending := pending[1..];
      }
      result := if stored >= config.quorum then Accepted(answers) else Rejected(failures);
    }
  }
}
