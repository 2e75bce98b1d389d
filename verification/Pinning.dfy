/**
  When the receiving window moves and when it stays pinned. A poll reads the least unconsumed slot first; as
  long as nothing is handed on from that slot the base stays, and only slots within the window after it
  are ever read.
 */
module Pinning {
  import opened Wrappers
  import opened BlindBoxRoots
  import opened KeySchedule
  import opened Replicas
  import opened BlobClient
  import opened PutQuorum
  import opened SlotSend
  import opened SlotGuarantees
  import opened SlotReceive
  import opened ReceiveGuarantees

  // ---------- sender and receiver derive the same keys ----------

  function SendKeys(root: Secret, local: string, remote: string, epoch: nat): DeriveKeys {
    (index: nat) => DeriveMessageKeys(root, local, remote, KeySchedule.Send, index, epoch)
  }

  function ReceiveKeys(root: Secret, local: string, remote: string, epoch: nat): RootKeys {
    (index: nat) => DeriveMessageKeys(root, local, remote, Recv, index, epoch)
  }

  /** The receiver that tries the sender's root looks under exactly the sender's keys. */
  lemma KeysMeet(root: Secret, sender: string, receiver: string, epoch: nat, index: nat)
    ensures SendKeys(root, sender, receiver, epoch)(index) == ReceiveKeys(root, receiver, sender, epoch)(index)
  {
    MySendIsYourReceive(root, sender, receiver, KeySchedule.Send, index, epoch);
  }

  // ---------- one poll ----------

  function Span(c: Consumer, l: ScanLimits): nat {
    Larger(c.window, l.lookahead)
  }

  lemma FirstAndRest(indexes: seq<nat>)
    requires indexes != []
    ensures SetOf(indexes) == {indexes[0]} + SetOf(indexes[1..])
  {
    assert indexes == [indexes[0]] + indexes[1..];
  }

  /** A pass over some slots consumes none but these. */
  lemma {:induction false} PollSlotsConsume(p: Polling, e: Setting, roots: seq<RootKeys>, indexes: seq<nat>)
    requires PollingOk(p, e.limit) && e.limit >= 1
    ensures PollingOk(PollSlots(p, e, roots, indexes), e.limit) && Progress(p, PollSlots(p, e, roots, indexes))
    ensures PollSlots(p, e, roots, indexes).consumer.consumed <= p.consumer.consumed + SetOf(indexes)
    decreases |indexes|
  {
    SelfGrows(p.world.stores);
    if indexes != [] && !p.stopped {
      var p1 := PollSlot(p, e, roots, indexes[0]);
      PollSlotOk(p, e, roots, indexes[0], |p.inbox.handedOn|);
      PollSlotsConsume(p1, e, roots, indexes[1..]);
      FirstAndRest(indexes);
      ProgressTrans(p, p1, PollSlots(p1, e, roots, indexes[1..]));
    }
  }

  lemma ProgressTrans(a: Polling, b: Polling, c: Polling)
    requires Progress(a, b) && Progress(b, c)
    ensures Progress(a, c)
  {
    GrowsTrans(a.world.stores, b.world.stores, c.world.stores);
  }

  lemma {:induction false} PollSlotsKeepWindow(p: Polling, e: Setting, roots: seq<RootKeys>, indexes: seq<nat>)
    ensures PollSlots(p, e, roots, indexes).consumer.window == p.consumer.window
    decreases |indexes|
  {
    if indexes != [] && !p.stopped {
      PollSlotKeepsWindow(p, e, roots, indexes[0]);
      PollSlotsKeepWindow(PollSlot(p, e, roots, indexes[0]), e, roots, indexes[1..]);
    }
  }

  lemma {:induction false} PollSlotKeepsWindow(p: Polling, e: Setting, roots: seq<RootKeys>, index: nat)
    ensures PollSlot(p, e, roots, index).consumer.window == p.consumer.window
    decreases |roots|
  {
    if roots != [] && roots[0](index).Some? {
      var key := roots[0](index).value;
      if !PlannedRead(p, e, key, index).outcome.Got? {
        PollSlotKeepsWindow(AfterRead(p, e, key, index), e, roots[1..], index);
      }
    }
  }

  /** A poll moves the base exactly when its reads of the base slot yield a blob. */
  lemma PollMovesIff(p: Polling, e: Setting, roots: seq<RootKeys>)
    requires PollingOk(p, e.limit) && e.limit >= 1 && !p.stopped && Span(p.consumer, e.limits) >= 1
    ensures var base := p.consumer.recvBase;
            Poll(p, e, roots).consumer.recvBase > base <==> base in PollSlot(p, e, roots, base).consumer.consumed
  {
    var base, rest := p.consumer.recvBase, RecvCandidates(p.consumer, e.limits)[1..];
    BaseComesFirst(p, e, roots);
    var p1 := PollSlot(p, e, roots, base);
    PollSlotOk(p, e, roots, base, |p.inbox.handedOn|);
    PollSlotsConsume(p1, e, roots, rest);
    BaseMoves(p.consumer, p1.consumer, PollSlots(p1, e, roots, rest).consumer, SetOf(rest));
  }

  lemma BaseMoves(c: Consumer, c1: Consumer, c2: Consumer, others: set<nat>)
    requires WindowOk(c) && WindowOk(c2) && c.recvBase <= c2.recvBase && c.recvBase !in others
    requires c1.consumed <= c2.consumed <= c1.consumed + others
    ensures c2.recvBase > c.recvBase <==> c.recvBase in c1.consumed
  {
    if c2.recvBase > c.recvBase {
      assert c.recvBase in c2.consumed;
    }
  }

  /** A poll starts with the base slot and goes on with later ones. */
  lemma BaseComesFirst(p: Polling, e: Setting, roots: seq<RootKeys>)
    requires WindowOk(p.consumer) && !p.stopped && Span(p.consumer, e.limits) >= 1
    ensures var base, indexes := p.consumer.recvBase, RecvCandidates(p.consumer, e.limits);
            && indexes != [] && indexes[0] == base
            && Poll(p, e, roots) == PollSlots(PollSlot(p, e, roots, base), e, roots, indexes[1..])
            && forall i: nat :: i in indexes[1..] ==> base + 1 <= i < base + Span(p.consumer, e.limits)
  {
    var indexes := RecvCandidates(p.consumer, e.limits);
    CandidatesAscendFromBase(p.consumer, e.limits);
    forall i: nat | i in indexes[1..]
      ensures p.consumer.recvBase + 1 <= i < p.consumer.recvBase + Span(p.consumer, e.limits)
    {
      assert i in indexes;
      var k :| 0 <= k < |indexes[1..]| && indexes[1..][k] == i;
      assert indexes[0] < indexes[k + 1];
    }
  }

  lemma PollKeepsPolling(p: Polling, e: Setting, roots: seq<RootKeys>)
    requires PollingOk(p, e.limit) && e.limit >= 1
    ensures var p' := Poll(p, e, roots);
            PollingOk(p', e.limit) && Progress(p, p') && Span(p'.consumer, e.limits) == Span(p.consumer, e.limits)
  {
    SelfGrows(p.world.stores);
    if !p.stopped {
      PollSlotsConsume(p, e, roots, RecvCandidates(p.consumer, e.limits));
      PollSlotsKeepWindow(p, e, roots, RecvCandidates(p.consumer, e.limits));
    }
  }

  // ---------- a taken slot ----------

  /** Asked now for this key, the box answers with the blob it holds, unless the request is lost. */
  ghost predicate AnswersWithBlob(w: World, box: nat, key: Keys) {
    && box < |w.stores| && key in w.stores[box]
    && (w.fault(w.clock) == Answered ==> GetOnce(w, box, key).1 == Some(Some(w.stores[box][key])))
  }

  /** The boxes tell of a taken slot: some configured one answers with a blob, now and ever after. */
  lemma TakenSlotAnswers(stores: seq<Store>, boxes: seq<nat>, key: Keys, w: World)
    requires Occupied(stores, boxes, key) && Grows(stores, w.stores)
    ensures exists box :: box in boxes && AnswersWithBlob(w, box, key)
  {
    var box :| box in boxes && box < |stores| && key in stores[box];
    InterfereGrows(w.stores, w.others(w.clock));
    assert key in w.stores[box] && Tick(w).stores[box][key] == w.stores[box][key];
    assert AnswersWithBlob(w, box, key);
  }

  // ---------- what the boxes can come to hold ----------

  /** Some other writer brings this blob to the box. */
  ghost predicate Brought(others: nat -> seq<Store>, box: nat, key: Keys, blob: Blob) {
    exists t: nat :: Holds(others(t), box, key, blob)
  }

  /** The boxes gained only what other writers brought. */
  ghost predicate OnlyBrought(w: World, w': World) {
    && w'.others == w.others && Grows(w.stores, w'.stores)
    && forall box, key :: 0 <= box < |w.stores| && key in w'.stores[box] && key !in w.stores[box] ==>
         Brought(w.others, box, key, w'.stores[box][key])
  }

  lemma TickBrings(w: World)
    ensures OnlyBrought(w, Tick(w))
  {
    InterfereGrows(w.stores, w.others(w.clock));
    forall box, key | 0 <= box < |w.stores| && key in Tick(w).stores[box] && key !in w.stores[box]
      ensures Brought(w.others, box, key, Tick(w).stores[box][key])
    {
      assert Holds(w.others(w.clock), box, key, Tick(w).stores[box][key]);
    }
  }

  lemma BroughtTrans(a: World, b: World, c: World)
    requires OnlyBrought(a, b) && OnlyBrought(b, c)
    ensures OnlyBrought(a, c)
  {
    GrowsTrans(a.stores, b.stores, c.stores);
  }

  lemma NothingBrought(w: World)
    ensures OnlyBrought(w, w)
  {
    SelfGrows(w.stores);
  }

  lemma {:induction false} BatchBrings(r: Read, s: Slot, boxes: seq<nat>)
    ensures OnlyBrought(r.world, ReadBatch(r, s, boxes).world)
    decreases |boxes|
  {
    NothingBrought(r.world);
    if boxes != [] && r.outcome.Waiting? {
      var r1 := ReadBox(r, s, boxes[0]);
      TickBrings(r.world);
      BatchBrings(r1, s, boxes[1..]);
      BroughtTrans(r.world, r1.world, ReadBatch(r1, s, boxes[1..]).world);
    }
  }

  lemma EventBrings(r: Read, s: Slot, e: Event)
    ensures OnlyBrought(r.world, OnEvent(r, s, e).world)
  {
    NothingBrought(r.world);
    if e.Batch? {
      var done := OnlyPending(e.boxes, r.pending);
      var finished := set b <- done;
      BatchBrings(r.(pending := r.pending - finished, completed := r.completed + finished), s, done);
    }
  }

  lemma {:induction false} ReadBrings(r: Read, s: Slot, script: seq<Event>)
    ensures OnlyBrought(r.world, ReadSlot(r, s, script).world)
    decreases |script|
  {
    NothingBrought(r.world);
    if r.outcome.Waiting? && r.pending != {} && script != [] {
      var r1 := OnEvent(r, s, script[0]);
      EventBrings(r, s, script[0]);
      ReadBrings(r1, s, script[1..]);
      BroughtTrans(r.world, r1.world, ReadSlot(r1, s, script[1..]).world);
    }
  }

  lemma AfterReadBrings(p: Polling, e: Setting, key: Keys, index: nat)
    ensures OnlyBrought(p.world, AfterRead(p, e, key, index).world)
  {
    var plan := e.plans(p.turn);
    ReadBrings(Read(p.world, p.inbox, SetOf(e.boxes), {}, {}, false, Waiting), Slot(key, index, plan.process, e.limit),
               plan.script);
  }

  lemma {:induction false} PollSlotBrings(p: Polling, e: Setting, roots: seq<RootKeys>, index: nat)
    ensures OnlyBrought(p.world, PollSlot(p, e, roots, index).world)
    decreases |roots|
  {
    NothingBrought(p.world);
    if roots != [] && roots[0](index).Some? {
      var key := roots[0](index).value;
      var p1 := AfterRead(p, e, key, index);
      AfterReadBrings(p, e, key, index);
      PollSlotBrings(p1, e, roots[1..], index);
      BroughtTrans(p.world, p1.world, PollSlot(p1, e, roots[1..], index).world);
    }
  }

  lemma {:induction false} PollSlotsBring(p: Polling, e: Setting, roots: seq<RootKeys>, indexes: seq<nat>)
    ensures OnlyBrought(p.world, PollSlots(p, e, roots, indexes).world)
    decreases |indexes|
  {
    NothingBrought(p.world);
    if indexes != [] && !p.stopped {
      var p1 := PollSlot(p, e, roots, indexes[0]);
      PollSlotBrings(p, e, roots, indexes[0]);
      PollSlotsBring(p1, e, roots, indexes[1..]);
      BroughtTrans(p.world, p1.world, PollSlots(p1, e, roots, indexes[1..]).world);
    }
  }

  // ---------- exactly when some order of answers moves the base ----------

  /** The boxes as they stand, with no other writer; what is lost on the way is up to `fault`. */
  function AsTheyStand(w: World, fault: nat -> Fault): World {
    World(w.stores, w.clock, fault, (t: nat) => [])
  }

  /** The same handlers, with answers and deadlines coming as these scripts say. */
  function InOrder(e: Setting, scripts: nat -> seq<Event>, late: nat -> bool): Setting {
    e.(plans := (t: nat) => Plan(scripts(t), late(t), e.plans(t).process))
  }

  ghost predicate CanMove(p: Polling, e: Setting, roots: seq<RootKeys>) {
    exists fault: nat -> Fault, scripts: nat -> seq<Event>, late: nat -> bool ::
      Poll(p.(world := AsTheyStand(p.world, fault)), InOrder(e, scripts, late), roots).consumer.recvBase
      > p.consumer.recvBase
  }

  /** The box holds a new blob in this slot, which opens there and which the handler of this turn takes. */
  ghost predicate ServesNew(p: Polling, e: Setting, key: Keys, index: nat, turn: nat, box: nat) {
    && box in e.boxes && box < |p.world.stores| && key in p.world.stores[box]
    && var blob := p.world.stores[box][key];
       blob !in p.inbox.seen && OpensAt(blob, key, index) && e.plans(turn).process(blob.frame).Taken?
  }

  /** The `j`-th root is tried on this slot: neither its derivation nor one before it raises. */
  ghost predicate Tried(roots: seq<RootKeys>, index: nat, j: nat) {
    j < |roots| && forall i :: 0 <= i <= j ==> roots[i](index).Some?
  }

  ghost predicate SomeServesNew(p: Polling, e: Setting, key: Keys, index: nat, turn: nat) {
    exists box :: ServesNew(p, e, key, index, turn, box)
  }

  /** So it is under the `j`-th root, which is tried. */
  ghost predicate ServedUnder(p: Polling, e: Setting, roots: seq<RootKeys>, index: nat, j: nat) {
    && Tried(roots, index, j)
    && SomeServesNew(p, e, roots[j](index).value, index, p.turn + j)
  }

  ghost predicate NoOtherWriter(w: World) {
    forall t: nat :: w.others(t) == []
  }

  lemma ReadServesNew(p: Polling, e: Setting, key: Keys, index: nat)
    requires PollingOk(p, e.limit) && e.limit >= 1 && NoOtherWriter(p.world)
    ensures var p' := AfterRead(p, e, key, index);
            && NoOtherWriter(p'.world) && p'.world.stores == p.world.stores
            && (p'.inbox == p.inbox || SomeServesNew(p, e, key, index, p.turn))
            && (PlannedRead(p, e, key, index).outcome.Got? ==> p'.inbox != p.inbox)
  {
    var plan, r := e.plans(p.turn), PlannedRead(p, e, key, index);
    var s := Slot(key, index, plan.process, e.limit);
    ReadHandsOnAtMostOne(p.world, p.inbox, s, e.boxes, plan.script, plan.late);
    AfterReadBrings(p, e, key, index);
    SameStores(p.world, r.world);
    if r.inbox != p.inbox {
      var blob := r.inbox.handedOn[|p.inbox.handedOn|].blob;
      var box :| box in e.boxes && Holds(r.world.stores, box, s.key, blob);
      assert ServesNew(p, e, key, index, p.turn, box);
    }
  }

  lemma SameStores(w: World, w': World)
    requires OnlyBrought(w, w') && NoOtherWriter(w)
    ensures w'.stores == w.stores && NoOtherWriter(w')
  {
    forall box | 0 <= box < |w.stores| ensures w'.stores[box] == w.stores[box] {
      forall key | key in w'.stores[box] ensures key in w.stores[box] {
        if key !in w.stores[box] {
          assert false;
        }
      }
    }
  }

  lemma {:induction false} ConsumedMeansServed(p: Polling, e: Setting, roots: seq<RootKeys>, index: nat)
    requires PollingOk(p, e.limit) && e.limit >= 1 && NoOtherWriter(p.world)
    requires index !in p.consumer.consumed && index in PollSlot(p, e, roots, index).consumer.consumed
    ensures exists j: nat :: ServedUnder(p, e, roots, index, j)
    decreases |roots|
  {
    var key := roots[0](index).value;
    var p1 := AfterRead(p, e, key, index);
    ReadServesNew(p, e, key, index);
    if p1.inbox != p.inbox {
      assert ServedUnder(p, e, roots, index, 0);
    } else {
      AfterReadProgress(p, e, key, index);
      ConsumedMeansServed(p1, e, roots[1..], index);
      var j: nat :| ServedUnder(p1, e, roots[1..], index, j);
      LaterRootServes(p, p1, e, roots, index, j);
    }
  }

  lemma LaterRootTried(roots: seq<RootKeys>, index: nat, j: nat)
    requires roots != [] && roots[0](index).Some? && Tried(roots[1..], index, j)
    ensures Tried(roots, index, j + 1) && roots[j + 1] == roots[1..][j]
  {
    forall i | 0 <= i <= j + 1 ensures roots[i](index).Some? {
      assert i > 0 ==> roots[i] == roots[1..][i - 1];
    }
  }

  lemma LaterRootServes(p: Polling, p1: Polling, e: Setting, roots: seq<RootKeys>, index: nat, j: nat)
    requires roots != [] && roots[0](index).Some? && ServedUnder(p1, e, roots[1..], index, j)
    requires p1.inbox == p.inbox && p1.turn == p.turn + 1 && p1.world.stores == p.world.stores
    ensures ServedUnder(p, e, roots, index, j + 1)
  {
    LaterRootTried(roots, index, j);
    var box :| ServesNew(p1, e, roots[1..][j](index).value, index, p1.turn + j, box);
    assert ServesNew(p, e, roots[j + 1](index).value, index, p.turn + (j + 1), box);
  }

  /** Reads that nobody answers pass by and leave all as it was. */
  lemma {:induction false} SilentReads(p: Polling, e: Setting, roots: seq<RootKeys>, index: nat, j: nat)
    requires j <= |roots| && forall i :: 0 <= i < j ==> roots[i](index).Some?
    requires forall t: nat :: p.turn <= t < p.turn + j ==> e.plans(t).script == []
    ensures PollSlot(p, e, roots, index) == PollSlot(p.(turn := p.turn + j), e, roots[j..], index)
    decreases j
  {
    if j > 0 {
      assert e.plans(p.turn).script == [];
      var p1 := AfterRead(p, e, roots[0](index).value, index);
      assert p1 == p.(turn := p.turn + 1);
      forall i | 0 <= i < j - 1 ensures roots[1..][i](index).Some? {
        assert roots[1..][i] == roots[i + 1];
      }
      SilentReads(p1, e, roots[1..], index, j - 1);
      assert roots[1..][j - 1..] == roots[j..];
    }
  }

  /** So the box holds one when the next request comes, other writers included. */
  ghost predicate AnswersNew(p: Polling, e: Setting, key: Keys, index: nat, turn: nat, box: nat) {
    ServesNew(p.(world := Tick(p.world)), e, key, index, turn, box) && box < |p.world.stores|
  }

  lemma HeldAnswers(p: Polling, e: Setting, key: Keys, index: nat, turn: nat, box: nat)
    requires ServesNew(p, e, key, index, turn, box)
    ensures AnswersNew(p, e, key, index, turn, box)
  {
    InterfereGrows(p.world.stores, p.world.others(p.world.clock));
  }

  /** A read that only this box answers, with a new blob that is taken, consumes the slot. */
  lemma AnswerConsumes(p: Polling, e: Setting, roots: seq<RootKeys>, key: Keys, index: nat, box: nat)
    requires roots != [] && roots[0](index) == Some(key) && AnswersNew(p, e, key, index, p.turn, box)
    requires p.world.fault(p.world.clock) == Answered
    requires e.plans(p.turn).script == [Batch([box])] && !e.plans(p.turn).late
    ensures index in PollSlot(p, e, roots, index).consumer.consumed
  {
    var plan := e.plans(p.turn);
    assert [Batch([box])] + [] == [Batch([box])];
    FirstAnswerWins(p.world, p.inbox, Slot(key, index, plan.process, e.limit), e.boxes, box, [], false);
  }

  /** Only the box with the new blob answers, and only in the read under the `j`-th root. */
  ghost predicate OnlyAnswer(p: Polling, e: Setting, roots: seq<RootKeys>, index: nat, j: nat, box: nat) {
    && Tried(roots, index, j)
    && AnswersNew(p, e, roots[j](index).value, index, p.turn + j, box)
    && p.world.fault(p.world.clock) == Answered
    && (forall t: nat :: p.turn <= t < p.turn + j ==> e.plans(t).script == [])
    && e.plans(p.turn + j).script == [Batch([box])] && !e.plans(p.turn + j).late
  }

  lemma OnlyAnswerConsumes(p: Polling, e: Setting, roots: seq<RootKeys>, index: nat, j: nat, box: nat)
    requires OnlyAnswer(p, e, roots, index, j, box)
    ensures index in PollSlot(p, e, roots, index).consumer.consumed
  {
    SilentReads(p, e, roots, index, j);
    assert roots[j..] != [] && roots[j..][0] == roots[j];
    AnswerConsumes(p.(turn := p.turn + j), e, roots[j..], roots[j](index).value, index, box);
  }

  lemma OnlyAnswerMoves(p: Polling, e: Setting, roots: seq<RootKeys>, j: nat, box: nat)
    requires PollingOk(p, e.limit) && e.limit >= 1 && !p.stopped && Span(p.consumer, e.limits) >= 1
    requires OnlyAnswer(p, e, roots, p.consumer.recvBase, j, box)
    ensures Poll(p, e, roots).consumer.recvBase > p.consumer.recvBase
  {
    OnlyAnswerConsumes(p, e, roots, p.consumer.recvBase, j, box);
    PollMovesIff(p, e, roots);
  }

  lemma ServedCanMove(p: Polling, e: Setting, roots: seq<RootKeys>, j: nat)
    requires PollingOk(p, e.limit) && e.limit >= 1 && !p.stopped && Span(p.consumer, e.limits) >= 1
    requires ServedUnder(p, e, roots, p.consumer.recvBase, j)
    ensures CanMove(p, e, roots)
  {
    var base := p.consumer.recvBase;
    var key := roots[j](base).value;
    var box :| ServesNew(p, e, key, base, p.turn + j, box);
    var fault: nat -> Fault := (t: nat) => Answered;
    var scripts: nat -> seq<Event> := (t: nat) => if t == p.turn + j then [Batch([box])] else [];
    var late: nat -> bool := (t: nat) => false;
    var q, o := p.(world := AsTheyStand(p.world, fault)), InOrder(e, scripts, late);
    HeldAnswers(q, o, key, base, q.turn + j, box);
    OnlyAnswerMoves(q, o, roots, j, box);
  }

  /** Neither losses nor the order of answers decide what the boxes serve. */
  lemma SameServed(p: Polling, q: Polling, e: Setting, o: Setting, roots: seq<RootKeys>, index: nat, j: nat)
    requires q.inbox == p.inbox && q.turn == p.turn && q.world.stores == p.world.stores && o.boxes == e.boxes
    requires forall t: nat :: o.plans(t).process == e.plans(t).process
    requires ServedUnder(q, o, roots, index, j)
    ensures ServedUnder(p, e, roots, index, j)
  {
    var box :| ServesNew(q, o, roots[j](index).value, index, q.turn + j, box);
    assert ServesNew(p, e, roots[j](index).value, index, p.turn + j, box);
  }

  lemma MovedMeansServed(p: Polling, e: Setting, roots: seq<RootKeys>)
    requires PollingOk(p, e.limit) && e.limit >= 1 && !p.stopped && Span(p.consumer, e.limits) >= 1
    requires NoOtherWriter(p.world) && Poll(p, e, roots).consumer.recvBase > p.consumer.recvBase
    ensures exists j: nat :: ServedUnder(p, e, roots, p.consumer.recvBase, j)
  {
    PollMovesIff(p, e, roots);
    ConsumedMeansServed(p, e, roots, p.consumer.recvBase);
  }

  lemma OrderNeedsServed(p: Polling, e: Setting, roots: seq<RootKeys>, fault: nat -> Fault, scripts: nat -> seq<Event>,
                         late: nat -> bool)
    requires PollingOk(p, e.limit) && e.limit >= 1 && !p.stopped && Span(p.consumer, e.limits) >= 1
    requires Poll(p.(world := AsTheyStand(p.world, fault)), InOrder(e, scripts, late), roots).consumer.recvBase
             > p.consumer.recvBase
    ensures exists j: nat :: ServedUnder(p, e, roots, p.consumer.recvBase, j)
  {
    var q, o := p.(world := AsTheyStand(p.world, fault)), InOrder(e, scripts, late);
    MovedMeansServed(q, o, roots);
    var j: nat :| ServedUnder(q, o, roots, q.consumer.recvBase, j);
    SameServed(p, q, e, o, roots, p.consumer.recvBase, j);
  }

  /**
    Some order of answers and losses lets the next poll move the base exactly when some configured box holds,
    under the key of a root that is tried, a new blob that opens there and that the handler takes.
   */
  lemma BaseCanMoveIff(p: Polling, e: Setting, roots: seq<RootKeys>)
    requires PollingOk(p, e.limit) && e.limit >= 1 && !p.stopped && Span(p.consumer, e.limits) >= 1
    ensures CanMove(p, e, roots) <==> exists j: nat :: ServedUnder(p, e, roots, p.consumer.recvBase, j)
  {
    if CanMove(p, e, roots) {
      var fault: nat -> Fault, scripts: nat -> seq<Event>, late: nat -> bool :|
        Poll(p.(world := AsTheyStand(p.world, fault)), InOrder(e, scripts, late), roots).consumer.recvBase
        > p.consumer.recvBase;
      OrderNeedsServed(p, e, roots, fault, scripts, late);
    }
    if j: nat :| ServedUnder(p, e, roots, p.consumer.recvBase, j) {
      ServedCanMove(p, e, roots, j);
    }
  }

  // ---------- a slot with nothing to read, for good ----------

  /** No handler of the run takes this blob, or it does not open in this slot. */
  ghost predicate Rejected(e: Setting, blob: Blob, key: Keys, index: nat) {
    OpensAt(blob, key, index) ==> forall t: nat :: !e.plans(t).process(blob.frame).Taken?
  }

  /** What the box holds under this key, or nothing yet, and then whatever any other writer brings. */
  ghost predicate CanServe(w: World, box: nat, key: Keys, blob: Blob) {
    && box < |w.stores|
    && if key in w.stores[box] then w.stores[box][key] == blob else Brought(w.others, box, key, blob)
  }

  /** All that the boxes can ever serve from the slot is rejected or known already; an empty slot is closed too. */
  ghost predicate ClosedSlot(w: World, e: Setting, key: Keys, index: nat, known: set<Blob>) {
    forall box, blob :: box in e.boxes && CanServe(w, box, key, blob) ==> Rejected(e, blob, key, index) || blob in known
  }

  /** So it is under every root that is tried. */
  ghost predicate Closed(w: World, e: Setting, roots: seq<RootKeys>, index: nat, known: set<Blob>) {
    forall j: nat :: Tried(roots, index, j) ==> ClosedSlot(w, e, roots[j](index).value, index, known)
  }

  lemma ClosedSlotStays(w: World, w': World, e: Setting, key: Keys, index: nat, known: set<Blob>)
    requires ClosedSlot(w, e, key, index, known) && OnlyBrought(w, w')
    ensures ClosedSlot(w', e, key, index, known)
  {
    forall box, blob | box in e.boxes && CanServe(w', box, key, blob)
      ensures Rejected(e, blob, key, index) || blob in known
    {
      assert CanServe(w, box, key, blob);
    }
  }

  lemma ClosedStays(w: World, w': World, e: Setting, roots: seq<RootKeys>, index: nat, known: set<Blob>)
    requires Closed(w, e, roots, index, known) && OnlyBrought(w, w')
    ensures Closed(w', e, roots, index, known)
  {
    forall j: nat | Tried(roots, index, j)
      ensures ClosedSlot(w', e, roots[j](index).value, index, known)
    {
      ClosedSlotStays(w, w', e, roots[j](index).value, index, known);
    }
  }

  lemma ClosedServesNothing(w: World, e: Setting, s: Slot, blob: Blob, known: set<Blob>, t: nat)
    requires ClosedSlot(w, e, s.key, s.index, known) && s.process == e.plans(t).process
    requires ServedBlob(w.stores, e.boxes, s, blob)
    ensures blob in known
  {
    var box :| box in e.boxes && Holds(w.stores, box, s.key, blob);
    assert CanServe(w, box, s.key, blob);
  }

  lemma ClosedReadIsNothing(p: Polling, e: Setting, key: Keys, index: nat, known: set<Blob>)
    requires PollingOk(p, e.limit) && e.limit >= 1 && ClosedSlot(p.world, e, key, index, known) && known <= p.inbox.seen
    ensures var p' := AfterRead(p, e, key, index);
            !PlannedRead(p, e, key, index).outcome.Got? && p'.inbox == p.inbox && p'.consumer == p.consumer
  {
    var plan := e.plans(p.turn);
    var s := Slot(key, index, plan.process, e.limit);
    var r := PlannedRead(p, e, key, index);
    ReadHandsOnAtMostOne(p.world, p.inbox, s, e.boxes, plan.script, plan.late);
    AfterReadBrings(p, e, key, index);
    ClosedSlotStays(p.world, r.world, e, key, index, known);
    if r.inbox != p.inbox {
      ClosedServesNothing(r.world, e, s, r.inbox.handedOn[|p.inbox.handedOn|].blob, known, p.turn);
      assert false;
    }
  }

  lemma {:induction false} ClosedSlotIsPassedBy(p: Polling, e: Setting, roots: seq<RootKeys>, index: nat,
                                                known: set<Blob>)
    requires PollingOk(p, e.limit) && e.limit >= 1 && Closed(p.world, e, roots, index, known) && known <= p.inbox.seen
    ensures var p' := PollSlot(p, e, roots, index); p'.inbox == p.inbox && p'.consumer == p.consumer
    decreases |roots|
  {
    if roots != [] && roots[0](index).Some? {
      var key := roots[0](index).value;
      ClosedReadIsNothing(p, e, key, index, known);
      var p1 := AfterRead(p, e, key, index);
      AfterReadBrings(p, e, key, index);
      assert Closed(p.world, e, roots[1..], index, known) by {
        forall j: nat | Tried(roots[1..], index, j)
          ensures ClosedSlot(p.world, e, roots[1..][j](index).value, index, known)
        {
          LaterRootTried(roots, index, j);
        }
      }
      ClosedStays(p.world, p1.world, e, roots[1..], index, known);
      ClosedSlotIsPassedBy(p1, e, roots[1..], index, known);
    }
  }

  // ---------- what is handed on while the base is pinned ----------

  /** Every delivery from the `start`-th on is from a slot of this range. */
  ghost predicate WithinRange(h: seq<Delivery>, start: nat, from: nat, to: nat) {
    start <= |h| && forall k :: start <= k < |h| ==> from <= h[k].index < to
  }

  lemma AfterReadWithin(p: Polling, e: Setting, key: Keys, index: nat, start: nat, from: nat, to: nat)
    requires PollingOk(p, e.limit) && e.limit >= 1 && from <= index < to
    requires WithinRange(p.inbox.handedOn, start, from, to)
    ensures WithinRange(AfterRead(p, e, key, index).inbox.handedOn, start, from, to)
  {
    PlannedReadOk(p, e, key, index);
    var h, r := p.inbox.handedOn, PlannedRead(p, e, key, index);
    if r.inbox != p.inbox {
      var blob :| r.inbox.handedOn == h + [Delivery(key, index, blob)];
      OneMoreWithin(h, Delivery(key, index, blob), start, from, to);
    }
  }

  lemma OneMoreWithin(h: seq<Delivery>, d: Delivery, start: nat, from: nat, to: nat)
    requires WithinRange(h, start, from, to) && from <= d.index < to
    ensures WithinRange(h + [d], start, from, to)
  {
  }

  lemma {:induction false} PollSlotWithin(p: Polling, e: Setting, roots: seq<RootKeys>, index: nat, start: nat,
                                          from: nat, to: nat)
    requires PollingOk(p, e.limit) && e.limit >= 1 && from <= index < to
    requires WithinRange(p.inbox.handedOn, start, from, to)
    ensures WithinRange(PollSlot(p, e, roots, index).inbox.handedOn, start, from, to)
    decreases |roots|
  {
    if roots != [] && roots[0](index).Some? {
      var key := roots[0](index).value;
      AfterReadWithin(p, e, key, index, start, from, to);
      AfterReadProgress(p, e, key, index);
      if !PlannedRead(p, e, key, index).outcome.Got? {
        PollSlotWithin(AfterRead(p, e, key, index), e, roots[1..], index, start, from, to);
      }
    }
  }

  lemma {:induction false} PollSlotsWithin(p: Polling, e: Setting, roots: seq<RootKeys>, indexes: seq<nat>, start: nat,
                                           from: nat, to: nat)
    requires PollingOk(p, e.limit) && e.limit >= 1 && WithinRange(p.inbox.handedOn, start, from, to)
    requires forall i: nat :: i in indexes ==> from <= i < to
    ensures WithinRange(PollSlots(p, e, roots, indexes).inbox.handedOn, start, from, to)
    decreases |indexes|
  {
    if indexes != [] && !p.stopped {
      assert indexes[0] in indexes;
      PollSlotWithin(p, e, roots, indexes[0], start, from, to);
      PollSlotOk(p, e, roots, indexes[0], |p.inbox.handedOn|);
      forall i: nat | i in indexes[1..] ensures from <= i < to {
        assert i in indexes;
      }
      PollSlotsWithin(PollSlot(p, e, roots, indexes[0]), e, roots, indexes[1..], start, from, to);
    }
  }

  /** One poll over a closed base slot: the base stays, and only slots of the window after it are handed on. */
  lemma ClosedBaseStays(p: Polling, e: Setting, roots: seq<RootKeys>, known: set<Blob>, start: nat)
    requires PollingOk(p, e.limit) && e.limit >= 1 && Span(p.consumer, e.limits) >= 1
    requires Closed(p.world, e, roots, p.consumer.recvBase, known) && known <= p.inbox.seen
    requires WithinRange(p.inbox.handedOn, start, p.consumer.recvBase + 1,
                         p.consumer.recvBase + Span(p.consumer, e.limits))
    ensures var p', base := Poll(p, e, roots), p.consumer.recvBase;
            && p'.consumer.recvBase == base && OnlyBrought(p.world, p'.world)
            && WithinRange(p'.inbox.handedOn, start, base + 1, base + Span(p.consumer, e.limits))
  {
    NothingBrought(p.world);
    if !p.stopped {
      var base := p.consumer.recvBase;
      var p1 := PollSlot(p, e, roots, base);
      BaseComesFirst(p, e, roots);
      ClosedSlotIsPassedBy(p, e, roots, base, known);
      PollSlotOk(p, e, roots, base, |p.inbox.handedOn|);
      PollMovesIff(p, e, roots);
      PollKeepsPolling(p, e, roots);
      PollSlotsWithin(p1, e, roots, RecvCandidates(p.consumer, e.limits)[1..], start, base + 1,
                      base + Span(p.consumer, e.limits));
      PollSlotsBring(p, e, roots, RecvCandidates(p.consumer, e.limits));
    }
  }

  lemma LaterPollsClosed(w: World, w': World, e: Setting, roots: seq<seq<RootKeys>>, index: nat, known: set<Blob>)
    requires forall i :: 0 <= i < |roots| ==> Closed(w, e, roots[i], index, known)
    requires roots != [] && OnlyBrought(w, w')
    ensures forall i :: 0 <= i < |roots[1..]| ==> Closed(w', e, roots[1..][i], index, known)
  {
    forall i | 0 <= i < |roots[1..]| ensures Closed(w', e, roots[1..][i], index, known) {
      assert Closed(w, e, roots[i + 1], index, known);
      ClosedStays(w, w', e, roots[i + 1], index, known);
    }
  }

  /**
    A base slot from which the boxes can serve nothing that is taken, under any root still tried, pins the
    window for good: over every run of polls the base stays, and nothing past the window is ever handed on,
    however far the sender has gone. A slot empty under the roots still tried is such a slot.
   */
  lemma {:induction false} ClosedBasePinsForGood(p: Polling, e: Setting, roots: seq<seq<RootKeys>>, start: nat)
    requires PollingOk(p, e.limit) && e.limit >= 1 && Span(p.consumer, e.limits) >= 1
    requires forall i :: 0 <= i < |roots| ==> Closed(p.world, e, roots[i], p.consumer.recvBase, {})
    requires WithinRange(p.inbox.handedOn, start, p.consumer.recvBase + 1,
                         p.consumer.recvBase + Span(p.consumer, e.limits))
    ensures var p', base := Polls(p, e, roots), p.consumer.recvBase;
            && p'.consumer.recvBase == base
            && WithinRange(p'.inbox.handedOn, start, base + 1, base + Span(p.consumer, e.limits))
    decreases |roots|
  {
    if roots != [] {
      ClosedBaseStays(p, e, roots[0], {}, start);
      PollKeepsPolling(p, e, roots[0]);
      var p1 := Poll(p, e, roots[0]);
      LaterPollsClosed(p.world, p1.world, e, roots, p.consumer.recvBase, {});
      ClosedBasePinsForGood(p1, e, roots[1..], start);
    }
  }
}
