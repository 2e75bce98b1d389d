/**
  Offline receiving: a window of slots is scanned, each slot is read from all replicas at once, the
  first blob that opens and is taken is handed on, and the slot is then marked consumed.
 */
module SlotReceive {
  import opened Wrappers
  import opened KeySchedule
  import opened Replicas

  datatype Processing = Taken | Refused | Raises

  type Process = Frame -> Processing

  datatype Delivery = Delivery(key: Keys, index: nat, blob: Blob)

  /** Digests are ideal, so a blob is its own digest. `log` lists every blob ever remembered. */
  datatype Inbox = Inbox(order: seq<Blob>, seen: set<Blob>, log: seq<Blob>, handedOn: seq<Delivery>)

  const EMPTY_INBOX := Inbox([], {}, [], [])

  /** The remembered digests are a bounded queue with a set beside it. */
  function Remember(i: Inbox, blob: Blob, limit: nat): Inbox {
    if blob in i.seen then i
    else
      var (order, seen) := Trim(i.order + [blob], i.seen + {blob}, limit);
      i.(order := order, seen := seen, log := i.log + [blob])
  }

  function Trim(order: seq<Blob>, seen: set<Blob>, limit: nat): (seq<Blob>, set<Blob>) {
    if |order| > limit then Trim(order[1..], seen - {order[0]}, limit) else (order, seen)
  }

  class SeenHashes {
    const limit: nat
    var seen: set<Blob>
    var order: seq<Blob>

    constructor (limit: nat)
      ensures this.limit == limit && seen == {} && order == []
    {
      this.limit := limit;
      seen, order := {}, [];
    }

    method RememberHash(digest: Blob)
      modifies this
      ensures var after := Remember(Inbox(old(order), old(seen), [], []), digest, limit);
              order == after.order && seen == after.seen
    {
      if digest in seen {
        return;
      }
      seen := seen + {digest};
      order := order + [digest];
      ghost var trimmed := Trim(order, seen, limit);
      while |order| > limit
        invariant trimmed == Trim(order, seen, limit)
      {
        var oldest := order[0];
        order := order[1..];
        seen := seen - {oldest};
      }
    }
  }

  // ---------- reading one slot ----------

  datatype Outcome = Waiting | Got(blob: Blob) | Nothing | Raised | TimedOut

  /** Every box of a read is pending, completed or cancelled; `armed` is the soft deadline. */
  datatype Read = Read(world: World, inbox: Inbox, pending: set<nat>, completed: set<nat>,
                       cancelled: set<nat>, armed: bool, outcome: Outcome)

  /** What wakes the read: some boxes have answered, or the soft deadline has passed. */
  datatype Event = Batch(boxes: seq<nat>) | Deadline

  datatype Slot = Slot(key: Keys, index: nat, process: Process, limit: nat)

  /** Decryption succeeds only for a blob sealed under this slot's key with this slot's index inside. */
  predicate OpensAt(blob: Blob, key: Keys, index: nat) {
    blob.Sealed? && blob.key == key && blob.index == index
  }

  function Offered(r: Read, s: Slot, blob: Blob): Read {
    if blob in r.inbox.seen || !OpensAt(blob, s.key, s.index) then r
    else
      match s.process(blob.frame)
      case Refused => r
      case Raises => r.(outcome := Raised)
      case Taken =>
        var inbox := r.inbox.(handedOn := r.inbox.handedOn + [Delivery(s.key, s.index, blob)]);
        r.(inbox := Remember(inbox, blob, s.limit), outcome := Got(blob))
  }

  function ReadBox(r: Read, s: Slot, box: nat): (r': Read)
    ensures |r'.world.stores| == |r.world.stores|
    ensures (r'.pending, r'.completed, r'.cancelled, r'.armed) == (r.pending, r.completed, r.cancelled, r.armed)
  {
    if box >= |r.world.stores| then r
    else
      var (w, found) := GetOnce(r.world, box, s.key);
      if found.Some? && found.value.Some? then Offered(r.(world := w), s, found.value.value)
      else r.(world := w)
  }

  function ReadBatch(r: Read, s: Slot, boxes: seq<nat>): (r': Read)
    ensures |r'.world.stores| == |r.world.stores|
    ensures (r'.pending, r'.completed, r'.cancelled, r'.armed) == (r.pending, r.completed, r.cancelled, r.armed)
    decreases |boxes|
  {
    if boxes == [] || !r.outcome.Waiting? then r
    else ReadBatch(ReadBox(r, s, boxes[0]), s, boxes[1..])
  }

  function CancelRest(r: Read, outcome: Outcome): Read {
    r.(cancelled := r.cancelled + r.pending, pending := {}, outcome := outcome)
  }

  function OnlyPending(boxes: seq<nat>, pending: set<nat>): seq<nat> {
    if boxes == [] then []
    else if boxes[0] in pending then [boxes[0]] + OnlyPending(boxes[1..], pending - {boxes[0]})
    else OnlyPending(boxes[1..], pending)
  }

  function OnEvent(r: Read, s: Slot, e: Event): (r': Read)
    ensures |r'.world.stores| == |r.world.stores|
  {
    match e
    case Deadline => if r.armed then CancelRest(r, Nothing) else r
    case Batch(boxes) =>
      var done := OnlyPending(boxes, r.pending);
      var finished := set b <- done;
      var r1 := ReadBatch(r.(pending := r.pending - finished, completed := r.completed + finished), s, done);
      if r1.outcome.Waiting? then r1.(armed := r1.armed || done != [])
      else CancelRest(r1, r1.outcome)
  }

  /** The script running out stands for the caller's own timeout. */
  function ReadSlot(r: Read, s: Slot, script: seq<Event>): (r': Read)
    ensures |r'.world.stores| == |r.world.stores|
    decreases |script|
  {
    if !r.outcome.Waiting? then r
    else if r.pending == {} then r.(outcome := Nothing)
    else if script == [] then CancelRest(r, TimedOut)
    else ReadSlot(OnEvent(r, s, script[0]), s, script[1..])
  }

  /** `late`: the caller's timeout strikes after the blob was taken, while other reads are cancelled. */
  function GetFirstAccepted(w: World, inbox: Inbox, s: Slot, boxes: seq<nat>, script: seq<Event>, late: bool)
    : (r: Read)
    ensures |r.world.stores| == |w.stores|
  {
    var r := ReadSlot(Read(w, inbox, set b <- boxes, {}, {}, false, Waiting), s, script);
    if late && r.outcome.Got? && r.cancelled != {} then r.(outcome := TimedOut) else r
  }

  // ---------- the window and the consumed slots ----------

  datatype Consumer = Consumer(recvBase: nat, window: nat, consumed: set<nat>)

  function AdvanceBase(base: nat, consumed: set<nat>): nat
    decreases |consumed|
  {
    if base in consumed then
      assert |consumed - {base}| < |consumed|;
      AdvanceBase(base + 1, consumed - {base})
    else base
  }

  function MarkConsumed(c: Consumer, index: nat): Consumer {
    var consumed := c.consumed + {index};
    c.(consumed := consumed, recvBase := AdvanceBase(c.recvBase, consumed))
  }

  datatype ScanLimits = ScanLimits(backtrack: nat, lookahead: nat, perPoll: nat, budget: nat)

  function Unconsumed(from: nat, to: nat, consumed: set<nat>): (s: seq<nat>)
    ensures forall i: nat :: i in s <==> (from <= i < to && i !in consumed)
    decreases if from < to then to - from else 0
  {
    if from >= to then []
    else (if from in consumed then [] else [from]) + Unconsumed(from + 1, to, consumed)
  }

  function AtMost(s: seq<nat>, n: nat): seq<nat> {
    if |s| > n then s[..n] else s
  }

  function Larger(a: nat, b: nat): nat {
    if a >= b then a else b
  }

  /** The slots one poll reads, in order: from the base forward, then the backtrack range. */
  function RecvCandidates(c: Consumer, l: ScanLimits): seq<nat> {
    var start := if c.recvBase >= l.backtrack then c.recvBase - l.backtrack else 0;
    var ordered := Unconsumed(c.recvBase, c.recvBase + Larger(c.window, l.lookahead), c.consumed)
                   + Unconsumed(start, c.recvBase, c.consumed);
    AtMost(AtMost(ordered, Larger(1, l.perPoll)), Larger(1, l.budget))
  }

  class BlindBoxState {
    var sendIndex: nat
    var recvBase: nat
    var recvWindow: nat
    var consumedRecv: set<nat>

    constructor ()
      ensures sendIndex == recvBase == 0 && recvWindow == 16 && consumedRecv == {}
    {
      sendIndex, recvBase, recvWindow, consumedRecv := 0, 0, 16, {};
    }

    function View(): Consumer
      reads this
    {
      Consumer(recvBase, recvWindow, consumedRecv)
    }

    method MarkSlotConsumed(index: nat)
      modifies this
      ensures View() == MarkConsumed(old(View()), index) && sendIndex == old(sendIndex)
    {
      consumedRecv := consumedRecv + {index};
      ghost var left := consumedRecv;
      ghost var goal := AdvanceBase(recvBase, consumedRecv);
      var start := recvBase;
      while recvBase in consumedRecv
        invariant start <= recvBase && sendIndex == old(sendIndex) && recvWindow == old(recvWindow)
        invariant consumedRecv == old(consumedRecv) + {index}
        invariant left == set i <- consumedRecv | !(start <= i < recvBase)
        invariant AdvanceBase(recvBase, left) == goal
        decreases |left|
      {
        left := left - {recvBase};
        recvBase := recvBase + 1;
      }
    }
  }

  // ---------- one poll of a peer's window ----------

  /** How one read goes: what wakes it, whether the timeout strikes late, what the handler does. */
  datatype Plan = Plan(script: seq<Event>, late: bool, process: Process)

  datatype Setting = Setting(boxes: seq<nat>, limit: nat, limits: ScanLimits, plans: nat -> Plan)

  /** `turn` numbers the reads of all polls; `stopped` is the poller's death by a raising derivation. */
  datatype Polling = Polling(world: World, inbox: Inbox, consumer: Consumer, turn: nat, stopped: bool)

  type RootKeys = nat -> Option<Keys>

  function PlannedRead(p: Polling, e: Setting, key: Keys, index: nat): Read {
    var plan := e.plans(p.turn);
    GetFirstAccepted(p.world, p.inbox, Slot(key, index, plan.process, e.limit), e.boxes, plan.script, plan.late)
  }

  function AfterRead(p: Polling, e: Setting, key: Keys, index: nat): Polling {
    var r := PlannedRead(p, e, key, index);
    p.(world := r.world, inbox := r.inbox, turn := p.turn + 1,
       consumer := if r.outcome.Got? then MarkConsumed(p.consumer, index) else p.consumer)
  }

  /** One slot under every root candidate in turn, until one of them yields a blob. */
  function PollSlot(p: Polling, e: Setting, roots: seq<RootKeys>, index: nat): Polling
    decreases |roots|
  {
    if roots == [] then p
    else
      var key := roots[0](index);
      if key.None? then p.(stopped := true)
      else
        var p' := AfterRead(p, e, key.value, index);
        if PlannedRead(p, e, key.value, index).outcome.Got? then p' else PollSlot(p', e, roots[1..], index)
  }

  function PollSlots(p: Polling, e: Setting, roots: seq<RootKeys>, indexes: seq<nat>): Polling
    decreases |indexes|
  {
    if indexes == [] || p.stopped then p
    else PollSlots(PollSlot(p, e, roots, indexes[0]), e, roots, indexes[1..])
  }

  function Poll(p: Polling, e: Setting, roots: seq<RootKeys>): Polling {
    if p.stopped then p else PollSlots(p, e, roots, RecvCandidates(p.consumer, e.limits))
  }

  class Poller {
    const setting: Setting
    const state: BlindBoxState
    var world: World
    var inbox: Inbox
    var turn: nat
    var stopped: bool

    constructor (setting: Setting, state: BlindBoxState, world: World)
      ensures this.setting == setting && this.state == state
      ensures View() == Polling(world, EMPTY_INBOX, state.View(), 0, false)
    {
      this.setting, this.state, this.world := setting, state, world;
      inbox, turn, stopped := EMPTY_INBOX, 0, false;
    }

    function View(): Polling
      reads this, state
    {
      Polling(world, inbox, state.View(), turn, stopped)
    }

    /** Starts a read at every box and hands on the first blob that is taken. */
    method ReadFirstAccepted(s: Slot, plan: Plan) returns (outcome: Outcome, ghost ended: Read)
      modifies this
      ensures ended == GetFirstAccepted(old(world), old(inbox), s, setting.boxes, plan.script, plan.late)
      ensures world == ended.world && inbox == ended.inbox && outcome == ended.outcome
      ensures turn == old(turn) && stopped == old(stopped)
    {
      var pending: set<nat> := set b <- setting.boxes;
      var completed: set<nat>, cancelled: set<nat>, armed := {}, {}, false;
      outcome := Waiting;
      ghost var all := ReadSlot(Read(world, inbox, pending, {}, {}, false, Waiting), s, plan.script);
      var i := 0;
      while outcome.Waiting? && pending != {} && i < |plan.script|
        invariant i <= |plan.script| && turn == old(turn) && stopped == old(stopped)
        invariant all == ReadSlot(Read(world, inbox, pending, completed, cancelled, armed, outcome), s,
                                  plan.script[i..])
        decreases |plan.script| - i
      {
        ghost var now := Read(world, inbox, pending, completed, cancelled, armed, outcome);
        var event := plan.script[i];
        assert plan.script[i..][0] == event && plan.script[i..][1..] == plan.script[i + 1..];
        i := i + 1;
        if event.Deadline? {
          if armed {
            cancelled, pending, outcome := cancelled + pending, {}, Nothing;
          }
        } else {
          var done := OnlyPending(event.boxes, pending);
          var finished := set b <- done;
          pending, completed := pending - finished, completed + finished;
          outcome := AcceptFirst(s, done, Read(world, inbox, pending, completed, cancelled, armed, outcome));
          if outcome.Waiting? {
            armed := armed || done != [];
          } else {
            cancelled, pending := cancelled + pending, {};
          }
        }
        assert OnEvent(now, s, event) == Read(world, inbox, pending, completed, cancelled, armed, outcome);
      }
      if outcome.Waiting? {
        if pending == {} {
          outcome := Nothing;
        } else {
          cancelled, pending, outcome := cancelled + pending, {}, TimedOut;
        }
      }
      if plan.late && outcome.Got? && cancelled != {} {
        outcome := TimedOut;
      }
      ended := GetFirstAccepted(old(world), old(inbox), s, setting.boxes, plan.script, plan.late);
    }

    /** The answers of one batch, up to the first blob that is taken. */
    method AcceptFirst(s: Slot, done: seq<nat>, ghost now: Read) returns (outcome: Outcome)
      requires now.world == world && now.inbox == inbox && now.outcome == Waiting
      modifies this
      ensures turn == old(turn) && stopped == old(stopped)
      ensures ReadBatch(now, s, done) == now.(world := world, inbox := inbox, outcome := outcome)
    {
      outcome := Waiting;
      var i := 0;
      while i < |done| && outcome.Waiting?
        invariant i <= |done| && turn == old(turn) && stopped == old(stopped)
        invariant ReadBatch(now, s, done)
               == ReadBatch(now.(world := world, inbox := inbox, outcome := outcome), s, done[i..])
        decreases |done| - i
      {
        assert done[i..][0] == done[i] && done[i..][1..] == done[i + 1..];
        outcome := AcceptFrom(s, done[i], now.(world := world, inbox := inbox, outcome := outcome));
        i := i + 1;
      }
    }

    method AcceptFrom(s: Slot, box: nat, ghost now: Read) returns (outcome: Outcome)
      requires now.world == world && now.inbox == inbox && now.outcome == Waiting
      modifies this
      ensures turn == old(turn) && stopped == old(stopped)
      ensures ReadBox(now, s, box) == now.(world := world, inbox := inbox, outcome := outcome)
    {
      outcome := Waiting;
      if box >= |world.stores| {
        return;
      }
      var (w, found) := GetOnce(world, box, s.key);
      world := w;
      if found.Some? && found.value.Some? {
        var blob := found.value.value;
        if blob !in inbox.seen && OpensAt(blob, s.key, s.index) {
          var processing := s.process(blob.frame);
          if processing.Raises? {
            outcome := Raised;
          } else if processing.Taken? {
            inbox := inbox.(handedOn := inbox.handedOn + [Delivery(s.key, s.index, blob)]);
            inbox := Remember(inbox, blob, s.limit);
            outcome := Got(blob);
          }
        }
      }
    }

    /** One pass over a peer's window. */
    method PollOnce(roots: seq<RootKeys>)
      modifies this, state
      ensures View() == Poll(old(View()), setting, roots)
    {
      if stopped {
        return;
      }
      var indexes := RecvCandidates(state.View(), setting.limits);
      ghost var all := PollSlots(View(), setting, roots, indexes);
      var i := 0;
      while i < |indexes| && !stopped
        invariant i <= |indexes| && all == PollSlots(View(), setting, roots, indexes[i..])
        decreases |indexes| - i
      {
        assert indexes[i..][0] == indexes[i] && indexes[i..][1..] == indexes[i + 1..];
        PollOneSlot(roots, indexes[i]);
        i := i + 1;
      }
    }

    method PollOneSlot(roots: seq<RootKeys>, index: nat)
      modifies this, state
      ensures View() == PollSlot(old(View()), setting, roots, index)
    {
      ghost var all := PollSlot(View(), setting, roots, index);
      var got := false;
      var i := 0;
      while i < |roots| && !got
        invariant i <= |roots|
        invariant all == if got then View() else PollSlot(View(), setting, roots[i..], index)
        decreases |roots| - i
      {
        assert roots[i..][0] == roots[i] && roots[i..][1..] == roots[i + 1..];
        var key := roots[i](index);
        if key.None? {
          stopped := true;
          return;
        }
        var plan := setting.plans(turn);
        ghost var before := View();
        var outcome, ended := ReadFirstAccepted(Slot(key.value, index, plan.process, setting.limit), plan);
        turn := turn + 1;
        if outcome.Got? {
          got := true;
          state.MarkSlotConsumed(index);
        }
        assert View() == AfterRead(before, setting, key.value, index);
        i := i + 1;
      }
    }
  }
}
