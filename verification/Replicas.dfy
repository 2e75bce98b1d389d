/**
  Write-once replicas behind an unreliable network. Every request advances a clock; at each tick other
  writers may have filled free slots, and the request may be lost, refused, or take effect with its
  reply lost. Both are arbitrary functions of the clock, so a statement about all worlds is a
  statement about every interleaving and every loss pattern.
 */
module Replicas {
  import opened Wrappers
  import opened KeySchedule

  type Frame = string

  /** Ideal authenticated encryption: a sealed blob opens under its own key only. */
  datatype Blob = Sealed(key: Keys, index: nat, frame: Frame, nonce: nat) | Junk(bytes: string)

  type Store = map<Keys, Blob>

  datatype Reply = OK | EXISTS

  datatype Fault = Unreachable | Refused | ReplyLost | Answered

  datatype World = World(stores: seq<Store>, clock: nat, fault: nat -> Fault, others: nat -> seq<Store>)

  /** Other writers only ever fill slots that are still free. */
  function Interfere(stores: seq<Store>, extra: seq<Store>): seq<Store> {
    seq(|stores|, i requires 0 <= i < |stores| =>
      if i < |extra| then extra[i] + stores[i] else stores[i])
  }

  function Write(store: Store, key: Keys, blob: Blob): Store {
    if key in store then store else store[key := blob]
  }

  ghost predicate Grows(s: seq<Store>, s': seq<Store>) {
    && |s| == |s'|
    && forall i, k :: 0 <= i < |s| && k in s[i] ==> k in s'[i] && s'[i][k] == s[i][k]
  }

  function Tick(w: World): World {
    w.(stores := Interfere(w.stores, w.others(w.clock)), clock := w.clock + 1)
  }

  /** One PUT request; None is an exception at the client. */
  function PutOnce(w: World, box: nat, key: Keys, blob: Blob): (World, Option<Reply>)
    requires box < |w.stores|
  {
    var w' := Tick(w);
    var fault := w.fault(w.clock);
    if fault.Unreachable? || fault.Refused? then (w', None)
    else
      var reply := if key in w'.stores[box] then EXISTS else OK;
      (w'.(stores := w'.stores[box := Write(w'.stores[box], key, blob)]),
       if fault.Answered? then Some(reply) else None)
  }

  /** One GET request: None is an exception, Some(None) a miss. */
  function GetOnce(w: World, box: nat, key: Keys): (World, Option<Option<Blob>>)
    requires box < |w.stores|
  {
    var w' := Tick(w);
    (w', if !w.fault(w.clock).Answered? then None
         else if key in w'.stores[box] then Some(Some(w'.stores[box][key])) else Some(None))
  }

  lemma InterfereGrows(stores: seq<Store>, extra: seq<Store>)
    ensures Grows(stores, Interfere(stores, extra))
  {
  }

  lemma GrowsTrans(a: seq<Store>, b: seq<Store>, c: seq<Store>)
    requires Grows(a, b) && Grows(b, c)
    ensures Grows(a, c)
  {
  }

  lemma PutOnceGrows(w: World, box: nat, key: Keys, blob: Blob)
    requires box < |w.stores|
    ensures Grows(w.stores, PutOnce(w, box, key, blob).0.stores)
    ensures PutOnce(w, box, key, blob).1.Some? || w.fault(w.clock).ReplyLost? ==>
              key in PutOnce(w, box, key, blob).0.stores[box]
    ensures PutOnce(w, box, key, blob).1 == Some(OK) ==>
              PutOnce(w, box, key, blob).0.stores[box][key] == blob
  {
    InterfereGrows(w.stores, w.others(w.clock));
  }
}
