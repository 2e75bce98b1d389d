/**
  Exactly which saves of an offline send keep the two ends in agreement. A send in flight writes back the
  roots it started with; here every copy counts, also one taken before the last root was committed.
 */
module RootAgreement {
  import opened Wrappers
  import opened BlindBoxRoots
  import opened RootExchange

  /** What a save must find for the two ends to agree for ever after. */
  predicate SafeSave(w: World, who: Party, copy: Roots) {
    var r := w.resp.roots;
    if who == Responder then copy.epoch == r.epoch
    else
      && (copy.epoch == r.epoch || (copy.epoch + 1 == r.epoch && copy.pending == r.root))
      && (forall o :: o in w.offers && o.epoch > r.epoch ==> copy.epoch == r.epoch && copy.pending == Some(o.secret))
  }

  /** A save that takes effect is safe. */
  predicate Safe(w: World, step: Step) {
    step.SaveSend? && step.copy in w.At(step.who).copies ==> SafeSave(w, step.who, step.copy)
  }

  ghost predicate AllSafe(p: Policy, w: World, steps: seq<Step>) {
    forall k :: 0 <= k < |steps| ==> Safe(Exec(p, w, steps[..k]), steps[k])
  }

  ghost predicate AgreesForever(p: Policy, w: World) {
    forall later: seq<Step> :: AllSafe(p, w, later) ==> Agree(Exec(p, w, later))
  }

  // ---------- the invariant: everything is tied to the responder's history ----------

  predicate At(history: seq<Secret>, epoch: nat, root: Option<Secret>) {
    if epoch == 0 then root.None? else epoch <= |history| && root == Some(history[epoch - 1])
  }

  predicate PendingNextOf(r: Roots) {
    if r.pending.Some? then r.pendingEpoch == r.epoch + 1 else r.pendingEpoch == 0
  }

  /** The initiator is at the responder's epoch, or one behind with the responder's root pending. */
  predicate Follows(history: seq<Secret>, i: Roots) {
    && At(history, i.epoch, i.root) && PendingNextOf(i)
    && (i.epoch == |history| || (i.epoch + 1 == |history| && i.pending == Some(history[i.epoch])))
  }

  predicate KnownOffer(history: seq<Secret>, i: Roots, o: Offer) {
    || (1 <= o.epoch <= |history| && history[o.epoch - 1] == o.secret)
    || (o.epoch == |history| + 1 && i.epoch == |history| && i.pending == Some(o.secret))
  }

  predicate KnownCopy(history: seq<Secret>, c: Roots) {
    c.epoch >= 1 && At(history, c.epoch, c.root)
  }

  ghost predicate Linked(w: World, history: seq<Secret>) {
    && w.resp.roots.epoch == |history| && At(history, |history|, w.resp.roots.root)
    && Follows(history, w.init.roots)
    && (forall o :: o in w.offers ==> KnownOffer(history, w.init.roots, o))
    && (forall a :: a in w.acks ==> 1 <= a <= |history|)
    && (history != [] ==> Offer(|history|, history[|history| - 1]) in w.offers && |history| in w.acks)
    && (forall c :: c in w.init.copies ==> KnownCopy(history, c) && PendingNextOf(c))
    && (forall c :: c in w.resp.copies ==> KnownCopy(history, c))
  }

  lemma LinkedAgrees(w: World, history: seq<Secret>)
    requires Linked(w, history)
    ensures Agree(w)
  {
  }

  lemma Longer(history: seq<Secret>, s: Secret, epoch: nat, root: Option<Secret>)
    requires At(history, epoch, root)
    ensures At(history + [s], epoch, root)
  {
  }

  lemma OfferKeepsLink(p: Policy, w: World, force: bool, drawn: Secret, h: seq<Secret>)
    requires Linked(w, h)
    ensures Linked(Apply(p, w, SendOffer(force, drawn)), h)
  {
    var w' := Apply(p, w, SendOffer(force, drawn));
    forall o | o in w'.offers ensures KnownOffer(h, w'.init.roots, o) {
      assert o in w.offers ==> KnownOffer(h, w.init.roots, o);
    }
  }

  lemma StageKeepsLink(p: Policy, w: World, who: Party, drawn: Secret, h: seq<Secret>)
    requires Linked(w, h)
    ensures Linked(Apply(p, w, Stage(who, drawn)), h)
  {
    var w' := Apply(p, w, Stage(who, drawn));
    forall o | o in w'.offers ensures KnownOffer(h, w'.init.roots, o) {
      assert KnownOffer(h, w.init.roots, o);
    }
  }

  /** The history grows by a root exactly when the responder takes the next one. */
  function HistoryAfter(w: World, step: Step, h: seq<Secret>): seq<Secret> {
    if step.DeliverOffer? && step.offer in w.offers && step.offer.epoch > |h| then h + [step.offer.secret] else h
  }

  lemma DeliverKeepsLink(p: Policy, w: World, offer: Offer, h: seq<Secret>)
    requires Linked(w, h)
    ensures Linked(Apply(p, w, DeliverOffer(offer)), HistoryAfter(w, DeliverOffer(offer), h))
  {
    if offer in w.offers && offer.epoch > |h| {
      var h', w' := h + [offer.secret], Apply(p, w, DeliverOffer(offer));
      assert KnownOffer(h, w.init.roots, offer);
      forall o | o in w'.offers ensures KnownOffer(h', w'.init.roots, o) {
        assert KnownOffer(h, w.init.roots, o);
      }
      forall c | c in w'.init.copies ensures KnownCopy(h', c) && PendingNextOf(c) {
        assert KnownCopy(h, c) && PendingNextOf(c);
        Longer(h, offer.secret, c.epoch, c.root);
      }
      forall c | c in w'.resp.copies ensures KnownCopy(h', c) {
        assert KnownCopy(h, c);
        Longer(h, offer.secret, c.epoch, c.root);
      }
      Longer(h, offer.secret, w.init.roots.epoch, w.init.roots.root);
    }
  }

  lemma CommitFollows(p: Policy, i: Roots, ack: nat, sendIndex: nat, now: int, h: seq<Secret>)
    requires Follows(h, i) && ack <= |h|
    ensures var (i', done) := CommitPending(p, i, ack, sendIndex, now);
            && Follows(h, i') && (done ==> i.epoch + 1 == |h| == i'.epoch) && (!done ==> i' == i)
  {
  }

  lemma AckKeepsLink(p: Policy, w: World, epoch: nat, h: seq<Secret>)
    requires Linked(w, h)
    ensures Linked(Apply(p, w, DeliverAck(epoch)), h)
  {
    if epoch in w.acks {
      var w' := Apply(p, w, DeliverAck(epoch));
      CommitFollows(p, w.init.roots, epoch, w.init.sendIndex, w.now, h);
      forall o | o in w'.offers ensures KnownOffer(h, w'.init.roots, o) {
        assert KnownOffer(h, w.init.roots, o);
      }
    }
  }

  lemma StartKeepsLink(p: Policy, w: World, who: Party, h: seq<Secret>)
    requires Linked(w, h)
    ensures Linked(Apply(p, w, StartSend(who)), h)
  {
  }

  /** A safe save leaves the initiator following the same history. */
  lemma SaveKeepsLink(p: Policy, w: World, who: Party, copy: Roots, sendIndex: nat, h: seq<Secret>)
    requires Linked(w, h) && copy in w.At(who).copies && SafeSave(w, who, copy)
    ensures Linked(Apply(p, w, SaveSend(who, copy, sendIndex)), h)
  {
    var w' := Apply(p, w, SaveSend(who, copy, sendIndex));
    forall o | o in w'.offers ensures KnownOffer(h, w'.init.roots, o) {
      assert KnownOffer(h, w.init.roots, o);
    }
    assert KnownCopy(h, copy);
  }

  lemma StepKeepsLink(p: Policy, w: World, step: Step, h: seq<Secret>)
    requires Linked(w, h) && Safe(w, step)
    ensures Linked(Apply(p, w, step), HistoryAfter(w, step, h))
  {
    match step
    case Tick(_) =>
    case SendOffer(force, drawn) => OfferKeepsLink(p, w, force, drawn, h);
    case Stage(who, drawn) => StageKeepsLink(p, w, who, drawn, h);
    case DeliverOffer(offer) => DeliverKeepsLink(p, w, offer, h);
    case DeliverAck(epoch) => AckKeepsLink(p, w, epoch, h);
    case PruneStored(_) =>
    case StartSend(who) => StartKeepsLink(p, w, who, h);
    case SaveSend(who, copy, sendIndex) =>
      if copy in w.At(who).copies {
        SaveKeepsLink(p, w, who, copy, sendIndex, h);
      }
  }

  ghost predicate IsLinked(w: World) {
    exists h :: Linked(w, h)
  }

  lemma {:induction false} RunKeepsLink(p: Policy, w: World, steps: seq<Step>)
    requires IsLinked(w) && AllSafe(p, w, steps)
    ensures IsLinked(Exec(p, w, steps))
  {
    if steps != [] {
      var n := |steps| - 1;
      forall k | 0 <= k < n ensures Safe(Exec(p, w, steps[..n][..k]), steps[..n][k]) {
        assert steps[..n][..k] == steps[..k];
      }
      RunKeepsLink(p, w, steps[..n]);
      var h :| Linked(Exec(p, w, steps[..n]), h);
      assert Safe(Exec(p, w, steps[..n]), steps[n]);
      StepKeepsLink(p, Exec(p, w, steps[..n]), steps[n], h);
    }
  }

  /** In every state reached by a run whose saves are safe, also one that moved an epoch back, the two ends agree. */
  lemma SafeRunsAgree(p: Policy, now: int, steps: seq<Step>)
    requires AllSafe(p, Start(now), steps)
    ensures Agree(Exec(p, Start(now), steps))
  {
    assert Linked(Start(now), []);
    RunKeepsLink(p, Start(now), steps);
    var h :| Linked(Exec(p, Start(now), steps), h);
    LinkedAgrees(Exec(p, Start(now), steps), h);
  }

  // ---------- a save that is not safe ----------

  lemma OneStepRun(p: Policy, w: World, step: Step)
    requires !step.SaveSend?
    ensures AllSafe(p, w, [step]) && Exec(p, w, [step]) == Apply(p, w, step)
  {
    assert [step][..0] == [];
    assert Exec(p, w, [step]) == Apply(p, Exec(p, w, []), step);
  }

  lemma NowAgrees(p: Policy, w: World)
    requires AgreesForever(p, w)
    ensures Agree(w)
  {
    assert AllSafe(p, w, []);
    assert Exec(p, w, []) == w;
  }

  lemma AgreesAfter(p: Policy, w: World, step: Step)
    requires AgreesForever(p, w) && !step.SaveSend?
    ensures Agree(Apply(p, w, step))
  {
    OneStepRun(p, w, step);
  }

  /** An unsafe save of the initiator shows at once, or when a newer offer still under way arrives. */
  lemma UnsafeInitiator(p: Policy, w: World, copy: Roots, sendIndex: nat, h: seq<Secret>)
    requires Linked(w, h) && copy in w.init.copies && !SafeSave(w, Initiator, copy)
    ensures !AgreesForever(p, Apply(p, w, SaveSend(Initiator, copy, sendIndex)))
  {
    var w' := Apply(p, w, SaveSend(Initiator, copy, sendIndex));
    var r := w.resp.roots;
    assert KnownCopy(h, copy) && PendingNextOf(copy);
    if AgreesForever(p, w') {
      NowAgrees(p, w');
      var o :| o in w.offers && o.epoch > r.epoch && !(copy.epoch == r.epoch && copy.pending == Some(o.secret));
      assert KnownOffer(h, w.init.roots, o);
      AgreesAfter(p, w', DeliverOffer(o));
      assert false;
    }
  }

  /** An unsafe save of the responder shows at once, or when its own ACK arrives. */
  lemma UnsafeResponder(p: Policy, w: World, copy: Roots, sendIndex: nat, h: seq<Secret>)
    requires Linked(w, h) && copy in w.resp.copies && !SafeSave(w, Responder, copy)
    ensures !AgreesForever(p, Apply(p, w, SaveSend(Responder, copy, sendIndex)))
  {
    var w' := Apply(p, w, SaveSend(Responder, copy, sendIndex));
    assert KnownCopy(h, copy);
    if AgreesForever(p, w') {
      NowAgrees(p, w');
      AgreesAfter(p, w', DeliverAck(|h|));
      assert false;
    }
  }

  /**
    In every reachable state, a save keeps the two ends in agreement for ever exactly when it is safe: the
    copy has the responder's epoch, or is one behind it with the responder's root pending, and any newer
    offer under way is what the copy has pending.
   */
  lemma SaveAgreesIffSafe(p: Policy, now: int, steps: seq<Step>, who: Party, copy: Roots, sendIndex: nat)
    requires AllSafe(p, Start(now), steps) && copy in Exec(p, Start(now), steps).At(who).copies
    ensures var w := Exec(p, Start(now), steps);
            AgreesForever(p, Apply(p, w, SaveSend(who, copy, sendIndex))) <==> SafeSave(w, who, copy)
  {
    assert Linked(Start(now), []);
    RunKeepsLink(p, Start(now), steps);
    var w := Exec(p, Start(now), steps);
    var h :| Linked(w, h);
    if SafeSave(w, who, copy) {
      var w' := Apply(p, w, SaveSend(who, copy, sendIndex));
      SaveKeepsLink(p, w, who, copy, sendIndex, h);
      forall later: seq<Step> | AllSafe(p, w', later) ensures Agree(Exec(p, w', later)) {
        RunKeepsLink(p, w', later);
        var h' :| Linked(Exec(p, w', later), h');
        LinkedAgrees(Exec(p, w', later), h');
      }
    } else if who == Initiator {
      UnsafeInitiator(p, w, copy, sendIndex, h);
    } else {
      UnsafeResponder(p, w, copy, sendIndex, h);
    }
  }

  /** Dropping a pending root the peer was already offered always lets agreement break. */
  lemma DroppedOfferDiverges(p: Policy, now: int, steps: seq<Step>, copy: Roots, sendIndex: nat)
    requires AllSafe(p, Start(now), steps) && copy in Exec(p, Start(now), steps).init.copies
    requires var w := Exec(p, Start(now), steps);
             copy.epoch == w.init.roots.epoch && !Harmless(w, Initiator, copy)
    ensures !AgreesForever(p, Apply(p, Exec(p, Start(now), steps), SaveSend(Initiator, copy, sendIndex)))
  {
    assert Linked(Start(now), []);
    RunKeepsLink(p, Start(now), steps);
    var h :| Linked(Exec(p, Start(now), steps), h);
    DroppedIsUnsafe(Exec(p, Start(now), steps), h, copy);
    UnsafeInitiator(p, Exec(p, Start(now), steps), copy, sendIndex, h);
  }

  lemma DroppedIsUnsafe(w: World, h: seq<Secret>, copy: Roots)
    requires Linked(w, h) && copy.epoch == w.init.roots.epoch && !Harmless(w, Initiator, copy)
    ensures !SafeSave(w, Initiator, copy)
  {
    var lost := Offer(w.init.roots.pendingEpoch, w.init.roots.pending.value);
    assert KnownOffer(h, w.init.roots, lost);
  }

  /** A harmless save is safe, so runs of harmless saves are among these. */
  lemma HarmlessIsSafe(p: Policy, w: World, who: Party, copy: Roots)
    requires Inv(p, w) && copy in w.At(who).copies && Harmless(w, who, copy)
    ensures SafeSave(w, who, copy)
  {
    InvAgrees(p, w);
    assert CopyOk(p, copy, w.At(who), w.now);
    forall o | who == Initiator && o in w.offers && o.epoch > w.resp.roots.epoch
      ensures copy.epoch == w.resp.roots.epoch && copy.pending == Some(o.secret)
    {
      assert Offered(w.init, o);
      assert |History(w.init)| == w.init.roots.epoch && |History(w.resp)| == w.resp.roots.epoch;
    }
    if who == Initiator && w.resp.roots.epoch == w.init.roots.epoch + 1 {
      CurrentRootOffered(p, w);
    }
  }
}
