/**
  What the root exchange means for the blobs: which late blobs still open, and what goes wrong when
  an offline send writes back a copy of the roots it took before they changed.
 */
module RootGuarantees {
  import opened Wrappers
  import opened BlindBoxRoots
  import opened RootExchange

  /** With ideal encryption a blob opens iff the root it was sealed under is among those tried. */
  predicate Opens(p: Policy, n: Node, sealed: Offer, at: int) {
    sealed in Candidates(p, n.roots, at)
  }

  function Current(n: Node): Offer
    requires n.roots.root.Some?
  {
    Offer(n.roots.epoch, n.roots.root.value)
  }

  function Other(who: Party): Party {
    if who == Initiator then Responder else Initiator
  }

  /** The node still tries its root of this epoch at time `at`: current, or retired and kept. */
  predicate StillTried(p: Policy, n: Node, epoch: nat, at: int) {
    || epoch == n.roots.epoch
    || (&& 1 <= epoch <= |n.retired| && epoch < n.roots.epoch <= epoch + p.maxPrevious
        && at < n.retired[epoch - 1].expiresAt)
  }

  /** Exactly the newest `maxPrevious` retired roots that have not expired are tried. */
  lemma RetiredIsTried(p: Policy, n: Node, epoch: nat, at: int)
    requires NodeOk(p, n, at) && 1 <= epoch < n.roots.epoch
    ensures Offer(epoch, n.retired[epoch - 1].secret) in AsOffers(Prune(p, n.roots.prev, at))
            <==> StillTried(p, n, epoch, at)
  {
    var o := Offer(epoch, n.retired[epoch - 1].secret);
    var kept := Prune(p, n.roots.prev, at);
    PruneKept(p, n, n.roots.prev, at, at);
    var i := |n.retired| - epoch;
    if i < |kept| {
      assert AsOffers(kept)[i] == o;
    } else {
      forall k | 0 <= k < |kept|
        ensures AsOffers(kept)[k] != o
      {
        assert kept[k] == n.retired[|n.retired| - 1 - k];
      }
    }
  }

  lemma OnlyOldRootsRetired(p: Policy, n: Node, o: Offer, at: int)
    requires NodeOk(p, n, at) && o in AsOffers(Prune(p, n.roots.prev, at))
    ensures 1 <= o.epoch < n.roots.epoch
  {
    var kept := Prune(p, n.roots.prev, at);
    PruneKept(p, n, n.roots.prev, at, at);
    var k :| 0 <= k < |kept| && AsOffers(kept)[k] == o;
    assert kept[k] == n.retired[|n.retired| - 1 - k];
  }

  /** A root of the shared history opens exactly when the node still tries it. */
  lemma OpensExactly(p: Policy, n: Node, sealed: Offer, at: int)
    requires NodeOk(p, n, at) && 1 <= sealed.epoch
    requires sealed.epoch <= |History(n)| ==> History(n)[sealed.epoch - 1] == sealed.secret
    ensures Opens(p, n, sealed, at) <==> StillTried(p, n, sealed.epoch, at)
  {
    assert |History(n)| == n.roots.epoch;
    if sealed in AsOffers(Prune(p, n.roots.prev, at)) {
      OnlyOldRootsRetired(p, n, sealed, at);
    }
    if sealed.epoch == n.roots.epoch {
      assert History(n)[sealed.epoch - 1] == n.roots.root.value;
      assert Candidates(p, n.roots, at)[0] == sealed;
    } else if sealed.epoch < n.roots.epoch {
      assert History(n)[sealed.epoch - 1] == n.retired[sealed.epoch - 1].secret;
      RetiredIsTried(p, n, sealed.epoch, at);
    }
  }

  lemma SharedHistory(p: Policy, w: World, who: Party, epoch: nat)
    requires Inv(p, w) && 1 <= epoch <= |History(w.At(who))|
    ensures epoch <= |History(w.At(Other(who)))| ==>
              History(w.At(who))[epoch - 1] == History(w.At(Other(who)))[epoch - 1]
  {
  }

  /**
    Late delivery over a whole run. A blob sealed by one end under its current root opens at the other
    end, in any later state, iff that end still tries its own root of the same epoch: it has taken
    that epoch, has retired at most `maxPrevious` roots from it on, and is within the grace time.
    Which signals were lost does not matter.
   */
  lemma LateBlobOpens(p: Policy, now: int, before: seq<Step>, after: seq<Step>, sender: Party, at: int)
    requires p.Valid()
    requires AllClean(p, Start(now), before) && AllClean(p, Exec(p, Start(now), before), after)
    requires Exec(p, Start(now), before).At(sender).roots.root.Some?
    requires Exec(p, Exec(p, Start(now), before), after).now <= at
    ensures var w := Exec(p, Start(now), before);
            var reader := Exec(p, w, after).At(Other(sender));
            Opens(p, reader, Current(w.At(sender)), at)
            <==> StillTried(p, reader, w.At(sender).roots.epoch, at)
  {
    StartOk(p, now);
    RunKeepsInv(p, Start(now), before);
    var w := Exec(p, Start(now), before);
    RunKeepsInv(p, w, after);
    RunExtends(p, w, after);
    var w' := Exec(p, w, after);
    var sealed, reader := Current(w.At(sender)), w'.At(Other(sender));
    CurrentInHistory(p, w, sender);
    SharedHistory(p, w', sender, sealed.epoch);
    NodeLater(p, reader, w'.now, at);
    OpensExactly(p, reader, sealed, at);
  }

  lemma CurrentInHistory(p: Policy, w: World, who: Party)
    requires Inv(p, w) && w.At(who).roots.root.Some?
    ensures var n := w.At(who);
            && |History(n)| == n.roots.epoch >= 1
            && History(n)[n.roots.epoch - 1] == n.roots.root.value
  {
  }

  /** Step `s` of the run retired the `j`-th root: it was current just before, and its grace time starts there. */
  ghost predicate RetiredBy(p: Policy, now: int, steps: seq<Step>, who: Party, j: nat, s: nat, item: OldRoot)
    requires s < |steps|
  {
    var before, after := Exec(p, Start(now), steps[..s]), Exec(p, Start(now), steps[..s + 1]);
    && |before.At(who).retired| == j && after.At(who).retired == before.At(who).retired + [item]
    && before.At(who).roots.root == Some(item.secret) && before.At(who).roots.epoch == item.epoch
    && after.At(who).roots.epoch != item.epoch
    && item.expiresAt == before.now + p.grace
  }

  lemma StepRetires(p: Policy, w: World, step: Step, who: Party)
    ensures var n, n' := w.At(who), Apply(p, w, step).At(who);
            || n'.retired == n.retired
            || (&& n.roots.root.Some? && n'.roots.epoch != n.roots.epoch
                && n'.retired == n.retired + [OldRoot(n.roots.epoch, n.roots.root.value, w.now + p.grace)])
  {
  }

  /**
    Over every run, whatever its saves: each root in the log was current until the very step that
    retired it, and expires one grace time after that step.
   */
  lemma {:induction false} RetiredRootsExpireAfterGrace(p: Policy, now: int, steps: seq<Step>, who: Party, j: nat)
    requires j < |Exec(p, Start(now), steps).At(who).retired|
    ensures exists s :: 0 <= s < |steps|
                        && RetiredBy(p, now, steps, who, j, s, Exec(p, Start(now), steps).At(who).retired[j])
  {
    if steps != [] {
      var n := |steps| - 1;
      var w := Exec(p, Start(now), steps[..n]);
      StepRetires(p, w, steps[n], who);
      assert steps[..n + 1] == steps;
      if j < |w.At(who).retired| {
        RetiredRootsExpireAfterGrace(p, now, steps[..n], who, j);
        var s :| 0 <= s < n && RetiredBy(p, now, steps[..n], who, j, s, w.At(who).retired[j]);
        assert steps[..n][..s] == steps[..s] && steps[..n][..s + 1] == steps[..s + 1];
        assert RetiredBy(p, now, steps, who, j, s, w.At(who).retired[j]);
      } else {
        assert RetiredBy(p, now, steps, who, j, n, Exec(p, Start(now), steps).At(who).retired[j]);
      }
    }
  }

  /**
    What the initiator seals now opens at the responder, unless the responder has moved ahead and
    keeps no retired root, or the grace time of that root has run out.
   */
  lemma InitiatorBlobOpens(p: Policy, w: World, at: int)
    requires p.Valid() && Inv(p, w) && w.init.roots.root.Some? && w.now <= at
    ensures |w.resp.retired| + 1 >= w.init.roots.epoch
    ensures Opens(p, w.resp, Current(w.init), at)
            <==> || w.resp.roots.epoch == w.init.roots.epoch
                 || (&& p.maxPrevious >= 1
                     && w.resp.retired[|w.resp.retired| - 1].expiresAt > at)
  {
    InvAgrees(p, w);
    CurrentInHistory(p, w, Initiator);
    SharedHistory(p, w, Initiator, w.init.roots.epoch);
    NodeLater(p, w.resp, w.now, at);
    OpensExactly(p, w.resp, Current(w.init), at);
  }

  /** What the responder seals opens at the initiator exactly when the initiator has committed that epoch. */
  lemma ResponderBlobOpens(p: Policy, w: World, at: int)
    requires p.Valid() && Inv(p, w) && w.resp.roots.root.Some? && w.now <= at
    ensures Opens(p, w.init, Current(w.resp), at) <==> w.init.roots.epoch == w.resp.roots.epoch
  {
    InvAgrees(p, w);
    CurrentInHistory(p, w, Responder);
    SharedHistory(p, w, Responder, w.resp.roots.epoch);
    NodeLater(p, w.init, w.now, at);
    OpensExactly(p, w.init, Current(w.resp), at);
  }

  // ---------- an offline send that saves roots that have changed meanwhile ----------

  /** Both ends come to hold the root of epoch 1. */
  function FirstRun(a: Secret): seq<Step> {
    [SendOffer(false, a), DeliverOffer(Offer(1, a)), DeliverAck(1)]
  }

  /** An offline send is in flight while a rotation is staged, offered and taken. */
  function RotationRun(b: Secret): seq<Step> {
    [StartSend(Initiator), Stage(Initiator, b), SendOffer(false, b), DeliverOffer(Offer(2, b))]
  }

  /** The send saves what it had read, and another rotation is staged and meets the earlier ACK. */
  function SavingRun(c: Secret, copy: Roots): seq<Step> {
    [SaveSend(Initiator, copy, 1), Stage(Initiator, c), DeliverAck(2)]
  }

  function DisturbedRun(a: Secret, b: Secret, c: Secret, copy: Roots): seq<Step> {
    FirstRun(a) + RotationRun(b) + SavingRun(c, copy)
  }

  /**
    A run in which one save is not harmless: both ends then hold different secrets for the same
    epoch, and nothing in the protocol notices.
   */
  lemma DisturbedSaveSplitsRoots(p: Policy, now: int, a: Secret, b: Secret, c: Secret)
    requires p.Valid() && b != c
    ensures exists copy :: var w := Exec(p, Start(now), DisturbedRun(a, b, c, copy));
              && w.init.roots.epoch == w.resp.roots.epoch == 2
              && w.init.roots.root == Some(c) && w.resp.roots.root == Some(b)
              && w.init.roots.pending.None?
  {
    var w3 := Exec(p, Start(now), FirstRun(a));
    var w7 := Exec(p, w3, RotationRun(b));
    var copy := w3.init.roots;
    FirstRootAgreed(p, now, a);
    RotationTakenMeanwhile(p, w3, a, b);
    SaveThenRotate(p, w7, copy, c);
    ExecThen(p, Start(now), FirstRun(a), RotationRun(b));
    ExecThen(p, Start(now), FirstRun(a) + RotationRun(b), SavingRun(c, copy));
    assert Exec(p, Start(now), DisturbedRun(a, b, c, copy)) == Exec(p, w7, SavingRun(c, copy));
  }

  /** The root of epoch 1 is committed on both ends. */
  predicate FirstRoot(w: World, a: Secret) {
    && w.init.roots.root == Some(a) && w.init.roots.epoch == 1 && w.init.roots.pending.None?
    && w.init.roots.pendingEpoch == 0
    && w.resp.roots.root == Some(a) && w.resp.roots.epoch == 1 && w.resp.roots.pending.None?
  }

  lemma FirstRootAgreed(p: Policy, now: int, a: Secret)
    requires p.Valid()
    ensures FirstRoot(Exec(p, Start(now), FirstRun(a)), a)
  {
    var w0 := Start(now);
    var w1 := Apply(p, w0, SendOffer(false, a));
    var w2 := Apply(p, w1, DeliverOffer(Offer(1, a)));
    ExecUnfolds(p, w0, FirstRun(a), [w0, w1, w2, Apply(p, w2, DeliverAck(1))]);
  }

  lemma RotationTakenMeanwhile(p: Policy, w: World, a: Secret, b: Secret)
    requires p.Valid() && FirstRoot(w, a)
    ensures var w' := Exec(p, w, RotationRun(b));
            && w'.resp.roots.root == Some(b) && w'.resp.roots.epoch == 2 && 2 in w'.acks
            && w.init.roots in w'.init.copies
  {
    var w4 := Apply(p, w, StartSend(Initiator));
    var w5 := Apply(p, w4, Stage(Initiator, b));
    assert w5.init.roots.pending == Some(b) && w5.init.roots.pendingEpoch == 2;
    var w6 := Apply(p, w5, SendOffer(false, b));
    assert Offer(2, b) in w6.offers && w6.resp == w.resp;
    ExecUnfolds(p, w, RotationRun(b), [w, w4, w5, w6, Apply(p, w6, DeliverOffer(Offer(2, b)))]);
  }

  lemma SaveThenRotate(p: Policy, w: World, copy: Roots, c: Secret)
    requires p.Valid() && copy in w.init.copies && copy.epoch == 1 && copy.root.Some? && 2 in w.acks
    requires copy.pending.None? && copy.pendingEpoch == 0
    ensures var w' := Exec(p, w, SavingRun(c, copy));
            && w'.init.roots.root == Some(c) && w'.init.roots.epoch == 2 && w'.init.roots.pending.None?
            && w'.resp == w.resp
  {
    var w8 := Apply(p, w, SaveSend(Initiator, copy, 1));
    assert w8.init.roots == copy;
    var w9 := Apply(p, w8, Stage(Initiator, c));
    assert w9.init.roots.pending == Some(c) && w9.init.roots.pendingEpoch == 2;
    ExecUnfolds(p, w, SavingRun(c, copy), [w, w8, w9, Apply(p, w9, DeliverAck(2))]);
  }

  lemma {:induction false} ExecThen(p: Policy, w: World, s: seq<Step>, t: seq<Step>)
    ensures Exec(p, w, s + t) == Exec(p, Exec(p, w, s), t)
  {
    if t == [] {
      assert s + t == s;
    } else {
      var n := |t| - 1;
      ExecThen(p, w, s, t[..n]);
      assert (s + t)[..|s + t| - 1] == s + t[..n] && (s + t)[|s + t| - 1] == t[n];
    }
  }

  /** A list of worlds in which each follows from the one before spells out a run. */
  lemma {:induction false} ExecUnfolds(p: Policy, w: World, steps: seq<Step>, worlds: seq<World>)
    requires |worlds| == |steps| + 1 && worlds[0] == w
    requires forall k :: 0 <= k < |steps| ==> worlds[k + 1] == Apply(p, worlds[k], steps[k])
    ensures Exec(p, w, steps) == worlds[|steps|]
  {
    if steps != [] {
      var n := |steps| - 1;
      ExecUnfolds(p, w, steps[..n], worlds[..n + 1]);
      assert worlds[n + 1] == Apply(p, worlds[n], steps[n]);
    }
  }
}
