/**
  Group fan-out: sequence numbers, one delivery attempt per recipient, and the queue of deliveries that
  wait for their peer. What a transport answers is a parameter of each send and each flush.
 */
module Groups {
  import opened Wrappers
  import opened Text

  // ---------- sequence numbers ----------

  type Sequences = map<string, nat>

  predicate IsBlank(c: char) {
    c == ' ' || '\t' <= c <= '\r'
  }

  function StripLeft(s: string): string {
    if s != "" && IsBlank(s[0]) then StripLeft(s[1..]) else s
  }

  function StripRight(s: string): string {
    if s != "" && IsBlank(s[|s| - 1]) then StripRight(s[..|s| - 1]) else s
  }

  function Strip(s: string): string {
    StripRight(StripLeft(s))
  }

  function Last(q: Sequences, group: string): nat {
    if group in q then q[group] else 0
  }

  function Larger(a: int, b: int): int {
    if a >= b then a else b
  }

  function Prime(q: Sequences, group: string, next: int): Sequences {
    var key := Strip(group);
    if key == "" then q else q[key := Larger(Last(q, key), Larger(0, next - 1)) as nat]
  }

  function Forget(q: Sequences, group: string): Sequences {
    if Strip(group) == "" then q else q - {Strip(group)}
  }

  /** The number is counted under the group id as given, not stripped. */
  function Next(q: Sequences, group: string): (Sequences, nat) {
    var n := Last(q, group) + 1;
    (q[group := n], n)
  }

  // ---------- one delivery ----------

  datatype Policy = LiveOnly | PreferLive | QueueThenRetry | BlindBoxOnly

  datatype Status = DeliveredLive | QueuedOffline | Failed

  datatype Outcome = Outcome(accepted: bool, reason: string)

  /** What the transports would answer for one recipient. */
  datatype Answers = Answers(policy: Policy, liveReady: bool, live: Outcome, offline: Outcome)

  /** The id that is written as "message:recipient". */
  datatype Id = Id(msg: string, recipient: string)

  datatype Result = Result(id: Id, status: Status, reason: string)

  function Or(a: string, b: string): string {
    if a == "" then b else a
  }

  function TriesLive(a: Answers): bool {
    (a.policy.LiveOnly? || a.policy.PreferLive?) && a.liveReady
  }

  /** Nothing is tried offline once a live send was accepted, or where only live sending is allowed. */
  function TriesOffline(a: Answers): bool {
    !a.policy.LiveOnly? && !(TriesLive(a) && a.live.accepted)
  }

  function Deliver(id: Id, a: Answers): Result {
    if TriesLive(a) && a.live.accepted then Result(id, DeliveredLive, Or(a.live.reason, "live-session"))
    else if a.policy.LiveOnly? then
      Result(id, Failed, if a.liveReady then Or(a.live.reason, "needs-live-session") else "needs-live-session")
    else if a.offline.accepted then Result(id, QueuedOffline, Or(a.offline.reason, "blindbox-ready"))
    else Result(id, Failed, Or(a.offline.reason, "blindbox-unavailable"))
  }

  /** Exactly one status: accepted live, else accepted offline where that is tried, else failed. */
  lemma DeliverStatus(id: Id, a: Answers)
    ensures Deliver(id, a).status.DeliveredLive? <==> TriesLive(a) && a.live.accepted
    ensures Deliver(id, a).status.QueuedOffline? <==> TriesOffline(a) && a.offline.accepted
    ensures Deliver(id, a).id == id
  {
  }

  type Transport = string -> Answers

  function Results(msg: string, recipients: seq<string>, t: Transport): map<string, Result> {
    map r | r in recipients :: Deliver(Id(msg, r), t(r))
  }

  class GroupManager {
    var sequences: Sequences

    constructor ()
      ensures sequences == map[]
    {
      sequences := map[];
    }

    method PrimeGroupSequence(group: string, next: int)
      modifies this
      ensures sequences == Prime(old(sequences), group, next)
    {
      var key := Strip(group);
      if key == "" {
        return;
      }
      var seeded := if next - 1 >= 0 then next - 1 else 0;
      var current := if key in sequences then sequences[key] else 0;
      sequences := sequences[key := if current >= seeded then current else seeded];
    }

    method ForgetGroup(group: string)
      modifies this
      ensures sequences == Forget(old(sequences), group)
    {
      var key := Strip(group);
      if key != "" {
        sequences := sequences - {key};
      }
    }

    method NextGroupSeq(group: string) returns (n: nat)
      modifies this
      ensures (sequences, n) == Next(old(sequences), group)
    {
      n := (if group in sequences then sequences[group] else 0) + 1;
      sequences := sequences[group := n];
    }

    method DeliverToMember(id: Id, a: Answers) returns (r: Result)
      ensures r == Deliver(id, a)
    {
      if a.policy.LiveOnly? || a.policy.PreferLive? {
        if a.liveReady {
          if a.live.accepted {
            return Result(id, DeliveredLive, Or(a.live.reason, "live-session"));
          }
          if a.policy.LiveOnly? {
            return Result(id, Failed, Or(a.live.reason, "needs-live-session"));
          }
        } else if a.policy.LiveOnly? {
          return Result(id, Failed, "needs-live-session");
        }
      }
      if a.offline.accepted {
        return Result(id, QueuedOffline, Or(a.offline.reason, "blindbox-ready"));
      }
      r := Result(id, Failed, Or(a.offline.reason, "blindbox-unavailable"));
    }

    /** One envelope to every recipient; the results hold each of them once. */
    method SendPayload(group: string, msg: string, recipients: seq<string>, t: Transport)
      returns (n: nat, results: map<string, Result>)
      modifies this
      ensures (sequences, n) == Next(old(sequences), group)
      ensures results == Results(msg, recipients, t)
    {
      n := NextGroupSeq(group);
      results := map[];
      var i := 0;
      while i < |recipients|
        invariant i <= |recipients|
        invariant results == Results(msg, recipients[..i], t)
        invariant (sequences, n) == Next(old(sequences), group)
      {
        var r := DeliverToMember(Id(msg, recipients[i]), t(recipients[i]));
        assert recipients[..i + 1] == recipients[..i] + [recipients[i]];
        results := results[recipients[i] := r];
        i := i + 1;
      }
      assert recipients[..i] == recipients;
    }
  }

  // ---------- runs of the counter ----------

  datatype Use = Primed(group: string, next: int) | Sent(group: string) | Forgotten(group: string)

  function Step(q: Sequences, u: Use): Sequences {
    match u
    case Primed(group, next) => Prime(q, group, next)
    case Sent(group) => Next(q, group).0
    case Forgotten(group) => Forget(q, group)
  }

  /** The numbers that sends to this group got, in order. */
  function Issued(q: Sequences, uses: seq<Use>, group: string): seq<nat>
    decreases |uses|
  {
    if uses == [] then []
    else (if uses[0] == Sent(group) then [Next(q, group).1] else []) + Issued(Step(q, uses[0]), uses[1..], group)
  }

  ghost predicate NeverForgotten(uses: seq<Use>, group: string) {
    forall i :: 0 <= i < |uses| && uses[i].Forgotten? ==> Strip(uses[i].group) != group
  }

  lemma StepNeverLowers(q: Sequences, u: Use, group: string)
    requires u.Forgotten? ==> Strip(u.group) != group
    ensures Last(Step(q, u), group) >= Last(q, group)
  {
  }

  ghost predicate IncreasingAbove(s: seq<nat>, bound: nat) {
    && (forall i :: 0 <= i < |s| ==> s[i] > bound)
    && (forall i, j :: 0 <= i < j < |s| ==> s[i] < s[j])
  }

  lemma PrependIncreasing(s: seq<nat>, n: nat, bound: nat)
    requires IncreasingAbove(s, n) && n > bound
    ensures IncreasingAbove([n] + s, bound)
  {
  }

  /** Over any mix of priming and sending the numbers of a group strictly increase. */
  lemma {:induction false} NumbersIncrease(q: Sequences, uses: seq<Use>, group: string)
    requires NeverForgotten(uses, group)
    ensures IncreasingAbove(Issued(q, uses, group), Last(q, group))
    decreases |uses|
  {
    if uses != [] {
      var q' := Step(q, uses[0]);
      StepNeverLowers(q, uses[0], group);
      assert forall i :: 0 <= i < |uses[1..]| ==> uses[1..][i] == uses[i + 1];
      NumbersIncrease(q', uses[1..], group);
      var rest := Issued(q', uses[1..], group);
      if uses[0] == Sent(group) {
        PrependIncreasing(rest, Last(q, group) + 1, Last(q, group));
      } else {
        assert Issued(q, uses, group) == [] + rest == rest;
      }
    }
  }

  /**
    Priming brings the next number up to `next` exactly when the id is not blank and stripped, or it was there
    anyway.
   */
  lemma PrimeReachesIff(q: Sequences, group: string, next: int)
    ensures Next(Prime(q, group, next), group).1 >= next
            <==> (group == Strip(group) && group != "") || Last(q, group) + 1 >= next
  {
  }

  // ---------- the fan-out of one text ----------

  /** One transport tried for one recipient. */
  datatype Attempt = Attempt(recipient: string, live: bool, accepted: bool)

  /** The first pass decides a recipient: accepted live, or only live sending is allowed. */
  function Settled(a: Answers): bool {
    (TriesLive(a) && a.live.accepted) || a.policy.LiveOnly?
  }

  /** An undecided recipient is delivered to once more from the start, with the answers of that moment. */
  function Fan(id: Id, first: Answers, second: Answers): Result {
    Deliver(id, if Settled(first) then first else second)
  }

  function FanResults(msg: string, recipients: seq<string>, first: Transport, second: Transport): map<string, Result> {
    map r | r in recipients :: Fan(Id(msg, r), first(r), second(r))
  }

  function LiveTry(r: string, a: Answers): seq<Attempt> {
    if TriesLive(a) then [Attempt(r, true, a.live.accepted)] else []
  }

  function Tries(r: string, a: Answers): seq<Attempt> {
    LiveTry(r, a) + (if TriesOffline(a) then [Attempt(r, false, a.offline.accepted)] else [])
  }

  /** All attempts for one recipient, over both passes. */
  function FanTries(r: string, first: Answers, second: Answers): seq<Attempt> {
    LiveTry(r, first) + (if Settled(first) then [] else Tries(r, second))
  }

  function SettledBy(first: Transport): string -> bool {
    (r: string) => Settled(first(r))
  }

  function Undecided(settled: string -> bool, recipients: seq<string>): seq<string> {
    if recipients == [] then []
    else (if settled(recipients[0]) then [] else [recipients[0]]) + Undecided(settled, recipients[1..])
  }

  /** The attempts of one pass, recipient by recipient. */
  function Pass(tries: string -> seq<Attempt>, recipients: seq<string>): seq<Attempt> {
    if recipients == [] then [] else tries(recipients[0]) + Pass(tries, recipients[1..])
  }

  function LiveTries(first: Transport): string -> seq<Attempt> {
    (r: string) => LiveTry(r, first(r))
  }

  function AllTries(second: Transport): string -> seq<Attempt> {
    (r: string) => Tries(r, second(r))
  }

  /** Everything tried for one text. */
  function FanAttempts(recipients: seq<string>, first: Transport, second: Transport): seq<Attempt> {
    Pass(LiveTries(first), recipients) + Pass(AllTries(second), Undecided(SettledBy(first), recipients))
  }

  class GroupSender {
    const manager: GroupManager
    var attempts: seq<Attempt>

    constructor (manager: GroupManager)
      ensures this.manager == manager && attempts == []
    {
      this.manager := manager;
      attempts := [];
    }

    /** The live part of a delivery; None where the recipient goes on to offline sending. */
    method TryLive(id: Id, a: Answers) returns (r: Option<Result>)
      modifies this
      ensures attempts == old(attempts) + LiveTry(id.recipient, a)
      ensures r == if Settled(a) then Some(Deliver(id, a)) else None
    {
      r := None;
      if a.policy.LiveOnly? || a.policy.PreferLive? {
        if a.liveReady {
          attempts := attempts + [Attempt(id.recipient, true, a.live.accepted)];
          if a.live.accepted {
            return Some(Result(id, DeliveredLive, Or(a.live.reason, "live-session")));
          }
          if a.policy.LiveOnly? {
            return Some(Result(id, Failed, Or(a.live.reason, "needs-live-session")));
          }
        } else if a.policy.LiveOnly? {
          return Some(Result(id, Failed, "needs-live-session"));
        }
      }
    }

    method DeliverEnvelope(id: Id, a: Answers) returns (r: Result)
      modifies this
      ensures attempts == old(attempts) + Tries(id.recipient, a) && r == Deliver(id, a)
    {
      var settled := TryLive(id, a);
      if settled.Some? {
        return settled.value;
      }
      attempts := attempts + [Attempt(id.recipient, false, a.offline.accepted)];
      r := if a.offline.accepted then Result(id, QueuedOffline, Or(a.offline.reason, "blindbox-ready"))
           else Result(id, Failed, Or(a.offline.reason, "blindbox-unavailable"));
    }

    /** The live pass over the recipients; those it leaves open are collected in order. */
    method LivePass(msg: string, recipients: seq<string>, first: Transport)
      returns (results: map<string, Result>, open: seq<string>)
      modifies this
      ensures attempts == old(attempts) + Pass(LiveTries(first), recipients)
      ensures open == Undecided(SettledBy(first), recipients)
      ensures results == LiveResults(To(msg, first), recipients, SettledBy(first), map[])
    {
      results, open := map[], [];
      var left := recipients;
      while left != []
        invariant attempts + Pass(LiveTries(first), left) == old(attempts) + Pass(LiveTries(first), recipients)
        invariant open + Undecided(SettledBy(first), left) == Undecided(SettledBy(first), recipients)
        invariant LiveResults(To(msg, first), left, SettledBy(first), results)
               == LiveResults(To(msg, first), recipients, SettledBy(first), map[])
        decreases |left|
      {
        var settled;
        results, settled := LiveTurn(msg, left, first, results);
        if !settled {
          open := open + [left[0]];
        }
        left := left[1..];
      }
    }

    method LiveTurn(msg: string, left: seq<string>, first: Transport, results: map<string, Result>)
      returns (results': map<string, Result>, settled: bool)
      requires left != []
      modifies this
      ensures settled == SettledBy(first)(left[0])
      ensures attempts + Pass(LiveTries(first), left[1..]) == old(attempts) + Pass(LiveTries(first), left)
      ensures LiveResults(To(msg, first), left[1..], SettledBy(first), results')
           == LiveResults(To(msg, first), left, SettledBy(first), results)
    {
      results' := results;
      var r := TryLive(Id(msg, left[0]), first(left[0]));
      settled := r.Some?;
      if settled {
        results' := results[left[0] := r.value];
      }
    }

    /** The deliveries of the open recipients, whose results come back in their order. */
    method Gather(msg: string, open: seq<string>, second: Transport) returns (gathered: seq<Result>)
      modifies this
      ensures attempts == old(attempts) + Pass(AllTries(second), open)
      ensures gathered == Gathered(To(msg, second), open)
    {
      gathered := [];
      var left := open;
      while left != []
        invariant attempts + Pass(AllTries(second), left) == old(attempts) + Pass(AllTries(second), open)
        invariant gathered + Gathered(To(msg, second), left) == Gathered(To(msg, second), open)
        decreases |left|
      {
        gathered := GatherTurn(msg, left, second, gathered);
        left := left[1..];
      }
    }

    method GatherTurn(msg: string, left: seq<string>, second: Transport, gathered: seq<Result>)
      returns (gathered': seq<Result>)
      requires left != []
      modifies this
      ensures attempts + Pass(AllTries(second), left[1..]) == old(attempts) + Pass(AllTries(second), left)
      ensures gathered' + Gathered(To(msg, second), left[1..]) == gathered + Gathered(To(msg, second), left)
    {
      var r := DeliverEnvelope(Id(msg, left[0]), second(left[0]));
      gathered' := gathered + [r];
    }

    /** One text to all recipients: a live pass, then everything still open at once. */
    method SendGroupPayload(group: string, msg: string, recipients: seq<string>, first: Transport, second: Transport)
      returns (n: nat, results: map<string, Result>)
      modifies this, manager
      ensures (manager.sequences, n) == Next(old(manager.sequences), group)
      ensures results == FanResults(msg, recipients, first, second)
      ensures attempts == old(attempts) + FanAttempts(recipients, first, second)
    {
      n := manager.NextGroupSeq(group);
      var open;
      results, open := LivePass(msg, recipients, first);
      var gathered := Gather(msg, open, second);
      PassesGiveAll(msg, recipients, first, second);
      results := Zip(open, gathered, results);
    }

    method Zip(open: seq<string>, gathered: seq<Result>, live: map<string, Result>)
      returns (results: map<string, Result>)
      requires |gathered| == |open|
      ensures results == Zipped(open, gathered, live)
    {
      results := live;
      var i := 0;
      while i < |open|
        invariant i <= |open|
        invariant Zipped(open[i..], gathered[i..], results) == Zipped(open, gathered, live)
      {
        assert open[i..][1..] == open[i + 1..] && gathered[i..][1..] == gathered[i + 1..];
        results := results[open[i] := gathered[i]];
        i := i + 1;
      }
    }
  }

  function LiveResults(deliver: string -> Result, recipients: seq<string>, settled: string -> bool,
                       soFar: map<string, Result>): map<string, Result>
    decreases |recipients|
  {
    if recipients == [] then soFar
    else
      var r := recipients[0];
      LiveResults(deliver, recipients[1..], settled, if settled(r) then soFar[r := deliver(r)] else soFar)
  }

  /** The delivery of one text to a recipient, with these answers. */
  function To(msg: string, t: Transport): string -> Result {
    (r: string) => Deliver(Id(msg, r), t(r))
  }

  function Gathered(deliver: string -> Result, open: seq<string>): (s: seq<Result>)
    ensures |s| == |open|
  {
    if open == [] then [] else [deliver(open[0])] + Gathered(deliver, open[1..])
  }

  function Zipped(open: seq<string>, gathered: seq<Result>, soFar: map<string, Result>): map<string, Result>
    requires |gathered| == |open|
    decreases |open|
  {
    if open == [] then soFar else Zipped(open[1..], gathered[1..], soFar[open[0] := gathered[0]])
  }

  lemma {:induction false} LiveResultsAre(msg: string, recipients: seq<string>, first: Transport,
                                          soFar: map<string, Result>, r: string)
    ensures var m := LiveResults(To(msg, first), recipients, SettledBy(first), soFar);
            && (r in m <==> r in soFar || (r in recipients && Settled(first(r))))
            && (r in recipients && Settled(first(r)) ==> m[r] == Deliver(Id(msg, r), first(r)))
            && (r in m && !(r in recipients && Settled(first(r))) ==> m[r] == soFar[r])
    decreases |recipients|
  {
    if recipients != [] {
      var x := recipients[0];
      LiveResultsAre(msg, recipients[1..], first,
                     if Settled(first(x)) then soFar[x := Deliver(Id(msg, x), first(x))] else soFar, r);
      assert r in recipients <==> r == x || r in recipients[1..];
    }
  }

  lemma {:induction false} ZippedAre(msg: string, open: seq<string>, second: Transport, soFar: map<string, Result>,
                                     r: string)
    ensures var m := Zipped(open, Gathered(To(msg, second), open), soFar);
            && (r in m <==> r in soFar || r in open)
            && (r in open ==> m[r] == Deliver(Id(msg, r), second(r)))
            && (r in m && r !in open ==> m[r] == soFar[r])
    decreases |open|
  {
    if open != [] {
      var x := open[0];
      ZippedAre(msg, open[1..], second, soFar[x := Deliver(Id(msg, x), second(x))], r);
      assert r in open <==> r == x || r in open[1..];
      assert Gathered(To(msg, second), open)[1..] == Gathered(To(msg, second), open[1..]);
    }
  }

  /** Both passes together give every recipient its one result, and nobody else any. */
  lemma PassesGiveAll(msg: string, recipients: seq<string>, first: Transport, second: Transport)
    ensures Zipped(Undecided(SettledBy(first), recipients),
                   Gathered(To(msg, second), Undecided(SettledBy(first), recipients)),
                   LiveResults(To(msg, first), recipients, SettledBy(first), map[]))
         == FanResults(msg, recipients, first, second)
  {
    var open := Undecided(SettledBy(first), recipients);
    var live := LiveResults(To(msg, first), recipients, SettledBy(first), map[]);
    var all := Zipped(open, Gathered(To(msg, second), open), live);
    UndecidedAre(recipients, first);
    forall r ensures (r in all <==> r in recipients) && (r in all ==> all[r] == Fan(Id(msg, r), first(r), second(r))) {
      LiveResultsAre(msg, recipients, first, map[], r);
      ZippedAre(msg, open, second, live, r);
    }
  }

  lemma {:induction false} UndecidedAre(recipients: seq<string>, first: Transport)
    ensures forall r :: r in Undecided(SettledBy(first), recipients) <==> r in recipients && !Settled(first(r))
  {
    if recipients != [] {
      UndecidedAre(recipients[1..], first);
      assert recipients == [recipients[0]] + recipients[1..];
    }
  }

  /**
    What one recipient gets over both passes: at most two live attempts and one offline one, no attempt
    after one that was accepted, and a result that says delivered exactly when one was.
   */
  lemma FanOutcome(id: Id, first: Answers, second: Answers)
    ensures var tries, r := FanTries(id.recipient, first, second), Fan(id, first, second);
            && r.id == id
            && |tries| <= 3 && (|tries| == 3 ==> tries[0].live && tries[1].live && !tries[2].live)
            && (forall k :: 0 <= k < |tries| && tries[k].accepted ==> k == |tries| - 1)
            && (!r.status.Failed? <==> tries != [] && tries[|tries| - 1].accepted)
            && (r.status.DeliveredLive? <==> tries != [] && tries[|tries| - 1].accepted && tries[|tries| - 1].live)
  {
  }

  function OnlyTo(tries: seq<Attempt>, recipient: string): seq<Attempt> {
    if tries == [] then []
    else (if tries[0].recipient == recipient then [tries[0]] else []) + OnlyTo(tries[1..], recipient)
  }

  lemma {:induction false} OnlyToAppend(a: seq<Attempt>, b: seq<Attempt>, recipient: string)
    ensures OnlyTo(a + b, recipient) == OnlyTo(a, recipient) + OnlyTo(b, recipient)
  {
    if a == [] {
      assert a + b == b;
    } else {
      assert (a + b)[1..] == a[1..] + b;
      OnlyToAppend(a[1..], b, recipient);
    }
  }

  ghost predicate EachOnce(recipients: seq<string>) {
    forall i, j :: 0 <= i < j < |recipients| ==> recipients[i] != recipients[j]
  }

  ghost predicate Own(tries: seq<Attempt>, r: string) {
    |tries| <= 2 && forall k :: 0 <= k < |tries| ==> tries[k].recipient == r
  }

  lemma OwnTries(tries: seq<Attempt>, r: string, recipient: string)
    requires Own(tries, r)
    ensures OnlyTo(tries, recipient) == if r == recipient then tries else []
  {
    if |tries| == 1 {
      assert tries[1..] == [];
    } else if |tries| == 2 {
      assert tries[1..][1..] == [] && tries == [tries[0]] + [tries[1]];
      assert OnlyTo(tries[1..], recipient) == if r == recipient then [tries[1]] else [];
    }
  }

  lemma {:induction false} PassOf(tries: string -> seq<Attempt>, recipients: seq<string>, recipient: string)
    requires EachOnce(recipients)
    requires forall r :: Own(tries(r), r)
    ensures OnlyTo(Pass(tries, recipients), recipient) == if recipient in recipients then tries(recipient) else []
  {
    if recipients != [] {
      var r := recipients[0];
      PassOf(tries, recipients[1..], recipient);
      OwnTries(tries(r), r, recipient);
      OnlyToAppend(tries(r), Pass(tries, recipients[1..]), recipient);
      assert recipients == [r] + recipients[1..];
      assert r !in recipients[1..];
    }
  }

  lemma {:induction false} UndecidedOnce(recipients: seq<string>, first: Transport)
    requires EachOnce(recipients)
    ensures EachOnce(Undecided(SettledBy(first), recipients))
  {
    if recipients != [] {
      UndecidedOnce(recipients[1..], first);
      UndecidedAre(recipients[1..], first);
      var rest := Undecided(SettledBy(first), recipients[1..]);
      forall i | 0 <= i < |rest| ensures rest[i] != recipients[0] {
        assert rest[i] in rest;
      }
    }
  }

  /**
    Over the whole fan-out each recipient gets exactly its own attempts, and nobody else any; so with
    FanOutcome the text is accepted for a recipient at most once, and its result says whether it was.
   */
  lemma FanOutAttempts(recipients: seq<string>, first: Transport, second: Transport, recipient: string)
    requires EachOnce(recipients)
    ensures OnlyTo(FanAttempts(recipients, first, second), recipient)
         == if recipient in recipients then FanTries(recipient, first(recipient), second(recipient)) else []
  {
    var open := Undecided(SettledBy(first), recipients);
    UndecidedOnce(recipients, first);
    UndecidedAre(recipients, first);
    forall r ensures Own(LiveTries(first)(r), r) && Own(AllTries(second)(r), r) {
      assert LiveTries(first)(r) == LiveTry(r, first(r)) && AllTries(second)(r) == Tries(r, second(r));
    }
    PassOf(LiveTries(first), recipients, recipient);
    PassOf(AllTries(second), open, recipient);
    OnlyToAppend(Pass(LiveTries(first), recipients), Pass(AllTries(second), open), recipient);
  }

  // ---------- deliveries that wait ----------

  datatype Pending = Pending(id: Id, created: int)

  function IdText(id: Id): string {
    id.msg + ":" + id.recipient
  }

  /** Sorted by time, then by the text of the id. */
  predicate NotAfter(a: Pending, b: Pending) {
    a.created < b.created || (a.created == b.created && !Before(IdText(b.id), IdText(a.id)))
  }

  function Insert(sorted: seq<Pending>, p: Pending): seq<Pending> {
    if sorted == [] || NotAfter(sorted[|sorted| - 1], p) then sorted + [p]
    else Insert(sorted[..|sorted| - 1], p) + [sorted[|sorted| - 1]]
  }

  function Sorted(items: seq<Pending>): seq<Pending> {
    if items == [] then [] else Insert(Sorted(items[..|items| - 1]), items[|items| - 1])
  }

  /** Replaces the item with this id where it stands, or adds it at the end. */
  function Upsert(items: seq<Pending>, p: Pending): seq<Pending> {
    if items == [] then [p]
    else if items[0].id == p.id then [p] + items[1..]
    else [items[0]] + Upsert(items[1..], p)
  }

  function UpsertAll(items: seq<Pending>, more: seq<Pending>): seq<Pending>
    decreases |more|
  {
    if more == [] then items else UpsertAll(Upsert(items, more[0]), more[1..])
  }

  function Merge(items: seq<Pending>, more: seq<Pending>): seq<Pending> {
    if more == [] then items else Sorted(UpsertAll(items, more))
  }

  /** Which recipients are the peer being flushed, and which deliveries fail again. */
  datatype Flush = Flush(isPeer: string -> bool, fails: Pending -> bool)

  function Keep(items: seq<Pending>, f: Flush): seq<Pending> {
    if items == [] then []
    else (if f.isPeer(items[0].id.recipient) then [] else [items[0]]) + Keep(items[1..], f)
  }

  function Matching(items: seq<Pending>, f: Flush): seq<Pending> {
    if items == [] then []
    else (if f.isPeer(items[0].id.recipient) then [items[0]] else []) + Matching(items[1..], f)
  }

  /** Those of the deliveries that fail, or that do not. */
  function Those(items: seq<Pending>, f: Flush, fails: bool): seq<Pending> {
    if items == [] then [] else (if f.fails(items[0]) == fails then [items[0]] else []) + Those(items[1..], f, fails)
  }

  /** Without a delivery nothing is saved, so the queue keeps its order. */
  function Flushed(items: seq<Pending>, f: Flush): (seq<Pending>, seq<Pending>) {
    var remaining := Keep(items, f) + Those(Matching(items, f), f, true);
    var delivered := Those(Matching(items, f), f, false);
    (if delivered != [] || |remaining| != |items| then remaining else items, delivered)
  }

  class PendingQueue {
    var items: seq<Pending>

    constructor ()
      ensures items == []
    {
      items := [];
    }

    /** Delivers what waits for one peer; what fails again waits behind everything else. */
    method FlushPeer(f: Flush) returns (delivered: seq<Pending>)
      modifies this
      ensures (items, delivered) == Flushed(old(items), f)
    {
      var matching, remaining := SplitByPeer(f);
      var failed;
      delivered, failed := DeliverEach(matching, f);
      remaining := remaining + failed;
      if delivered != [] || |remaining| != |items| {
        items := remaining;
      }
    }

    method DeliverEach(matching: seq<Pending>, f: Flush) returns (delivered: seq<Pending>, failed: seq<Pending>)
      ensures delivered == Those(matching, f, false) && failed == Those(matching, f, true)
    {
      delivered, failed := [], [];
      var i := 0;
      while i < |matching|
        invariant i <= |matching|
        invariant failed + Those(matching[i..], f, true) == Those(matching, f, true)
        invariant delivered + Those(matching[i..], f, false) == Those(matching, f, false)
      {
        assert matching[i..][1..] == matching[i + 1..];
        if f.fails(matching[i]) {
          failed := failed + [matching[i]];
        } else {
          delivered := delivered + [matching[i]];
        }
        i := i + 1;
      }
    }

    method SplitByPeer(f: Flush) returns (matching: seq<Pending>, rest: seq<Pending>)
      ensures matching == Matching(items, f) && rest == Keep(items, f)
    {
      matching, rest := [], [];
      var i := 0;
      while i < |items|
        invariant i <= |items|
        invariant rest + Keep(items[i..], f) == Keep(items, f)
        invariant matching + Matching(items[i..], f) == Matching(items, f)
      {
        assert items[i..][1..] == items[i + 1..];
        if f.isPeer(items[i].id.recipient) {
          matching := matching + [items[i]];
        } else {
          rest := rest + [items[i]];
        }
        i := i + 1;
      }
    }
  }

  // ---------- what a flush keeps ----------

  lemma {:induction false} SplitsByPeer(items: seq<Pending>, f: Flush)
    ensures multiset(items) == multiset(Keep(items, f)) + multiset(Matching(items, f))
    ensures forall p :: p in Keep(items, f) ==> !f.isPeer(p.id.recipient)
    ensures forall p :: p in Matching(items, f) ==> f.isPeer(p.id.recipient)
  {
    if items != [] {
      SplitsByPeer(items[1..], f);
      assert items == [items[0]] + items[1..];
    }
  }

  lemma {:induction false} ThoseAre(items: seq<Pending>, f: Flush, fails: bool)
    ensures forall p :: p in Those(items, f, fails) <==> p in items && f.fails(p) == fails
  {
    if items != [] {
      ThoseAre(items[1..], f, fails);
      assert items == [items[0]] + items[1..];
    }
  }

  lemma Cons(p: Pending, rest: seq<Pending>)
    ensures multiset([p] + rest) == multiset{p} + multiset(rest)
  {
  }

  lemma {:induction false} SplitsByOutcome(items: seq<Pending>, f: Flush)
    ensures multiset(items) == multiset(Those(items, f, true)) + multiset(Those(items, f, false))
  {
    if items != [] {
      SplitsByOutcome(items[1..], f);
      Cons(items[0], items[1..]);
      Cons(items[0], Those(items[1..], f, f.fails(items[0])));
      assert items == [items[0]] + items[1..];
    }
  }

  lemma SplitCounts(items: seq<Pending>, stays: seq<Pending>, failed: seq<Pending>, gone: seq<Pending>)
    requires multiset(items) == multiset(stays) + multiset(failed) + multiset(gone)
    ensures |items| == |stays + failed| + |gone|
    ensures multiset(items) == multiset(stays + failed) + multiset(gone)
  {
    assert multiset(stays + failed) == multiset(stays) + multiset(failed);
    assert |multiset(items)| == |multiset(stays)| + |multiset(failed)| + |multiset(gone)|;
  }

  lemma {:induction false} MatchingAre(items: seq<Pending>, f: Flush)
    ensures forall p :: p in Matching(items, f) <==> p in items && f.isPeer(p.id.recipient)
  {
    if items != [] {
      MatchingAre(items[1..], f);
      assert items == [items[0]] + items[1..];
    }
  }

  /**
    A flush splits what was pending exactly into what is delivered and what is kept; it delivers just
    what goes to this peer and is accepted, and leaves the others' deliveries in their order.
   */
  lemma FlushConserves(items: seq<Pending>, f: Flush)
    ensures var (kept, delivered) := Flushed(items, f);
            && multiset(items) == multiset(kept) + multiset(delivered)
            && (forall p :: p in delivered <==> p in items && f.isPeer(p.id.recipient) && !f.fails(p))
            && Keep(kept, f) == Keep(items, f)
  {
    var stays, matching := Keep(items, f), Matching(items, f);
    var failed, gone := Those(matching, f, true), Those(matching, f, false);
    SplitsByPeer(items, f);
    SplitsByOutcome(matching, f);
    SplitCounts(items, stays, failed, gone);
    MatchingAre(items, f);
    ThoseAre(matching, f, true);
    ThoseAre(matching, f, false);
    KeepOfKept(stays, failed, f);
  }

  lemma {:induction false} KeepOfKept(stays: seq<Pending>, failed: seq<Pending>, f: Flush)
    requires forall p :: p in stays ==> !f.isPeer(p.id.recipient)
    requires forall p :: p in failed ==> f.isPeer(p.id.recipient)
    ensures Keep(stays + failed, f) == stays
  {
    if stays != [] {
      assert stays[0] in stays && (stays + failed)[1..] == stays[1..] + failed;
      KeepOfKept(stays[1..], failed, f);
    } else {
      assert stays + failed == failed;
      NoneKept(failed, f);
    }
  }

  lemma {:induction false} NoneKept(failed: seq<Pending>, f: Flush)
    requires forall p :: p in failed ==> f.isPeer(p.id.recipient)
    ensures Keep(failed, f) == []
  {
    if failed != [] {
      assert failed[0] in failed;
      NoneKept(failed[1..], f);
    }
  }

  // ---------- what queueing keeps ----------

  ghost predicate OneEach(items: seq<Pending>) {
    forall i, j :: 0 <= i < j < |items| ==> items[i].id != items[j].id
  }

  predicate HasId(items: seq<Pending>, id: Id) {
    exists p :: p in items && p.id == id
  }

  lemma {:induction false} InsertIs(s: seq<Pending>, p: Pending)
    ensures multiset(Insert(s, p)) == multiset(s) + multiset{p}
  {
    if s != [] && !NotAfter(s[|s| - 1], p) {
      InsertIs(s[..|s| - 1], p);
      assert s == s[..|s| - 1] + [s[|s| - 1]];
    }
  }

  lemma {:induction false} SortedIs(items: seq<Pending>)
    ensures multiset(Sorted(items)) == multiset(items)
  {
    if items != [] {
      SortedIs(items[..|items| - 1]);
      InsertIs(Sorted(items[..|items| - 1]), items[|items| - 1]);
      assert items == items[..|items| - 1] + [items[|items| - 1]];
    }
  }

  lemma {:induction false} UpsertNew(items: seq<Pending>, p: Pending)
    requires !HasId(items, p.id)
    ensures Upsert(items, p) == items + [p]
  {
    if items != [] {
      assert items[0] in items;
      assert !HasId(items[1..], p.id) by {
        assert forall x :: x in items[1..] ==> x in items;
      }
      UpsertNew(items[1..], p);
    }
  }

  /** Ids that are new, each one once. */
  ghost predicate AllNew(items: seq<Pending>, more: seq<Pending>) {
    OneEach(more) && forall p :: p in more ==> !HasId(items, p.id)
  }

  lemma {:induction false} UpsertAllNew(items: seq<Pending>, more: seq<Pending>)
    requires AllNew(items, more)
    ensures UpsertAll(items, more) == items + more
    decreases |more|
  {
    if more == [] {
      assert items + more == items;
    } else {
      assert more[0] in more;
      UpsertNew(items, more[0]);
      forall p | p in more[1..] ensures !HasId(items + [more[0]], p.id) {
        var k :| 0 <= k < |more[1..]| && more[1..][k] == p;
        assert more[k + 1] == p && more[0].id != p.id;
      }
      UpsertAllNew(items + [more[0]], more[1..]);
      assert (items + [more[0]]) + more[1..] == items + more;
    }
  }

  /** Queueing deliveries with new ids loses none. */
  lemma MergeConserves(items: seq<Pending>, more: seq<Pending>)
    requires AllNew(items, more)
    ensures multiset(Merge(items, more)) == multiset(items) + multiset(more)
  {
    UpsertAllNew(items, more);
    SortedIs(items + more);
  }

  /** Queueing an id that already waits replaces that delivery: one is lost, whatever it was. */
  lemma RepeatedIdReplaces(p: Pending, q: Pending)
    requires p.id == q.id
    ensures Merge([p], [q]) == [q]
  {
    assert UpsertAll([p], [q]) == UpsertAll([q], [][..]) == [q];
    assert [q][..0] == [] && [p][1..] == [] && [q][1..] == [];
    assert Sorted([]) == [] && Sorted([q]) == Insert([], q);
  }

  // ---------- every delivery is accounted for ----------

  datatype Ledger = Ledger(asked: multiset<Pending>, done: multiset<Pending>, given: multiset<Pending>,
                           waiting: seq<Pending>, used: set<string>)

  /** One text to a group: what the transports answer in the live pass, and after it. */
  datatype Mail = Mail(msg: string, at: int, first: Transport, second: Transport)

  datatype Event = SendGroup(mail: Mail, recipients: seq<string>) | FlushFor(f: Flush)

  datatype Fate = Accepted | GivenUp | Waits

  /** A failure worth another try. */
  predicate Recoverable(reason: string) {
    Strip(reason) == "blindbox-await-root" || Strip(reason) == "needs-live-session"
  }

  function FateOf(mail: Mail, recipient: string): Fate {
    var r := Fan(Id(mail.msg, recipient), mail.first(recipient), mail.second(recipient));
    if !r.status.Failed? then Accepted else if Recoverable(r.reason) then Waits else GivenUp
  }

  function Delivery(mail: Mail, recipient: string): Pending {
    Pending(Id(mail.msg, recipient), mail.at)
  }

  /** The deliveries of one send that meet this fate, in the order of the recipients. */
  function WithFate(fates: string -> Fate, mail: Mail, recipients: seq<string>, fate: Fate): seq<Pending> {
    if recipients == [] then []
    else (if fates(recipients[0]) == fate then [Delivery(mail, recipients[0])] else [])
         + WithFate(fates, mail, recipients[1..], fate)
  }

  function FatesOf(mail: Mail): string -> Fate {
    (r: string) => FateOf(mail, r)
  }

  function Deliveries(mail: Mail, recipients: seq<string>): seq<Pending> {
    seq(|recipients|, i requires 0 <= i < |recipients| => Delivery(mail, recipients[i]))
  }

  function Happen(l: Ledger, e: Event): Ledger {
    match e
    case SendGroup(mail, recipients) =>
      Ledger(l.asked + multiset(Deliveries(mail, recipients)),
             l.done + multiset(WithFate(FatesOf(mail), mail, recipients, Accepted)),
             l.given + multiset(WithFate(FatesOf(mail), mail, recipients, GivenUp)),
             Merge(l.waiting, WithFate(FatesOf(mail), mail, recipients, Waits)), l.used + {mail.msg})
    case FlushFor(f) =>
      var (kept, delivered) := Flushed(l.waiting, f);
      l.(done := l.done + multiset(delivered), waiting := kept)
  }

  /** Message ids are drawn fresh, and a group lists each member once. */
  ghost predicate EventOk(l: Ledger, e: Event) {
    e.SendGroup? ==>
      e.mail.msg !in l.used && EachOnce(e.recipients)
  }

  ghost predicate RunOk(l: Ledger, events: seq<Event>)
    decreases |events|
  {
    events != [] ==> EventOk(l, events[0]) && RunOk(Happen(l, events[0]), events[1..])
  }

  function HappenAll(l: Ledger, events: seq<Event>): Ledger
    decreases |events|
  {
    if events == [] then l else HappenAll(Happen(l, events[0]), events[1..])
  }

  ghost predicate Balanced(l: Ledger) {
    && l.asked == l.done + l.given + multiset(l.waiting)
    && (forall p :: p in l.waiting ==> p.id.msg in l.used)
  }

  lemma FateStep(fates: string -> Fate, mail: Mail, recipients: seq<string>, fate: Fate)
    requires recipients != []
    ensures multiset(WithFate(fates, mail, recipients, fate))
         == (if fates(recipients[0]) == fate then multiset{Delivery(mail, recipients[0])} else multiset{})
            + multiset(WithFate(fates, mail, recipients[1..], fate))
  {
    var rest := WithFate(fates, mail, recipients[1..], fate);
    assert multiset([Delivery(mail, recipients[0])] + rest) == multiset{Delivery(mail, recipients[0])} + multiset(rest);
    assert [] + rest == rest;
  }

  lemma DeliveriesStep(mail: Mail, recipients: seq<string>)
    requires recipients != []
    ensures multiset(Deliveries(mail, recipients))
         == multiset{Delivery(mail, recipients[0])} + multiset(Deliveries(mail, recipients[1..]))
  {
    Cons(Delivery(mail, recipients[0]), Deliveries(mail, recipients[1..]));
    assert Deliveries(mail, recipients) == [Delivery(mail, recipients[0])] + Deliveries(mail, recipients[1..]);
  }

  lemma {:induction false} SplitsByFate(fates: string -> Fate, mail: Mail, recipients: seq<string>)
    ensures multiset(Deliveries(mail, recipients))
         == multiset(WithFate(fates, mail, recipients, Accepted)) + multiset(WithFate(fates, mail, recipients, GivenUp))
            + multiset(WithFate(fates, mail, recipients, Waits))
    decreases |recipients|
  {
    if recipients != [] {
      SplitsByFate(fates, mail, recipients[1..]);
      DeliveriesStep(mail, recipients);
      FateStep(fates, mail, recipients, Accepted);
      FateStep(fates, mail, recipients, GivenUp);
      FateStep(fates, mail, recipients, Waits);
      match fates(recipients[0])
      case Accepted =>
      case GivenUp =>
      case Waits =>
    }
  }

  lemma {:induction false} QueuedOnce(fates: string -> Fate, mail: Mail, recipients: seq<string>, fate: Fate)
    requires EachOnce(recipients)
    ensures OneEach(WithFate(fates, mail, recipients, fate))
    ensures forall p :: p in WithFate(fates, mail, recipients, fate) ==>
              p.id.msg == mail.msg && p.id.recipient in recipients
  {
    if recipients != [] {
      QueuedOnce(fates, mail, recipients[1..], fate);
      var rest := WithFate(fates, mail, recipients[1..], fate);
      forall i | 0 <= i < |rest| ensures rest[i].id.recipient != recipients[0] {
        assert rest[i] in rest;
      }
    }
  }

  lemma SendKeepsBalance(l: Ledger, mail: Mail, recipients: seq<string>)
    requires Balanced(l) && EventOk(l, SendGroup(mail, recipients))
    ensures Balanced(Happen(l, SendGroup(mail, recipients)))
  {
    var fates := FatesOf(mail);
    var more := WithFate(fates, mail, recipients, Waits);
    QueuedOnce(fates, mail, recipients, Waits);
    SplitsByFate(fates, mail, recipients);
    MergeConserves(l.waiting, more);
    forall p | p in Merge(l.waiting, more) ensures p.id.msg in l.used + {mail.msg} {
      assert p in multiset(Merge(l.waiting, more));
    }
  }

  lemma FlushKeepsBalance(l: Ledger, f: Flush)
    requires Balanced(l)
    ensures Balanced(Happen(l, FlushFor(f)))
  {
    FlushConserves(l.waiting, f);
    var kept := Flushed(l.waiting, f).0;
    forall p | p in kept ensures p in l.waiting {
      assert p in multiset(kept);
      assert p in multiset(l.waiting);
    }
  }

  /**
    Over every run of sends and flushes, each delivery ever asked for is exactly one of accepted, given
    up, or still waiting.
   */
  lemma {:induction false} EveryDeliveryAccounted(l: Ledger, events: seq<Event>)
    requires Balanced(l) && RunOk(l, events)
    ensures Balanced(HappenAll(l, events))
    decreases |events|
  {
    if events != [] {
      if events[0].SendGroup? {
        SendKeepsBalance(l, events[0].mail, events[0].recipients);
      } else {
        FlushKeepsBalance(l, events[0].f);
      }
      EveryDeliveryAccounted(Happen(l, events[0]), events[1..]);
    }
  }
}
