/**
  The PUT rate limiter of the replica server: a window of 60 seconds over two queues of admissions, one
  with the times and one with the times and sizes.
 */
module RateLimiter {

  const WINDOW := 60.0

  datatype Admission = Admission(at: real, size: nat)

  /** A limit of zero is no limit. */
  datatype Rates = Rates(puts: nat, bytes: nat)

  function DropOldTimes(times: seq<real>, cutoff: real): seq<real> {
    if times != [] && times[0] <= cutoff then DropOldTimes(times[1..], cutoff) else times
  }

  function DropOld(sizes: seq<Admission>, cutoff: real): seq<Admission> {
    if sizes != [] && sizes[0].at <= cutoff then DropOld(sizes[1..], cutoff) else sizes
  }

  function Sum(sizes: seq<Admission>): nat {
    if sizes == [] then 0 else sizes[0].size + Sum(sizes[1..])
  }

  function Times(sizes: seq<Admission>): (t: seq<real>)
    ensures |t| == |sizes| && forall i :: 0 <= i < |t| ==> t[i] == sizes[i].at
  {
    seq(|sizes|, i requires 0 <= i < |sizes| => sizes[i].at)
  }

  /** Both queues, and every admission ever made. */
  datatype Limiter = Limiter(times: seq<real>, sizes: seq<Admission>, history: seq<Admission>)

  function Admit(m: Limiter, now: real, size: nat, r: Rates): (Limiter, bool) {
    var purged := m.(times := DropOldTimes(m.times, now - WINDOW), sizes := DropOld(m.sizes, now - WINDOW));
    if r.puts > 0 && |purged.times| >= r.puts then (purged, false)
    else if r.bytes > 0 && Sum(purged.sizes) + size > r.bytes then (purged, false)
    else
      var a := Admission(now, size);
      (Limiter(purged.times + [now], purged.sizes + [a], purged.history + [a]), true)
  }

  class PutLimiter {
    const rates: Rates
    var times: seq<real>
    var sizes: seq<Admission>
    ghost var history: seq<Admission>

    constructor (rates: Rates)
      ensures this.rates == rates && View() == Limiter([], [], [])
    {
      this.rates := rates;
      times, sizes, history := [], [], [];
    }

    ghost function View(): Limiter
      reads this
    {
      Limiter(times, sizes, history)
    }

    method Purge(now: real)
      modifies this
      ensures times == DropOldTimes(old(times), now - WINDOW) && sizes == DropOld(old(sizes), now - WINDOW)
      ensures history == old(history)
    {
      var cutoff := now - WINDOW;
      ghost var t, s := DropOldTimes(times, cutoff), DropOld(sizes, cutoff);
      while times != [] && times[0] <= cutoff
        invariant DropOldTimes(times, cutoff) == t && sizes == old(sizes) && history == old(history)
        decreases |times|
      {
        times := times[1..];
      }
      while sizes != [] && sizes[0].at <= cutoff
        invariant DropOld(sizes, cutoff) == s && times == t && history == old(history)
        decreases |sizes|
      {
        sizes := sizes[1..];
      }
    }

    method AdmitPut(size: nat, now: real) returns (admitted: bool)
      modifies this
      ensures (View(), admitted) == Admit(old(View()), now, size, rates)
    {
      Purge(now);
      if rates.puts > 0 && |times| >= rates.puts {
        return false;
      }
      if rates.bytes > 0 {
        var used := UsedBytes();
        if used + size > rates.bytes {
          return false;
        }
      }
      times := times + [now];
      sizes := sizes + [Admission(now, size)];
      history := history + [Admission(now, size)];
      admitted := true;
    }

    method UsedBytes() returns (used: nat)
      ensures used == Sum(sizes)
    {
      used := 0;
      var i := 0;
      while i < |sizes|
        invariant i <= |sizes| && used + Sum(sizes[i..]) == Sum(sizes)
      {
        assert sizes[i..][1..] == sizes[i + 1..];
        used := used + sizes[i].size;
        i := i + 1;
      }
    }
  }

  // ---------- every run with a clock that does not run backwards ----------

  datatype Request = Request(at: real, size: nat)

  ghost predicate InOrder(requests: seq<Request>) {
    forall i, j :: 0 <= i < j < |requests| ==> requests[i].at <= requests[j].at
  }

  function AdmitAll(m: Limiter, requests: seq<Request>, r: Rates): Limiter
    decreases |requests|
  {
    if requests == [] then m
    else AdmitAll(Admit(m, requests[0].at, requests[0].size, r).0, requests[1..], r)
  }

  ghost predicate Sorted(s: seq<Admission>) {
    forall i, j :: 0 <= i < j < |s| ==> s[i].at <= s[j].at
  }

  /** The admissions of the 60 seconds that end at `end`, that instant included. */
  function InWindow(history: seq<Admission>, end: real): seq<Admission> {
    if history == [] then []
    else (if end - WINDOW < history[0].at <= end then [history[0]] else []) + InWindow(history[1..], end)
  }

  ghost predicate WithinRates(history: seq<Admission>, end: real, r: Rates) {
    && (r.puts > 0 ==> |InWindow(history, end)| <= r.puts)
    && (r.bytes > 0 ==> Sum(InWindow(history, end)) <= r.bytes)
  }

  /** The queue of sizes is the end of the history that some window from now on can still see. */
  ghost predicate HoldsRecent(sizes: seq<Admission>, history: seq<Admission>, now: real) {
    && |sizes| <= |history| && sizes == history[|history| - |sizes|..]
    && forall i :: 0 <= i < |history| - |sizes| ==> history[i].at <= now - WINDOW
  }

  ghost predicate Until(history: seq<Admission>, now: real) {
    Sorted(history) && forall i :: 0 <= i < |history| ==> history[i].at <= now
  }

  ghost predicate AllWithin(history: seq<Admission>, r: Rates) {
    forall end :: WithinRates(history, end, r)
  }

  /** The queues are sorted and in step, they cover every open window, and no window is over the rates. */
  ghost predicate LimiterOk(m: Limiter, now: real, r: Rates) {
    && m.times == Times(m.sizes) && Until(m.history, now)
    && HoldsRecent(m.sizes, m.history, now) && AllWithin(m.history, r)
  }

  lemma {:induction false} DropsTogether(sizes: seq<Admission>, cutoff: real)
    requires Sorted(sizes)
    ensures DropOldTimes(Times(sizes), cutoff) == Times(DropOld(sizes, cutoff))
    ensures var k := |sizes| - |DropOld(sizes, cutoff)|;
            && 0 <= k && DropOld(sizes, cutoff) == sizes[k..]
            && (forall i :: 0 <= i < k ==> sizes[i].at <= cutoff)
            && (forall i :: k <= i < |sizes| ==> sizes[i].at > cutoff)
  {
    if sizes != [] && sizes[0].at <= cutoff {
      assert Times(sizes)[1..] == Times(sizes[1..]);
      DropsTogether(sizes[1..], cutoff);
      var k := |sizes[1..]| - |DropOld(sizes[1..], cutoff)|;
      assert sizes[1..][k..] == sizes[k + 1..];
      forall i | 0 <= i < k + 1 ensures sizes[i].at <= cutoff {
        if i > 0 {
          assert sizes[i] == sizes[1..][i - 1];
        }
      }
      forall i | k + 1 <= i < |sizes| ensures sizes[i].at > cutoff {
        assert sizes[i] == sizes[1..][i - 1];
      }
    }
  }

  lemma {:induction false} WindowSkips(history: seq<Admission>, end: real, k: nat)
    requires k <= |history| && forall i :: 0 <= i < k ==> history[i].at <= end - WINDOW
    ensures InWindow(history, end) == InWindow(history[k..], end)
  {
    if k > 0 {
      WindowSkips(history[1..], end, k - 1);
      assert history[1..][k - 1..] == history[k..];
    } else {
      assert history[0..] == history;
    }
  }

  lemma {:induction false} WindowAll(s: seq<Admission>, end: real)
    requires forall i :: 0 <= i < |s| ==> end - WINDOW < s[i].at <= end
    ensures InWindow(s, end) == s
  {
    if s != [] {
      WindowAll(s[1..], end);
    }
  }

  lemma {:induction false} WindowAppend(s: seq<Admission>, a: Admission, end: real)
    ensures InWindow(s + [a], end) == InWindow(s, end) + (if end - WINDOW < a.at <= end then [a] else [])
  {
    if s == [] {
      assert s + [a] == [a];
    } else {
      assert (s + [a])[1..] == s[1..] + [a];
      WindowAppend(s[1..], a, end);
    }
  }

  lemma {:induction false} SumAppend(s: seq<Admission>, a: Admission)
    ensures Sum(s + [a]) == Sum(s) + a.size
  {
    if s == [] {
      assert s + [a] == [a];
    } else {
      assert (s + [a])[1..] == s[1..] + [a];
      SumAppend(s[1..], a);
    }
  }

  lemma WindowStep(s: seq<Admission>, end: real)
    requires s != []
    ensures var seen, rest := end - WINDOW < s[0].at <= end, InWindow(s[1..], end);
            && |InWindow(s, end)| == (if seen then 1 else 0) + |rest|
            && Sum(InWindow(s, end)) == (if seen then s[0].size else 0) + Sum(rest)
  {
    var rest := InWindow(s[1..], end);
    assert ([s[0]] + rest)[1..] == rest;
    assert [] + rest == rest;
  }

  /** A window that ends later sees no more of an old history than one that ends now. */
  lemma {:induction false} LaterSeesLess(s: seq<Admission>, now: real, end: real)
    requires now <= end && forall i :: 0 <= i < |s| ==> s[i].at <= now
    ensures |InWindow(s, end)| <= |InWindow(s, now)| && Sum(InWindow(s, end)) <= Sum(InWindow(s, now))
  {
    if s != [] {
      LaterSeesLess(s[1..], now, end);
      WindowStep(s, now);
      WindowStep(s, end);
    }
  }

  lemma RecentSorted(sizes: seq<Admission>, history: seq<Admission>, now: real)
    requires HoldsRecent(sizes, history, now) && Until(history, now)
    ensures Until(sizes, now)
  {
    var off := |history| - |sizes|;
    assert forall i :: 0 <= i < |sizes| ==> sizes[i] == history[off + i];
  }

  lemma StillRecent(sizes: seq<Admission>, history: seq<Admission>, now: real, k: nat)
    requires HoldsRecent(sizes, history, now) && k <= |sizes|
    requires forall i :: 0 <= i < k ==> sizes[i].at <= now - WINDOW
    ensures HoldsRecent(sizes[k..], history, now)
  {
    var off := |history| - |sizes|;
    forall i | 0 <= i < off + k ensures history[i].at <= now - WINDOW {
      if i >= off {
        assert history[i] == sizes[i - off];
      }
    }
  }

  lemma RecentIsWindow(sizes: seq<Admission>, history: seq<Admission>, now: real)
    requires HoldsRecent(sizes, history, now) && Until(history, now)
    requires forall i :: 0 <= i < |sizes| ==> sizes[i].at > now - WINDOW
    ensures InWindow(history, now) == sizes
  {
    RecentSorted(sizes, history, now);
    WindowSkips(history, now, |history| - |sizes|);
    WindowAll(sizes, now);
  }

  /** After the purge both queues are exactly the window that ends now. */
  lemma PurgeSeesWindow(m: Limiter, now: real, r: Rates)
    requires LimiterOk(m, now, r)
    ensures var sizes := DropOld(m.sizes, now - WINDOW);
            && DropOldTimes(m.times, now - WINDOW) == Times(sizes)
            && InWindow(m.history, now) == sizes && HoldsRecent(sizes, m.history, now)
  {
    var sizes := DropOld(m.sizes, now - WINDOW);
    RecentSorted(m.sizes, m.history, now);
    DropsTogether(m.sizes, now - WINDOW);
    var k := |m.sizes| - |sizes|;
    StillRecent(m.sizes, m.history, now, k);
    assert forall i :: 0 <= i < |sizes| ==> sizes[i] == m.sizes[k + i];
    RecentIsWindow(sizes, m.history, now);
  }

  lemma AdmittedStaysWithin(h: seq<Admission>, a: Admission, end: real, r: Rates)
    requires forall i :: 0 <= i < |h| ==> h[i].at <= a.at
    requires WithinRates(h, end, r)
    requires r.puts > 0 ==> |InWindow(h, a.at)| < r.puts
    requires r.bytes > 0 ==> Sum(InWindow(h, a.at)) + a.size <= r.bytes
    ensures WithinRates(h + [a], end, r)
  {
    WindowAppend(h, a, end);
    if end - WINDOW < a.at <= end {
      LaterSeesLess(h, a.at, end);
      SumAppend(InWindow(h, end), a);
    } else {
      assert InWindow(h, end) + [] == InWindow(h, end);
    }
  }

  lemma AppendRecent(sizes: seq<Admission>, history: seq<Admission>, a: Admission)
    requires HoldsRecent(sizes, history, a.at) && Until(history, a.at)
    ensures HoldsRecent(sizes + [a], history + [a], a.at) && Until(history + [a], a.at)
    ensures Times(sizes + [a]) == Times(sizes) + [a.at]
  {
  }

  lemma AdmitKeepsOk(m: Limiter, before: real, now: real, size: nat, r: Rates)
    requires LimiterOk(m, before, r) && before <= now
    ensures LimiterOk(Admit(m, now, size, r).0, now, r)
  {
    assert LimiterOk(m, now, r);
    PurgeSeesWindow(m, now, r);
    var sizes, a := DropOld(m.sizes, now - WINDOW), Admission(now, size);
    if Admit(m, now, size, r).1 {
      forall end ensures WithinRates(m.history + [a], end, r) {
        assert WithinRates(m.history, end, r);
        AdmittedStaysWithin(m.history, a, end, r);
      }
      AppendRecent(sizes, m.history, a);
    }
  }

  /**
    Over every run, every window of 60 seconds over the whole history, wherever it ends, holds at most
    the limit of PUTs and of bytes; and both queues stay sorted and in step.
   */
  lemma {:induction false} EveryWindowWithinRates(m: Limiter, now: real, requests: seq<Request>, r: Rates)
    requires LimiterOk(m, now, r) && InOrder(requests) && (requests != [] ==> now <= requests[0].at)
    ensures var last := if requests == [] then now else requests[|requests| - 1].at;
            LimiterOk(AdmitAll(m, requests, r), last, r)
    decreases |requests|
  {
    if requests != [] {
      var at := requests[0].at;
      AdmitKeepsOk(m, now, at, requests[0].size, r);
      EveryWindowWithinRates(Admit(m, at, requests[0].size, r).0, at, requests[1..], r);
    }
  }

  /** Exactly when a PUT is admitted: the window that ends now has room for it. */
  lemma AdmitsIffWindowHasRoom(m: Limiter, before: real, now: real, size: nat, r: Rates)
    requires LimiterOk(m, before, r) && before <= now
    ensures Admit(m, now, size, r).1 <==>
              && (r.puts > 0 ==> |InWindow(m.history, now)| < r.puts)
              && (r.bytes > 0 ==> Sum(InWindow(m.history, now)) + size <= r.bytes)
  {
    assert LimiterOk(m, now, r);
    PurgeSeesWindow(m, now, r);
  }

  const TWO_A_MINUTE := Rates(2, 0)

  function ThreeAdmitted(): Limiter {
    var m1 := Admit(Limiter([], [], []), 1.0, 5, TWO_A_MINUTE).0;
    Admit(Admit(m1, 1.0, 6, TWO_A_MINUTE).0, 61.0, 7, TWO_A_MINUTE).0
  }

  lemma ThreeAdmittedIs()
    ensures var a, b, c := Admission(1.0, 5), Admission(1.0, 6), Admission(61.0, 7);
            ThreeAdmitted() == Limiter([61.0], [c], [a, b, c])
  {
    var a, b := Admission(1.0, 5), Admission(1.0, 6);
    assert [a, b][1..] == [b] && [b][1..] == [] && [1.0, 1.0][1..] == [1.0] && [1.0][1..] == [];
    assert DropOld([b], 1.0) == DropOld([], 1.0) == [] && DropOld([a, b], 1.0) == [];
    assert DropOldTimes([1.0], 1.0) == DropOldTimes([], 1.0) == [] && DropOldTimes([1.0, 1.0], 1.0) == [];
  }

  /** If the clock then runs back, a window holds more than the limit: three instead of two. */
  lemma ClockBackOverfills()
    ensures !WithinRates(Admit(ThreeAdmitted(), 1.0, 8, TWO_A_MINUTE).0.history, 1.0, TWO_A_MINUTE)
  {
    var a, b, c, d := Admission(1.0, 5), Admission(1.0, 6), Admission(61.0, 7), Admission(1.0, 8);
    ThreeAdmittedIs();
    assert Admit(ThreeAdmitted(), 1.0, 8, TWO_A_MINUTE).0.history == [a, b, c] + [d];
    WindowAppend([a, b, c], d, 1.0);
    assert [a, b, c] == [a, b] + [c] && [a, b] == [a] + [b];
    WindowAppend([a, b], c, 1.0);
    WindowAppend([a], b, 1.0);
    WindowAll([a], 1.0);
  }
}
