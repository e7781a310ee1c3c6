/** Which rows of a long list survive compression: head, tail, signal rows and an even sample, then a cap. */
module Rows {

  import opened Wrappers

  function Min(a: nat, b: nat): nat {
    if a <= b then a else b
  }

  function Max(a: nat, b: nat): nat {
    if a >= b then a else b
  }

  // ---- selecting indices ----------------------------------------------------

  /** `range(a, b)` */
  function Range(a: nat, b: nat): (r: set<nat>)
    ensures forall i: nat :: i in r <==> a <= i < b
    decreases b
  {
    if a >= b then {} else Range(a, b - 1) + {b - 1}
  }

  function Signals(signal: seq<bool>): (r: set<nat>)
    ensures forall i: nat :: i in r <==> i < |signal| && signal[i]
  {
    if signal == [] then {}
    else
      var n := |signal| - 1;
      Signals(signal[..n]) + if signal[n] then {n} else {}
  }

  function Stride(n: nat, sample: nat): (s: nat)
    requires sample > 0
    ensures s >= 1
  {
    Max(1, n / sample)
  }

  /** `range(i, n, stride)` */
  function Steps(i: nat, n: nat, stride: nat): (r: set<nat>)
    requires stride >= 1
    ensures forall k: nat :: k in r ==> i <= k < n
    decreases n - i
  {
    if i >= n then {} else {i} + Steps(i + stride, n, stride)
  }

  function Sample(n: nat, sample: nat): set<nat> {
    if sample > 0 && n > 0 then Steps(0, n, Stride(n, sample)) else {}
  }

  function TailStart(n: nat, tail: nat): nat {
    if n > tail then n - tail else 0
  }

  function Keep(signal: seq<bool>, head: nat, tail: nat, sample: nat): (r: set<nat>)
    ensures forall i: nat :: i in r ==> i < |signal|
  {
    var n := |signal|;
    Range(0, Min(head, n)) + Range(TailStart(n, tail), n) + Signals(signal) + Sample(n, sample)
  }

  /** The members of a set below `n`, in order. */
  function Ascending(keep: set<nat>, n: nat): (r: seq<nat>)
    ensures forall i: nat :: i in r <==> i in keep && i < n
    ensures forall a, b :: 0 <= a < b < |r| ==> r[a] < r[b]
    ensures forall a :: 0 <= a < |r| ==> r[a] < n
    ensures |r| <= n
  {
    if n == 0 then []
    else
      var rest := Ascending(keep, n - 1);
      if n - 1 in keep then rest + [n - 1] else rest
  }

  function CountSignals(signal: seq<bool>, indices: seq<nat>): nat
    requires forall a :: 0 <= a < |indices| ==> indices[a] < |signal|
  {
    if indices == [] then 0
    else
      var last := |indices| - 1;
      CountSignals(signal, indices[..last]) + if signal[indices[last]] then 1 else 0
  }

  /** What a selection keeps and reports: how many selected rows the cap dropped, how many of those carried a signal,
      and how many of all rows are gone. */
  datatype Selection = Selection(kept: seq<nat>, capped: Option<nat>, signalDropped: nat, gone: Option<nat>)

  function Capped(signal: seq<bool>, all: seq<nat>, maxKeep: Option<nat>): Selection
    requires forall a :: 0 <= a < |all| ==> all[a] < |signal|
  {
    var cap := if maxKeep.Some? then Min(maxKeep.value, |all|) else |all|;
    Selection(
      all[..cap],
      if cap < |all| then Some(|all| - cap) else None,
      CountSignals(signal, all[cap..]),
      if cap < |signal| then Some(|signal| - cap) else None)
  }

  function Selected(signal: seq<bool>, maxKeep: Option<nat>, head: nat, tail: nat, sample: nat): Selection {
    Capped(signal, Ascending(Keep(signal, head, tail, sample), |signal|), maxKeep)
  }

  function Flags<T>(items: seq<T>, isSignal: T -> bool): seq<bool> {
    seq(|items|, i requires 0 <= i < |items| => isSignal(items[i]))
  }

  /** `range(0, n, stride)`, added up. */
  method SampleOf(n: nat, sample: nat) returns (r: set<nat>)
    ensures r == Sample(n, sample)
  {
    r := {};
    if sample > 0 && n > 0 {
      var stride, i := Stride(n, sample), 0;
      while i < n
        invariant Sample(n, sample) == r + Steps(i, n, stride)
        decreases n - i
      {
        r := r + {i};
        i := i + stride;
      }
    }
  }

  method SortedOf(keep: set<nat>, n: nat) returns (ordered: seq<nat>)
    ensures ordered == Ascending(keep, n)
  {
    ordered := [];
    for m := 0 to n
      invariant ordered == Ascending(keep, m)
    {
      if m in keep {
        ordered := ordered + [m];
      }
    }
  }

  /** As the source does it: a set of indices, filled from four sources, sorted, and capped. */
  method SelectItems<T(==)>(items: seq<T>, maxKeep: Option<nat>, head: nat, tail: nat, isSignal: T -> bool, sample: nat)
    returns (kept: seq<T>, s: Selection)
    ensures s == Selected(Flags(items, isSignal), maxKeep, head, tail, sample)
    ensures |kept| == |s.kept| && forall a :: 0 <= a < |kept| ==> s.kept[a] < |items| && kept[a] == items[s.kept[a]]
  {
    var n, signal := |items|, Flags(items, isSignal);
    var keep := Range(0, Min(head, n));
    keep := keep + Range(TailStart(n, tail), n);
    keep := keep + Signals(signal);
    var sampled := SampleOf(n, sample);
    keep := keep + sampled;
    var ordered := SortedOf(keep, n);
    s := Capped(signal, ordered, maxKeep);
    var chosen := s.kept;
    kept := seq(|chosen|, a requires 0 <= a < |chosen| => items[chosen[a]]);
  }

  // ---- what it promises -----------------------------------------------------

  /** Without a cap, nothing of the head, the tail or the signal is lost, and every kept row is there for one of the
      four reasons. */
  lemma UncappedKeeps(signal: seq<bool>, head: nat, tail: nat, sample: nat, i: nat)
    requires i < |signal|
    ensures
      i in Selected(signal, None, head, tail, sample).kept
      <==> i < head || i + tail >= |signal| || signal[i] || i in Sample(|signal|, sample)
  {
    hide Sample, CountSignals;
    var all := Ascending(Keep(signal, head, tail, sample), |signal|);
    assert all[..|all|] == all;
  }

  /** With a cap, the selection is a first part of the uncapped one, of at most that many rows, in their order. */
  lemma CappedIsFirstPart(signal: seq<bool>, maxKeep: nat, head: nat, tail: nat, sample: nat)
    ensures
      var all, s := Selected(signal, None, head, tail, sample).kept, Selected(signal, Some(maxKeep), head, tail, sample);
      && s.kept <= all && |s.kept| <= maxKeep && (|s.kept| < |all| ==> |s.kept| == maxKeep)
      && (forall a, b :: 0 <= a < b < |s.kept| ==> s.kept[a] < s.kept[b])
      && (if s.capped.Some? then s.capped.value == |all| - |s.kept| > 0 else s.kept == all)
      && (if s.gone.Some? then s.gone.value == |signal| - |s.kept| > 0 else |s.kept| == |signal|)
  {
  }

  lemma {:induction false} CountBoth(signal: seq<bool>, a: seq<nat>, b: seq<nat>)
    requires forall i :: 0 <= i < |a| ==> a[i] < |signal|
    requires forall i :: 0 <= i < |b| ==> b[i] < |signal|
    ensures CountSignals(signal, a + b) == CountSignals(signal, a) + CountSignals(signal, b)
    decreases |b|
  {
    if b == [] {
      assert a + b == a;
    } else {
      var n := |b| - 1;
      assert (a + b)[..|a + b| - 1] == a + b[..n];
      CountBoth(signal, a, b[..n]);
    }
  }

  /** How many of the first `n` rows carry a signal. */
  function SignalsBelow(signal: seq<bool>, n: nat): nat
    requires n <= |signal|
  {
    if n == 0 then 0 else SignalsBelow(signal, n - 1) + if signal[n - 1] then 1 else 0
  }

  lemma {:induction false} CountAll(signal: seq<bool>, keep: set<nat>, n: nat)
    requires n <= |signal| && forall i: nat :: i < n && signal[i] ==> i in keep
    ensures CountSignals(signal, Ascending(keep, n)) == SignalsBelow(signal, n)
    decreases n
  {
    if n > 0 {
      CountAll(signal, keep, n - 1);
      CountNext(signal, keep, n);
    }
  }

  lemma CountNext(signal: seq<bool>, keep: set<nat>, n: nat)
    requires 0 < n <= |signal| && (signal[n - 1] ==> n - 1 in keep)
    ensures CountSignals(signal, Ascending(keep, n)) ==
      CountSignals(signal, Ascending(keep, n - 1)) + if signal[n - 1] then 1 else 0
  {
    var before := Ascending(keep, n - 1);
    if n - 1 in keep {
      assert Ascending(keep, n) == before + [n - 1];
      CountLast(signal, before, n - 1);
    } else {
      assert Ascending(keep, n) == before;
    }
  }

  lemma CountLast(signal: seq<bool>, indices: seq<nat>, last: nat)
    requires last < |signal| && forall a :: 0 <= a < |indices| ==> indices[a] < |signal|
    ensures CountSignals(signal, indices + [last]) == CountSignals(signal, indices) + if signal[last] then 1 else 0
  {
    assert (indices + [last])[..|indices|] == indices;
  }

  lemma CapConserves(signal: seq<bool>, all: seq<nat>, maxKeep: Option<nat>)
    requires forall a :: 0 <= a < |all| ==> all[a] < |signal|
    ensures
      var s := Capped(signal, all, maxKeep);
      && (forall a :: 0 <= a < |s.kept| ==> s.kept[a] < |signal|)
      && CountSignals(signal, s.kept) + s.signalDropped == CountSignals(signal, all)
  {
    var s := Capped(signal, all, maxKeep);
    assert all == s.kept + all[|s.kept|..];
    CountBoth(signal, s.kept, all[|s.kept|..]);
  }

  /** No signal row goes unreported: those kept and those counted as dropped are all there are. */
  lemma SignalsConserved(signal: seq<bool>, maxKeep: Option<nat>, head: nat, tail: nat, sample: nat)
    ensures
      var s := Selected(signal, maxKeep, head, tail, sample);
      && (forall a :: 0 <= a < |s.kept| ==> s.kept[a] < |signal|)
      && CountSignals(signal, s.kept) + s.signalDropped == SignalsBelow(signal, |signal|)
  {
    var keep := Keep(signal, head, tail, sample);
    CapConserves(signal, Ascending(keep, |signal|), maxKeep);
    CountAll(signal, keep, |signal|);
  }

  // ---- how many are sampled -------------------------------------------------

  function StepCount(i: nat, n: nat, stride: nat): nat
    requires stride >= 1
    decreases n - i
  {
    if i >= n then 0 else 1 + StepCount(i + stride, n, stride)
  }

  lemma {:induction false} StepsCounted(i: nat, n: nat, stride: nat)
    requires stride >= 1
    ensures |Steps(i, n, stride)| == StepCount(i, n, stride)
    decreases n - i
  {
    if i < n {
      StepsCounted(i + stride, n, stride);
      assert i !in Steps(i + stride, n, stride);
    }
  }

  lemma {:induction false} StepsFit(i: nat, n: nat, stride: nat)
    requires stride >= 1 && i < n
    ensures StepCount(i, n, stride) >= 1 && (StepCount(i, n, stride) - 1) * stride <= n - 1 - i
    decreases n - i
  {
    if i + stride < n {
      StepsFit(i + stride, n, stride);
      OneMore(StepCount(i + stride, n, stride) - 1, stride);
    } else {
      assert StepCount(i + stride, n, stride) == 0;
    }
  }

  lemma {:induction false} StepsExactly(i: nat, n: nat, stride: nat, k: nat)
    requires stride >= 1
    ensures k in Steps(i, n, stride) <==> i <= k < n && (k - i) % stride == 0
    decreases n - i
  {
    if i < n {
      StepsExactly(i + stride, n, stride, k);
      if i <= k { OneStep(k - i, stride); }
    }
  }

  lemma OneStep(d: nat, stride: nat)
    requires stride >= 1
    ensures d < stride ==> (d % stride == 0 <==> d == 0)
    ensures d >= stride ==> (d % stride == 0 <==> (d - stride) % stride == 0)
  {
    if d >= stride { LittleModulus(d, stride); }
  }

  lemma LittleModulus(d: nat, stride: nat)
    requires 1 <= stride <= d
    ensures d % stride == (d - stride) % stride
  {
    var q, r := (d - stride) / stride, (d - stride) % stride;
    assert d == (q + 1) * stride + r;
    assert (q + 1) * stride == q * stride + stride;
    Quotient(d, stride, q + 1, r);
  }

  lemma Quotient(d: nat, stride: nat, q: nat, r: nat)
    requires stride >= 1 && d == q * stride + r && r < stride
    ensures d % stride == r
  {
    var k := d / stride - q;
    assert d == d / stride * stride + d % stride;
    assert k * stride == d / stride * stride - q * stride;
    if k >= 1 { Times(1, k, stride); }
    if k <= -1 { Times(k, -1, stride); }
  }

  /** The sample is even: every row at a multiple of the stride, from the first on, where the stride is how often the
      asked number goes into the length, or one. */
  lemma SampleExactly(n: nat, sample: nat, k: nat)
    ensures k in Sample(n, sample) <==>
      sample > 0 && k < n && k % (if n / sample >= 1 then n / sample else 1) == 0
  {
    if sample > 0 && n > 0 { StepsExactly(0, n, Stride(n, sample), k); }
  }

  lemma OneMore(k: int, s: nat)
    ensures (k + 1) * s == k * s + s
  {
  }

  /** However long the list, the even sample has fewer than twice as many rows as were asked for. */
  lemma SampleBounded(n: nat, sample: nat)
    requires sample > 0
    ensures |Sample(n, sample)| <= 2 * sample - 1
  {
    if n > 0 {
      var s := Stride(n, sample);
      StepsCounted(0, n, s);
      StepsFit(0, n, s);
      Bounded(n, sample, s, StepCount(0, n, s));
    }
  }

  lemma Bounded(n: nat, sample: nat, s: nat, k: nat)
    requires sample > 0 && n > 0 && s == Stride(n, sample) && (k - 1) * s <= n - 1
    ensures k <= 2 * sample - 1
  {
    if n / sample >= 1 {
      TooMany(n, sample, s, k);
    } else {
      SmallQuotient(n, sample);
      assert s == 1;
    }
  }

  lemma SmallQuotient(n: nat, sample: nat)
    requires sample > 0 && n / sample < 1
    ensures n < sample
  {
  }

  lemma TooMany(n: nat, sample: nat, s: nat, k: int)
    requires sample > 0 && s == n / sample && s >= 1 && (k - 1) * s <= n - 1
    ensures k <= 2 * sample - 1
  {
    assert n <= s * sample + (sample - 1);
    if k >= 2 * sample {
      Times(2 * sample - 1, k - 1, s);
      assert (2 * sample - 1) * s == s * sample + (sample - 1) * s;
      Times(1, s, sample - 1);
    }
  }

  lemma Times(a: int, b: int, c: nat)
    requires a <= b
    ensures a * c <= b * c
  {
  }

  const SAMPLE := 10

  // ---- the budget over several lists ------------------------------------------

  /** Rows a token budget pays for, at forty tokens a row. */
  function TotalRows(maxTokens: nat): nat {
    Max(1, maxTokens / 40)
  }

  function RowBudget(maxTokens: Option<nat>, lists: nat): Option<nat> {
    if maxTokens.None? then None else Some(Max(1, TotalRows(maxTokens.value) / Max(1, lists)))
  }

  function KeptRows(signals: seq<seq<bool>>, maxKeep: Option<nat>): nat {
    if signals == [] then 0
    else
      KeptRows(signals[..|signals| - 1], maxKeep)
      + |Selected(signals[|signals| - 1], maxKeep, 5, 5, SAMPLE).kept|
  }

  lemma {:induction false} KeptWithinCap(signals: seq<seq<bool>>, maxKeep: nat)
    ensures KeptRows(signals, Some(maxKeep)) <= |signals| * maxKeep
    decreases |signals|
  {
    if signals != [] {
      var n := |signals| - 1;
      KeptWithinCap(signals[..n], maxKeep);
      CappedIsFirstPart(signals[n], maxKeep, 5, 5, SAMPLE);
      OneMore(n, maxKeep);
    }
  }

  /** A list gets the greatest number of rows such that all lists together stay within what the budget pays for, at forty
      tokens a row, or one row; and any number, without a budget. */
  lemma BudgetIsGreatest(maxTokens: Option<nat>, lists: nat)
    ensures RowBudget(maxTokens, lists).None? <==> maxTokens.None?
    ensures maxTokens.Some? ==>
      var each, tokens, shares := RowBudget(maxTokens, lists).value, maxTokens.value, if lists == 0 then 1 else lists;
      && each >= 1 && (each == 1 || each * shares * 40 <= tokens)
      && tokens < (each + 1) * shares * 40
  {
    if maxTokens.Some? {
      var tokens, shares := maxTokens.value, if lists == 0 then 1 else lists;
      var total := TotalRows(tokens);
      var each := RowBudget(maxTokens, lists).value;
      assert total * 40 <= tokens || total == 1;
      Divided(total, shares);
      assert each * shares <= total || each == 1;
      assert total < (each + 1) * shares;
    }
  }

  lemma Divided(a: nat, b: nat)
    requires b >= 1
    ensures a / b * b <= a < (a / b + 1) * b
  {
  }

  /** All lists of a value together keep no more rows than the budget pays for, or one row each. */
  lemma BudgetHolds(signals: seq<seq<bool>>, maxTokens: nat)
    ensures KeptRows(signals, RowBudget(Some(maxTokens), |signals|)) <= Max(TotalRows(maxTokens), |signals|)
  {
    var lists, total := |signals|, TotalRows(maxTokens);
    var each := RowBudget(Some(maxTokens), lists).value;
    KeptWithinCap(signals, each);
    if lists > 0 {
      Shares(total, lists);
    }
  }

  lemma Shares(total: nat, lists: nat)
    requires lists > 0
    ensures lists * Max(1, total / lists) <= Max(total, lists)
  {
    assert lists * (total / lists) <= total;
  }
}
