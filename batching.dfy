/**
 * The batch loop that three parts of the source share:
 *
 *   for (i = 0; i < n; i += size) { send items i .. i+size-1; if (i + size < n) pause(ms) }
 *
 * A `Schedule` is the sequence of activities such a loop performs: one `Send`
 * per item, in item order, and a `Pause` between two batches. Time itself is not
 * modelled; a pause is an event in the trace.
 */
module Batching {
  import opened Tally

  datatype Activity = Send(index: nat) | Pause(ms: nat)

  function Min(a: nat, b: nat): nat {
    if a <= b then a else b
  }

  /** The sends of items lo .. hi-1. */
  function Sends(lo: nat, hi: nat): (r: seq<Activity>)
    ensures |r| == if lo <= hi then hi - lo else 0
    ensures forall k :: 0 <= k < |r| ==> r[k] == Send(lo + k)
    decreases hi - lo
  {
    if lo >= hi then [] else [Send(lo)] + Sends(lo + 1, hi)
  }

  lemma SendsSnoc(lo: nat, hi: nat)
    requires lo <= hi
    ensures Sends(lo, hi) + [Send(hi)] == Sends(lo, hi + 1)
  {
  }

  /** What the loop does from the batch that starts at item i on. */
  function ScheduleFrom(i: nat, n: nat, size: nat, ms: nat): seq<Activity>
    requires size > 0
    decreases if i < n then n - i else 0
  {
    if i >= n then []
    else Sends(i, Min(i + size, n)) + (if i + size < n then [Pause(ms)] else [])
         + ScheduleFrom(i + size, n, size, ms)
  }

  /** The whole trace of a batch loop over n items. */
  function Schedule(n: nat, size: nat, ms: nat): seq<Activity>
    requires size > 0
  {
    ScheduleFrom(0, n, size, ms)
  }

  /** The item indices sent, in trace order. */
  function SentIndices(t: seq<Activity>): seq<nat> {
    if t == [] then []
    else (if t[0].Send? then [t[0].index] else []) + SentIndices(t[1..])
  }

  function CountPauses(t: seq<Activity>): nat {
    if t == [] then 0 else (if t[0].Pause? then 1 else 0) + CountPauses(t[1..])
  }

  function Range(lo: nat, hi: nat): (r: seq<nat>)
    ensures |r| == if lo <= hi then hi - lo else 0
    ensures forall k :: 0 <= k < |r| ==> r[k] == lo + k
    decreases hi - lo
  {
    if lo >= hi then [] else [lo] + Range(lo + 1, hi)
  }

  lemma {:induction false} SentIndicesAppend(a: seq<Activity>, b: seq<Activity>)
    ensures SentIndices(a + b) == SentIndices(a) + SentIndices(b)
  {
    if a == [] {
      assert a + b == b;
    } else {
      assert (a + b)[0] == a[0] && (a + b)[1..] == a[1..] + b;
      var h: seq<nat> := if a[0].Send? then [a[0].index] else [];
      SentIndicesAppend(a[1..], b);
      assert SentIndices(a + b) == h + (SentIndices(a[1..]) + SentIndices(b));
      assert SentIndices(a) == h + SentIndices(a[1..]);
    }
  }

  lemma {:induction false} CountPausesAppend(a: seq<Activity>, b: seq<Activity>)
    ensures CountPauses(a + b) == CountPauses(a) + CountPauses(b)
  {
    if a == [] {
      assert a + b == b;
    } else {
      assert (a + b)[1..] == a[1..] + b;
      CountPausesAppend(a[1..], b);
    }
  }

  lemma {:induction false} SendsFacts(lo: nat, hi: nat)
    requires lo <= hi
    ensures SentIndices(Sends(lo, hi)) == Range(lo, hi)
    ensures CountPauses(Sends(lo, hi)) == 0
    decreases hi - lo
  {
    if lo < hi {
      var s := Sends(lo, hi);
      assert s[1..] == Sends(lo + 1, hi);
      SendsFacts(lo + 1, hi);
    }
  }

  lemma RangeAppend(a: nat, b: nat, c: nat)
    requires a <= b <= c
    ensures Range(a, b) + Range(b, c) == Range(a, c)
  {
  }

  lemma {:induction false} ScheduleFromSends(i: nat, n: nat, size: nat, ms: nat)
    requires size > 0 && i <= n
    ensures SentIndices(ScheduleFrom(i, n, size, ms)) == Range(i, n)
    decreases n - i
  {
    if i < n {
      var rest := ScheduleFrom(i + size, n, size, ms);
      var head := BatchHead(i, n, size, ms);
      SentIndicesAppend(head, rest);
      if i + size < n {
        ScheduleFromSends(i + size, n, size, ms);
        RangeAppend(i, i + size, n);
      } else {
        assert rest == [];
      }
    }
  }

  /** The batch at i and the pause after it, if any, send items i .. min(i + size, n) - 1. */
  lemma BatchHead(i: nat, n: nat, size: nat, ms: nat) returns (head: seq<Activity>)
    requires size > 0 && i < n
    ensures ScheduleFrom(i, n, size, ms) == head + ScheduleFrom(i + size, n, size, ms)
    ensures SentIndices(head) == Range(i, Min(i + size, n))
  {
    var hi := Min(i + size, n);
    var p: seq<Activity> := if i + size < n then [Pause(ms)] else [];
    head := Sends(i, hi) + p;
    SentIndicesAppend(Sends(i, hi), p);
    SendsFacts(i, hi);
    assert SentIndices(p) == [] by {
      if p != [] {
        assert p[1..] == [];
      }
    }
  }

  /** Every item is sent exactly once, in item order. */
  lemma ScheduleSendsEachItemInOrder(n: nat, size: nat, ms: nat)
    requires size > 0
    ensures SentIndices(Schedule(n, size, ms)) == Range(0, n)
  {
    ScheduleFromSends(0, n, size, ms);
  }

  lemma {:induction false} ScheduleFromPauses(i: nat, n: nat, size: nat, ms: nat)
    requires size > 0
    ensures CountPauses(ScheduleFrom(i, n, size, ms)) == if i >= n then 0 else CeilDiv(n - i, size) - 1
    decreases if i < n then n - i else 0
  {
    if i < n {
      var hi := Min(i + size, n);
      var p: seq<Activity> := if i + size < n then [Pause(ms)] else [];
      var rest := ScheduleFrom(i + size, n, size, ms);
      CountPausesAppend(Sends(i, hi) + p, rest);
      CountPausesAppend(Sends(i, hi), p);
      SendsFacts(i, hi);
      ScheduleFromPauses(i + size, n, size, ms);
      if i + size < n {
        assert CountPauses(p) == 1;
        CeilDivStep(n - i, size);
      } else {
        CeilDivOne(n - i, size);
      }
    }
  }

  lemma CeilDivStep(m: nat, d: nat)
    requires d > 0 && m > d
    ensures CeilDiv(m, d) == CeilDiv(m - d, d) + 1
  {
    var q := CeilDiv(m - d, d);
    CeilDivUnique(m, d, q + 1);
  }

  lemma CeilDivOne(m: nat, d: nat)
    requires 0 < m <= d
    ensures CeilDiv(m, d) == 1
  {
    CeilDivUnique(m, d, 1);
  }

  lemma CeilDivUnique(m: nat, d: nat, q: nat)
    requires d > 0 && (q - 1) * d < m <= q * d
    ensures CeilDiv(m, d) == q
  {
    var c := CeilDiv(m, d);
    MulLess(c as int - 1, q, d);
    MulLess(q as int - 1, c, d);
  }

  lemma MulLess(a: int, b: int, d: nat)
    requires d > 0 && a * d < b * d
    ensures a < b
  {
    if a >= b {
      MulMono(b, a, d);
    }
  }

  lemma MulMono(a: int, b: int, d: nat)
    requires a <= b
    ensures a * d <= b * d
  {
  }

  /** The loop pauses ceil(n / size) - 1 times: once between each two batches. */
  lemma SchedulePauseCount(n: nat, size: nat, ms: nat)
    requires size > 0
    ensures CountPauses(Schedule(n, size, ms)) == if n == 0 then 0 else CeilDiv(n, size) - 1
  {
    ScheduleFromPauses(0, n, size, ms);
  }

  lemma ScheduleFromHead(i: nat, n: nat, size: nat, ms: nat)
    requires size > 0 && i < n
    ensures ScheduleFrom(i, n, size, ms) != [] && ScheduleFrom(i, n, size, ms)[0] == Send(i)
  {
  }

  /** Item x opens a batch: x is a multiple of size. */
  predicate BatchStart(x: nat, size: nat)
    requires size > 0
    decreases x
  {
    x == 0 || (x >= size && BatchStart(x - size, size))
  }

  lemma BatchStartNext(x: nat, size: nat)
    requires size > 0 && BatchStart(x, size)
    ensures BatchStart(x + size, size)
  {
  }

  /** A pause at position k sits between the last item of a batch and the first item of the next. */
  predicate PauseBetweenAt(t: seq<Activity>, k: nat, size: nat)
    requires size > 0 && k < |t|
  {
    t[k].Pause? ==>
      0 < k < |t| - 1 && t[k - 1].Send? && t[k + 1].Send?
      && t[k + 1].index == t[k - 1].index + 1 && BatchStart(t[k + 1].index, size)
  }

  /**
   * Pauses sit only between batches: never first, never last, and always
   * between the last item of one batch and the first item of the next.
   */
  predicate PausesBetweenBatches(t: seq<Activity>, size: nat)
    requires size > 0
  {
    forall k :: 0 <= k < |t| ==> PauseBetweenAt(t, k, size)
  }

  lemma PlacementInRest(t: seq<Activity>, off: nat, rest: seq<Activity>, k: nat, size: nat)
    requires size > 0 && off <= k < |t| && t[off..] == rest
    requires PausesBetweenBatches(rest, size)
    ensures PauseBetweenAt(t, k, size)
  {
    var k' := k - off;
    assert t[k] == rest[k'];
    assert PauseBetweenAt(rest, k', size);
    if t[k].Pause? {
      assert 0 < k' < |rest| - 1;
      assert t[k - 1] == rest[k' - 1] && t[k + 1] == rest[k' + 1];
    }
  }

  lemma {:induction false} ScheduleFromPausePlacement(i: nat, n: nat, size: nat, ms: nat)
    requires size > 0 && BatchStart(i, size)
    ensures PausesBetweenBatches(ScheduleFrom(i, n, size, ms), size)
    decreases if i < n then n - i else 0
  {
    if i < n {
      var hi := Min(i + size, n);
      var s := Sends(i, hi);
      var p: seq<Activity> := if i + size < n then [Pause(ms)] else [];
      var rest := ScheduleFrom(i + size, n, size, ms);
      var t := s + p + rest;
      assert t == ScheduleFrom(i, n, size, ms);
      BatchStartNext(i, size);
      ScheduleFromPausePlacement(i + size, n, size, ms);
      assert t[|s| + |p|..] == rest;
      forall k | 0 <= k < |t|
        ensures PauseBetweenAt(t, k, size)
      {
        if k < |s| + |p| {
          PlacementInHead(i, n, size, ms, k);
        } else {
          PlacementInRest(t, |s| + |p|, rest, k, size);
        }
      }
    }
  }

  lemma PlacementInHead(i: nat, n: nat, size: nat, ms: nat, k: nat)
    requires size > 0 && i < n && BatchStart(i, size)
    requires k < |Sends(i, Min(i + size, n)) + (if i + size < n then [Pause(ms)] else [])|
    ensures k < |ScheduleFrom(i, n, size, ms)| && PauseBetweenAt(ScheduleFrom(i, n, size, ms), k, size)
  {
    var hi := Min(i + size, n);
    var s := Sends(i, hi);
    var p: seq<Activity> := if i + size < n then [Pause(ms)] else [];
    var rest := ScheduleFrom(i + size, n, size, ms);
    var t := s + p + rest;
    ScheduleFromUnfold(i, n, size, ms);
    if k < |s| {
      assert t[k] == s[k];
    } else {
      assert i + size < n && hi == i + size && |s| == size;
      ScheduleFromHead(i + size, n, size, ms);
      assert t[k + 1] == rest[0];
      assert t[k - 1] == s[size - 1];
      BatchStartNext(i, size);
    }
  }

  lemma SchedulePausesBetweenBatches(n: nat, size: nat, ms: nat)
    requires size > 0
    ensures PausesBetweenBatches(Schedule(n, size, ms), size)
  {
    assert BatchStart(0, size);
    ScheduleFromPausePlacement(0, n, size, ms);
  }

  /**
   * One batch step of the loop, as the methods that run it append to their
   * trace: the batch that starts at item i, and the pause after it if another
   * batch follows.
   */
  function Batch(i: nat, n: nat, size: nat, ms: nat): (b: seq<Activity>)
    ensures |b| == (if i < Min(i + size, n) then Min(i + size, n) - i else 0) + (if i + size < n then 1 else 0)
  {
    Sends(i, Min(i + size, n)) + (if i + size < n then [Pause(ms)] else [])
  }

  /** One iteration of a batch loop keeps "the trace so far followed by the rest is the whole schedule". */
  lemma ScheduleAdvance(trace: seq<Activity>, i: nat, n: nat, size: nat, ms: nat)
    requires size > 0 && i < n
    requires trace + ScheduleFrom(i, n, size, ms) == Schedule(n, size, ms)
    ensures trace + Batch(i, n, size, ms) + ScheduleFrom(i + size, n, size, ms) == Schedule(n, size, ms)
  {
    ScheduleFromUnfold(i, n, size, ms);
    var rest := ScheduleFrom(i + size, n, size, ms);
    assert trace + (Batch(i, n, size, ms) + rest) == trace + Batch(i, n, size, ms) + rest;
  }

  /** When a batch loop ends, its trace is the whole schedule. */
  lemma ScheduleDone(trace: seq<Activity>, i: nat, n: nat, size: nat, ms: nat)
    requires size > 0 && i >= n
    requires trace + ScheduleFrom(i, n, size, ms) == Schedule(n, size, ms)
    ensures trace == Schedule(n, size, ms)
  {
    assert trace + [] == trace;
  }

  lemma ScheduleFromUnfold(i: nat, n: nat, size: nat, ms: nat)
    requires size > 0 && i < n
    ensures ScheduleFrom(i, n, size, ms)
      == Sends(i, Min(i + size, n)) + (if i + size < n then [Pause(ms)] else [])
         + ScheduleFrom(i + size, n, size, ms)
  {
  }
}
