/** What the throttle promises over a window that opens in the middle of a run
    (borph/block/blk-throttle.c).

    The whole-run bound of module Throttle counts from the first check of the group.  Here the
    count starts at any later check: what may be charged from then on depends on the credit the
    slice has at that moment, which is the time since its start less the bytes charged to it.
 */
module ThrottleWindow {
  import opened Throttle

  // ---------------------------------------------------------------------------------------
  // What every reachable slice owes
  // ---------------------------------------------------------------------------------------

  /** The account of the slice taken on its own, from its own start.  A trim rounds what it gives
      back down, which can leave one byte and one bio too many on the account. */
  ghost predicate Owns(L: Limits, s: Slice, last: nat, now: nat) {
    Inv(L, s, s.start, Minus(s.bytes, 1), Minus(s.ios, 1), last, now)
  }

  ghost predicate Fits(L: Limits, rate: nat, disp: nat, start: nat, now: nat) {
    start <= now && L.hz * disp <= rate * (now - start + L.slice)
  }

  lemma OwnsFits(L: Limits, s: Slice, now: nat)
    requires Fits(L, L.bps, Minus(s.bytes, 1), s.start, now)
    requires Fits(L, L.iops, Minus(s.ios, 1), s.start, now)
    requires now + L.slice <= s.end
    ensures Owns(L, s, now, now)
  {
    MulMono(L.hz, Minus(s.bytes, 1) - s.bytes, 0);
    MulMono(L.hz, Minus(s.ios, 1) - s.ios, 0);
    assert s.start - s.start == 0;
  }

  lemma OwnsRenew(L: Limits, s: Slice, last: nat, was: nat, now: nat) returns (last': nat)
    requires L.Ok() && Owns(L, s, last, was) && was <= now
    ensures Owns(L, Renew(L, s, now), last', now)
    ensures Renew(L, s, now).end >= now + L.slice
  {
    hide Within, RoundUp;
    last' := last;
    if Used(s, now) {
      last' := now;
      OwnsFits(L, Renew(L, s, now), now);
    }
  }

  lemma ChargeFits(L: Limits, rate: nat, disp: nat, start: nat, now: nat, w: nat)
    requires L.Ok() && start <= now && w <= now - start + L.slice
    requires disp <= Scale(rate, w, L.hz)
    ensures Fits(L, rate, disp, start, now)
  {
    hide Scale;
    MulMono(L.hz, disp, Scale(rate, w, L.hz));
    MulMono(rate, w, now - start + L.slice);
  }

  lemma OwnsMay(L: Limits, s: Slice, last: nat, was: nat, now: nat, size: nat) returns (last': nat)
    requires L.Ok() && Owns(L, s, last, was) && was <= now
    ensures var m := MayDispatch(L, s, now, size);
            && Owns(L, m.0, last', now)
            && m.0.end >= now + L.slice
            && (m.1.ok ==>
                  && Fits(L, L.bps, m.0.bytes + size, m.0.start, now)
                  && Fits(L, L.iops, m.0.ios + 1, m.0.start, now))
  {
    hide Div, Within, Scale, RoundUp, Window, Fits;
    last' := OwnsRenew(L, s, last, was, now);
    var m := MayDispatch(L, s, now, size);
    if m.1.ok {
      var w := Window(L, m.0, now);
      ChargeFits(L, L.bps, m.0.bytes + size, m.0.start, now, w);
      ChargeFits(L, L.iops, m.0.ios + 1, m.0.start, now, w);
    }
  }

  lemma FitsLess(L: Limits, rate: nat, disp: nat, less: nat, start: nat, now: nat)
    requires Fits(L, rate, disp, start, now) && less <= disp
    ensures Fits(L, rate, less, start, now)
  {
    MulMono(L.hz, less, disp);
  }

  lemma TrimFits(L: Limits, rate: nat, disp: nat, start: nat, now: nat, n: nat, later: nat)
    requires L.Ok() && later == start + n * L.slice && later <= now
    requires Fits(L, rate, disp, start, now)
    ensures Fits(L, rate, Minus(Minus(disp, TrimOf(L, rate, n)), 1), later, now)
  {
    hide Scale;
    var b := TrimOf(L, rate, n);
    var d := Minus(Minus(disp, b), 1);
    assert rate * (L.slice * n) < L.hz * (b + 1);
    assert L.slice * n == n * L.slice;
    MulAdd(rate, now - later + L.slice, n * L.slice);
    if d > 0 {
      MulAdd(L.hz, d, b + 1);
    } else {
      MulMono(rate, 0, now - later + L.slice);
    }
  }

  lemma OwnsTrim(L: Limits, s: Slice, now: nat)
    requires L.Ok() && s.end >= now + L.slice
    requires Fits(L, L.bps, s.bytes, s.start, now) && Fits(L, L.iops, s.ios, s.start, now)
    ensures Owns(L, Trim(L, s, now), now, now)
  {
    hide Div, Fits, RoundUp, Scale;
    var r := Trim(L, s, now);
    assert s.start <= now by { Starts(L, L.bps, s.bytes, s.start, now); }
    if r.start == s.start && r.bytes == s.bytes && r.ios == s.ios {
      FitsLess(L, L.bps, s.bytes, Minus(s.bytes, 1), s.start, now);
      FitsLess(L, L.iops, s.ios, Minus(s.ios, 1), s.start, now);
    } else {
      var n := Intervals(L, s, now);
      TrimFits(L, L.bps, s.bytes, s.start, now, n, r.start);
      TrimFits(L, L.iops, s.ios, s.start, now, n, r.start);
    }
    OwnsFits(L, r, now);
  }

  lemma Starts(L: Limits, rate: nat, disp: nat, start: nat, now: nat)
    requires Fits(L, rate, disp, start, now)
    ensures start <= now
  {
  }

  lemma OwnsStep(L: Limits, s: Slice, last: nat, was: nat, e: Event) returns (last': nat)
    requires L.Ok() && Owns(L, s, last, was) && was <= e.now
    ensures Owns(L, Step(L, s, e), last', e.now)
  {
    hide MayDispatch, Trim, Owns, Fits;
    last' := OwnsMay(L, s, last, was, e.now, e.size);
    if Charges(L, s, e) {
      last' := e.now;
      var c := Charge(MayDispatch(L, s, e.now, e.size).0, e.size);
      if e.Direct? {
        FitsLess(L, L.bps, c.bytes, Minus(c.bytes, 1), c.start, e.now);
        FitsLess(L, L.iops, c.ios, Minus(c.ios, 1), c.start, e.now);
        OwnsFits(L, c, e.now);
      } else {
        OwnsTrim(L, c, e.now);
      }
    }
  }

  lemma {:induction false} OwnsRun(L: Limits, s: Slice, es: seq<Event>, last: nat, was: nat) returns (last': nat)
    requires L.Ok() && Owns(L, s, last, was) && Monotone(was, es)
    ensures Owns(L, Run(L, s, es), last', Last(es, was))
    decreases |es|
  {
    hide Step, Owns;
    last' := last;
    if es != [] {
      var l := OwnsStep(L, s, last, was, es[0]);
      last' := OwnsRun(L, Step(L, s, es[0]), es[1..], l, es[0].now);
    }
  }

  lemma SelfMonotone(t: nat, es: seq<Event>)
    requires es != [] && Monotone(t, es)
    ensures Monotone(es[0].now, es)
  {
  }

  lemma OwnsReached(L: Limits, pre: seq<Event>) returns (last: nat)
    requires L.Ok() && pre != [] && Monotone(0, pre)
    ensures Owns(L, Run(L, Blank, pre), last, Last(pre, 0))
  {
    hide Run;
    FirstRenew(L, pre[0].now);
    FirstSlice(L, pre);
    SelfMonotone(0, pre);
    last := OwnsRun(L, Renew(L, Blank, pre[0].now), pre, pre[0].now, pre[0].now);
  }

  // ---------------------------------------------------------------------------------------
  // The window bound
  // ---------------------------------------------------------------------------------------

  /** What the slice has in hand at `t` beyond the rate (times `hz`): the limit over the time
      since its start, less what is charged to it. */
  ghost function Credit(L: Limits, rate: nat, disp: nat, start: nat, t: nat): int {
    rate * (t - start) - L.hz * Minus(disp, 1)
  }

  /** Over any window, opened after any run, whatever is charged fits the limit over the length
      of the window plus one interval plus the credit the slice had when the window opened. */
  lemma WindowBound(L: Limits, pre: seq<Event>, es: seq<Event>)
    requires L.Ok() && pre != [] && Monotone(0, pre) && Monotone(Last(pre, 0), es)
    ensures var s, t0 := Run(L, Blank, pre), Last(pre, 0);
            var t := Last(es, t0) - t0;
            && L.hz * BytesCharged(L, s, es) <= L.bps * (t + L.slice) + Credit(L, L.bps, s.bytes, s.start, t0)
            && L.hz * IosCharged(L, s, es) <= L.iops * (t + L.slice) + Credit(L, L.iops, s.ios, s.start, t0)
  {
    hide Run, BytesCharged, IosCharged, Monotone, Within;
    var s, t0 := Run(L, Blank, pre), Last(pre, 0);
    var last := OwnsReached(L, pre);
    var b, i := Minus(s.bytes, 1), Minus(s.ios, 1);
    BoundFrom(L, s, es, s.start, b, i, last, t0);
    var t := Last(es, t0) - t0;
    MulAdd(L.hz, b, BytesCharged(L, s, es));
    MulAdd(L.hz, i, IosCharged(L, s, es));
    MulAdd(L.bps, t + L.slice, t0 - s.start);
    MulAdd(L.iops, t + L.slice, t0 - s.start);
  }

  /** A window that opens less than one interval into a slice -- right after a trim that gave
      back, or a restart -- is charged at most the limit over its length plus two intervals. */
  lemma WindowAfterTrim(L: Limits, pre: seq<Event>, es: seq<Event>)
    requires L.Ok() && pre != [] && Monotone(0, pre) && Monotone(Last(pre, 0), es)
    requires Last(pre, 0) - Run(L, Blank, pre).start < L.slice
    ensures var s, t0 := Run(L, Blank, pre), Last(pre, 0);
            var t := Last(es, t0) - t0;
            && L.hz * BytesCharged(L, s, es) <= L.bps * (t + 2 * L.slice)
            && L.hz * IosCharged(L, s, es) <= L.iops * (t + 2 * L.slice)
  {
    hide Run, BytesCharged, IosCharged, Monotone;
    WindowBound(L, pre, es);
    var s, t0 := Run(L, Blank, pre), Last(pre, 0);
    var t := Last(es, t0) - t0;
    CreditBelow(L, L.bps, s.bytes, s.start, t0);
    CreditBelow(L, L.iops, s.ios, s.start, t0);
    MulAdd(L.bps, t + L.slice, L.slice);
    MulAdd(L.iops, t + L.slice, L.slice);
  }

  /** Every dispatch from the queue opens such a window, on a group with a limit that is worth at
      least a byte or a bio in each interval. */
  lemma WindowAfterDispatch(L: Limits, pre: seq<Event>, e: Event, es: seq<Event>)
    requires L.Ok() && Monotone(0, pre + [e]) && Monotone(e.now, es)
    requires e.Queued? && Charges(L, Run(L, Blank, pre), e)
    requires L.hz <= L.bps * L.slice || L.hz <= L.iops * L.slice
    ensures var s := Run(L, Blank, pre + [e]);
            var t := Last(es, e.now) - e.now;
            && L.hz * BytesCharged(L, s, es) <= L.bps * (t + 2 * L.slice)
            && L.hz * IosCharged(L, s, es) <= L.iops * (t + 2 * L.slice)
  {
    hide MayDispatch, Trim, Monotone, BytesCharged, IosCharged;
    var s := Run(L, Blank, pre);
    RunConcat(L, Blank, pre, [e]);
    assert Run(L, s, [e]) == Step(L, s, e);
    var c := Charge(MayDispatch(L, s, e.now, e.size).0, e.size);
    CheckedSliceIsOrdered(L, s, e.now, e.size);
    DispatchTrims(L, c, e.now);
    assert Last(pre + [e], 0) == e.now;
    WindowAfterTrim(L, pre + [e], es);
  }

  lemma DispatchTrims(L: Limits, c: Slice, now: nat)
    requires L.Ok() && c.start <= now < c.end
    requires L.hz <= L.bps * L.slice || L.hz <= L.iops * L.slice
    ensures now - Trim(L, c, now).start < L.slice
  {
    hide Trim, Scale, Div;
    var n := Intervals(L, c, now);
    TrimmedCredit(L, c, now);
    if n > 0 {
      MulMono(L.slice, 1, n);
      MulMono(L.bps, L.slice, L.slice * n);
      MulMono(L.iops, L.slice, L.slice * n);
      if L.hz <= L.bps * L.slice {
        ScaleAtLeast(L.bps, L.slice * n, L.hz, 1);
      } else {
        ScaleAtLeast(L.iops, L.slice * n, L.hz, 1);
      }
    }
  }

  lemma CreditBelow(L: Limits, rate: nat, disp: nat, start: nat, t: nat)
    requires t - start <= L.slice
    ensures Credit(L, rate, disp, start, t) <= rate * L.slice
  {
    MulMono(rate, t - start, L.slice);
    MulMono(L.hz, 0, Minus(disp, 1));
  }

  // ---------------------------------------------------------------------------------------
  // A single jiffy
  // ---------------------------------------------------------------------------------------

  ghost predicate BurstBounded(L: Limits, s: Slice, now: nat)
    requires L.Ok()
  {
    forall size: nat :: MayDispatch(L, s, now, size).1.ok ==> L.hz * size <= L.bps * L.slice
  }

  /** Exactly when no bio that may go at once is worth more than one interval: the iops limit
      refuses them all, or the bytes the check still has room for are worth at most that. */
  lemma BurstBoundedIff(L: Limits, s: Slice, now: nat)
    requires L.Ok()
    ensures var r := Renew(L, s, now);
            BurstBounded(L, s, now) <==>
              !IopsVerdict(L, r, now).ok || L.hz * (BytesAllowed(L, r, now) - r.bytes) <= L.bps * L.slice
  {
    hide Window, Scale, Div, IopsVerdict;
    var r := Renew(L, s, now);
    var room := BytesAllowed(L, r, now) - r.bytes;
    forall size: nat
      ensures MayDispatch(L, s, now, size).1.ok <==> IopsVerdict(L, r, now).ok && size <= room
      ensures size <= room ==> L.hz * size <= L.hz * room
    {
      if size <= room {
        MulMono(L.hz, size, room);
      }
    }
    if room < 0 {
      MulMono(L.hz, room, 0);
    } else if BurstBounded(L, s, now) && IopsVerdict(L, r, now).ok {
      assert MayDispatch(L, s, now, room).1.ok;
    }
  }

  lemma WithinFirst(L: Limits, s: Slice, now: nat)
    requires L.Ok() && s.start <= now && now - s.start <= L.slice
    ensures Window(L, s, now) == L.slice
  {
    hide Div, Ceil;
    if now != s.start {
      var c := Ceil(now - s.start, L.slice);
      if c >= 2 {
        MulMono(L.slice, 2, c);
      }
    }
  }

  /** Re-checking right after a trim finds the trimmed slice as it is. */
  lemma TrimIsRenewed(L: Limits, s: Slice, now: nat)
    requires L.Ok() && !Used(s, now)
    ensures var r := Trim(L, s, now);
            r.start <= now && Renew(L, r, now) == r
  {
    hide Div, Scale;
    assert L.slice * Intervals(L, s, now) == Intervals(L, s, now) * L.slice;
  }

  /** After a trim every bio that may go at once is worth at most one interval, or is a single
      byte: the latter only where the rates are too low for the trim to give anything back. */
  lemma TrimBoundsBurst(L: Limits, s: Slice, now: nat, size: nat)
    requires L.Ok() && !Used(s, now)
    requires MayDispatch(L, Trim(L, s, now), now, size).1.ok
    ensures var n := Intervals(L, s, now);
            if n == 0 || TrimOf(L, L.bps, n) > 0 || TrimOf(L, L.iops, n) > 0
            then L.hz * size <= L.bps * L.slice
            else size <= 1
  {
    hide Window, Scale, Div, IopsVerdict;
    var r := Trim(L, s, now);
    var n := Intervals(L, s, now);
    TrimIsRenewed(L, s, now);
    TrimmedCredit(L, s, now);
    var a := BytesAllowed(L, r, now);
    assert size <= a;
    if now - r.start < L.slice {
      WithinFirst(L, r, now);
      MulMono(L.hz, size, a);
    } else {
      assert r.start == s.start;
      SlowAllowance(L, r, now, n);
    }
  }

  lemma WindowAtMost(L: Limits, s: Slice, now: nat, n: nat)
    requires L.Ok() && s.start <= now && n > 0 && now - s.start < n * L.slice + L.slice
    ensures Window(L, s, now) <= n * L.slice + L.slice
  {
    hide Div, Ceil;
    if now == s.start {
      MulMono(L.slice, 1, n);
    } else {
      var c := Ceil(now - s.start, L.slice);
      if c > n + 1 {
        MulMono(L.slice, n + 2, c);
        assert false;
      }
      MulMono(L.slice, c, n + 1);
    }
  }

  lemma SlowAllowance(L: Limits, r: Slice, now: nat, n: nat)
    requires L.Ok() && r.start <= now && n == Intervals(L, r, now)
    requires n > 0 && TrimOf(L, L.bps, n) == 0
    ensures BytesAllowed(L, r, now) <= 1
  {
    hide Window, Scale;
    var a, w := BytesAllowed(L, r, now), Window(L, r, now);
    var x := L.slice * n;
    assert L.hz * 0 == 0 && L.bps * x < L.hz;
    WindowAtMost(L, r, now, n);
    MulMono(L.slice, 1, n);
    MulMono(L.bps, w, x + x);
    MulAdd(L.bps, x, x);
    if a >= 2 {
      MulMono(L.hz, 2, a);
      assert false;
    }
  }
}
