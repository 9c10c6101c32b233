/** The I/O bandwidth throttle (borph/block/blk-throttle.c).

    One direction (read or write) of a throttle group owns a *slice*: the time at which it
    started, the time at which it ends, and the bytes and bios charged to it so far.  A bio may
    go ahead when what is charged plus the bio fits the limit over the time elapsed in the slice,
    rounded up to whole slice intervals.  Time is in jiffies, `hz` of them to a second; jiffies
    and byte counts are unbounded here.
 */
module Throttle {

  const UINT_MAX: nat := 0xFFFF_FFFF

  /** `slice` is the interval throtl_slice, which is hz / 10; the limits are per second. */
  datatype Limits = Limits(hz: nat, slice: nat, bps: nat, iops: nat) {
    predicate Ok() {
      slice > 0 && 10 * slice <= hz < 10 * slice + 10 && bps > 0 && iops > 0
    }
  }

  datatype Slice = Slice(bytes: nat, ios: nat, start: nat, end: nat)

  datatype Verdict = Verdict(ok: bool, wait: nat)

  // ---------------------------------------------------------------------------------------
  // Specification of one direction
  // ---------------------------------------------------------------------------------------

  function Div(x: nat, y: nat): (q: nat)
    requires y > 0
    ensures q * y <= x < q * y + y
  {
    x / y
  }

  /** How many intervals of length `y` it takes to cover `x`. */
  function Ceil(x: nat, y: nat): (c: nat)
    requires y > 0
    ensures c * y - y < x <= c * y
  {
    Div(x + y - 1, y)
  }

  function RoundUp(x: nat, y: nat): (r: nat)
    requires y > 0
    ensures x <= r < x + y
  {
    Ceil(x, y) * y
  }

  function Scale(a: nat, b: nat, c: nat): (r: nat)
    requires c > 0
    ensures c * r <= a * b < c * r + c
  {
    Div(a * b, c)
  }

  predicate Used(s: Slice, now: nat) {
    !(s.start <= now <= s.end)
  }

  /** A slice that has run out is replaced; otherwise it is made to last one more interval. */
  function Renew(L: Limits, s: Slice, now: nat): Slice
    requires L.Ok()
  {
    if Used(s, now) then Slice(0, 0, now, now + L.slice)
    else if s.end < now + L.slice then s.(end := RoundUp(now + L.slice, L.slice))
    else s
  }

  /** The elapsed time a check credits: whole intervals, at least one. */
  function Window(L: Limits, s: Slice, now: nat): (w: nat)
    requires L.Ok() && s.start <= now
    ensures now - s.start <= w <= now - s.start + L.slice
    ensures w >= L.slice
  {
    if now == s.start then L.slice else
    var c := Ceil(now - s.start, L.slice);
    assert c >= 1;
    MulMono(L.slice, 1, c);
    c * L.slice
  }

  function BytesAllowed(L: Limits, s: Slice, now: nat): nat
    requires L.Ok() && s.start <= now
  {
    Scale(L.bps, Window(L, s, now), L.hz)
  }

  function IosAllowed(L: Limits, s: Slice, now: nat): nat
    requires L.Ok() && s.start <= now
  {
    var t := Scale(L.iops, Window(L, s, now), L.hz);
    if t > UINT_MAX then UINT_MAX else t
  }

  function BpsVerdict(L: Limits, s: Slice, now: nat, size: nat): Verdict
    requires L.Ok() && s.start <= now
  {
    if s.bytes + size <= BytesAllowed(L, s, now) then Verdict(true, 0)
    else
      var extra: nat := s.bytes + size - BytesAllowed(L, s, now);
      var w := Scale(extra, L.hz, L.bps);
      Verdict(false, (if w == 0 then 1 else w) + (Window(L, s, now) - (now - s.start)))
  }

  function IopsVerdict(L: Limits, s: Slice, now: nat): Verdict
    requires L.Ok() && s.start <= now
  {
    if s.ios + 1 <= IosAllowed(L, s, now) then Verdict(true, 0)
    else
      var w := Scale(s.ios + 1, L.hz, L.iops) + 1;
      Verdict(false, if w > now - s.start then w - (now - s.start) else 1)
  }

  lemma AgreedWaitsNothing(L: Limits, s: Slice, now: nat, size: nat)
    requires L.Ok() && s.start <= now
    ensures BpsVerdict(L, s, now, size).ok ==> BpsVerdict(L, s, now, size).wait == 0
    ensures IopsVerdict(L, s, now).ok ==> IopsVerdict(L, s, now).wait == 0
  {
  }

  /** The verdict on a renewed slice: the iops limit is consulted only once the byte limit agrees. */
  function Judge(L: Limits, s: Slice, now: nat, size: nat): Verdict
    requires L.Ok() && s.start <= now
  {
    if BpsVerdict(L, s, now, size).ok then IopsVerdict(L, s, now) else BpsVerdict(L, s, now, size)
  }

  function MayDispatch(L: Limits, s: Slice, now: nat, size: nat): (Slice, Verdict)
    requires L.Ok()
  {
    var r := Renew(L, s, now);
    var v := Judge(L, r, now, size);
    if v.ok || r.end >= now + v.wait then (r, v)
    else (r.(end := RoundUp(now + v.wait, L.slice)), v)
  }

  function Charge(s: Slice, size: nat): Slice {
    s.(bytes := s.bytes + size, ios := s.ios + 1)
  }

  function Intervals(L: Limits, s: Slice, now: nat): nat
    requires L.Ok() && s.start <= now
  {
    Div(now - s.start, L.slice)
  }

  function TrimOf(L: Limits, rate: nat, n: nat): nat
    requires L.Ok()
  {
    Scale(rate, L.slice * n, L.hz)
  }

  function Minus(a: nat, b: nat): nat {
    if a >= b then a - b else 0
  }

  /** Give back the whole intervals that have passed, after a queued bio was dispatched. */
  function Trim(L: Limits, s: Slice, now: nat): Slice
    requires L.Ok()
  {
    if Used(s, now) then s
    else
      var e := s.(end := RoundUp(now + L.slice, L.slice));
      var n := Intervals(L, s, now);
      var b := TrimOf(L, L.bps, n);
      var i := TrimOf(L, L.iops, n);
      if n == 0 || (b == 0 && i == 0) then e
      else Slice(Minus(s.bytes, b), Minus(s.ios, i), s.start + n * L.slice, e.end)
  }

  // ---------------------------------------------------------------------------------------
  // Runs of one direction
  // ---------------------------------------------------------------------------------------

  /** Probe: a check that dispatches nothing (computing the next dispatch time, or a refusal).
      Direct: a bio that arrives while none is queued.  Queued: the head of the queue, which is
      trimmed for.  The last two charge the bio exactly when the check agrees. */
  datatype Event =
    | Probe(now: nat, size: nat)
    | Direct(now: nat, size: nat)
    | Queued(now: nat, size: nat)

  predicate Charges(L: Limits, s: Slice, e: Event)
    requires L.Ok()
  {
    !e.Probe? && MayDispatch(L, s, e.now, e.size).1.ok
  }

  function Step(L: Limits, s: Slice, e: Event): Slice
    requires L.Ok()
  {
    var r := MayDispatch(L, s, e.now, e.size).0;
    if !Charges(L, s, e) then r
    else if e.Direct? then Charge(r, e.size)
    else Trim(L, Charge(r, e.size), e.now)
  }

  function Run(L: Limits, s: Slice, es: seq<Event>): Slice
    requires L.Ok()
    decreases |es|
  {
    if es == [] then s else Run(L, Step(L, s, es[0]), es[1..])
  }

  function BytesCharged(L: Limits, s: Slice, es: seq<Event>): nat
    requires L.Ok()
    decreases |es|
  {
    if es == [] then 0
    else (if Charges(L, s, es[0]) then es[0].size else 0) + BytesCharged(L, Step(L, s, es[0]), es[1..])
  }

  function IosCharged(L: Limits, s: Slice, es: seq<Event>): nat
    requires L.Ok()
    decreases |es|
  {
    if es == [] then 0
    else (if Charges(L, s, es[0]) then 1 else 0) + IosCharged(L, Step(L, s, es[0]), es[1..])
  }

  ghost predicate Monotone(t: nat, es: seq<Event>)
    decreases |es|
  {
    es != [] ==> t <= es[0].now && Monotone(es[0].now, es[1..])
  }

  /** What a group holds before its first check: the allocator's zeros. */
  const Blank := Slice(0, 0, 0, 0)

  // ---------------------------------------------------------------------------------------
  // The rate bound
  // ---------------------------------------------------------------------------------------

  /** Since `t0`, `total` was charged, of which `disp` to the slice that began at `start`;
      the last charge was at `last`. */
  ghost predicate Within(L: Limits, rate: nat, total: nat, disp: nat, start: nat, t0: nat, last: nat) {
    && t0 <= start && t0 <= last
    && L.hz * (total - disp) <= rate * (start - t0)
    && L.hz * total <= rate * (last - t0 + L.slice)
  }

  ghost predicate Inv(L: Limits, s: Slice, t0: nat, bytes: nat, ios: nat, last: nat, now: nat) {
    && Within(L, L.bps, bytes, s.bytes, s.start, t0, last)
    && Within(L, L.iops, ios, s.ios, s.start, t0, last)
    && s.start <= now && last <= now
    && s.start <= s.end && last + L.slice <= s.end
  }

  lemma MulMono(a: nat, x: int, y: int)
    requires x <= y
    ensures a * x <= a * y
  {
  }

  lemma MulAdd(a: int, x: int, y: int)
    ensures a * (x + y) == a * x + a * y
  {
  }

  lemma WithinFresh(L: Limits, rate: nat, total: nat, disp: nat, start: nat, t0: nat, last: nat, now: nat)
    requires Within(L, rate, total, disp, start, t0, last)
    requires last + L.slice <= now
    ensures Within(L, rate, total, 0, now, t0, last)
  {
    MulMono(rate, last - t0 + L.slice, now - t0);
  }

  lemma WithinCharge(L: Limits, rate: nat, total: nat, disp: nat, start: nat, t0: nat, last: nat, now: nat, w: nat, n: nat)
    requires L.hz > 0
    requires Within(L, rate, total, disp, start, t0, last)
    requires start <= now && w <= now - start + L.slice
    requires disp + n <= Scale(rate, w, L.hz)
    ensures Within(L, rate, total + n, disp + n, start, t0, now)
  {
    MulMono(L.hz, disp + n, Scale(rate, w, L.hz));
    MulMono(rate, w, now - start + L.slice);
    assert rate * (start - t0) + rate * (now - start + L.slice) == rate * (now - t0 + L.slice);
    assert L.hz * (total + n) == L.hz * (total - disp) + L.hz * (disp + n);
  }

  lemma WithinTrim(L: Limits, rate: nat, total: nat, disp: nat, start: nat, t0: nat, last: nat, n: nat, later: nat)
    requires L.Ok() && later == start + n * L.slice
    requires Within(L, rate, total, disp, start, t0, last)
    ensures Within(L, rate, total, Minus(disp, TrimOf(L, rate, n)), later, t0, last)
  {
    var b := TrimOf(L, rate, n);
    assert total - Minus(disp, b) <= total - disp + b;
    MulMono(L.hz, total - Minus(disp, b), total - disp + b);
    MulAdd(L.hz, total - disp, b);
    MulAdd(rate, start - t0, n * L.slice);
    assert L.slice * n == n * L.slice;
  }

  lemma InvRenew(L: Limits, s: Slice, t0: nat, bytes: nat, ios: nat, last: nat, was: nat, now: nat)
    requires L.Ok() && Inv(L, s, t0, bytes, ios, last, was) && was <= now
    ensures Inv(L, Renew(L, s, now), t0, bytes, ios, last, now)
    ensures Renew(L, s, now).end >= now + L.slice
  {
    if Used(s, now) {
      WithinFresh(L, L.bps, bytes, s.bytes, s.start, t0, last, now);
      WithinFresh(L, L.iops, ios, s.ios, s.start, t0, last, now);
    }
  }

  lemma InvMay(L: Limits, s: Slice, t0: nat, bytes: nat, ios: nat, last: nat, was: nat, now: nat, size: nat)
    requires L.Ok() && Inv(L, s, t0, bytes, ios, last, was) && was <= now
    ensures var m := MayDispatch(L, s, now, size);
            && Inv(L, m.0, t0, bytes, ios, last, now)
            && m.0.end >= now + L.slice
            && (m.1.ok ==> Inv(L, Charge(m.0, size), t0, bytes + size, ios + 1, now, now))
  {
    hide Div, Within, Scale, RoundUp, Window;
    InvRenew(L, s, t0, bytes, ios, last, was, now);
    var m := MayDispatch(L, s, now, size);
    if m.1.ok {
      var r := m.0;
      var w := Window(L, r, now);
      WithinCharge(L, L.bps, bytes, r.bytes, r.start, t0, last, now, w, size);
      WithinCharge(L, L.iops, ios, r.ios, r.start, t0, last, now, w, 1);
    }
  }

  lemma InvTrim(L: Limits, s: Slice, t0: nat, bytes: nat, ios: nat, last: nat, now: nat)
    requires L.Ok() && Inv(L, s, t0, bytes, ios, last, now)
    ensures Inv(L, Trim(L, s, now), t0, bytes, ios, last, now)
  {
    hide Div, Within, Scale, RoundUp;
    if !Used(s, now) {
      var n := Intervals(L, s, now);
      if Trim(L, s, now).start == s.start {
        return;
      }
      var later := Trim(L, s, now).start;
      WithinTrim(L, L.bps, bytes, s.bytes, s.start, t0, last, n, later);
      WithinTrim(L, L.iops, ios, s.ios, s.start, t0, last, n, later);
    }
  }

  /** Every step keeps the account of both limits. */
  lemma InvStep(L: Limits, s: Slice, t0: nat, bytes: nat, ios: nat, last: nat, was: nat, e: Event) returns (last': nat)
    requires L.Ok() && Inv(L, s, t0, bytes, ios, last, was) && was <= e.now
    ensures var c := Charges(L, s, e);
            Inv(L, Step(L, s, e), t0, bytes + (if c then e.size else 0), ios + (if c then 1 else 0), last', e.now)
  {
    InvMay(L, s, t0, bytes, ios, last, was, e.now, e.size);
    last' := last;
    if Charges(L, s, e) {
      last' := e.now;
      if e.Queued? {
        InvTrim(L, Charge(MayDispatch(L, s, e.now, e.size).0, e.size), t0, bytes + e.size, ios + 1, e.now, e.now);
      }
    }
  }

  lemma {:induction false} BoundFrom(L: Limits, s: Slice, es: seq<Event>, t0: nat, bytes: nat, ios: nat, last: nat, was: nat)
    requires L.Ok() && Inv(L, s, t0, bytes, ios, last, was) && Monotone(was, es)
    ensures var t := if es == [] then was else es[|es| - 1].now;
            && t0 <= t
            && L.hz * (bytes + BytesCharged(L, s, es)) <= L.bps * (t - t0 + L.slice)
            && L.hz * (ios + IosCharged(L, s, es)) <= L.iops * (t - t0 + L.slice)
    decreases |es|
  {
    hide Step, Charges;
    if es == [] {
      MulMono(L.bps, last - t0 + L.slice, was - t0 + L.slice);
      MulMono(L.iops, last - t0 + L.slice, was - t0 + L.slice);
    } else {
      var e := es[0];
      var last' := InvStep(L, s, t0, bytes, ios, last, was, e);
      var c := Charges(L, s, e);
      BoundFrom(L, Step(L, s, e), es[1..], t0, bytes + (if c then e.size else 0), ios + (if c then 1 else 0), last', e.now);
    }
  }

  /** The first check of a group opens its slice at the time of that check. */
  lemma FirstRenew(L: Limits, now: nat)
    requires L.Ok()
    ensures Inv(L, Renew(L, Blank, now), now, 0, 0, now, now)
  {
  }

  /** Re-checking a slice that was just renewed changes nothing. */
  lemma RenewTwice(L: Limits, s: Slice, now: nat)
    requires L.Ok()
    ensures Renew(L, Renew(L, s, now), now) == Renew(L, s, now)
  {
  }

  /** A run from the allocator's zeros is a run from the slice its first check opens. */
  lemma FirstSlice(L: Limits, es: seq<Event>)
    requires L.Ok() && es != []
    ensures var r := Renew(L, Blank, es[0].now);
            && Run(L, r, es) == Run(L, Blank, es)
            && BytesCharged(L, r, es) == BytesCharged(L, Blank, es)
            && IosCharged(L, r, es) == IosCharged(L, Blank, es)
  {
    var e := es[0];
    var r := Renew(L, Blank, e.now);
    RenewTwice(L, Blank, e.now);
    assert MayDispatch(L, r, e.now, e.size) == MayDispatch(L, Blank, e.now, e.size);
    assert Step(L, r, e) == Step(L, Blank, e) && Charges(L, r, e) == Charges(L, Blank, e);
  }

  /** The whole-run rate bound: over any mix of probes, direct and queued dispatches, trims and
      restarts, whatever was charged since the first check fits the limit over the time that has
      passed plus one interval -- for bytes and for bios, and without a rounding term. */
  lemma {:induction false} RateBound(L: Limits, es: seq<Event>)
    requires L.Ok() && es != [] && Monotone(0, es)
    ensures var t := es[|es| - 1].now - es[0].now;
            && L.hz * BytesCharged(L, Blank, es) <= L.bps * (t + L.slice)
            && L.hz * IosCharged(L, Blank, es) <= L.iops * (t + L.slice)
  {
    hide BytesCharged, IosCharged, Renew;
    var now := es[0].now;
    FirstRenew(L, now);
    FirstSlice(L, es);
    BoundFrom(L, Renew(L, Blank, now), es, now, 0, 0, now, now);
  }

  /** A run in two parts. */
  lemma {:induction false} RunConcat(L: Limits, s: Slice, a: seq<Event>, b: seq<Event>)
    requires L.Ok()
    ensures Run(L, s, a + b) == Run(L, Run(L, s, a), b)
    ensures BytesCharged(L, s, a + b) == BytesCharged(L, s, a) + BytesCharged(L, Run(L, s, a), b)
    ensures IosCharged(L, s, a + b) == IosCharged(L, s, a) + IosCharged(L, Run(L, s, a), b)
    decreases |a|
  {
    hide Step, Charges;
    if a == [] {
      assert a + b == b;
    } else {
      assert (a + b)[1..] == a[1..] + b;
      RunConcat(L, Step(L, s, a[0]), a[1..], b);
    }
  }

  function Last(es: seq<Event>, was: nat): nat {
    if es == [] then was else es[|es| - 1].now
  }

  lemma {:induction false} MonotoneConcat(t: nat, a: seq<Event>, b: seq<Event>)
    requires Monotone(t, a) && Monotone(Last(a, t), b)
    ensures Monotone(t, a + b)
    decreases |a|
  {
    if a == [] {
      assert a + b == b;
    } else {
      assert (a + b)[1..] == a[1..] + b;
      MonotoneConcat(a[0].now, a[1..], b);
    }
  }

  // ---------------------------------------------------------------------------------------
  // Progress of a refused bio
  // ---------------------------------------------------------------------------------------

  /** How far (times `hz`) the bio is from fitting the byte limit at `now`. */
  ghost function Deficit(L: Limits, s: Slice, now: nat, size: nat): int
    requires L.Ok() && s.start <= now
  {
    L.hz * (s.bytes + size) - L.bps * Window(L, s, now)
  }

  lemma BpsRefusedIff(L: Limits, s: Slice, now: nat, size: nat)
    requires L.Ok() && s.start <= now
    ensures !BpsVerdict(L, s, now, size).ok <==> Deficit(L, s, now, size) > 0
  {
    hide Window, Scale;
    var a := BytesAllowed(L, s, now);
    if s.bytes + size <= a {
      MulMono(L.hz, s.bytes + size, a);
    } else {
      MulMono(L.hz, a + 1, s.bytes + size);
    }
  }

  lemma WindowGrows(L: Limits, s: Slice, now: nat, t: nat)
    requires L.Ok() && s.start <= now <= t
    ensures Window(L, s, now) <= Window(L, s, t)
    ensures t > s.start + Window(L, s, now) ==> Window(L, s, t) >= Window(L, s, now) + L.slice
  {
    hide Div, Ceil;
    var c := if now == s.start then 1 else Ceil(now - s.start, L.slice);
    var d := if t == s.start then 1 else Ceil(t - s.start, L.slice);
    MultiplesGrow(L.slice, c, now - s.start, d, t - s.start);
  }

  lemma MultiplesGrow(y: nat, c: nat, x: nat, d: nat, x': nat)
    requires x <= x' && y > 0 && c >= 1 && d >= 1
    requires (c == 1 || c * y - y < x) && x <= c * y && x' <= d * y
    ensures c * y <= d * y
    ensures x' > c * y ==> d * y >= c * y + y
  {
    if d < c {
      MulMono(y, d, c - 1);
      assert false;
    }
    MulMono(y, c, d);
    if d > c {
      MulMono(y, c + 1, d);
    }
  }

  lemma ScaleAtLeast(a: nat, b: nat, c: nat, m: nat)
    requires c > 0 && a * b >= c * m
    ensures Scale(a, b, c) >= m
  {
    if Scale(a, b, c) < m {
      MulMono(c, Scale(a, b, c) + 1, m);
    }
  }

  /** A refusal asks for a positive wait, keeps what is charged, and keeps the slice alive until
      the wait is over. */
  lemma RefusalKeepsSlice(L: Limits, s: Slice, now: nat, size: nat)
    requires L.Ok() && !MayDispatch(L, s, now, size).1.ok
    ensures var m := MayDispatch(L, s, now, size);
            && m.1.wait >= 1
            && m.0 == Renew(L, s, now).(end := m.0.end)
            && m.0.start <= now && now + m.1.wait <= m.0.end
  {
  }

  /** A check leaves a slice that contains the present, so a trim that follows it never meets a
      slice that ends before it starts. */
  lemma CheckedSliceIsOrdered(L: Limits, s: Slice, now: nat, size: nat)
    requires L.Ok()
    ensures var r := MayDispatch(L, s, now, size).0;
            r.start <= now < r.end
  {
  }

  /** While the byte limit refuses, a retry that comes no earlier than asked finds a deficit
      smaller by at least one interval's worth of bytes. */
  lemma BpsRetryShrinks(L: Limits, s: Slice, now: nat, size: nat, t: nat)
    requires L.Ok() && s.start <= now
    requires !BpsVerdict(L, s, now, size).ok && t >= now + BpsVerdict(L, s, now, size).wait
    ensures Deficit(L, s, t, size) <= Deficit(L, s, now, size) - L.bps * L.slice
  {
    hide Div, Window, Scale;
    WindowGrows(L, s, now, t);
    MulMono(L.bps, Window(L, s, now) + L.slice, Window(L, s, t));
    assert L.bps * (Window(L, s, now) + L.slice) == L.bps * Window(L, s, now) + L.bps * L.slice;
  }

  /** When only the iops limit refuses, one retry that comes no earlier than asked goes through;
      in particular the fallback wait of one jiffy is never taken. */
  lemma IopsRetrySucceeds(L: Limits, s: Slice, now: nat, size: nat, t: nat)
    requires L.Ok() && s.start <= now && s.ios < UINT_MAX
    requires BpsVerdict(L, s, now, size).ok && !IopsVerdict(L, s, now).ok
    requires t >= now + IopsVerdict(L, s, now).wait
    ensures Scale(s.ios + 1, L.hz, L.iops) + 1 > now - s.start
    ensures Judge(L, s, t, size).ok
  {
    hide Div, Window, Scale, BpsVerdict;
    var w := Scale(s.ios + 1, L.hz, L.iops) + 1;
    assert L.iops * w > (s.ios + 1) * L.hz;
    if w <= now - s.start {
      IosFit(L, s, now, w);
      assert false;
    }
    IosFit(L, s, t, w);
    BpsStays(L, s, now, size, t);
  }

  lemma BpsStays(L: Limits, s: Slice, now: nat, size: nat, t: nat)
    requires L.Ok() && s.start <= now <= t && BpsVerdict(L, s, now, size).ok
    ensures BpsVerdict(L, s, t, size).ok
  {
    hide Div, Window, Scale, BpsVerdict;
    WindowGrows(L, s, now, t);
    BpsRefusedIff(L, s, now, size);
    BpsRefusedIff(L, s, t, size);
    MulMono(L.bps, Window(L, s, now), Window(L, s, t));
  }

  lemma IosFit(L: Limits, s: Slice, t: nat, w: nat)
    requires L.Ok() && s.start <= t && s.ios < UINT_MAX
    requires L.iops * w > (s.ios + 1) * L.hz && w <= t - s.start
    ensures IopsVerdict(L, s, t).ok
  {
    hide Div, Window, Scale;
    MulMono(L.iops, w, Window(L, s, t));
    ScaleAtLeast(L.iops, Window(L, s, t), L.hz, s.ios + 1);
  }

  /** What the next on-time retry has left to wait for. */
  ghost function Distance(L: Limits, s: Slice, now: nat, size: nat): nat
    requires L.Ok()
  {
    var r := Renew(L, s, now);
    if Judge(L, r, now, size).ok then 0
    else if Deficit(L, r, now, size) > 0 then 1 + Deficit(L, r, now, size)
    else 1
  }

  lemma RetryCloser(L: Limits, s: Slice, now: nat, size: nat)
    requires L.Ok() && s.ios < UINT_MAX && !MayDispatch(L, s, now, size).1.ok
    ensures var m := MayDispatch(L, s, now, size);
            var t := now + m.1.wait;
            && m.0.ios < UINT_MAX
            && Distance(L, m.0, t, size) < Distance(L, s, now, size)
            && var r := Renew(L, s, now);
               var d, d' := Deficit(L, r, now, size), Deficit(L, Renew(L, m.0, t), t, size);
               && (d > 0 ==> d' <= d - L.bps * L.slice)
               && (d <= 0 ==> MayDispatch(L, m.0, t, size).1.ok)
  {
    hide Div, Window, Scale;
    var r := Renew(L, s, now);
    var m := MayDispatch(L, s, now, size);
    var t := now + m.1.wait;
    RefusalKeepsSlice(L, s, now, size);
    var r' := Renew(L, m.0, t);
    assert r'.start == r.start && r'.bytes == r.bytes && r'.ios == r.ios;
    SameJudgement(L, r, r', t, size);
    BpsRefusedIff(L, r, now, size);
    if Deficit(L, r, now, size) > 0 {
      BpsRetryShrinks(L, r, now, size, t);
      MulMono(L.bps, 1, L.slice);
    } else {
      IopsRetrySucceeds(L, r, now, size, t);
    }
  }

  /** The end of a slice has no say in the verdict. */
  lemma SameJudgement(L: Limits, a: Slice, b: Slice, t: nat, size: nat)
    requires L.Ok() && a.start <= t && a == b.(end := a.end)
    ensures Judge(L, a, t, size) == Judge(L, b, t, size)
    ensures Deficit(L, a, t, size) == Deficit(L, b, t, size)
  {
  }

  /** The number of refusals before an on-time retry of the bio goes through. */
  ghost function Refusals(L: Limits, s: Slice, now: nat, size: nat): nat
    requires L.Ok() && s.ios < UINT_MAX
    decreases Distance(L, s, now, size)
  {
    var m := MayDispatch(L, s, now, size);
    if m.1.ok then 0 else
    RetryCloser(L, s, now, size);
    1 + Refusals(L, m.0, now + m.1.wait, size)
  }

  /** A bio that is retried on time goes through after finitely many refusals: at most one for
      each interval's worth of missing bytes, one for the remainder, and one for the iops limit. */
  lemma {:induction false} RefusalsBounded(L: Limits, s: Slice, now: nat, size: nat)
    requires L.Ok() && s.ios < UINT_MAX
    ensures var d := Deficit(L, Renew(L, s, now), now, size);
            var n := Refusals(L, s, now, size);
            if d <= 0 then n <= 1 else (n - 2) * (L.bps * L.slice) < d
    decreases Distance(L, s, now, size)
  {
    hide MayDispatch, Renew, Deficit, Distance;
    var m := MayDispatch(L, s, now, size);
    var unit := L.bps * L.slice;
    MulMono(L.bps, 1, L.slice);
    if !m.1.ok {
      RetryCloser(L, s, now, size);
      var t := now + m.1.wait;
      RefusalsBounded(L, m.0, t, size);
      var n := Refusals(L, m.0, t, size);
      assert Refusals(L, s, now, size) == 1 + n;
      if n <= 1 {
        MulMono(unit, n - 1, 0);
      } else {
        assert (n - 1) * unit == (n - 2) * unit + unit;
      }
    } else {
      assert (0 - 2) * unit < 0;
    }
  }

  /** A retry that comes after the slice has ended starts over: the time already waited is lost,
      and the bio goes through iff a single interval has room for it. */
  lemma LateRetryVerdict(L: Limits, s: Slice, t: nat, size: nat)
    requires L.Ok() && Used(s, t)
    ensures MayDispatch(L, s, t, size).1.ok <==> L.hz * size <= L.bps * L.slice && L.hz <= L.iops * L.slice
  {
    hide Div;
    var r := Renew(L, s, t);
    assert Window(L, r, t) == L.slice;
    BpsRefusedIff(L, r, t, size);
    var a := Scale(L.iops, L.slice, L.hz);
    if a >= 1 {
      MulMono(L.hz, 1, a);
    } else {
      assert L.hz * a == 0;
    }
  }

  // ---------------------------------------------------------------------------------------
  // Credit: bounded after a trim, unbounded without one
  // ---------------------------------------------------------------------------------------

  /** Bios of no data, one per interval, all dispatched directly. */
  function Drip(L: Limits, i: nat, n: nat): seq<Event>
    decreases n
  {
    if n == 0 then [] else [Direct(i * L.slice, 0)] + Drip(L, i + 1, n - 1)
  }

  lemma {:induction false} DripRun(L: Limits, s: Slice, i: nat, n: nat)
    requires L.Ok() && L.iops * L.slice >= 2 * L.hz && i + n < UINT_MAX
    requires s.bytes == 0 && s.ios == i && s.start == 0 && s.end >= i * L.slice
    ensures var r := Run(L, s, Drip(L, i, n));
            && r.bytes == 0 && r.ios == i + n && r.start == 0 && r.end >= (i + n) * L.slice
    ensures BytesCharged(L, s, Drip(L, i, n)) == 0
    ensures forall t: nat :: t <= i * L.slice ==> Monotone(t, Drip(L, i, n))
    decreases n
  {
    hide Step, Charges;
    if n > 0 {
      var e := Direct(i * L.slice, 0);
      var es := Drip(L, i, n);
      assert es[0] == e && es[1..] == Drip(L, i + 1, n - 1);
      assert (i + 1) * L.slice == i * L.slice + L.slice;
      DripStep(L, s, i, 0);
      DripRun(L, Step(L, s, e), i + 1, n - 1);
    }
  }

  lemma DripStep(L: Limits, s: Slice, i: nat, size: nat)
    requires L.Ok() && L.iops * L.slice >= 2 * L.hz && i + 1 < UINT_MAX
    requires s.bytes == 0 && s.ios == i && s.start == 0 && s.end >= i * L.slice
    requires size <= Scale(L.bps, i * L.slice, L.hz)
    ensures var e := Direct(i * L.slice, size);
            && Charges(L, s, e)
            && var r := Step(L, s, e);
               r.bytes == size && r.ios == i + 1 && r.start == 0 && r.end >= i * L.slice + L.slice
  {
    hide Div, Scale, Window, RoundUp, BpsVerdict, IopsVerdict;
    var now := i * L.slice;
    var r := Renew(L, s, now);
    assert r.start == 0 && r.bytes == 0 && r.ios == i && r.end >= now + L.slice;
    var k := if i == 0 then 1 else i;
    assert Window(L, r, now) >= k * L.slice by { assert 1 * L.slice == L.slice; }
    DripIos(L, r, now, k);
    DripBytes(L, r, now, size);
  }

  lemma DripBytes(L: Limits, r: Slice, now: nat, size: nat)
    requires L.Ok() && r.start == 0 && r.bytes == 0 && size <= Scale(L.bps, now, L.hz)
    ensures BpsVerdict(L, r, now, size).ok
  {
    hide Div, Scale, Window;
    MulMono(L.bps, now, Window(L, r, now));
    ScaleAtLeast(L.bps, Window(L, r, now), L.hz, Scale(L.bps, now, L.hz));
  }

  lemma DripIos(L: Limits, r: Slice, now: nat, k: nat)
    requires L.Ok() && L.iops * L.slice >= 2 * L.hz && r.start <= now
    requires k >= 1 && r.ios + 1 <= 2 * k && r.ios < UINT_MAX && Window(L, r, now) >= k * L.slice
    ensures IopsVerdict(L, r, now).ok
  {
    hide Div, Window, Scale;
    var w := Window(L, r, now);
    MulMono(L.iops, k * L.slice, w);
    DripRate(L.iops, L.slice, L.hz, k);
    ScaleAtLeast(L.iops, w, L.hz, 2 * k);
  }

  lemma DripRate(iops: nat, slice: nat, hz: nat, k: nat)
    requires iops * slice >= 2 * hz
    ensures iops * (k * slice) >= hz * (2 * k)
  {
    calc {
      iops * (k * slice);
      k * (iops * slice);
    >= { MulMono(k, 2 * hz, iops * slice); }
      k * (2 * hz);
      hz * (2 * k);
    }
  }

  lemma DripFromBlank(L: Limits, k: nat) returns (s: Slice)
    requires L.Ok() && L.iops * L.slice >= 2 * L.hz && k < UINT_MAX
    ensures s == Run(L, Blank, Drip(L, 0, k))
    ensures s.bytes == 0 && s.ios == k && s.start == 0 && s.end >= k * L.slice
    ensures Monotone(0, Drip(L, 0, k)) && BytesCharged(L, Blank, Drip(L, 0, k)) == 0
  {
    assert 0 * L.slice == 0;
    DripRun(L, Blank, 0, k);
    s := Run(L, Blank, Drip(L, 0, k));
  }

  /** The bound is for whole runs only.  Direct dispatches do not trim, so a group that keeps its
      slice alive with bios of no data hoards credit: after `k` intervals it may spend all of
      them in a single jiffy.  No bound on the bytes charged within a window of fixed length
      holds for all runs. */
  lemma DirectDispatchHoardsCredit(L: Limits, k: nat)
    requires L.Ok() && L.iops * L.slice >= 2 * L.hz && 1 <= k < UINT_MAX - 1
    ensures var es := Drip(L, 0, k);
            var burst := Direct(k * L.slice, Scale(L.bps, k * L.slice, L.hz));
            && Monotone(0, es)
            && BytesCharged(L, Blank, es) == 0
            && Charges(L, Run(L, Blank, es), burst)
  {
    hide Step, Charges, Run, BytesCharged, Monotone, Drip, Scale;
    var s := DripFromBlank(L, k);
    DripStep(L, s, k, Scale(L.bps, k * L.slice, L.hz));
  }

  /** A trim leaves less than one interval of credit iff there was no whole interval to give back
      or the rates are high enough for the give-back to be worth at least a byte or a bio. */
  lemma TrimmedCredit(L: Limits, s: Slice, now: nat)
    requires L.Ok() && !Used(s, now)
    ensures var n := Intervals(L, s, now);
            now - Trim(L, s, now).start < L.slice <==>
              n == 0 || TrimOf(L, L.bps, n) > 0 || TrimOf(L, L.iops, n) > 0
  {
    var n := Intervals(L, s, now);
    if n > 0 {
      MulMono(L.slice, 1, n);
    }
  }
}
