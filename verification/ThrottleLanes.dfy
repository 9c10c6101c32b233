/** A throttle group as a state machine (borph/block/blk-throttle.c).

    Each direction is a *lane*: a slice and the queue of the bios that wait for it.  A step of the
    group is an arriving bio, an update of the dispatch time, or a round of dispatches.  Every run
    of such steps is, lane by lane, a run of the events of module Throttle.
 */
module ThrottleLanes {
  import opened Throttle

  datatype Bio = Bio(id: nat, size: nat)

  const THROTL_GRP_QUANTUM: nat := 8
  const MAX_NR_READS: nat := THROTL_GRP_QUANTUM * 3 / 4
  const MAX_NR_WRITES: nat := THROTL_GRP_QUANTUM - MAX_NR_READS

  /** Dispatch from the head of a queue until it is empty, refused, or `quota` bios went. */
  function Drain(L: Limits, s: Slice, q: seq<Bio>, now: nat, quota: nat): (Slice, nat)
    requires L.Ok()
    decreases quota
  {
    if q == [] || quota == 0 then (s, 0)
    else
      var m := MayDispatch(L, s, now, q[0].size);
      if !m.1.ok then (m.0, 0)
      else
        var r := Drain(L, Trim(L, Charge(m.0, q[0].size), now), q[1..], now, quota - 1);
        (r.0, r.1 + 1)
  }

  function Sum(q: seq<Bio>): nat {
    if q == [] then 0 else q[0].size + Sum(q[1..])
  }

  /** The events of a drain: one per bio that went, and a probe if the next one was refused. */
  function DrainEvents(L: Limits, s: Slice, q: seq<Bio>, now: nat, quota: nat): seq<Event>
    requires L.Ok()
    decreases quota
  {
    if q == [] || quota == 0 then []
    else
      var e := Queued(now, q[0].size);
      if !Charges(L, s, e) then [Probe(now, q[0].size)]
      else [e] + DrainEvents(L, Step(L, s, e), q[1..], now, quota - 1)
  }

  /** A drain is a run of the direction's events, all at `now`, so the rate bound covers it; it
      takes bios from the head of the queue and charges exactly those. */
  lemma {:induction false} DrainIsRun(L: Limits, s: Slice, q: seq<Bio>, now: nat, quota: nat)
    requires L.Ok()
    ensures var d := Drain(L, s, q, now, quota);
            var es := DrainEvents(L, s, q, now, quota);
            && Monotone(now, es)
            && d.0 == Run(L, s, es)
            && d.1 <= |q| && d.1 <= quota
            && BytesCharged(L, s, es) == Sum(q[..d.1])
            && IosCharged(L, s, es) == d.1
    decreases quota
  {
    hide MayDispatch, Trim;
    if q != [] && quota > 0 {
      var e := Queued(now, q[0].size);
      var es := DrainEvents(L, s, q, now, quota);
      if Charges(L, s, e) {
        DrainIsRun(L, Step(L, s, e), q[1..], now, quota - 1);
        assert es[0] == e && es[1..] == DrainEvents(L, Step(L, s, e), q[1..], now, quota - 1);
        var n := Drain(L, s, q, now, quota).1;
        assert q[..n][1..] == q[1..][..n - 1];
      } else {
        assert es[1..] == [];
        assert q[..0] == [];
      }
    }
  }

  lemma DrainUnroll(L: Limits, s: Slice, q: seq<Bio>, now: nat, quota: nat)
    requires L.Ok() && q != [] && quota > 0
    ensures var m := MayDispatch(L, s, now, q[0].size);
            Drain(L, s, q, now, quota) ==
              if !m.1.ok then (m.0, 0)
              else var r := Drain(L, Trim(L, Charge(m.0, q[0].size), now), q[1..], now, quota - 1); (r.0, r.1 + 1)
  {
  }

  // ---------------------------------------------------------------------------------------
  // Steps of the group
  // ---------------------------------------------------------------------------------------

  datatype Lane = Lane(slice: Slice, queue: seq<Bio>)

  /** Direction 0 reads and 1 writes. */
  datatype Op =
    | Arrive(now: nat, rw: nat, bio: Bio)
    | Update(now: nat)
    | Dispatch(now: nat)

  predicate GroupOk(Ls: seq<Limits>, g: seq<Lane>) {
    |Ls| == |g| == 2 && Ls[0].Ok() && Ls[1].Ok()
  }

  predicate OpOk(op: Op) {
    op.Arrive? ==> op.rw < 2
  }

  function Quota(rw: nat): nat {
    if rw == 0 then MAX_NR_READS else MAX_NR_WRITES
  }

  /** The head of the queue is checked, for its waiting time only. */
  function Probed(L: Limits, l: Lane, now: nat): Lane
    requires L.Ok()
  {
    if l.queue == [] then l else l.(slice := Step(L, l.slice, Probe(now, l.queue[0].size)))
  }

  predicate Passes(L: Limits, l: Lane, bio: Bio, now: nat)
    requires L.Ok()
  {
    l.queue == [] && Charges(L, l.slice, Direct(now, bio.size))
  }

  /** The lane that a bio arrives in: it passes, or joins the queue; the first to join is checked
      once more, for its waiting time. */
  function Arrived(L: Limits, l: Lane, bio: Bio, now: nat): Lane
    requires L.Ok()
  {
    if l.queue != [] then l.(queue := l.queue + [bio])
    else
      var s := Step(L, l.slice, Direct(now, bio.size));
      if Passes(L, l, bio, now) then l.(slice := s) else Probed(L, Lane(s, [bio]), now)
  }

  /** Whether an arrival makes the group look at both lanes again. */
  predicate Wakes(L: Limits, l: Lane, bio: Bio, now: nat)
    requires L.Ok()
  {
    l.queue == [] && !Passes(L, l, bio, now)
  }

  function Drained(L: Limits, l: Lane, now: nat, quota: nat): Lane
    requires L.Ok()
  {
    DrainIsRun(L, l.slice, l.queue, now, quota);
    var d := Drain(L, l.slice, l.queue, now, quota);
    Lane(d.0, l.queue[d.1..])
  }

  /** What a step makes of one lane. */
  function LaneStep(Ls: seq<Limits>, g: seq<Lane>, op: Op, rw: nat): Lane
    requires GroupOk(Ls, g) && OpOk(op) && rw < 2
  {
    match op
    case Arrive(now, w, bio) =>
      if w == rw then Arrived(Ls[rw], g[rw], bio, now)
      else if Wakes(Ls[w], g[w], bio, now) then Probed(Ls[rw], g[rw], now)
      else g[rw]
    case Update(now) => Probed(Ls[rw], g[rw], now)
    case Dispatch(now) => Drained(Ls[rw], g[rw], now, Quota(rw))
  }

  function GroupStep(Ls: seq<Limits>, g: seq<Lane>, op: Op): (g': seq<Lane>)
    requires GroupOk(Ls, g) && OpOk(op)
    ensures GroupOk(Ls, g')
  {
    [LaneStep(Ls, g, op, 0), LaneStep(Ls, g, op, 1)]
  }

  /** The bios of a direction that a step hands to the device, in order. */
  function Sent(Ls: seq<Limits>, g: seq<Lane>, op: Op, rw: nat): seq<Bio>
    requires GroupOk(Ls, g) && OpOk(op) && rw < 2
  {
    match op
    case Arrive(now, w, bio) => if w == rw && Passes(Ls[rw], g[rw], bio, now) then [bio] else []
    case Update(_) => []
    case Dispatch(now) =>
      DrainIsRun(Ls[rw], g[rw].slice, g[rw].queue, now, Quota(rw));
      g[rw].queue[..Drain(Ls[rw], g[rw].slice, g[rw].queue, now, Quota(rw)).1]
  }

  function Came(op: Op, rw: nat): seq<Bio> {
    if op.Arrive? && op.rw == rw then [op.bio] else []
  }

  /** A bio that is first to join its queue: the group then updates as for a new dispatch time. */
  lemma WakingArrival(Ls: seq<Limits>, g: seq<Lane>, now: nat, rw: nat, bio: Bio)
    requires GroupOk(Ls, g) && rw < 2 && Wakes(Ls[rw], g[rw], bio, now)
    ensures var joined := g[rw := Lane(Step(Ls[rw], g[rw].slice, Direct(now, bio.size)), [bio])];
            GroupStep(Ls, g, Arrive(now, rw, bio)) == GroupStep(Ls, joined, Update(now))
  {
    hide Step, Charges;
  }

  /** A round of dispatches, given the two drains. */
  lemma DispatchRound(Ls: seq<Limits>, g: seq<Lane>, now: nat, rw: nat, s: Slice, n: nat)
    requires GroupOk(Ls, g) && rw < 2
    requires (s, n) == Drain(Ls[rw], g[rw].slice, g[rw].queue, now, Quota(rw))
    ensures n <= |g[rw].queue| && n <= Quota(rw)
    ensures GroupStep(Ls, g, Dispatch(now))[rw] == Lane(s, g[rw].queue[n..])
    ensures Sent(Ls, g, Dispatch(now), rw) == g[rw].queue[..n]
  {
    hide Drain;
    DrainIsRun(Ls[rw], g[rw].slice, g[rw].queue, now, Quota(rw));
  }

  // ---------------------------------------------------------------------------------------
  // A step of the group as a run of one lane
  // ---------------------------------------------------------------------------------------

  ghost function ProbeEvents(l: Lane, now: nat): seq<Event> {
    if l.queue == [] then [] else [Probe(now, l.queue[0].size)]
  }

  ghost function LaneEvents(Ls: seq<Limits>, g: seq<Lane>, op: Op, rw: nat): seq<Event>
    requires GroupOk(Ls, g) && OpOk(op) && rw < 2
  {
    match op
    case Arrive(now, w, bio) =>
      if w == rw then
        if g[rw].queue != [] then []
        else if Passes(Ls[rw], g[rw], bio, now) then [Direct(now, bio.size)]
        else [Direct(now, bio.size), Probe(now, bio.size)]
      else if Wakes(Ls[w], g[w], bio, now) then ProbeEvents(g[rw], now)
      else []
    case Update(now) => ProbeEvents(g[rw], now)
    case Dispatch(now) => DrainEvents(Ls[rw], g[rw].slice, g[rw].queue, now, Quota(rw))
  }

  /** `es` takes the slice `s` to `s'`, all at `now`, and charges exactly the bios `sent`. */
  ghost predicate Explains(L: Limits, s: Slice, s': Slice, es: seq<Event>, now: nat, sent: seq<Bio>)
    requires L.Ok()
  {
    && Run(L, s, es) == s'
    && Monotone(now, es) && Last(es, now) == now
    && BytesCharged(L, s, es) == Sum(sent)
    && IosCharged(L, s, es) == |sent|
  }

  lemma NoEvents(L: Limits, s: Slice, now: nat)
    requires L.Ok()
    ensures Explains(L, s, s, [], now, [])
  {
  }

  lemma OneEvent(L: Limits, s: Slice, e: Event, id: nat, sent: seq<Bio>)
    requires L.Ok()
    requires sent == if Charges(L, s, e) then [Bio(id, e.size)] else []
    ensures Explains(L, s, Step(L, s, e), [e], e.now, sent)
  {
    hide Step, Charges;
    var es := [e];
    assert es[0] == e && es[1..] == [];
    assert Run(L, s, es) == Step(L, s, e);
    assert BytesCharged(L, s, es) == if Charges(L, s, e) then e.size else 0;
    assert IosCharged(L, s, es) == |sent|;
    assert Monotone(e.now, es);
    if sent != [] {
      assert sent[1..] == [];
    }
    assert Sum(sent) == if Charges(L, s, e) then e.size else 0;
  }

  lemma ProbesExplain(L: Limits, l: Lane, now: nat)
    requires L.Ok()
    ensures Explains(L, l.slice, Probed(L, l, now).slice, ProbeEvents(l, now), now, [])
  {
    hide Step, Explains;
    if l.queue == [] {
      NoEvents(L, l.slice, now);
    } else {
      OneEvent(L, l.slice, Probe(now, l.queue[0].size), 0, []);
    }
  }

  lemma TwoEvents(L: Limits, s: Slice, e: Event, p: Event)
    requires L.Ok() && !Charges(L, s, e) && p.Probe? && p.now == e.now
    ensures Explains(L, s, Step(L, Step(L, s, e), p), [e, p], e.now, [])
  {
    hide Step, Explains;
    OneEvent(L, s, e, 0, []);
    OneEvent(L, Step(L, s, e), p, 0, []);
    assert [e, p] == [e] + [p];
    ExplainsConcat(L, s, Step(L, s, e), Step(L, Step(L, s, e), p), [e], [p], e.now, [], []);
    var none: seq<Bio> := [];
    assert none + none == none;
  }

  lemma {:induction false} SumConcat(a: seq<Bio>, b: seq<Bio>)
    ensures Sum(a + b) == Sum(a) + Sum(b)
    decreases |a|
  {
    if a == [] {
      assert a + b == b;
    } else {
      assert (a + b)[1..] == a[1..] + b;
      SumConcat(a[1..], b);
    }
  }

  lemma ExplainsConcat(L: Limits, s: Slice, m: Slice, r: Slice, a: seq<Event>, b: seq<Event>, now: nat, x: seq<Bio>, y: seq<Bio>)
    requires L.Ok() && Explains(L, s, m, a, now, x) && Explains(L, m, r, b, now, y)
    ensures Explains(L, s, r, a + b, now, x + y)
  {
    hide Run, BytesCharged, IosCharged, Monotone, Sum;
    RunConcat(L, s, a, b);
    MonotoneConcat(now, a, b);
    SumConcat(x, y);
  }

  lemma DrainLast(L: Limits, s: Slice, q: seq<Bio>, now: nat, quota: nat)
    requires L.Ok()
    ensures Last(DrainEvents(L, s, q, now, quota), now) == now
    decreases quota
  {
    hide Step, Charges;
    if q != [] && quota > 0 && Charges(L, s, Queued(now, q[0].size)) {
      DrainLast(L, Step(L, s, Queued(now, q[0].size)), q[1..], now, quota - 1);
    }
  }

  lemma ArrivalExplained(L: Limits, l: Lane, bio: Bio, now: nat, es: seq<Event>, sent: seq<Bio>)
    requires L.Ok()
    requires es == if l.queue != [] then []
                   else if Passes(L, l, bio, now) then [Direct(now, bio.size)]
                   else [Direct(now, bio.size), Probe(now, bio.size)]
    requires sent == if Passes(L, l, bio, now) then [bio] else []
    ensures Explains(L, l.slice, Arrived(L, l, bio, now).slice, es, now, sent)
    ensures l.queue + [bio] == sent + Arrived(L, l, bio, now).queue
  {
    hide Step, Charges, Explains;
    if l.queue != [] {
      NoEvents(L, l.slice, now);
    } else if Passes(L, l, bio, now) {
      OneEvent(L, l.slice, Direct(now, bio.size), bio.id, sent);
    } else {
      TwoEvents(L, l.slice, Direct(now, bio.size), Probe(now, bio.size));
    }
  }

  /** Every step of the group is, for each lane, a run of its events at that moment, which charges
      exactly the bios that the step hands to the device; and these leave in the order in which
      they came, nothing being lost, doubled or overtaken. */
  lemma StepIsRun(Ls: seq<Limits>, g: seq<Lane>, op: Op, rw: nat)
    requires GroupOk(Ls, g) && OpOk(op) && rw < 2
    ensures Explains(Ls[rw], g[rw].slice, GroupStep(Ls, g, op)[rw].slice, LaneEvents(Ls, g, op, rw), op.now, Sent(Ls, g, op, rw))
    ensures g[rw].queue + Came(op, rw) == Sent(Ls, g, op, rw) + GroupStep(Ls, g, op)[rw].queue
  {
    hide Step, Charges, Explains, Arrived, Passes, Probed, ProbeEvents;
    var L, l := Ls[rw], g[rw];
    assert GroupStep(Ls, g, op)[rw] == LaneStep(Ls, g, op, rw);
    match op
    case Arrive(now, w, bio) =>
      if w == rw {
        ArrivalExplained(L, l, bio, now, LaneEvents(Ls, g, op, rw), Sent(Ls, g, op, rw));
      } else if Wakes(Ls[w], g[w], bio, now) {
        ProbesExplain(L, l, now);
        ProbeKeepsQueue(L, l, now);
      } else {
        NoEvents(L, l.slice, now);
      }
    case Update(now) =>
      ProbesExplain(L, l, now);
      ProbeKeepsQueue(L, l, now);
    case Dispatch(now) =>
      DrainExplains(L, l, now, Quota(rw));
  }

  lemma ProbeKeepsQueue(L: Limits, l: Lane, now: nat)
    requires L.Ok()
    ensures Probed(L, l, now).queue == l.queue
  {
  }

  lemma DrainExplains(L: Limits, l: Lane, now: nat, quota: nat)
    requires L.Ok()
    ensures var n := Drain(L, l.slice, l.queue, now, quota).1;
            && n <= |l.queue|
            && Explains(L, l.slice, Drained(L, l, now, quota).slice,
                        DrainEvents(L, l.slice, l.queue, now, quota), now, l.queue[..n])
  {
    hide Run, BytesCharged, IosCharged, Monotone, Sum, Drain, DrainEvents;
    DrainIsRun(L, l.slice, l.queue, now, quota);
    DrainLast(L, l.slice, l.queue, now, quota);
  }

  // ---------------------------------------------------------------------------------------
  // Runs of the group
  // ---------------------------------------------------------------------------------------

  ghost predicate OpsOk(was: nat, ops: seq<Op>)
    decreases |ops|
  {
    ops != [] ==> OpOk(ops[0]) && was <= ops[0].now && OpsOk(ops[0].now, ops[1..])
  }

  ghost function GroupRun(Ls: seq<Limits>, g: seq<Lane>, ops: seq<Op>, was: nat): (g': seq<Lane>)
    requires GroupOk(Ls, g) && OpsOk(was, ops)
    ensures GroupOk(Ls, g')
    decreases |ops|
  {
    if ops == [] then g else GroupRun(Ls, GroupStep(Ls, g, ops[0]), ops[1..], ops[0].now)
  }

  ghost function AllSent(Ls: seq<Limits>, g: seq<Lane>, ops: seq<Op>, was: nat, rw: nat): seq<Bio>
    requires GroupOk(Ls, g) && OpsOk(was, ops) && rw < 2
    decreases |ops|
  {
    if ops == [] then []
    else Sent(Ls, g, ops[0], rw) + AllSent(Ls, GroupStep(Ls, g, ops[0]), ops[1..], ops[0].now, rw)
  }

  function AllCame(ops: seq<Op>, rw: nat): seq<Bio>
    decreases |ops|
  {
    if ops == [] then [] else Came(ops[0], rw) + AllCame(ops[1..], rw)
  }

  ghost function AllEvents(Ls: seq<Limits>, g: seq<Lane>, ops: seq<Op>, was: nat, rw: nat): seq<Event>
    requires GroupOk(Ls, g) && OpsOk(was, ops) && rw < 2
    decreases |ops|
  {
    if ops == [] then []
    else LaneEvents(Ls, g, ops[0], rw) + AllEvents(Ls, GroupStep(Ls, g, ops[0]), ops[1..], ops[0].now, rw)
  }

  /** In every run, the bios of a direction leave in exactly the order in which they came, and
      those that have not left are the queue. */
  lemma {:induction false} FirstInFirstOut(Ls: seq<Limits>, g: seq<Lane>, ops: seq<Op>, was: nat, rw: nat)
    requires GroupOk(Ls, g) && OpsOk(was, ops) && rw < 2
    ensures g[rw].queue + AllCame(ops, rw) == AllSent(Ls, g, ops, was, rw) + GroupRun(Ls, g, ops, was)[rw].queue
    decreases |ops|
  {
    hide GroupStep, Sent, Came;
    if ops != [] {
      var op, rest := ops[0], ops[1..];
      var g' := GroupStep(Ls, g, op);
      StepIsRun(Ls, g, op, rw);
      FirstInFirstOut(Ls, g', rest, op.now, rw);
      calc {
        g[rw].queue + AllCame(ops, rw);
        (g[rw].queue + Came(op, rw)) + AllCame(rest, rw);
        Sent(Ls, g, op, rw) + (g'[rw].queue + AllCame(rest, rw));
        AllSent(Ls, g, ops, was, rw) + GroupRun(Ls, g, ops, was)[rw].queue;
      }
    }
  }

  /** `es` takes the slice `s` to `s'` between `was` and `t`, and charges exactly the bios `sent`. */
  ghost predicate Follows(L: Limits, s: Slice, s': Slice, es: seq<Event>, was: nat, t: nat, sent: seq<Bio>)
    requires L.Ok()
  {
    && Run(L, s, es) == s'
    && Monotone(was, es) && was <= Last(es, was) <= t
    && BytesCharged(L, s, es) == Sum(sent)
    && IosCharged(L, s, es) == |sent|
  }

  lemma Earlier(was: nat, now: nat, es: seq<Event>)
    requires was <= now && Monotone(now, es)
    ensures Monotone(was, es)
  {
  }

  lemma FollowsStep(L: Limits, s: Slice, m: Slice, r: Slice, a: seq<Event>, b: seq<Event>, was: nat, now: nat, t: nat, x: seq<Bio>, y: seq<Bio>)
    requires L.Ok() && was <= now && Explains(L, s, m, a, now, x) && Follows(L, m, r, b, now, t, y)
    ensures Follows(L, s, r, a + b, was, t, x + y)
  {
    hide Run, BytesCharged, IosCharged, Monotone, Sum;
    RunConcat(L, s, a, b);
    Earlier(was, now, a);
    Earlier(Last(a, was), now, b);
    MonotoneConcat(was, a, b);
    SumConcat(x, y);
  }

  /** A run of the group is, for each lane, a run of its events, within the time of the group's
      run, which charges exactly the bios handed to the device. */
  lemma {:induction false} RunIsRun(Ls: seq<Limits>, g: seq<Lane>, ops: seq<Op>, was: nat, rw: nat)
    requires GroupOk(Ls, g) && OpsOk(was, ops) && rw < 2
    ensures Follows(Ls[rw], g[rw].slice, GroupRun(Ls, g, ops, was)[rw].slice, AllEvents(Ls, g, ops, was, rw),
                    was, if ops == [] then was else ops[|ops| - 1].now, AllSent(Ls, g, ops, was, rw))
    decreases |ops|
  {
    if ops == [] {
    } else {
      hide GroupStep, Sent, LaneEvents, Explains, Follows;
      var op, rest := ops[0], ops[1..];
      var g' := GroupStep(Ls, g, op);
      StepIsRun(Ls, g, op, rw);
      RunIsRun(Ls, g', rest, op.now, rw);
      FollowsStep(Ls[rw], g[rw].slice, g'[rw].slice, GroupRun(Ls, g', rest, op.now)[rw].slice,
                  LaneEvents(Ls, g, op, rw), AllEvents(Ls, g', rest, op.now, rw), was, op.now,
                  if rest == [] then op.now else rest[|rest| - 1].now,
                  Sent(Ls, g, op, rw), AllSent(Ls, g', rest, op.now, rw));
    }
  }

  const NEW_GROUP := [Lane(Blank, []), Lane(Blank, [])]

  lemma FollowsBound(L: Limits, r: Slice, es: seq<Event>, was: nat, t: nat, sent: seq<Bio>)
    requires L.Ok() && Follows(L, Blank, r, es, was, t, sent)
    ensures L.hz * Sum(sent) <= L.bps * (t - was + L.slice)
    ensures L.hz * |sent| <= L.iops * (t - was + L.slice)
  {
    hide Run, Sum;
    if es == [] {
      MulMono(L.bps, 0, t - was + L.slice);
      MulMono(L.iops, 0, t - was + L.slice);
    } else {
      hide BytesCharged, IosCharged;
      assert was <= es[0].now;
      Earlier(0, was, es);
      RateBound(L, es);
      var u := es[|es| - 1].now - es[0].now;
      MulMono(L.bps, u + L.slice, t - was + L.slice);
      MulMono(L.iops, u + L.slice, t - was + L.slice);
    }
  }

  /** The rate bound of the group: in every run of arrivals, updates and dispatches from a new
      group, the bios of a direction handed to the device fit both limits of that direction over
      the time of the run plus one interval -- whatever the other direction does. */
  lemma GroupRateBound(Ls: seq<Limits>, ops: seq<Op>, rw: nat)
    requires GroupOk(Ls, NEW_GROUP) && ops != [] && OpsOk(ops[0].now, ops) && rw < 2
    ensures var sent := AllSent(Ls, NEW_GROUP, ops, ops[0].now, rw);
            var t := ops[|ops| - 1].now - ops[0].now;
            && Ls[rw].hz * Sum(sent) <= Ls[rw].bps * (t + Ls[rw].slice)
            && Ls[rw].hz * |sent| <= Ls[rw].iops * (t + Ls[rw].slice)
  {
    hide AllSent, AllEvents, GroupRun, Follows, OpsOk, Sum;
    var was := ops[0].now;
    RunIsRun(Ls, NEW_GROUP, ops, was, rw);
    FollowsBound(Ls[rw], GroupRun(Ls, NEW_GROUP, ops, was)[rw].slice, AllEvents(Ls, NEW_GROUP, ops, was, rw),
                 was, ops[|ops| - 1].now, AllSent(Ls, NEW_GROUP, ops, was, rw));
  }
}
