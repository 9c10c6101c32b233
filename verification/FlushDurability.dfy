/**
 * What a reported success means: the promises of FLUSH and FUA over a device that may lose
 * everything in its cache, for every run of the sequencer.
 */
module FlushDurability {
  import opened Flush

  function NeededBy(c: Caps, rq: Rq): seq<Kind> {
    Needed(PreOf(c, rq), rq.data, PostOf(c, rq))
  }

  /** The stages of a reported request are the needed ones in order, and its error is the first that any of them had. */
  predicate Accounted(c: Caps, r: Report) {
    r.issued == NeededBy(c, r.rq) && |r.errs| == |r.issued| && r.err == FirstError(r.errs)
  }

  /** FLUSH: all writes completed before are stable. FUA: the request's own data is stable. */
  predicate Kept(stable: set<nat>, r: Report) {
    r.err == 0 ==> (r.rq.flush ==> r.before <= stable) && (r.rq.fua && r.rq.data ==> r.rq.id in stable)
  }

  ghost predicate ReportsOk(q: Queue) {
    forall r <- q.reports :: Accounted(q.caps, r) && Kept(q.stable, r)
  }

  /** What the stages completed so far have made of the device, as long as none of them failed. */
  ghost predicate SoFar(q: Queue) {
    q.run.Running? ==>
      && q.run.before <= q.done
      && (q.flushErr == 0 ==>
            && (!CurKind(q.flushSeq).PreFlush? && q.run.rq.flush ==> q.run.before <= q.stable)
            && (CurKind(q.flushSeq).PostFlush? && q.run.rq.data ==> q.run.rq.id in q.done))
  }

  /** A flush at the device covers the writes that the sequence needs it for. */
  ghost predicate Covers(q: Queue, f: Flying) {
    && f.snap <= q.done
    && (f.entry.Stage? && q.run.Running? ==>
          && (f.entry.kind.PreFlush? ==> q.run.before <= f.snap)
          && (f.entry.kind.PostFlush? && q.flushErr == 0 && q.run.rq.data ==> q.run.rq.id in f.snap))
  }

  ghost predicate Durable(q: Queue) {
    && (!q.caps.flush ==> q.done <= q.stable)
    && SoFar(q)
    && (forall f <- q.flight :: Covers(q, f))
    && ReportsOk(q)
  }

  /** No stage is at the device. */
  lemma {:induction false} NoStageFlying(fs: seq<Flying>, f: Flying)
    requires StagesOf(Entries(fs)) == [] && f in fs
    ensures f.entry.Normal?
  {
    hide StagesOf, Entries;
    var i :| 0 <= i < |fs| && fs[i] == f;
    FlightAround(fs, i);
    assert |StageOf(fs[i].entry)| == 0;
  }

  lemma IdleFlight(q: Queue)
    requires RunOk(q) && q.run.Idle?
    ensures forall f <- q.flight :: f.entry.Normal?
  {
    hide StagesOf, Entries, Progress;
    forall f <- q.flight
      ensures f.entry.Normal?
    {
      NoStageFlying(q.flight, f);
    }
  }

  lemma DoFlushDurable(q: Queue)
    requires Safe(q) && Durable(q) && q.head != [] && q.head[0].Normal?
    ensures Durable(DoFlush(q))
  {
    hide RunOk, CurSeq, CurKind, BitsAt, CompleteSeq, Skip, FirstError, Needed, NotStalled;
    HeadOk(q);
    SafeRun(q);
    var item := q.head[0].item;
    if Direct(q.caps, item) {
    } else if q.flushSeq != 0 {
    } else {
      IdleFromBits(q);
      IdleFlight(q);
      if Sequenced(q.caps, item.rq) {
        BeginDurable(q);
      } else {
        OverSafe(q);
        OverDurable(q);
      }
    }
  }

  lemma IdleFromBits(q: Queue)
    requires RunOk(q) && q.flushSeq == 0
    ensures q.run.Idle?
  {
  }

  lemma NothingNeeded()
    ensures Needed(false, false, false) == [] && FirstError([]) == 0
  {
  }

  lemma BeginDurable(q: Queue)
    requires Durable(q) && q.head != [] && q.head[0].Normal? && q.flushSeq == 0 && Fresh(q.caps, q.head[0].item)
    requires Sequenced(q.caps, q.head[0].item.rq) && forall f <- q.flight :: f.entry.Normal?
    ensures Durable(DoFlush(q))
  {
    hide DoFlush, Hands, CurSeq, CurKind, BitsAt, Accounted, Kept;
    BeginsAt(q);
    var rq := q.head[0].item.rq;
    var k := First(PreOf(q.caps, rq), rq.data, PostOf(q.caps, rq)).kind;
    AdvanceBits(PreOf(q.caps, rq), rq.data, PostOf(q.caps, rq), k);
  }

  lemma OverDurable(q: Queue)
    requires Durable(q) && q.head != [] && q.head[0].Normal? && q.flushSeq == 0 && Fresh(q.caps, q.head[0].item)
    requires !Sequenced(q.caps, q.head[0].item.rq) && !q.head[0].item.rq.data && q.pending == []
    requires forall f <- q.flight :: f.entry.Normal?
    ensures Durable(DoFlush(q))
  {
    hide DoFlush, Hands, CurKind, FirstError, Needed;
    BeginsOver(q);
    NothingNeeded();
    var r := DoFlush(q);
    assert forall p <- r.reports :: p in q.reports || p == Report(q.head[0].item.rq, q.done, [], [], 0);
  }

  /** Looking for work promises nothing new that is not kept. */
  lemma {:induction false} NextDurable(q: Queue)
    requires Safe(q) && Durable(q)
    ensures Durable(Next(q))
    decreases |q.waiting|, |q.head|
  {
    hide Safe, Durable, DoFlush, Hands;
    if q.head != [] {
      if Flagged(q.head[0]) {
        DoFlushShrinks(q);
        DoFlushSafe(q);
        DoFlushDurable(q);
        if !Hands(q) {
          NextDurable(DoFlush(q));
        }
      }
    } else if q.waiting != [] {
      RefillSafe(q);
      var r := q.(waiting := q.waiting[1..], head := [Normal(q.waiting[0])]);
      ListsOnly(q, r);
      NextDurable(r);
    }
  }

  lemma ListsOnly(q: Queue, r: Queue)
    requires Durable(q) && r == q.(head := r.head, pending := r.pending, waiting := r.waiting)
    ensures Durable(r)
  {
    hide Accounted, Kept, CurKind;
  }

  /** A stage on the dispatch list is the current one. */
  lemma HeadStage(q: Queue)
    requires RunOk(q) && q.head != [] && q.head[0].Stage?
    ensures q.run.Running? && q.head[0].kind == CurKind(q.flushSeq)
  {
    hide StagesOf, Entries, Progress, CurKind;
    assert q.head == [q.head[0]] + q.head[1..];
    StagesFront(q.head[0], q.head[1..]);
    assert Outstanding(q)[0] == q.head[0].kind;
  }

  lemma StartDurable(q: Queue)
    requires Safe(q) && Durable(q) && q.head != []
    ensures Durable(Start(q))
  {
    hide RunOk, ListsOk, NotStalled, Accounted, Kept, CurKind;
    SafeRun(q);
    if q.head[0].Stage? {
      HeadStage(q);
    }
    var f := Flying(q.head[0], q.done);
    assert Covers(q, f);
    assert forall g <- Start(q).flight :: g in q.flight || g == f;
  }

  /** Writes and flushes only ever add to what the device holds. */
  lemma DeviceGrows(q: Queue, f: Flying, err: int)
    ensures q.done <= Device(q, f, err).done && q.stable <= Device(q, f, err).stable
    ensures !q.caps.flush && q.done <= q.stable ==> Device(q, f, err).done <= Device(q, f, err).stable
  {
  }

  lemma NormalDurable(q: Queue, i: nat, err: int)
    requires Safe(q) && Durable(q) && i < |q.flight| && q.flight[i].entry.Normal?
    ensures Durable(Step(q, Complete(i, err)))
  {
    hide RunOk, NotStalled, CurKind, FirstError, Needed, Without;
    var f := q.flight[i];
    var q' := q.(flight := Without(q.flight, i));
    var r := Step(q, Complete(i, err));
    assert f in q.flight;
    assert Cleared(q.caps, f.entry.item) && Covers(q, f);
    NormalDone(q, i, err);
    DeviceGrows(q', f, err);
    WithoutDef(q.flight, i);
    NormalReport(q.caps, f.entry.item, f.snap, err);
    var p := Report(f.entry.item.rq, f.snap, [Data], [err], err);
    assert Kept(r.stable, p);
    assert forall g <- r.flight :: g in q.flight;
    assert forall o <- r.reports :: o in q.reports || o == p;
  }

  lemma NormalReport(c: Caps, item: Item, snap: set<nat>, err: int)
    requires Cleared(c, item)
    ensures Accounted(c, Report(item.rq, snap, [Data], [err], err))
  {
    assert [err][1..] == [];
  }

  /** With no error so far, the stages up to the completed one have had their effect. */
  ghost predicate Effect(b: Queue, k: Kind) {
    && b.run.Running?
    && (b.run.rq.flush ==> b.run.before <= b.stable)
    && (b.run.rq.data && !k.PreFlush? ==> b.run.rq.id in b.done)
    && (b.run.rq.data && k.Data? && b.run.fua ==> b.run.rq.id in b.stable)
    && (b.run.rq.data && k.PostFlush? ==> b.run.rq.id in b.stable)
  }

  lemma StageEffect(q: Queue, f: Flying)
    requires q.run.Running? && f.entry.Stage? && f.entry.kind == CurKind(q.flushSeq)
    requires SoFar(q) && Covers(q, f) && q.flushErr == 0
    ensures Effect(Device(q, f, 0), f.entry.kind)
  {
    hide CurKind;
  }

  /** A stage at the device completes and leaves no other there. */
  lemma NoOtherStage(q: Queue, i: nat)
    requires RunOk(q) && i < |q.flight| && q.flight[i].entry.Stage?
    ensures forall g <- Without(q.flight, i) :: g.entry.Normal? && g in q.flight
  {
    hide RunOk, StagesOf, Entries, CurKind;
    StageIsCurrent(q, i);
    forall g <- Without(q.flight, i)
      ensures g.entry.Normal?
    {
      NoStageFlying(Without(q.flight, i), g);
    }
  }

  lemma NextStageDurable(q: Queue, i: nat, err: int)
    requires Safe(q) && Durable(q) && i < |q.flight| && q.flight[i].entry.Stage?
    requires q.run.Running? && After(q.run.rq.data, PostOf(q.caps, q.run.rq), CurKind(q.flushSeq)).At?
    ensures Durable(Step(q, Complete(i, err)))
  {
    hide Step, Device, RunOk, ListsOk, NotStalled, BitsAt, CurSeq, CurKind, Accounted, Without, StagesOf, Entries;
    SafeRun(q);
    var f := q.flight[i];
    var q' := q.(flight := Without(q.flight, i));
    StageDone(q, i, err);
    StageIsCurrent(q, i);
    NoOtherStage(q, i);
    DeviceOnly(q', f, err);
    DeviceGrows(q', f, err);
    assert f in q.flight;
    assert Covers(q', f);
    if NewErr(q, err) == 0 {
      StageEffect(q', f);
    }
    NextCurKind(q);
  }

  lemma NextCurKind(q: Queue)
    requires RunOk(q) && q.run.Running?
    requires After(q.run.rq.data, PostOf(q.caps, q.run.rq), CurKind(q.flushSeq)).At?
    ensures var rq := q.run.rq; var k := After(rq.data, PostOf(q.caps, rq), CurKind(q.flushSeq)).kind;
            CurKind(BitsAt(PreOf(q.caps, rq), rq.data, PostOf(q.caps, rq), k)) == k
  {
    hide Outstanding, CurSeq, CurKind, BitsAt, Upto, FirstError, After;
    var rq := q.run.rq;
    var k := CurKind(q.flushSeq);
    AfterWanted(PreOf(q.caps, rq), rq.data, PostOf(q.caps, rq), k);
    AdvanceBits(PreOf(q.caps, rq), rq.data, PostOf(q.caps, rq), After(rq.data, PostOf(q.caps, rq), k).kind);
  }

  /** The report at the end of a sequence keeps its promises. */
  lemma LastReport(q: Queue, i: nat, err: int)
    requires Safe(q) && Durable(q) && i < |q.flight| && q.flight[i].entry.Stage?
    requires q.run.Running? && After(q.run.rq.data, PostOf(q.caps, q.run.rq), CurKind(q.flushSeq)).Over?
    ensures var r := Report(q.run.rq, q.run.before, q.run.issued, q.run.errs + [err], NewErr(q, err));
            Accounted(q.caps, r) && Kept(Device(q.(flight := Without(q.flight, i)), q.flight[i], err).stable, r)
  {
    hide Device, ListsOk, NotStalled, Reads, CurSeq, CurKind, Without, StagesOf, Entries, FirstError, Upto, Needed;
    var f := q.flight[i];
    var q' := q.(flight := Without(q.flight, i));
    StageIsCurrent(q, i);
    DeviceOnly(q', f, err);
    assert f in q.flight;
    assert Covers(q', f);
    FirstErrorAppend(q.run.errs, err);
    CurWanted(q);
    AdvanceStages(PreOf(q.caps, q.run.rq), q.run.rq.data, PostOf(q.caps, q.run.rq), CurKind(q.flushSeq));
    if NewErr(q, err) == 0 {
      StageEffect(q', f);
    }
  }

  lemma CurWanted(q: Queue)
    requires RunOk(q) && q.run.Running?
    ensures Wanted(PreOf(q.caps, q.run.rq), q.run.rq.data, PostOf(q.caps, q.run.rq), CurKind(q.flushSeq))
  {
    hide Outstanding, CurSeq, CurKind, BitsAt, Upto, FirstError;
  }

  lemma LastStageDurable(q: Queue, i: nat, err: int)
    requires Safe(q) && Durable(q) && i < |q.flight| && q.flight[i].entry.Stage?
    requires q.run.Running? && After(q.run.rq.data, PostOf(q.caps, q.run.rq), CurKind(q.flushSeq)).Over?
    ensures Durable(Step(q, Complete(i, err)))
  {
    hide Step, Device, RunOk, ListsOk, NotStalled, CurKind, Accounted, After, Without, Or, Bit;
    SafeRun(q);
    var f := q.flight[i];
    var q' := q.(flight := Without(q.flight, i));
    var r := Step(q, Complete(i, err));
    StageDone(q, i, err);
    NoOtherStage(q, i);
    DeviceOnly(q', f, err);
    DeviceGrows(q', f, err);
    LastReport(q, i, err);
    var p := Report(q.run.rq, q.run.before, q.run.issued, q.run.errs + [err], NewErr(q, err));
    assert r.reports == q.reports + [p];
    assert forall o <- r.reports :: o in q.reports || o == p;
    assert forall g <- r.flight :: g.entry.Normal? && g in q.flight;
  }

  lemma StepDurable(q: Queue, e: Event)
    requires Safe(q) && Durable(q) && Enabled(q, e) && SaneEvent(q.caps, e)
    ensures Durable(Step(q, e))
  {
    hide Safe, Durable, Next, CurKind, After, Device, Finish;
    match e
    case Insert(rq, at) => ListsOnly(q, Step(q, e));
    case Enqueue(rq) => ListsOnly(q, Step(q, e));
    case Fetch(start) =>
      NextSafe(q);
      NextDurable(q);
      if start && Next(q).head != [] {
        StartDurable(Next(q));
      }
    case Complete(i, err) =>
      SafeRun(q);
      if q.flight[i].entry.Normal? {
        NormalDurable(q, i, err);
      } else {
        StageIsCurrent(q, i);
        if After(q.run.rq.data, PostOf(q.caps, q.run.rq), CurKind(q.flushSeq)).At? {
          NextStageDurable(q, i, err);
        } else {
          LastStageDurable(q, i, err);
        }
      }
  }

  // ---------------------------------------------------------------------------------------
  // Every run
  // ---------------------------------------------------------------------------------------

  function Initial(c: Caps): Queue {
    Queue(c, 0, 0, Idle, [], [], [], [], {}, {}, [])
  }

  /** The events can happen one after the other from here. */
  predicate Possible(q: Queue, es: seq<Event>)
    decreases |es|
  {
    es == [] || (Enabled(q, es[0]) && Possible(Step(q, es[0]), es[1..]))
  }

  function Runs(q: Queue, es: seq<Event>): Queue
    requires Possible(q, es)
    decreases |es|
  {
    if es == [] then q else Runs(Step(q, es[0]), es[1..])
  }

  ghost predicate SaneEvents(c: Caps, es: seq<Event>) {
    forall e <- es :: SaneEvent(c, e)
  }

  lemma {:induction false} RunsSafe(q: Queue, es: seq<Event>)
    requires Safe(q) && Durable(q) && Possible(q, es) && SaneEvents(q.caps, es)
    ensures Safe(Runs(q, es)) && Durable(Runs(q, es)) && Runs(q, es).caps == q.caps
    decreases |es|
  {
    hide Safe, Durable, Step, Enabled, SaneEvent;
    if es != [] {
      StepSafe(q, es[0]);
      StepDurable(q, es[0]);
      RunsSafe(Step(q, es[0]), es[1..]);
    }
  }

  lemma InitialSafe(c: Caps)
    requires c.fua ==> c.flush
    ensures Safe(Initial(c)) && Durable(Initial(c))
  {
  }

  /**
   * For every run: a reported success means that the writes completed before a FLUSH began are
   * stable and that the data of a FUA write is; it is reported only if every stage succeeded, and
   * the stages are exactly the needed ones, in order.
   */
  lemma FlushKeepsPromises(c: Caps, es: seq<Event>)
    requires (c.fua ==> c.flush) && Possible(Initial(c), es) && SaneEvents(c, es)
    ensures var q := Runs(Initial(c), es);
            forall r <- q.reports ::
              && Kept(q.stable, r)
              && r.issued == NeededBy(c, r.rq)
              && |r.errs| == |r.issued|
              && (r.err == 0 <==> forall e <- r.errs :: e == 0)
  {
    hide Safe, Possible, Runs, Initial, NeededBy, Kept, FirstError, SoFar;
    InitialSafe(c);
    InitialCaps(c);
    RunsSafe(Initial(c), es);
    var q := Runs(Initial(c), es);
    forall r <- q.reports
      ensures r.err == 0 <==> forall e <- r.errs :: e == 0
    {
      FirstErrorZero(r.errs);
    }
  }

  lemma InitialCaps(c: Caps)
    ensures Initial(c).caps == c
  {
  }

  lemma {:induction false} FirstErrorZero(errs: seq<int>)
    ensures FirstError(errs) == 0 <==> forall e <- errs :: e == 0
  {
    if errs != [] {
      FirstErrorZero(errs[1..]);
      assert errs[0] in errs;
      assert forall e <- errs[1..] :: e in errs;
      assert forall e <- errs :: e == errs[0] || e in errs[1..];
    }
  }

  /** For every run: at most one stage is outstanding, no BUG is reached, and pending requests are not stranded. */
  lemma FlushIsSafe(c: Caps, es: seq<Event>)
    requires (c.fua ==> c.flush) && Possible(Initial(c), es) && SaneEvents(c, es)
    ensures var q := Runs(Initial(c), es);
            && |Outstanding(q)| <= 1
            && (q.flushSeq != 0 <==> q.run.Running?)
            && (forall i :: 0 <= i < |q.flight| && q.flight[i].entry.Stage? ==>
                  && And(q.flushSeq, Bit(q.flight[i].entry.kind)) == 0
                  && CurSeq(Or(q.flushSeq, Bit(q.flight[i].entry.kind))) in {PREFLUSH, DATA, POSTFLUSH, DONE})
            && NotStalled(q)
  {
    hide Possible, Runs, Initial, ListsOk, NotStalled, Durable, CurSeq, CurKind, Bit, Or, And, Reads, Outstanding, Upto, FirstError;
    InitialSafe(c);
    InitialCaps(c);
    RunsSafe(Initial(c), es);
    var q := Runs(Initial(c), es);
    forall i | 0 <= i < |q.flight| && q.flight[i].entry.Stage?
      ensures And(q.flushSeq, Bit(q.flight[i].entry.kind)) == 0
      ensures CurSeq(Or(q.flushSeq, Bit(q.flight[i].entry.kind))) in {PREFLUSH, DATA, POSTFLUSH, DONE}
    {
      NoBug(q, i);
    }
  }
}
