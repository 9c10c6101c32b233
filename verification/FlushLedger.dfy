/**
 * No request is lost by the sequencer and none is completed twice: over every run each submitted
 * request is in exactly one place. And the one request for which the sequencer breaks its promise.
 */
module FlushLedger {
  import opened Flush
  import opened FlushDurability

  function EntryId(e: Entry): multiset<nat> {
    if e.Normal? then multiset{e.item.rq.id} else multiset{}
  }

  function EntryIds(es: seq<Entry>): multiset<nat> {
    if es == [] then multiset{} else EntryId(es[0]) + EntryIds(es[1..])
  }

  function ItemIds(items: seq<Item>): multiset<nat> {
    if items == [] then multiset{} else multiset{items[0].rq.id} + ItemIds(items[1..])
  }

  function ReportIds(rs: seq<Report>): multiset<nat> {
    if rs == [] then multiset{} else multiset{rs[0].rq.id} + ReportIds(rs[1..])
  }

  function RunId(s: Sequence): multiset<nat> {
    if s.Running? then multiset{s.rq.id} else multiset{}
  }

  /** The requests held anywhere: on a list, in a sequence, at the device, or reported. */
  function Held(q: Queue): multiset<nat> {
    EntryIds(q.head) + ItemIds(q.pending) + ItemIds(q.waiting) + EntryIds(Entries(q.flight)) + RunId(q.run) + ReportIds(q.reports)
  }

  lemma {:induction false} EntryIdsConcat(a: seq<Entry>, b: seq<Entry>)
    ensures EntryIds(a + b) == EntryIds(a) + EntryIds(b)
  {
    hide EntryId;
    if a == [] {
      assert a + b == b;
    } else {
      EntryIdsConcat(a[1..], b);
      assert (a + b)[1..] == a[1..] + b;
      assert EntryIds(a + b) == EntryId(a[0]) + EntryIds(a[1..] + b);
    }
  }

  lemma EntryIdsFront(e: Entry, es: seq<Entry>)
    ensures EntryIds([e] + es) == EntryId(e) + EntryIds(es)
  {
    assert ([e] + es)[1..] == es;
  }

  lemma EntryIdsAround(a: seq<Entry>, e: Entry, b: seq<Entry>)
    ensures EntryIds(a + [e] + b) == EntryIds(a) + EntryId(e) + EntryIds(b)
  {
    EntryIdsConcat(a + [e], b);
    EntryIdsConcat(a, [e]);
    EntryIdsFront(e, []);
    assert [e] + [] == [e];
  }

  lemma {:induction false} ItemIdsAppend(items: seq<Item>, i: Item)
    ensures ItemIds(items + [i]) == ItemIds(items) + multiset{i.rq.id}
  {
    if items == [] {
      assert items + [i] == [i];
    } else {
      ItemIdsAppend(items[1..], i);
      assert (items + [i])[1..] == items[1..] + [i];
    }
  }

  lemma {:induction false} ReportIdsAppend(rs: seq<Report>, r: Report)
    ensures ReportIds(rs + [r]) == ReportIds(rs) + multiset{r.rq.id}
  {
    if rs == [] {
      assert rs + [r] == [r];
    } else {
      ReportIdsAppend(rs[1..], r);
      assert (rs + [r])[1..] == rs[1..] + [r];
    }
  }

  lemma FlightIds(fs: seq<Flying>, i: nat)
    requires i < |fs|
    ensures EntryIds(Entries(fs)) == EntryIds(Entries(Without(fs, i))) + EntryId(fs[i].entry)
  {
    hide *;
    assert fs == fs[..i] + [fs[i]] + fs[i + 1..];
    EntriesAround(fs[..i], fs[i], fs[i + 1..]);
    EntryIdsAround(Entries(fs[..i]), fs[i].entry, Entries(fs[i + 1..]));
    WithoutDef(fs, i);
    EntriesConcat(fs[..i], fs[i + 1..]);
    EntryIdsConcat(Entries(fs[..i]), Entries(fs[i + 1..]));
  }

  lemma EndHeld(q: Queue)
    ensures Held(EndSequence(q)) == Held(q)
  {
    hide EntryIds, ReportIds, Entries;
    if q.run.Running? {
      ReportIdsAppend(q.reports, Report(q.run.rq, q.run.before, q.run.issued, q.run.errs, q.flushErr));
    }
    if q.pending != [] {
      EntryIdsFront(Normal(q.pending[0]), q.head);
    }
  }

  lemma CompleteSeqHeld(q: Queue, bits: bv8, err: int)
    ensures Held(CompleteSeq(q, bits, err)) == Held(q)
  {
    hide Held, QueueNext, EndSequence, CurSeq, Or;
    var q' := q.(flushErr := NewErr(q, err), flushSeq := Or(q.flushSeq, bits));
    SameHeld(q, q');
    EndHeld(q');
    NextStageHeld(q');
  }

  lemma SameHeld(q: Queue, r: Queue)
    requires r == q.(flushErr := r.flushErr, flushSeq := r.flushSeq)
    ensures Held(r) == Held(q)
  {
  }

  lemma NextStageHeld(q: Queue)
    ensures Held(QueueNext(q)) == Held(q)
  {
    hide EntryIds, ReportIds, ItemIds, Entries, CurKind;
    EntryIdsFront(Stage(CurKind(q.flushSeq)), q.head);
    assert EntryId(Stage(CurKind(q.flushSeq))) == multiset{};
    assert RunId(QueueNext(q).run) == RunId(q.run);
    assert EntryIds(QueueNext(q).head) == EntryIds(q.head);
  }

  lemma DoFlushHeld(q: Queue)
    requires RunOk(q) && q.head != [] && q.head[0].Normal?
    ensures Held(DoFlush(q)) == Held(q)
  {
    hide EntryIds, ReportIds, ItemIds, Entries, CompleteSeq, RunOk, Skip, Or;
    var item := q.head[0].item;
    assert q.head == [q.head[0]] + q.head[1..];
    EntryIdsFront(q.head[0], q.head[1..]);
    if Direct(q.caps, item) {
      EntryIdsFront(Normal(Adjusted(q.caps, item)), q.head[1..]);
    } else if q.flushSeq != 0 {
      ItemIdsAppend(q.pending, item);
    } else {
      IdleFromBits(q);
      CompleteSeqHeld(Begin(q), SkipOf(q.caps, item), 0);
    }
  }

  lemma {:induction false} NextHeld(q: Queue)
    requires Safe(q)
    ensures Held(Next(q)) == Held(q)
    decreases |q.waiting|, |q.head|
  {
    hide Safe, Held, DoFlush, Hands;
    if q.head != [] {
      if Flagged(q.head[0]) {
        SafeRun(q);
        DoFlushShrinks(q);
        DoFlushSafe(q);
        DoFlushHeld(q);
        if !Hands(q) {
          NextHeld(DoFlush(q));
        }
      }
    } else if q.waiting != [] {
      RefillSafe(q);
      RefillHeld(q);
      NextHeld(q.(waiting := q.waiting[1..], head := [Normal(q.waiting[0])]));
    }
  }

  lemma RefillHeld(q: Queue)
    requires q.head == [] && q.waiting != []
    ensures Held(q.(waiting := q.waiting[1..], head := [Normal(q.waiting[0])])) == Held(q)
  {
    hide Entries, ReportIds;
    EntryIdsFront(Normal(q.waiting[0]), []);
    assert [Normal(q.waiting[0])] + [] == [Normal(q.waiting[0])];
  }

  lemma StartHeld(q: Queue)
    ensures Held(Start(q)) == Held(q)
  {
    hide EntryIds, ReportIds, ItemIds, Entries;
    if q.head != [] {
      assert q.head == [q.head[0]] + q.head[1..];
      EntryIdsFront(q.head[0], q.head[1..]);
      var f := Flying(q.head[0], q.done);
      EntriesAround(q.flight, f, []);
      assert q.flight + [f] == q.flight + [f] + [];
      EntryIdsAround(Entries(q.flight), q.head[0], Entries([]));
      NoIds();
    }
  }

  lemma NoIds()
    ensures Entries([]) == [] && EntryIds([]) == multiset{}
  {
  }

  function Submitted(e: Event): multiset<nat> {
    match e
    case Insert(rq, _) => multiset{rq.id}
    case Enqueue(rq) => multiset{rq.id}
    case _ => multiset{}
  }

  lemma InsertHeld(q: Queue, rq: Rq, at: nat)
    requires at <= |q.head|
    ensures Held(Step(q, Insert(rq, at))) == Held(q) + multiset{rq.id}
  {
    hide EntryIds, ReportIds, ItemIds, Entries;
    assert q.head == q.head[..at] + q.head[at..];
    EntryIdsConcat(q.head[..at], q.head[at..]);
    EntryIdsAround(q.head[..at], Normal(Item(rq, rq.flush, rq.fua)), q.head[at..]);
  }

  lemma CompleteHeld(q: Queue, i: nat, err: int)
    requires i < |q.flight|
    ensures Held(Step(q, Complete(i, err))) == Held(q)
  {
    hide EntryIds, ReportIds, ItemIds, Entries, CompleteSeq, Without, Device, Bit;
    var r := Step(q, Complete(i, err));
    var f := q.flight[i];
    var q' := q.(flight := Without(q.flight, i));
    FlightIds(q.flight, i);
    DeviceOnly(q', f, err);
    var b := Device(q', f, err);
    match f.entry
    case Normal(item) => ReportIdsAppend(q.reports, Report(item.rq, f.snap, [Data], [err], err));
    case Stage(kind) => CompleteSeqHeld(LogError(b, err), Bit(kind), err);
  }

  lemma StepHeld(q: Queue, e: Event)
    requires Safe(q) && Enabled(q, e)
    ensures Held(Step(q, e)) == Held(q) + Submitted(e)
  {
    hide Safe, Next;
    match e
    case Insert(rq, at) => InsertHeld(q, rq, at);
    case Enqueue(rq) => ItemIdsAppend(q.waiting, Item(rq, rq.flush, rq.fua));
    case Fetch(start) =>
      NextHeld(q);
      StartHeld(Next(q));
    case Complete(i, err) => CompleteHeld(q, i, err);
  }

  function AllSubmitted(es: seq<Event>): multiset<nat> {
    if es == [] then multiset{} else Submitted(es[0]) + AllSubmitted(es[1..])
  }

  /** Over every run, the requests held are exactly those that were held or have been submitted. */
  lemma {:induction false} RunsHeld(q: Queue, es: seq<Event>)
    requires Safe(q) && Possible(q, es) && SaneEvents(q.caps, es)
    ensures Held(Runs(q, es)) == Held(q) + AllSubmitted(es)
    decreases |es|
  {
    hide Safe, Held, Step, Enabled, SaneEvent, Submitted;
    if es != [] {
      StepSafe(q, es[0]);
      StepHeld(q, es[0]);
      RunsHeld(Step(q, es[0]), es[1..]);
    }
  }

  /** A request that is submitted once is in exactly one place, and so is reported at most once. */
  lemma ReportedOnce(c: Caps, es: seq<Event>, id: nat)
    requires (c.fua ==> c.flush) && Possible(Initial(c), es) && SaneEvents(c, es)
    requires AllSubmitted(es)[id] == 1
    ensures Held(Runs(Initial(c), es))[id] == 1
    ensures ReportIds(Runs(Initial(c), es).reports)[id] <= 1
  {
    hide Safe, Durable, Possible, Runs;
    InitialSafe(c);
    RunsHeld(Initial(c), es);
  }

  /** When nothing is left on the lists or at the device, every submitted request has been reported,
      as often as it was submitted. */
  lemma AllReported(c: Caps, es: seq<Event>)
    requires (c.fua ==> c.flush) && Possible(Initial(c), es) && SaneEvents(c, es)
    requires var q := Runs(Initial(c), es); q.head == [] && q.waiting == [] && q.flight == []
    ensures ReportIds(Runs(Initial(c), es).reports) == AllSubmitted(es)
  {
    hide Safe, Durable, Possible, Runs, ReportIds, AllSubmitted;
    InitialSafe(c);
    InitialCaps(c);
    RunsSafe(Initial(c), es);
    RunsHeld(Initial(c), es);
    NothingHeld(c);
    QuietQueue(Runs(Initial(c), es));
  }

  lemma NothingHeld(c: Caps)
    ensures Held(Initial(c)) == multiset{}
  {
  }

  /** Without an entry on the dispatch list or at the device no sequence runs and nothing is pending. */
  lemma QuietQueue(q: Queue)
    requires Safe(q) && q.head == [] && q.waiting == [] && q.flight == []
    ensures Held(q) == ReportIds(q.reports)
  {
    hide Progress, ListsOk, ReportIds, CurKind;
    NoIds();
    NoEntries();
  }

  // ---------------------------------------------------------------------------------------
  // An empty request that asks for FUA alone
  // ---------------------------------------------------------------------------------------

  /**
   * blk_do_flush gives the driver a request that still needs its sequence exactly when it was called
   * for an empty request that needs no flush while others were pending.
   */
  lemma HandsOverUnsequenced(q: Queue)
    requires q.head != [] && q.head[0].Normal? && q.flushSeq == 0
    requires q.head[0].item.flush == q.head[0].item.rq.flush && q.head[0].item.fua == q.head[0].item.rq.fua
    requires forall i <- q.pending :: Fresh(q.caps, i) && Sequenced(q.caps, i.rq)
    ensures (Hands(q) && DoFlush(q).head[0].Normal? && Sequenced(q.caps, DoFlush(q).head[0].item.rq))
       <==> (!q.head[0].item.rq.data && !Sequenced(q.caps, q.head[0].item.rq) && q.pending != [])
  {
    hide CurSeq, CurKind, Skip, BitsAt, Or;
    var rq := q.head[0].item.rq;
    BeginBits(PreOf(q.caps, rq), rq.data, PostOf(q.caps, rq));
  }

  // A device with FUA. A write is at the device while another request's preflush is; an empty
  // FUA-only request and then a FLUSH write have to wait for that sequence.
  const CACHED := Caps(true, true)
  const WRITE := Rq(1, false, false, true)
  const BARRIER := Rq(2, true, false, false)
  const EMPTY_FUA := Rq(3, false, true, false)
  const FLUSH_WRITE := Rq(4, true, false, true)

  function Whole(rq: Rq): Entry {
    Normal(Item(rq, rq.flush, rq.fua))
  }

  /** The preflush of the first request, which its own request did not complete. */
  function Waiting(head: seq<Entry>, pending: seq<Item>, flight: seq<Flying>, done: set<nat>): Queue {
    Queue(CACHED, 13, 0, Running(BARRIER, false, {}, [PreFlush], []), head, pending, [], flight, done, {}, [])
  }

  lemma Chain(q: Queue, e: Event, r: Queue, es: seq<Event>)
    requires Enabled(q, e) && Step(q, e) == r && Possible(r, es)
    ensures Possible(q, [e] + es) && Runs(q, [e] + es) == Runs(r, es)
  {
    hide Step, Enabled;
    assert ([e] + es)[1..] == es;
  }

  lemma WriteStarts()
    ensures var q := Initial(CACHED);
            && Step(q, Insert(WRITE, 0)) == q.(head := [Whole(WRITE)])
            && Step(q.(head := [Whole(WRITE)]), Fetch(true)) == q.(flight := [Flying(Whole(WRITE), {})])
  {
    hide DoFlush, Hands, Possible, Runs;
  }

  lemma BarrierBits()
    ensures BitsAt(true, false, false, PreFlush) == 13
  {
  }

  lemma BarrierStarts()
    ensures var q := Initial(CACHED).(flight := [Flying(Whole(WRITE), {})]);
            && Step(q, Insert(BARRIER, 0)) == q.(head := [Whole(BARRIER)])
            && Step(q.(head := [Whole(BARRIER)]), Fetch(true))
            == Waiting([], [], [Flying(Whole(WRITE), {}), Flying(Stage(PreFlush), {})], {})
  {
    hide DoFlush, Hands, BitsAt, Possible, Runs;
    var q := Initial(CACHED).(flight := [Flying(Whole(WRITE), {})]);
    var b := q.(head := [Whole(BARRIER)]);
    assert Step(q, Insert(BARRIER, 0)) == b;
    BeginsAt(b);
    BarrierBits();
    assert Next(b) == Waiting([Stage(PreFlush)], [], [Flying(Whole(WRITE), {})], {});
  }

  lemma OthersWait()
    ensures var fs := [Flying(Whole(WRITE), {}), Flying(Stage(PreFlush), {})];
            var items := [Item(EMPTY_FUA, false, true), Item(FLUSH_WRITE, true, false)];
            && Step(Waiting([], [], fs, {}), Insert(FLUSH_WRITE, 0)) == Waiting([Whole(FLUSH_WRITE)], [], fs, {})
            && Step(Waiting([Whole(FLUSH_WRITE)], [], fs, {}), Insert(EMPTY_FUA, 0)) == Waiting([Whole(EMPTY_FUA), Whole(FLUSH_WRITE)], [], fs, {})
            && Step(Waiting([Whole(EMPTY_FUA), Whole(FLUSH_WRITE)], [], fs, {}), Fetch(false)) == Waiting([], items, fs, {})
  {
    hide CompleteSeq, Possible, Runs;
    var fs := [Flying(Whole(WRITE), {}), Flying(Stage(PreFlush), {})];
    var q := Waiting([Whole(EMPTY_FUA), Whole(FLUSH_WRITE)], [], fs, {});
    var q' := Waiting([Whole(FLUSH_WRITE)], [Item(EMPTY_FUA, false, true)], fs, {});
    assert Step(Waiting([], [], fs, {}), Insert(FLUSH_WRITE, 0)) == Waiting([Whole(FLUSH_WRITE)], [], fs, {});
    assert Step(Waiting([Whole(FLUSH_WRITE)], [], fs, {}), Insert(EMPTY_FUA, 0)) == q;
    assert DoFlush(q) == q' && !Hands(q);
    assert DoFlush(q') == Waiting([], [Item(EMPTY_FUA, false, true), Item(FLUSH_WRITE, true, false)], fs, {}) && !Hands(q');
    assert Next(DoFlush(q')) == DoFlush(q');
    assert Next(q') == Next(DoFlush(q'));
    assert Next(q) == Next(q');
  }

  const LATE := Report(WRITE, {}, [Data], [0], 0)

  lemma WriteCompletes(items: seq<Item>)
    ensures Step(Waiting([], items, [Flying(Whole(WRITE), {}), Flying(Stage(PreFlush), {})], {}), Complete(0, 0))
         == Waiting([], items, [Flying(Stage(PreFlush), {})], {1}).(reports := [LATE])
  {
    var q := Waiting([], items, [Flying(Whole(WRITE), {}), Flying(Stage(PreFlush), {})], {});
    NormalDone(q, 0, 0);
    assert Without(q.flight, 0) == [Flying(Stage(PreFlush), {})];
  }

  /** The sequence is over: the empty request comes off the pending list, the FLUSH write stays there. */
  function Over(reports: seq<Report>): Queue {
    Queue(CACHED, 0, 0, Idle, [Whole(EMPTY_FUA)], [Item(FLUSH_WRITE, true, false)], [], [], {1}, {}, reports)
  }

  lemma BarrierBitsEnd()
    ensures CurSeq(Or(13, Bit(PreFlush))) == DONE
  {
  }

  lemma BarrierCompletes()
    ensures var items := [Item(EMPTY_FUA, false, true), Item(FLUSH_WRITE, true, false)];
            Step(Waiting([], items, [Flying(Stage(PreFlush), {})], {1}).(reports := [LATE]), Complete(0, 0))
            == Over([LATE, Report(BARRIER, {}, [PreFlush], [0], 0)])
  {
    hide CurSeq, CurKind, Or, Possible, Runs;
    BarrierBitsEnd();
    var items := [Item(EMPTY_FUA, false, true), Item(FLUSH_WRITE, true, false)];
    var q := Waiting([], items, [Flying(Stage(PreFlush), {})], {1}).(reports := [LATE]);
    assert Without(q.flight, 0) == [];
    assert [] + [0] == [0];
    assert [LATE] + [Report(BARRIER, {}, [PreFlush], [0], 0)] == [LATE, Report(BARRIER, {}, [PreFlush], [0], 0)];
  }

  /** The empty request is reported at once and the driver is given the FLUSH write as it is. */
  lemma EmptyPasses(reports: seq<Report>)
    ensures Step(Over(reports), Fetch(true))
         == Over(reports + [Report(EMPTY_FUA, {1}, [], [], 0)]).(head := [], pending := [], flight := [Flying(Whole(FLUSH_WRITE), {1})])
  {
    hide CurSeq, CurKind, Or, Skip, Possible, Runs;
    BeginBits(false, false, false);
    var q := Over(reports);
    assert Hands(q);
    assert DoFlush(q) == Over(reports + [Report(EMPTY_FUA, {1}, [], [], 0)]).(head := [Whole(FLUSH_WRITE)], pending := []);
  }

  /** The FLUSH write completes and is reported, with the earlier write still in the cache. */
  lemma FlushWriteCompletes(reports: seq<Report>)
    ensures var q := Over(reports).(head := [], pending := [], flight := [Flying(Whole(FLUSH_WRITE), {1})]);
            var r := Step(q, Complete(0, 0));
            && r.stable == {}
            && r.reports == reports + [Report(FLUSH_WRITE, {1}, [Data], [0], 0)]
            && !Kept(r.stable, r.reports[|reports|])
  {
    var q := Over(reports).(head := [], pending := [], flight := [Flying(Whole(FLUSH_WRITE), {1})]);
    NormalDone(q, 0, 0);
  }

  const FINISH: seq<Event> := [Complete(0, 0)] + ([Complete(0, 0)] + ([Fetch(true)] + ([Complete(0, 0)] + [])))

  lemma FinishBreaks(q: Queue)
    requires q == Waiting([], [Item(EMPTY_FUA, false, true), Item(FLUSH_WRITE, true, false)],
                          [Flying(Whole(WRITE), {}), Flying(Stage(PreFlush), {})], {})
    ensures Possible(q, FINISH) && exists r <- Runs(q, FINISH).reports :: !Kept(Runs(q, FINISH).stable, r)
  {
    hide Step, Over, Possible, Runs, Kept;
    var items := [Item(EMPTY_FUA, false, true), Item(FLUSH_WRITE, true, false)];
    var r1 := Waiting([], items, [Flying(Stage(PreFlush), {})], {1}).(reports := [LATE]);
    var reports := [LATE, Report(BARRIER, {}, [PreFlush], [0], 0)];
    var reports' := reports + [Report(EMPTY_FUA, {1}, [], [], 0)];
    var r2 := Over(reports);
    var r3 := Over(reports').(head := [], pending := [], flight := [Flying(Whole(FLUSH_WRITE), {1})]);
    var r4 := Step(r3, Complete(0, 0));
    Stays(r4);
    FlushWriteCompletes(reports');
    EmptyPasses(reports);
    BarrierCompletes();
    WriteCompletes(items);
    Chain(r3, Complete(0, 0), r4, []);
    Chain(r2, Fetch(true), r3, [Complete(0, 0)] + []);
    Chain(r1, Complete(0, 0), r2, [Fetch(true)] + ([Complete(0, 0)] + []));
    Chain(q, Complete(0, 0), r1, [Complete(0, 0)] + ([Fetch(true)] + ([Complete(0, 0)] + [])));
    assert r4.reports[|reports'|] in r4.reports;
  }

  lemma Stays(q: Queue)
    ensures Possible(q, []) && Runs(q, []) == q
  {
  }

  const OTHERS: seq<Event> := [Insert(FLUSH_WRITE, 0)] + ([Insert(EMPTY_FUA, 0)] + ([Fetch(false)] + FINISH))
  const SCENARIO: seq<Event> := [Insert(WRITE, 0)] + ([Fetch(true)] + ([Insert(BARRIER, 0)] + ([Fetch(true)] + OTHERS)))

  /** One empty FUA-only request is enough for a FLUSH to be reported that has flushed nothing. */
  lemma EmptyFuaBreaksFlush()
    ensures Possible(Initial(CACHED), SCENARIO)
    ensures exists r <- Runs(Initial(CACHED), SCENARIO).reports :: !Kept(Runs(Initial(CACHED), SCENARIO).stable, r)
  {
    hide Step, Waiting, Possible, Runs, Kept;
    var fs := [Flying(Whole(WRITE), {}), Flying(Stage(PreFlush), {})];
    var q0 := Initial(CACHED);
    var q1 := q0.(head := [Whole(WRITE)]);
    var q2 := q0.(flight := [Flying(Whole(WRITE), {})]);
    var q3 := q2.(head := [Whole(BARRIER)]);
    var q4 := Waiting([], [], fs, {});
    var q5 := Waiting([Whole(FLUSH_WRITE)], [], fs, {});
    var q6 := Waiting([Whole(EMPTY_FUA), Whole(FLUSH_WRITE)], [], fs, {});
    var q7 := Waiting([], [Item(EMPTY_FUA, false, true), Item(FLUSH_WRITE, true, false)], fs, {});
    FinishBreaks(q7);
    OthersWait();
    BarrierStarts();
    WriteStarts();
    Chain(q6, Fetch(false), q7, FINISH);
    Chain(q5, Insert(EMPTY_FUA, 0), q6, [Fetch(false)] + FINISH);
    Chain(q4, Insert(FLUSH_WRITE, 0), q5, [Insert(EMPTY_FUA, 0)] + ([Fetch(false)] + FINISH));
    Chain(q3, Fetch(true), q4, OTHERS);
    Chain(q2, Insert(BARRIER, 0), q3, [Fetch(true)] + OTHERS);
    Chain(q1, Fetch(true), q2, [Insert(BARRIER, 0)] + ([Fetch(true)] + OTHERS));
    Chain(q0, Insert(WRITE, 0), q1, [Fetch(true)] + ([Insert(BARRIER, 0)] + ([Fetch(true)] + OTHERS)));
  }

  /** Requests that are worth submitting: they carry data or ask for FLUSH or FUA. */
  predicate Real(e: Event) {
    match e
    case Insert(rq, _) => rq.data || rq.flush || rq.fua
    case Enqueue(rq) => rq.data || rq.flush || rq.fua
    case _ => true
  }

  ghost predicate AllKept(c: Caps, es: seq<Event>)
    requires Possible(Initial(c), es)
  {
    var q := Runs(Initial(c), es);
    forall r <- q.reports :: Kept(q.stable, r)
  }

  /** The promises hold in every run of such requests exactly on the devices that do not offer FUA. */
  lemma PromisesIff(c: Caps)
    requires c.fua ==> c.flush
    ensures (forall es | Possible(Initial(c), es) && (forall e <- es :: Real(e)) :: AllKept(c, es)) <==> !c.fua
  {
    hide Possible, Runs, Initial, Kept;
    if c.fua {
      assert c == CACHED;
      EmptyFuaBreaksFlush();
      ScenarioIsReal();
      assert !AllKept(c, SCENARIO);
    } else {
      forall es | Possible(Initial(c), es) && (forall e <- es :: Real(e))
        ensures AllKept(c, es)
      {
        FlushKeepsPromises(c, es);
        forall r <- Runs(Initial(c), es).reports
          ensures Kept(Runs(Initial(c), es).stable, r)
        {
        }
      }
    }
  }

  lemma ScenarioIsReal()
    ensures forall e <- SCENARIO :: Real(e)
  {
  }
}
