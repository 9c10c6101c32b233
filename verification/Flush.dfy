/**
 * The FLUSH/FUA sequencer: a write that asks for FLUSH or FUA is turned into at most three stages,
 * preflush, data and postflush, coded in the bits of flush_seq. The machine runs against a device
 * with a volatile write cache and stable storage.
 */
module Flush {
  const STARTED: bv8 := 1
  const PREFLUSH: bv8 := 2
  const DATA: bv8 := 4
  const POSTFLUSH: bv8 := 8
  const DONE: bv8 := 16

  /** The three stages; flush_rq knows its own by its completion handler. */
  datatype Kind = PreFlush | Data | PostFlush

  function Bit(k: Kind): bv8 {
    match k
    case PreFlush => PREFLUSH
    case Data => DATA
    case PostFlush => POSTFLUSH
  }

  function Or(a: bv8, b: bv8): bv8 {
    a | b
  }

  function And(a: bv8, b: bv8): bv8 {
    a & b
  }

  /** A submitted request; `data` says that it writes data. */
  datatype Rq = Rq(id: nat, flush: bool, fua: bool, data: bool)

  /** A request on a list, with the FLUSH and FUA flags that it still carries. */
  datatype Item = Item(rq: Rq, flush: bool, fua: bool)

  /** An entry of the dispatch list: a request, or the queue's own flush_rq in one of its stages. */
  datatype Entry = Normal(item: Item) | Stage(kind: Kind)

  /** The running sequence: its request, and what its history holds so far. */
  datatype Sequence = Idle | Running(rq: Rq, fua: bool, before: set<nat>, issued: seq<Kind>, errs: seq<int>)

  /** An entry at the device, with the writes that had completed when it was issued. */
  datatype Flying = Flying(entry: Entry, snap: set<nat>)

  /** A request reported to its owner, with the writes completed before its processing began. */
  datatype Report = Report(rq: Rq, before: set<nat>, issued: seq<Kind>, errs: seq<int>, err: int)

  /** What the device offers: flushing of a volatile cache, and writes that bypass it. */
  datatype Caps = Caps(flush: bool, fua: bool)

  datatype Queue = Queue(
    caps: Caps, flushSeq: bv8, flushErr: int, run: Sequence,
    head: seq<Entry>, pending: seq<Item>, waiting: seq<Item>,
    flight: seq<Flying>, done: set<nat>, stable: set<nat>, reports: seq<Report>)

  // ---------------------------------------------------------------------------------------
  // The stages a request needs
  // ---------------------------------------------------------------------------------------

  predicate Pre(c: Caps, flush: bool) {
    c.flush && flush
  }

  predicate Post(c: Caps, fua: bool) {
    c.flush && !c.fua && fua
  }

  function Skip(pre: bool, data: bool, post: bool): bv8 {
    (if pre then 0 else PREFLUSH) | (if data then 0 else DATA) | (if post then 0 else POSTFLUSH)
  }

  /** The stages of a request, in order. */
  function Needed(pre: bool, data: bool, post: bool): seq<Kind> {
    (if pre then [PreFlush] else []) + (if data then [Data] else []) + (if post then [PostFlush] else [])
  }

  /** blk_flush_cur_seq: the lowest stage whose bit is clear. */
  function CurSeq(flushSeq: bv8): bv8 {
    if flushSeq == 0 then 0
    else if flushSeq & STARTED == 0 then STARTED
    else if flushSeq & PREFLUSH == 0 then PREFLUSH
    else if flushSeq & DATA == 0 then DATA
    else if flushSeq & POSTFLUSH == 0 then POSTFLUSH
    else DONE
  }

  /** The stage that flush_rq is set up for when the sequence is not complete. */
  function CurKind(flushSeq: bv8): Kind {
    var cur := CurSeq(flushSeq);
    if cur == PREFLUSH then PreFlush else if cur == DATA then Data else PostFlush
  }

  // ---------------------------------------------------------------------------------------
  // The sequencer
  // ---------------------------------------------------------------------------------------

  /** queue_next_fseq: puts flush_rq, set up for the current stage, in front of the dispatch list. */
  function QueueNext(q: Queue): Queue {
    var kind := CurKind(q.flushSeq);
    q.(head := [Stage(kind)] + q.head,
       run := if q.run.Running? then q.run.(issued := q.run.issued + [kind]) else q.run)
  }

  /** The completion of a sequence: its request is reported and the next pending one is moved to the front. */
  function EndSequence(q: Queue): Queue {
    var reports := if q.run.Running?
                   then q.reports + [Report(q.run.rq, q.run.before, q.run.issued, q.run.errs, q.flushErr)]
                   else q.reports;
    var idle := q.(reports := reports, run := Idle, flushSeq := 0);
    if q.pending == [] then idle
    else idle.(head := [Normal(q.pending[0])] + q.head, pending := q.pending[1..])
  }

  /** blk_flush_complete_seq. */
  function CompleteSeq(q: Queue, bits: bv8, error: int): Queue {
    var q' := q.(flushErr := if error != 0 && q.flushErr == 0 then error else q.flushErr,
                 flushSeq := Or(q.flushSeq, bits));
    if CurSeq(q'.flushSeq) != DONE then QueueNext(q') else EndSequence(q')
  }

  /** Whether blk_flush_complete_seq returns a request, which is then the first of the dispatch list. */
  predicate Returns(q: Queue, bits: bv8) {
    CurSeq(Or(q.flushSeq, bits)) != DONE || q.pending != []
  }

  /** The flags that are left on a request once the machine has dealt with it. */
  function Adjusted(c: Caps, item: Item): Item {
    item.(flush := false, fua := item.fua && c.fua)
  }

  /** The data of this request can go to the device at once. */
  predicate Direct(c: Caps, item: Item) {
    item.rq.data && !Pre(c, item.flush) && !Post(c, item.fua)
  }

  /** A sequence is begun for the first request of the dispatch list. */
  function Begin(q: Queue): Queue
    requires q.head != [] && q.head[0].Normal?
  {
    var item := q.head[0].item;
    q.(flushErr := 0, flushSeq := Or(q.flushSeq, STARTED), head := q.head[1..],
       run := Running(item.rq, Adjusted(q.caps, item).fua, q.done, [], []))
  }

  function SkipOf(c: Caps, item: Item): bv8 {
    Skip(Pre(c, item.flush), item.rq.data, Post(c, item.fua))
  }

  /** blk_do_flush on the first request of the dispatch list. */
  function DoFlush(q: Queue): Queue
    requires q.head != [] && q.head[0].Normal?
  {
    var item := q.head[0].item;
    if Direct(q.caps, item) then q.(head := [Normal(Adjusted(q.caps, item))] + q.head[1..])
    else if q.flushSeq != 0 then q.(head := q.head[1..], pending := q.pending + [item])
    else CompleteSeq(Begin(q), SkipOf(q.caps, item), 0)
  }

  /** Whether blk_do_flush returns a request. */
  predicate Hands(q: Queue)
    requires q.head != [] && q.head[0].Normal?
  {
    var item := q.head[0].item;
    Direct(q.caps, item) || (q.flushSeq == 0 && Returns(Begin(q), SkipOf(q.caps, item)))
  }

  predicate Flagged(e: Entry) {
    e.Normal? && (e.item.flush || e.item.fua)
  }

  lemma DoFlushShrinks(q: Queue)
    requires q.head != [] && q.head[0].Normal?
    ensures !Hands(q) ==> DoFlush(q).head == q.head[1..]
    ensures DoFlush(q).waiting == q.waiting
    ensures Hands(q) ==> DoFlush(q).head != []
  {
  }

  /**
   * __elv_next_request: feeds flagged requests to the machine, refilling the dispatch list from the
   * scheduler, until there is a first request to return or nothing is left.
   */
  function Next(q: Queue): Queue
    decreases |q.waiting|, |q.head|
  {
    if q.head != [] then
      if !Flagged(q.head[0]) then q
      else
        DoFlushShrinks(q);
        if Hands(q) then DoFlush(q) else Next(DoFlush(q))
    else if q.waiting == [] then q
    else Next(q.(waiting := q.waiting[1..], head := [Normal(q.waiting[0])]))
  }

  // ---------------------------------------------------------------------------------------
  // Runs
  // ---------------------------------------------------------------------------------------

  /**
   * A request enters the dispatch list at any place or is left with the scheduler; the driver looks
   * for work and may take it; the device completes an entry, in any order.
   */
  datatype Event = Insert(rq: Rq, at: nat) | Enqueue(rq: Rq) | Fetch(start: bool) | Complete(i: nat, err: int)

  predicate Enabled(q: Queue, e: Event) {
    match e
    case Insert(_, at) => at <= |q.head|
    case Enqueue(_) => true
    case Fetch(_) => true
    case Complete(i, _) => i < |q.flight|
  }

  function Start(q: Queue): Queue {
    if q.head == [] then q
    else q.(head := q.head[1..], flight := q.flight + [Flying(q.head[0], q.done)])
  }

  function Without(fs: seq<Flying>, i: nat): seq<Flying>
    requires i < |fs|
  {
    fs[..i] + fs[i + 1..]
  }

  /** What the device holds after a write: stable at once if it has no cache or was told to bypass it. */
  function Written(q: Queue, id: nat, fua: bool): Queue {
    q.(done := q.done + {id}, stable := if !q.caps.flush || fua then q.stable + {id} else q.stable)
  }

  /** The device's part of a completion. */
  function Device(q: Queue, f: Flying, err: int): Queue {
    if err != 0 then q
    else
      match f.entry
      case Normal(item) => if item.rq.data then Written(q, item.rq.id, item.fua) else q
      case Stage(kind) =>
        if kind.Data? then (if q.run.Running? then Written(q, q.run.rq.id, q.run.fua) else q)
        else q.(stable := q.stable + f.snap)
  }

  function LogError(q: Queue, err: int): Queue {
    if q.run.Running? then q.(run := q.run.(errs := q.run.errs + [err])) else q
  }

  function Finish(q: Queue, f: Flying, err: int): Queue {
    match f.entry
    case Normal(item) => q.(reports := q.reports + [Report(item.rq, f.snap, [Data], [err], err)])
    case Stage(kind) => CompleteSeq(LogError(q, err), Bit(kind), err)
  }

  function Step(q: Queue, e: Event): Queue
    requires Enabled(q, e)
  {
    match e
    case Insert(rq, at) => q.(head := q.head[..at] + [Normal(Item(rq, rq.flush, rq.fua))] + q.head[at..])
    case Enqueue(rq) => q.(waiting := q.waiting + [Item(rq, rq.flush, rq.fua)])
    case Fetch(start) => if start then Start(Next(q)) else Next(q)
    case Complete(i, err) =>
      var f := q.flight[i];
      Finish(Device(q.(flight := Without(q.flight, i)), f, err), f, err)
  }

  // ---------------------------------------------------------------------------------------
  // The bits
  // ---------------------------------------------------------------------------------------

  predicate Wanted(pre: bool, data: bool, post: bool, k: Kind) {
    match k
    case PreFlush => pre
    case Data => data
    case PostFlush => post
  }

  /** The bits of a sequence whose current stage is k: everything before it done or skipped. */
  function BitsAt(pre: bool, data: bool, post: bool, k: Kind): bv8 {
    Skip(pre, data, post) | (Bit(k) - 1)
  }

  /** The needed stages up to and including k. */
  function Upto(pre: bool, data: bool, post: bool, k: Kind): seq<Kind> {
    match k
    case PreFlush => Needed(pre, false, false)
    case Data => Needed(pre, data, false)
    case PostFlush => Needed(pre, data, post)
  }

  datatype Position = At(kind: Kind) | Over

  function First(pre: bool, data: bool, post: bool): Position {
    if pre then At(PreFlush) else if data then At(Data) else if post then At(PostFlush) else Over
  }

  /** The needed stage after k. */
  function After(data: bool, post: bool, k: Kind): Position {
    if k.PreFlush? && data then At(Data)
    else if !k.PostFlush? && post then At(PostFlush)
    else Over
  }

  /** The bits say where the sequence is. */
  predicate Reads(flushSeq: bv8, pre: bool, data: bool, post: bool, p: Position) {
    match p
    case At(k) => CurSeq(flushSeq) != DONE && CurKind(flushSeq) == k && Wanted(pre, data, post, k) && flushSeq == BitsAt(pre, data, post, k)
    case Over => CurSeq(flushSeq) == DONE
  }

  /** The sequence begins at its first needed stage, and no bit that it sets was set before. */
  lemma BeginBits(pre: bool, data: bool, post: bool)
    ensures And(Or(0, STARTED), Skip(pre, data, post)) == 0
    ensures Reads(Or(Or(0, STARTED), Skip(pre, data, post)), pre, data, post, First(pre, data, post))
  {
  }

  lemma BeginStages(pre: bool, data: bool, post: bool)
    ensures match First(pre, data, post)
            case At(k) => Upto(pre, data, post, k) == [k]
            case Over => Needed(pre, data, post) == []
  {
  }

  /** Completing the current stage sets a clear bit and leads to the next needed stage. */
  lemma AdvanceBits(pre: bool, data: bool, post: bool, k: Kind)
    requires Wanted(pre, data, post, k)
    ensures BitsAt(pre, data, post, k) != 0
    ensures Reads(BitsAt(pre, data, post, k), pre, data, post, At(k))
    ensures And(BitsAt(pre, data, post, k), Bit(k)) == 0
    ensures Reads(Or(BitsAt(pre, data, post, k), Bit(k)), pre, data, post, After(data, post, k))
  {
  }

  lemma AdvanceStages(pre: bool, data: bool, post: bool, k: Kind)
    requires Wanted(pre, data, post, k)
    ensures match After(data, post, k)
            case At(k') => Upto(pre, data, post, k') == Upto(pre, data, post, k) + [k']
            case Over => Upto(pre, data, post, k) == Needed(pre, data, post)
  {
  }

  // ---------------------------------------------------------------------------------------
  // Machine safety
  // ---------------------------------------------------------------------------------------

  /** The request has something to do on this device: data, a preflush or a postflush.  An empty
      request that only asks for FUA has nothing to do where the device itself offers FUA. */
  predicate Sane(c: Caps, rq: Rq) {
    rq.data || rq.flush || (rq.fua && !c.fua)
  }

  predicate PreOf(c: Caps, rq: Rq) {
    Pre(c, rq.flush)
  }

  predicate PostOf(c: Caps, rq: Rq) {
    Post(c, rq.fua)
  }

  /** The request has a flush stage. */
  predicate Sequenced(c: Caps, rq: Rq) {
    PreOf(c, rq) || PostOf(c, rq)
  }

  predicate Fresh(c: Caps, item: Item) {
    Sane(c, item.rq) && item.flush == item.rq.flush && item.fua == item.rq.fua
  }

  /** The request has been dealt with and goes to the device as it is. */
  predicate Cleared(c: Caps, item: Item) {
    item.rq.data && !Sequenced(c, item.rq) && !item.flush && item.fua == (item.rq.fua && c.fua)
  }

  predicate EntryOk(c: Caps, e: Entry) {
    e.Normal? ==> Fresh(c, e.item) || Cleared(c, e.item)
  }

  function StageOf(e: Entry): seq<Kind> {
    if e.Stage? then [e.kind] else []
  }

  function StagesOf(es: seq<Entry>): seq<Kind> {
    if es == [] then []
    else StageOf(es[0]) + StagesOf(es[1..])
  }

  function Entries(fs: seq<Flying>): seq<Entry> {
    if fs == [] then [] else [fs[0].entry] + Entries(fs[1..])
  }

  function FirstError(errs: seq<int>): int {
    if errs == [] then 0 else if errs[0] != 0 then errs[0] else FirstError(errs[1..])
  }

  /** The stages on the dispatch list and at the device. */
  function Outstanding(q: Queue): seq<Kind> {
    StagesOf(q.head) + StagesOf(Entries(q.flight))
  }

  /** A running sequence is at one of its needed stages, and has issued exactly the needed ones up to it. */
  ghost predicate Progress(q: Queue) {
    match q.run
    case Idle => q.flushSeq == 0
    case Running(rq, fua, _, issued, errs) =>
      var cur := CurKind(q.flushSeq);
      && q.caps.flush && Sane(q.caps, rq) && fua == (rq.fua && q.caps.fua)
      && q.flushSeq != 0 && Reads(q.flushSeq, PreOf(q.caps, rq), rq.data, PostOf(q.caps, rq), At(cur))
      && issued == Upto(PreOf(q.caps, rq), rq.data, PostOf(q.caps, rq), cur)
      && |issued| == |errs| + 1
      && q.flushErr == FirstError(errs)
  }

  /** Exactly the current stage of the running sequence is outstanding. */
  ghost predicate RunOk(q: Queue) {
    && Progress(q)
    && Outstanding(q) == if q.run.Idle? then [] else [CurKind(q.flushSeq)]
  }

  ghost predicate ListsOk(q: Queue) {
    && (q.caps.fua ==> q.caps.flush)
    && (forall e <- q.head :: EntryOk(q.caps, e))
    && (forall i <- q.waiting :: Fresh(q.caps, i))
    && (forall i <- q.pending :: Fresh(q.caps, i) && Sequenced(q.caps, i.rq))
    && (forall f <- q.flight :: f.entry.Normal? ==> Cleared(q.caps, f.entry.item))
  }

  /** Pending requests are waiting for a running sequence, or for one that is about to begin. */
  ghost predicate NotStalled(q: Queue) {
    q.pending != [] ==> q.run.Running? || exists e <- q.head :: e.Normal? && Fresh(q.caps, e.item) && Sequenced(q.caps, e.item.rq)
  }

  ghost predicate Safe(q: Queue) {
    RunOk(q) && ListsOk(q) && NotStalled(q)
  }

  lemma ConcatAssociates<T>(x: seq<T>, y: seq<T>, z: seq<T>)
    ensures x + (y + z) == x + y + z
  {
  }

  lemma {:induction false} StagesConcat(a: seq<Entry>, b: seq<Entry>)
    ensures StagesOf(a + b) == StagesOf(a) + StagesOf(b)
  {
    if a == [] {
      assert a + b == b;
    } else {
      hide StageOf;
      StagesConcat(a[1..], b);
      assert (a + b)[1..] == a[1..] + b;
      ConcatAssociates(StageOf(a[0]), StagesOf(a[1..]), StagesOf(b));
    }
  }

  lemma {:induction false} EntriesConcat(a: seq<Flying>, b: seq<Flying>)
    ensures Entries(a + b) == Entries(a) + Entries(b)
  {
    if a == [] {
      assert a + b == b;
    } else {
      EntriesConcat(a[1..], b);
      assert (a + b)[1..] == a[1..] + b;
    }
  }

  lemma {:induction false} FirstErrorAppend(errs: seq<int>, e: int)
    ensures FirstError(errs + [e]) == if FirstError(errs) != 0 then FirstError(errs) else e
  {
    if errs == [] {
      assert errs + [e] == [e];
    } else {
      FirstErrorAppend(errs[1..], e);
      assert (errs + [e])[1..] == errs[1..] + [e];
    }
  }

  /** Stages in a list split at one of its entries. */
  lemma StagesAround(a: seq<Entry>, e: Entry, b: seq<Entry>)
    ensures StagesOf(a + [e] + b) == StagesOf(a) + StageOf(e) + StagesOf(b)
  {
    StagesConcat(a + [e], b);
    StagesConcat(a, [e]);
    assert [e][1..] == [];
  }

  lemma EntriesAround(a: seq<Flying>, f: Flying, b: seq<Flying>)
    ensures Entries(a + [f] + b) == Entries(a) + [f.entry] + Entries(b)
  {
    EntriesConcat(a + [f], b);
    EntriesConcat(a, [f]);
    assert [f][1..] == [];
  }

  lemma FlightSplit(a: seq<Flying>, f: Flying, b: seq<Flying>)
    ensures StagesOf(Entries(a + [f] + b)) == StagesOf(Entries(a)) + StageOf(f.entry) + StagesOf(Entries(b))
    ensures StagesOf(Entries(a + b)) == StagesOf(Entries(a)) + StagesOf(Entries(b))
  {
    hide *;
    EntriesAround(a, f, b);
    StagesAround(Entries(a), f.entry, Entries(b));
    EntriesConcat(a, b);
    StagesConcat(Entries(a), Entries(b));
  }

  lemma FlightAround(fs: seq<Flying>, i: nat)
    requires i < |fs|
    ensures StagesOf(Entries(fs)) == StagesOf(Entries(fs[..i])) + StageOf(fs[i].entry) + StagesOf(Entries(fs[i + 1..]))
    ensures StagesOf(Entries(Without(fs, i))) == StagesOf(Entries(fs[..i])) + StagesOf(Entries(fs[i + 1..]))
  {
    hide *;
    SplitAt(fs, i);
    FlightSplit(fs[..i], fs[i], fs[i + 1..]);
    WithoutDef(fs, i);
  }

  lemma SplitAt(fs: seq<Flying>, i: nat)
    requires i < |fs|
    ensures fs[..i] + [fs[i]] + fs[i + 1..] == fs
  {
  }

  lemma WithoutDef(fs: seq<Flying>, i: nat)
    requires i < |fs|
    ensures Without(fs, i) == fs[..i] + fs[i + 1..]
  {
  }

  lemma StagesFront(e: Entry, es: seq<Entry>)
    ensures StagesOf([e] + es) == StageOf(e) + StagesOf(es)
  {
    assert ([e] + es)[1..] == es;
  }

  // What the machine does, case by case.

  /** A sequence begins at the first stage that the request needs. */
  lemma BeginsAt(q: Queue)
    requires q.head != [] && q.head[0].Normal? && q.flushSeq == 0 && Fresh(q.caps, q.head[0].item)
    requires Sequenced(q.caps, q.head[0].item.rq)
    ensures var item := q.head[0].item; var rq := item.rq; var p := First(PreOf(q.caps, rq), rq.data, PostOf(q.caps, rq));
            && p.At? && Hands(q)
            && DoFlush(q) == q.(flushErr := 0, flushSeq := BitsAt(PreOf(q.caps, rq), rq.data, PostOf(q.caps, rq), p.kind),
                                head := [Stage(p.kind)] + q.head[1..],
                                run := Running(rq, rq.fua && q.caps.fua, q.done, [p.kind], []))
  {
    hide CurSeq, CurKind, Skip, BitsAt, Or;
    var rq := q.head[0].item.rq;
    BeginBits(PreOf(q.caps, rq), rq.data, PostOf(q.caps, rq));
    var k := First(PreOf(q.caps, rq), rq.data, PostOf(q.caps, rq)).kind;
    assert [] + [k] == [k];
  }

  /** A request with nothing to do is reported at once. */
  lemma BeginsOver(q: Queue)
    requires q.head != [] && q.head[0].Normal? && q.flushSeq == 0 && Fresh(q.caps, q.head[0].item)
    requires !Sequenced(q.caps, q.head[0].item.rq) && !q.head[0].item.rq.data
    ensures Hands(q) <==> q.pending != []
    ensures q.pending == [] ==>
              DoFlush(q) == q.(flushErr := 0, head := q.head[1..], run := Idle,
                               reports := q.reports + [Report(q.head[0].item.rq, q.done, [], [], 0)])
    ensures q.pending != [] ==>
              DoFlush(q).head == [Normal(q.pending[0])] + q.head[1..]
  {
    hide CurSeq, CurKind, Skip, BitsAt, Or;
    var rq := q.head[0].item.rq;
    BeginBits(PreOf(q.caps, rq), rq.data, PostOf(q.caps, rq));
  }

  /** The first error of a sequence, with one more stage completed. */
  function NewErr(q: Queue, err: int): int {
    if err != 0 && q.flushErr == 0 then err else q.flushErr
  }

  /** The outstanding stage completes: the next needed stage is queued, or the request is reported. */
  lemma Advances(q: Queue, err: int)
    requires Progress(q) && q.run.Running?
    ensures var k := CurKind(q.flushSeq); var rq := q.run.rq; var p := After(rq.data, PostOf(q.caps, rq), k);
            var r := CompleteSeq(LogError(q, err), Bit(k), err);
            match p
            case At(k') =>
              r == q.(flushErr := NewErr(q, err), flushSeq := BitsAt(PreOf(q.caps, rq), rq.data, PostOf(q.caps, rq), k'),
                      head := [Stage(k')] + q.head,
                      run := q.run.(issued := q.run.issued + [k'], errs := q.run.errs + [err]))
            case Over =>
              r == EndSequence(q.(flushErr := NewErr(q, err), flushSeq := Or(q.flushSeq, Bit(k)), run := q.run.(errs := q.run.errs + [err])))
  {
    hide CurSeq, CurKind, Skip, BitsAt, Or, Bit, EndSequence, Outstanding, FirstError, Upto;
    var rq := q.run.rq;
    AdvanceBits(PreOf(q.caps, rq), rq.data, PostOf(q.caps, rq), CurKind(q.flushSeq));
  }

  /** Only one stage is outstanding, so the one at the device is the current one. */
  lemma StageIsCurrent(q: Queue, i: nat)
    requires RunOk(q) && i < |q.flight| && q.flight[i].entry.Stage?
    ensures q.run.Running? && q.flight[i].entry.kind == CurKind(q.flushSeq)
    ensures StagesOf(q.head) == [] && StagesOf(Entries(Without(q.flight, i))) == []
  {
    hide StagesOf, Entries, Without, CurSeq, CurKind, Reads, FirstError, Upto;
    FlightAround(q.flight, i);
    var a := StagesOf(Entries(q.flight[..i]));
    var b := StagesOf(Entries(q.flight[i + 1..]));
    assert |Outstanding(q)| == |StagesOf(q.head)| + |a| + 1 + |b|;
    assert Outstanding(q)[0] == q.flight[i].entry.kind;
  }

  /** In a safe state neither BUG of the machine is reached when a stage completes. */
  lemma NoBug(q: Queue, i: nat)
    requires RunOk(q) && i < |q.flight| && q.flight[i].entry.Stage?
    ensures And(q.flushSeq, Bit(q.flight[i].entry.kind)) == 0
    ensures CurSeq(Or(q.flushSeq, Bit(q.flight[i].entry.kind))) in {PREFLUSH, DATA, POSTFLUSH, DONE}
  {
    hide Outstanding, StagesOf, Entries, CurSeq, CurKind, BitsAt, Bit, Or, And, FirstError, Upto;
    StageIsCurrent(q, i);
    var rq := q.run.rq;
    AdvanceBits(PreOf(q.caps, rq), rq.data, PostOf(q.caps, rq), CurKind(q.flushSeq));
    CurIsStage(Or(q.flushSeq, Bit(q.flight[i].entry.kind)), PreOf(q.caps, rq), rq.data, PostOf(q.caps, rq),
               After(rq.data, PostOf(q.caps, rq), CurKind(q.flushSeq)));
  }

  lemma CurIsStage(bits: bv8, pre: bool, data: bool, post: bool, p: Position)
    requires Reads(bits, pre, data, post, p)
    ensures CurSeq(bits) in {PREFLUSH, DATA, POSTFLUSH, DONE}
  {
    if p.At? {
      match p.kind {
        case PreFlush =>
        case Data =>
        case PostFlush =>
      }
    }
  }

  // Every step keeps a safe state safe.

  lemma BeginRunOk(q: Queue)
    requires RunOk(q) && q.head != [] && q.head[0].Normal? && q.flushSeq == 0 && Fresh(q.caps, q.head[0].item)
    requires Sequenced(q.caps, q.head[0].item.rq)
    ensures RunOk(DoFlush(q))
  {
    hide DoFlush, StagesOf, Entries, CurSeq, CurKind, BitsAt, FirstError, Upto;
    BeginsAt(q);
    var rq := q.head[0].item.rq;
    var k := First(PreOf(q.caps, rq), rq.data, PostOf(q.caps, rq)).kind;
    AdvanceBits(PreOf(q.caps, rq), rq.data, PostOf(q.caps, rq), k);
    BeginStages(PreOf(q.caps, rq), rq.data, PostOf(q.caps, rq));
    NoErrors();
    StagesFront(q.head[0], q.head[1..]);
    assert q.head == [q.head[0]] + q.head[1..];
    StagesFront(Stage(k), q.head[1..]);
    assert Outstanding(DoFlush(q)) == [k];
  }

  lemma NoErrors()
    ensures FirstError([]) == 0
  {
  }

  lemma BeginSafe(q: Queue)
    requires Safe(q) && q.head != [] && q.head[0].Normal? && q.flushSeq == 0 && Fresh(q.caps, q.head[0].item)
    requires Sequenced(q.caps, q.head[0].item.rq)
    ensures Safe(DoFlush(q)) && DoFlush(q).head[0].Stage?
  {
    hide DoFlush, RunOk, Fresh, Sequenced, Cleared, CurSeq, CurKind, BitsAt;
    BeginRunOk(q);
    BeginsAt(q);
    assert forall e <- q.head[1..] :: e in q.head;
  }

  /** The stages outstanding do not change with the requests around them. */
  lemma HeadStages(q: Queue)
    requires q.head != [] && q.head[0].Normal?
    ensures StagesOf(q.head[1..]) == StagesOf(q.head)
    ensures forall item :: StagesOf([Normal(item)] + q.head[1..]) == StagesOf(q.head)
  {
    hide StagesOf;
    assert q.head == [q.head[0]] + q.head[1..];
    StagesFront(q.head[0], q.head[1..]);
    forall item
      ensures StagesOf([Normal(item)] + q.head[1..]) == StagesOf(q.head)
    {
      StagesFront(Normal(item), q.head[1..]);
    }
  }

  lemma DirectSafe(q: Queue)
    requires Safe(q) && q.head != [] && q.head[0].Normal? && Direct(q.caps, q.head[0].item)
    ensures Safe(DoFlush(q)) && Cleared(q.caps, DoFlush(q).head[0].item)
  {
    hide StagesOf, Entries, CurSeq, CurKind, Reads, FirstError, Upto, CompleteSeq;
    assert EntryOk(q.caps, q.head[0]);
    HeadStages(q);
    assert forall e <- q.head[1..] :: e in q.head;
  }

  lemma WaitSafe(q: Queue)
    requires Safe(q) && q.head != [] && q.head[0].Normal? && !Direct(q.caps, q.head[0].item) && q.flushSeq != 0
    ensures Safe(DoFlush(q))
  {
    hide StagesOf, Entries, CurSeq, CurKind, Reads, FirstError, Upto, CompleteSeq;
    assert EntryOk(q.caps, q.head[0]);
    HeadStages(q);
    assert q.run.Running?;
  }

  /** With nothing to flush and no data, the request is reported; nothing is pending then. */
  lemma OverSafe(q: Queue)
    requires Safe(q) && q.head != [] && q.head[0].Normal? && !Direct(q.caps, q.head[0].item) && q.flushSeq == 0
    requires !Sequenced(q.caps, q.head[0].item.rq)
    ensures Safe(DoFlush(q)) && !Hands(q)
  {
    hide StagesOf, Entries, CurSeq, CurKind, Reads, FirstError, Upto, CompleteSeq;
    assert EntryOk(q.caps, q.head[0]);
    HeadStages(q);
    BeginsOver(q);
    assert q.run.Idle?;
    assert q.pending == [];
  }

  /** The driver can be given this entry. */
  predicate Ready(c: Caps, e: Entry) {
    e.Normal? ==> Cleared(c, e.item)
  }

  lemma DoFlushSafe(q: Queue)
    requires Safe(q) && q.head != [] && q.head[0].Normal?
    ensures Safe(DoFlush(q)) && DoFlush(q).caps == q.caps
    ensures Hands(q) ==> DoFlush(q).head != [] && Ready(q.caps, DoFlush(q).head[0])
  {
    hide Safe, CurSeq, CurKind, Skip;
    var item := q.head[0].item;
    HeadOk(q);
    if Direct(q.caps, item) {
      DirectSafe(q);
    } else if q.flushSeq != 0 {
      WaitSafe(q);
    } else if Sequenced(q.caps, item.rq) {
      BeginsAt(q);
      BeginSafe(q);
    } else {
      OverSafe(q);
    }
  }

  lemma HeadOk(q: Queue)
    requires Safe(q) && q.head != []
    ensures EntryOk(q.caps, q.head[0])
  {
    hide RunOk, NotStalled, EntryOk;
  }

  /** The loop that looks for work keeps the machine safe and hands out only what is ready. */
  lemma {:induction false} NextSafe(q: Queue)
    requires Safe(q)
    ensures Safe(Next(q)) && Next(q).caps == q.caps
    ensures Next(q).head != [] ==> Ready(q.caps, Next(q).head[0])
    decreases |q.waiting|, |q.head|
  {
    hide Safe, DoFlush, Hands;
    if q.head != [] {
      HeadOk(q);
      if Flagged(q.head[0]) {
        DoFlushShrinks(q);
        DoFlushSafe(q);
        if !Hands(q) {
          NextSafe(DoFlush(q));
        }
      }
    } else if q.waiting != [] {
      RefillSafe(q);
      NextSafe(q.(waiting := q.waiting[1..], head := [Normal(q.waiting[0])]));
    }
  }

  lemma RefillSafe(q: Queue)
    requires Safe(q) && q.head == [] && q.waiting != []
    ensures Safe(q.(waiting := q.waiting[1..], head := [Normal(q.waiting[0])]))
  {
    hide Entries, Reads, CurKind, FirstError, Upto;
    var e := Normal(q.waiting[0]);
    assert [e] == [e] + [];
    StagesFront(e, []);
    assert forall i <- q.waiting[1..] :: i in q.waiting;
  }

  lemma StartSafe(q: Queue)
    requires Safe(q) && q.head != [] && Ready(q.caps, q.head[0])
    ensures Safe(Start(q))
  {
    hide StagesOf, Entries, Reads, CurKind, FirstError, Upto;
    var e := q.head[0];
    assert q.head == [e] + q.head[1..];
    StagesFront(e, q.head[1..]);
    var f := Flying(e, q.done);
    EntriesAround(q.flight, f, []);
    assert q.flight + [f] == q.flight + [f] + [];
    StagesAround(Entries(q.flight), e, Entries([]));
    NoEntries();
    assert Outstanding(Start(q)) == Outstanding(q);
  }

  lemma NoEntries()
    ensures Entries([]) == [] && StagesOf([]) == []
  {
  }

  lemma InsertSafe(q: Queue, rq: Rq, at: nat)
    requires Safe(q) && at <= |q.head| && Sane(q.caps, rq)
    ensures Safe(Step(q, Insert(rq, at)))
  {
    hide StagesOf, Entries, Reads, CurKind, FirstError, Upto;
    var e := Normal(Item(rq, rq.flush, rq.fua));
    assert q.head == q.head[..at] + q.head[at..];
    StagesConcat(q.head[..at], q.head[at..]);
    StagesAround(q.head[..at], e, q.head[at..]);
    var r := Step(q, Insert(rq, at));
    assert r.head == q.head[..at] + [e] + q.head[at..];
    assert Outstanding(r) == Outstanding(q);
    assert forall d <- q.head :: d in r.head;
  }

  lemma NormalDoneSafe(q: Queue, i: nat, err: int)
    requires Safe(q) && i < |q.flight| && q.flight[i].entry.Normal?
    ensures Safe(Step(q, Complete(i, err)))
  {
    hide Safe, Step, Without;
    var fs := Without(q.flight, i);
    NormalDone(q, i, err);
    LandedSafe(q, i);
    SameMachine(q.(flight := fs), Step(q, Complete(i, err)));
  }

  /** The completion of an ordinary entry does not touch the machine. */
  lemma NormalDone(q: Queue, i: nat, err: int)
    requires i < |q.flight| && q.flight[i].entry.Normal?
    ensures var r := Step(q, Complete(i, err));
            && r == q.(flight := Without(q.flight, i), done := r.done, stable := r.stable, reports := r.reports)
            && r.reports == q.reports + [Report(q.flight[i].entry.item.rq, q.flight[i].snap, [Data], [err], err)]
  {
    hide Without;
  }

  lemma SameMachine(q: Queue, r: Queue)
    requires Safe(q) && r == q.(done := r.done, stable := r.stable, reports := r.reports)
    ensures Safe(r)
  {
    hide StagesOf, Entries, Reads, CurKind, FirstError, Upto, Fresh, Cleared, Sequenced;
  }

  lemma LandedSafe(q: Queue, i: nat)
    requires Safe(q) && i < |q.flight| && q.flight[i].entry.Normal?
    ensures Safe(q.(flight := Without(q.flight, i)))
  {
    hide StagesOf, Entries, Reads, CurKind, FirstError, Upto, Fresh, Cleared, Sequenced;
    FlightAround(q.flight, i);
    assert forall f <- Without(q.flight, i) :: f in q.flight;
  }

  /** The device's part of a completion leaves the machine alone. */
  lemma DeviceOnly(q: Queue, f: Flying, err: int)
    ensures var r := Device(q, f, err); r == q.(done := r.done, stable := r.stable)
  {
  }

  /** A stage completes in a safe state: the next one is queued in front, or the sequence is over. */
  lemma StageDone(q: Queue, i: nat, err: int)
    requires RunOk(q) && i < |q.flight| && q.flight[i].entry.Stage?
    ensures q.run.Running?
    ensures var rq := q.run.rq; var k := CurKind(q.flushSeq);
            var b := Device(q.(flight := Without(q.flight, i)), q.flight[i], err);
            var r := Step(q, Complete(i, err));
            match After(rq.data, PostOf(q.caps, rq), k)
            case At(k') =>
              r == b.(flushErr := NewErr(q, err), flushSeq := BitsAt(PreOf(q.caps, rq), rq.data, PostOf(q.caps, rq), k'),
                      head := [Stage(k')] + q.head,
                      run := q.run.(issued := q.run.issued + [k'], errs := q.run.errs + [err]))
            case Over =>
              r == EndSequence(b.(flushErr := NewErr(q, err), flushSeq := Or(q.flushSeq, Bit(k)), run := q.run.(errs := q.run.errs + [err])))
  {
    hide RunOk, Progress, Device, CompleteSeq, LogError, EndSequence, Without, BitsAt, CurKind, Or, Bit;
    StageIsCurrent(q, i);
    var b := Device(q.(flight := Without(q.flight, i)), q.flight[i], err);
    DeviceOnly(q.(flight := Without(q.flight, i)), q.flight[i], err);
    ProgressOnly(q, b);
    Advances(b, err);
  }

  lemma ProgressOnly(q: Queue, r: Queue)
    requires RunOk(q) && r.caps == q.caps && r.flushSeq == q.flushSeq && r.flushErr == q.flushErr && r.run == q.run
    ensures Progress(r)
  {
    hide Reads, Upto, FirstError, CurKind;
  }

  lemma NextStageRunOk(q: Queue, i: nat, err: int)
    requires RunOk(q) && i < |q.flight| && q.flight[i].entry.Stage?
    requires q.run.Running? && After(q.run.rq.data, PostOf(q.caps, q.run.rq), CurKind(q.flushSeq)).At?
    ensures RunOk(Step(q, Complete(i, err)))
  {
    hide Step, Device, StagesOf, Entries, Without, BitsAt, CurSeq, CurKind, FirstError, Upto, After;
    StageDone(q, i, err);
    DeviceOnly(q.(flight := Without(q.flight, i)), q.flight[i], err);
    StageIsCurrent(q, i);
    var rq := q.run.rq;
    var k := CurKind(q.flushSeq);
    var k' := After(rq.data, PostOf(q.caps, rq), k).kind;
    AdvanceBits(PreOf(q.caps, rq), rq.data, PostOf(q.caps, rq), k);
    AdvanceStages(PreOf(q.caps, rq), rq.data, PostOf(q.caps, rq), k);
    AfterWanted(PreOf(q.caps, rq), rq.data, PostOf(q.caps, rq), k);
    AdvanceBits(PreOf(q.caps, rq), rq.data, PostOf(q.caps, rq), k');
    FirstErrorAppend(q.run.errs, err);
    StagesFront(Stage(k'), q.head);
  }

  lemma AfterWanted(pre: bool, data: bool, post: bool, k: Kind)
    ensures After(data, post, k).At? ==> Wanted(pre, data, post, After(data, post, k).kind)
  {
  }

  lemma NextStageSafe(q: Queue, i: nat, err: int)
    requires Safe(q) && i < |q.flight| && q.flight[i].entry.Stage?
    requires q.run.Running? && After(q.run.rq.data, PostOf(q.caps, q.run.rq), CurKind(q.flushSeq)).At?
    ensures Safe(Step(q, Complete(i, err)))
  {
    hide Step, Device, RunOk, BitsAt, CurKind, After, Fresh, Cleared, Sequenced;
    NextStageRunOk(q, i, err);
    StageDone(q, i, err);
    DeviceOnly(q.(flight := Without(q.flight, i)), q.flight[i], err);
    assert forall f <- Without(q.flight, i) :: f in q.flight;
  }

  lemma EndSafe(q: Queue)
    requires ListsOk(q) && StagesOf(q.head) == [] && StagesOf(Entries(q.flight)) == []
    ensures Safe(EndSequence(q))
  {
    hide StagesOf, Entries, Cleared;
    if q.pending != [] {
      StagesFront(Normal(q.pending[0]), q.head);
      assert EndSequence(q).head[0] == Normal(q.pending[0]);
      assert forall i <- q.pending[1..] :: i in q.pending;
      assert q.pending[0] in q.pending;
    }
  }

  lemma LastStageSafe(q: Queue, i: nat, err: int)
    requires Safe(q) && i < |q.flight| && q.flight[i].entry.Stage?
    requires q.run.Running? && After(q.run.rq.data, PostOf(q.caps, q.run.rq), CurKind(q.flushSeq)).Over?
    ensures Safe(Step(q, Complete(i, err)))
  {
    hide Step, Device, RunOk, CurKind, Or, Bit, After, Fresh, Cleared, Sequenced, EndSequence, StagesOf, Entries;
    StageDone(q, i, err);
    StageIsCurrent(q, i);
    var b := Device(q.(flight := Without(q.flight, i)), q.flight[i], err);
    DeviceOnly(q.(flight := Without(q.flight, i)), q.flight[i], err);
    assert forall f <- Without(q.flight, i) :: f in q.flight;
    EndSafe(b.(flushErr := NewErr(q, err), flushSeq := Or(q.flushSeq, Bit(CurKind(q.flushSeq))), run := q.run.(errs := q.run.errs + [err])));
  }

  predicate SaneEvent(c: Caps, e: Event) {
    match e
    case Insert(rq, _) => Sane(c, rq)
    case Enqueue(rq) => Sane(c, rq)
    case _ => true
  }

  lemma StepSafe(q: Queue, e: Event)
    requires Safe(q) && Enabled(q, e) && SaneEvent(q.caps, e)
    ensures Safe(Step(q, e)) && Step(q, e).caps == q.caps
  {
    hide Safe, Next, CurKind, After;
    match e
    case Insert(rq, at) => InsertSafe(q, rq, at);
    case Enqueue(rq) => EnqueueSafe(q, rq);
    case Fetch(start) =>
      NextSafe(q);
      if start && Next(q).head != [] {
        StartSafe(Next(q));
      }
    case Complete(i, err) => CompleteSafe(q, i, err);
  }

  lemma EnqueueSafe(q: Queue, rq: Rq)
    requires Safe(q) && Sane(q.caps, rq)
    ensures Safe(Step(q, Enqueue(rq)))
  {
    hide StagesOf, Entries, Reads, CurKind, FirstError, Upto, Cleared, Sequenced;
  }

  lemma CompleteSafe(q: Queue, i: nat, err: int)
    requires Safe(q) && i < |q.flight|
    ensures Safe(Step(q, Complete(i, err))) && Step(q, Complete(i, err)).caps == q.caps
  {
    hide Safe, CurKind, After, EndSequence, Device;
    if q.flight[i].entry.Normal? {
      NormalDone(q, i, err);
      NormalDoneSafe(q, i, err);
    } else {
      SafeRun(q);
      StageDone(q, i, err);
      var b := q.(flight := Without(q.flight, i));
      DeviceOnly(b, q.flight[i], err);
      EndCaps(Device(b, q.flight[i], err).(flushErr := NewErr(q, err), flushSeq := Or(q.flushSeq, Bit(CurKind(q.flushSeq))), run := q.run.(errs := q.run.errs + [err])));
      if After(q.run.rq.data, PostOf(q.caps, q.run.rq), CurKind(q.flushSeq)).At? {
        NextStageSafe(q, i, err);
      } else {
        LastStageSafe(q, i, err);
      }
    }
  }

  lemma SafeRun(q: Queue)
    requires Safe(q)
    ensures RunOk(q)
  {
  }

  lemma EndCaps(q: Queue)
    ensures EndSequence(q).caps == q.caps
  {
  }
}
