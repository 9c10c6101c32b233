/** The sequencer as the code runs it: fields of the request queue updated in place. */
module FlushOps {
  import opened Flush

  class FlushQueue {
    const caps: Caps
    var flushSeq: bv8
    var flushErr: int
    var run: Sequence
    var head: seq<Entry>
    var pending: seq<Item>
    var waiting: seq<Item>
    var reports: seq<Report>
    // The device's side, which the sequencer never changes.
    ghost var flight: seq<Flying>
    var done: set<nat>
    ghost var stable: set<nat>

    constructor (flush: bool, fua: bool)
      ensures caps.fua ==> caps.flush
      ensures caps.flush == flush && caps.fua == (flush && fua)
      ensures View() == Queue(caps, 0, 0, Idle, [], [], [], [], {}, {}, [])
    {
      // blk_queue_flush: FUA without FLUSH is refused.
      caps := Caps(flush, if !flush && fua then false else fua);
      flushSeq, flushErr, run, head, pending, waiting, reports := 0, 0, Idle, [], [], [], [];
      flight, done, stable := [], {}, {};
    }

    ghost function View(): Queue
      reads this
    {
      Queue(caps, flushSeq, flushErr, run, head, pending, waiting, flight, done, stable, reports)
    }

    /** queue_next_fseq; its default branch is a BUG. */
    method QueueNextFseq()
      requires CurSeq(flushSeq) in {PREFLUSH, DATA, POSTFLUSH}
      modifies this
      ensures View() == QueueNext(old(View()))
    {
      hide CurSeq;
      var kind := CurKind(flushSeq);
      if run.Running? {
        run := run.(issued := run.issued + [kind]);
      }
      head := [Stage(kind)] + head;
    }

    method EndOfSequence() returns (next: bool)
      modifies this
      ensures View() == EndSequence(old(View()))
      ensures next == (old(pending) != [])
      ensures next ==> head != []
    {
      if run.Running? {
        reports := reports + [Report(run.rq, run.before, run.issued, run.errs, flushErr)];
      }
      run := Idle;
      flushSeq := 0;
      next := pending != [];
      if next {
        head := [Normal(pending[0])] + head;
        pending := pending[1..];
      }
    }

    /** blk_flush_complete_seq; its second statement is a BUG_ON. */
    method CompleteSequence(bits: bv8, error: int) returns (next: bool)
      requires And(flushSeq, bits) == 0
      requires CurSeq(Or(flushSeq, bits)) in {PREFLUSH, DATA, POSTFLUSH, DONE}
      modifies this
      ensures View() == CompleteSeq(old(View()), bits, error)
      ensures next == Returns(old(View()), bits)
      ensures next ==> head != []
    {
      hide CurSeq, CurKind, Or, EndSequence;
      if error != 0 && flushErr == 0 {
        flushErr := error;
      }
      flushSeq := Or(flushSeq, bits);
      if CurSeq(flushSeq) != DONE {
        QueueNextFseq();
        next := true;
      } else {
        next := EndOfSequence();
      }
    }

    /** blk_do_flush on the first entry of the dispatch list. */
    method DoFlushRequest() returns (handed: bool)
      requires head != [] && head[0].Normal?
      modifies this
      ensures View() == DoFlush(old(View()))
      ensures handed == Hands(old(View()))
      ensures handed ==> head != []
    {
      hide CurSeq, CurKind, Or, And, CompleteSeq, Returns, Skip, BitsAt;
      var item := head[0].item;
      var doPreflush := caps.flush && item.flush;
      var doPostflush := caps.flush && !caps.fua && item.fua;
      if item.rq.data && !doPreflush && !doPostflush {
        head := [Normal(Cleaned(item))] + head[1..];
        return true;
      }
      if flushSeq != 0 {
        head, pending := head[1..], pending + [item];
        return false;
      }
      BeginSequence(item);
      var skip := SkipBits(doPreflush, item.rq.data, doPostflush);
      BeginBits(doPreflush, item.rq.data, doPostflush);
      CurIsStage(Or(flushSeq, skip), doPreflush, item.rq.data, doPostflush, First(doPreflush, item.rq.data, doPostflush));
      handed := CompleteSequence(skip, 0);
    }

    method BeginSequence(item: Item)
      requires head != [] && head[0] == Normal(item)
      modifies this
      ensures View() == Begin(old(View()))
    {
      flushErr := 0;
      flushSeq := Or(flushSeq, STARTED);
      head := head[1..];
      run := Running(item.rq, Cleaned(item).fua, done, [], []);
    }

    function Cleaned(item: Item): Item {
      var cleared := item.(flush := false);
      if caps.fua then cleared else cleared.(fua := false)
    }

    /** __elv_next_request; the scheduler hands over its requests one at a time. */
    method NextRequest() returns (found: bool)
      modifies this
      ensures View() == Next(old(View()))
      ensures found == (head != [])
    {
      hide DoFlush, Hands;
      while true
        invariant Next(View()) == Next(old(View()))
        decreases |waiting|
      {
        ghost var w := waiting;
        while head != []
          invariant Next(View()) == Next(old(View()))
          invariant waiting == w
          decreases |head|
        {
          if !Flagged(head[0]) {
            return true;
          }
          DoFlushShrinks(View());
          var handed := DoFlushRequest();
          if handed {
            return true;
          }
        }
        if waiting == [] {
          return false;
        }
        head, waiting := [Normal(waiting[0])], waiting[1..];
      }
    }
  }

  /** The stages to pass over. */
  method SkipBits(pre: bool, data: bool, post: bool) returns (skip: bv8)
    ensures skip == Skip(pre, data, post)
  {
    skip := 0;
    if !pre {
      skip := skip | PREFLUSH;
    }
    if !data {
      skip := skip | DATA;
    }
    if !post {
      skip := skip | POSTFLUSH;
    }
  }
}
