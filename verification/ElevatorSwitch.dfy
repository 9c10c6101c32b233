/**
 * Switching the I/O scheduler of a live queue. Requests allocated while a switch is under way get no
 * private data of the scheduler; the old scheduler is drained, and the new one is attached when no
 * request with private data is left.
 */
module ElevatorSwitch {
  import opened Options

  datatype Place = Allocated | Sorted | Queued

  datatype Where = Front | Back | Sort

  /** A request: the scheduler that its private data belongs to, where it is, REQ_SOFTBARRIER, and
      where it was inserted. */
  datatype Rq = Rq(priv: Option<nat>, place: Place, barrier: bool, entry: Option<Where>)

  datatype Phase = Steady | Draining | Attached

  /**
   * `gen` numbers the attached scheduler; `reserved` are the allocations under way, with what
   * get_request decided about private data; `elvpriv` and `nrSorted` are the two counters.
   */
  datatype Queue = Queue(gen: nat, phase: Phase, reserved: map<nat, bool>, live: map<nat, Rq>, elvpriv: int, nrSorted: int)

  datatype Event =
    | Reserve(id: nat)
    | AllocFails(id: nat)
    | SetPrivate(id: nat)
    | Insert(id: nat, where: Where)
    | Dispatch(id: nat)
    | Requeue(id: nat)
    | MergedAway(id: nat)
    | Free(id: nat)
    | SwitchStart
    | SwitchPoll
    | Attach
    | SwitchEnd

  predicate Enabled(q: Queue, e: Event) {
    match e
    case Reserve(id) => id !in q.reserved && id !in q.live
    case AllocFails(id) => id in q.reserved
    case SetPrivate(id) => id in q.reserved && id !in q.live
    case Insert(id, _) => id in q.live && q.live[id].place.Allocated?
    case Dispatch(id) => id in q.live && q.live[id].place.Sorted?
    case Requeue(id) => id in q.live && q.live[id].place.Queued?
    case MergedAway(id) => id in q.live && q.live[id].place.Sorted?
    case Free(id) => id in q.live && !q.live[id].place.Sorted?
    case SwitchStart => q.phase.Steady?
    case SwitchPoll => q.phase.Draining?
    case Attach => q.phase.Draining? && q.elvpriv == 0
    case SwitchEnd => q.phase.Attached?
  }

  /** Whether the flag that elv_quiesce_start sets is set. */
  predicate Switching(q: Queue) {
    !q.phase.Steady?
  }

  function One(b: bool): int {
    if b then 1 else 0
  }

  /** elv_drain_elevator: everything the scheduler holds is dispatched. */
  function Drain(q: Queue): Queue {
    q.(live := map id | id in q.live :: if q.live[id].place.Sorted? then q.live[id].(place := Queued) else q.live[id],
       nrSorted := q.nrSorted - |SortedIds(q)|)
  }

  function SortedIds(q: Queue): set<nat> {
    set id | id in q.live && q.live[id].place.Sorted?
  }

  /** __elv_add_request: what becomes of the wanted place. */
  function Effective(r: Rq, where: Where): Where {
    if r.barrier then where
    else if r.priv.None? && where.Sort? then Back
    else where
  }

  /** elv_insert: what goes to either end of the dispatch list is not to be passed any more. */
  function Entered(r: Rq, where: Where): Rq {
    match where
    case Sort => r.(place := Sorted, entry := Some(Sort))
    case Front => r.(place := Queued, barrier := true, entry := Some(Front))
    case Back => r.(place := Queued, barrier := true, entry := Some(Back))
  }

  function Put(q: Queue, id: nat, r: Rq): Queue {
    q.(live := q.live[id := r])
  }

  function Drop(q: Queue, id: nat): Queue
    requires id in q.live
  {
    q.(live := q.live - {id}, elvpriv := q.elvpriv - One(q.live[id].priv.Some?))
  }

  function Step(q: Queue, e: Event): Queue
    requires Enabled(q, e)
  {
    match e
    // get_request: private data only if no switch is under way.
    case Reserve(id) => q.(reserved := q.reserved[id := !Switching(q)], elvpriv := q.elvpriv + One(!Switching(q)))
    case AllocFails(id) => q.(reserved := q.reserved - {id}, elvpriv := q.elvpriv - One(q.reserved[id]))
    // elv_set_request, which is called without the queue lock.
    case SetPrivate(id) =>
      q.(reserved := q.reserved - {id},
         live := q.live[id := Rq(if q.reserved[id] then Some(q.gen) else None, Allocated, false, None)])
    case Insert(id, where) =>
      var w := Effective(q.live[id], where);
      var r := Entered(q.live[id], w);
      (match w
       case Sort => Put(q, id, r).(nrSorted := q.nrSorted + 1)
       case Back => Put(Drain(q), id, r)
       case Front => Put(q, id, r))
    case Dispatch(id) => Put(q, id, q.live[id].(place := Queued)).(nrSorted := q.nrSorted - 1)
    case Requeue(id) => Put(q, id, q.live[id].(barrier := true))
    case MergedAway(id) => Drop(q, id).(nrSorted := q.nrSorted - 1)
    case Free(id) => Drop(q, id)
    case SwitchStart => Drain(q).(phase := Draining)
    case SwitchPoll => Drain(q)
    case Attach => Drain(q).(phase := Attached, gen := q.gen + 1)
    case SwitchEnd => q.(phase := Steady)
  }

  // ---------------------------------------------------------------------------------------
  // What every step keeps
  // ---------------------------------------------------------------------------------------

  /** The requests, allocated or about to be, that have or will have private data. */
  function PrivateIds(q: Queue): set<nat> {
    (set id | id in q.reserved && q.reserved[id]) + (set id | id in q.live && q.live[id].priv.Some?)
  }

  ghost predicate Inv(q: Queue) {
    && (forall id <- q.reserved :: id !in q.live)
    && q.elvpriv == |PrivateIds(q)|
    && q.nrSorted == |SortedIds(q)|
    && (q.phase.Attached? ==> q.elvpriv == 0)
    && (forall id <- q.live :: RqOk(q.gen, q.live[id]))
  }

  /** Private data is the attached scheduler's; only a request that has some is, or ever was, in the
      scheduler; and no request is a barrier before it is inserted. */
  predicate RqOk(gen: nat, r: Rq) {
    && (r.priv.Some? ==> r.priv.value == gen)
    && (r.place.Sorted? ==> r.priv.Some?)
    && (r.entry == Some(Sort) ==> r.priv.Some?)
    && (r.place.Allocated? ==> !r.barrier && r.entry == None)
  }

  lemma Members(q: Queue)
    ensures forall id :: id in PrivateIds(q) <==> (id in q.reserved && q.reserved[id]) || (id in q.live && q.live[id].priv.Some?)
    ensures forall id :: id in SortedIds(q) <==> id in q.live && q.live[id].place.Sorted?
  {
  }

  /** One element more, or one less. */
  lemma Counts(s: set<nat>, x: nat)
    ensures |s + {x}| == |s| + One(x !in s)
    ensures |s - {x}| == |s| - One(x in s)
  {
    if x in s {
      assert s + {x} == s;
    } else {
      assert s - {x} == s;
    }
  }

  lemma DrainInv(q: Queue)
    requires Inv(q)
    ensures Inv(Drain(q)) && Drain(q).nrSorted == 0 && Drain(q).elvpriv == q.elvpriv
    ensures PrivateIds(Drain(q)) == PrivateIds(q) && SortedIds(Drain(q)) == {}
  {
    hide PrivateIds, SortedIds;
    Members(q);
    Members(Drain(q));
    assert SortedIds(Drain(q)) == {};
    assert PrivateIds(Drain(q)) == PrivateIds(q);
  }

  lemma PutInv(q: Queue, id: nat, r: Rq)
    requires Inv(q) && id in q.live && RqOk(q.gen, r) && r.priv == q.live[id].priv
    ensures Inv(Put(q, id, r).(nrSorted := q.nrSorted - One(q.live[id].place.Sorted?) + One(r.place.Sorted?)))
  {
    hide PrivateIds, SortedIds, RqOk;
    PutIds(q, id, r, q.nrSorted - One(q.live[id].place.Sorted?) + One(r.place.Sorted?));
    Members(q);
    Counts(SortedIds(q), id);
  }

  lemma PutIds(q: Queue, id: nat, r: Rq, n: int)
    requires id in q.live && r.priv == q.live[id].priv
    ensures PrivateIds(Put(q, id, r).(nrSorted := n)) == PrivateIds(q)
    ensures SortedIds(Put(q, id, r).(nrSorted := n)) == if r.place.Sorted? then SortedIds(q) + {id} else SortedIds(q) - {id}
  {
    hide PrivateIds, SortedIds;
    Members(q);
    Members(Put(q, id, r).(nrSorted := n));
  }

  lemma DropInv(q: Queue, id: nat)
    requires Inv(q) && id in q.live
    ensures Inv(Drop(q, id).(nrSorted := q.nrSorted - One(q.live[id].place.Sorted?)))
  {
    hide PrivateIds, SortedIds;
    DropIds(q, id, q.nrSorted - One(q.live[id].place.Sorted?));
    Members(q);
    Counts(SortedIds(q), id);
    Counts(PrivateIds(q), id);
  }

  lemma DropIds(q: Queue, id: nat, n: int)
    requires Inv(q) && id in q.live
    ensures PrivateIds(Drop(q, id).(nrSorted := n)) == PrivateIds(q) - {id}
    ensures SortedIds(Drop(q, id).(nrSorted := n)) == SortedIds(q) - {id}
  {
    hide PrivateIds, SortedIds;
    Members(q);
    Members(Drop(q, id).(nrSorted := n));
    assert id !in q.reserved;
  }

  lemma ReserveIds(q: Queue, id: nat, b: bool, n: int)
    requires id !in q.reserved && id !in q.live
    ensures PrivateIds(q.(reserved := q.reserved[id := b], elvpriv := n)) == if b then PrivateIds(q) + {id} else PrivateIds(q)
    ensures SortedIds(q.(reserved := q.reserved[id := b], elvpriv := n)) == SortedIds(q)
    ensures id !in PrivateIds(q)
  {
    hide PrivateIds, SortedIds;
    Members(q);
    Members(q.(reserved := q.reserved[id := b], elvpriv := n));
  }

  lemma ReserveInv(q: Queue, id: nat)
    requires Inv(q) && Enabled(q, Reserve(id))
    ensures Inv(Step(q, Reserve(id)))
  {
    hide PrivateIds, SortedIds;
    ReserveIds(q, id, !Switching(q), q.elvpriv + One(!Switching(q)));
    Counts(PrivateIds(q), id);
  }

  lemma AllocFailsIds(q: Queue, id: nat, n: int)
    requires id in q.reserved && id !in q.live
    ensures PrivateIds(q.(reserved := q.reserved - {id}, elvpriv := n)) == PrivateIds(q) - {id}
    ensures SortedIds(q.(reserved := q.reserved - {id}, elvpriv := n)) == SortedIds(q)
    ensures id in PrivateIds(q) <==> q.reserved[id]
  {
    hide PrivateIds, SortedIds;
    Members(q);
    Members(q.(reserved := q.reserved - {id}, elvpriv := n));
  }

  lemma AllocFailsInv(q: Queue, id: nat)
    requires Inv(q) && Enabled(q, AllocFails(id))
    ensures Inv(Step(q, AllocFails(id)))
  {
    hide PrivateIds, SortedIds;
    AllocFailsIds(q, id, q.elvpriv - One(q.reserved[id]));
    Counts(PrivateIds(q), id);
  }

  lemma SetPrivateInv(q: Queue, id: nat)
    requires Inv(q) && Enabled(q, SetPrivate(id))
    ensures Inv(Step(q, SetPrivate(id)))
  {
    hide PrivateIds, SortedIds;
    var r := Step(q, SetPrivate(id));
    Members(q);
    Members(r);
    assert SortedIds(r) == SortedIds(q);
    assert PrivateIds(r) == PrivateIds(q);
  }

  lemma InsertInv(q: Queue, id: nat, where: Where)
    requires Inv(q) && id in q.live && q.live[id].place.Allocated?
    ensures Inv(Step(q, Insert(id, where)))
  {
    hide Inv, Put, Drain;
    LiveOk(q, id);
    var w := Effective(q.live[id], where);
    var r := Entered(q.live[id], w);
    PutCount(q, id, r);
    PutCount(Drain(q), id, r);
    if w.Back? {
      DrainInv(q);
      DrainKeeps(q, id);
      PutInv(Drain(q), id, r);
    } else {
      PutInv(q, id, r);
    }
  }

  lemma LiveOk(q: Queue, id: nat)
    requires Inv(q) && id in q.live
    ensures RqOk(q.gen, q.live[id])
  {
  }

  lemma PutCount(q: Queue, id: nat, r: Rq)
    ensures Put(q, id, r).nrSorted == q.nrSorted
  {
  }

  lemma DrainKeeps(q: Queue, id: nat)
    requires id in q.live
    ensures id in Drain(q).live && (q.live[id].place.Allocated? ==> Drain(q).live[id] == q.live[id])
    ensures Drain(q).gen == q.gen
  {
  }

  /** The new scheduler is attached when no request has private data of the old one. */
  lemma AttachInv(q: Queue)
    requires Inv(q) && q.phase.Draining? && q.elvpriv == 0
    ensures Inv(Step(q, Attach))
    ensures Step(q, Attach).nrSorted == 0 && Step(q, Attach).elvpriv == 0
    ensures forall id <- Step(q, Attach).live :: Step(q, Attach).live[id].priv.None? && !Step(q, Attach).live[id].place.Sorted?
    ensures forall id <- q.reserved :: !q.reserved[id]
  {
    hide PrivateIds, SortedIds;
    var r := Step(q, Attach);
    Members(q);
    Members(r);
    DrainInv(q);
    Members(Drain(q));
    assert PrivateIds(q) == {};
    assert SortedIds(r) == {};
    assert PrivateIds(r) == {};
  }

  lemma StepInv(q: Queue, e: Event)
    requires Inv(q) && Enabled(q, e)
    ensures Inv(Step(q, e))
  {
    hide Inv, Put, Drop, Drain;
    match e
    case Reserve(id) => ReserveInv(q, id);
    case AllocFails(id) => AllocFailsInv(q, id);
    case SetPrivate(id) => SetPrivateInv(q, id);
    case Insert(id, where) => InsertInv(q, id, where);
    case Dispatch(id) => LiveOk(q, id); PutInv(q, id, q.live[id].(place := Queued)); PutCount(q, id, q.live[id].(place := Queued));
    case Requeue(id) => LiveOk(q, id); PutInv(q, id, q.live[id].(barrier := true)); PutCount(q, id, q.live[id].(barrier := true));
    case MergedAway(id) => DropInv(q, id);
    case Free(id) => DropInv(q, id); DropRule(q, id);
    case SwitchStart => DrainInv(q); PhaseOnly(Drain(q), Draining);
    case SwitchPoll => DrainInv(q);
    case Attach => AttachInv(q);
    case SwitchEnd => PhaseOnly(q, Steady);
  }

  lemma DropRule(q: Queue, id: nat)
    requires id in q.live
    ensures Drop(q, id).nrSorted == q.nrSorted
  {
  }

  lemma PhaseOnly(q: Queue, phase: Phase)
    requires Inv(q) && !phase.Attached?
    ensures Inv(q.(phase := phase))
  {
    hide PrivateIds, SortedIds;
    Members(q);
    Members(q.(phase := phase));
    assert PrivateIds(q.(phase := phase)) == PrivateIds(q);
    assert SortedIds(q.(phase := phase)) == SortedIds(q);
  }

  // ---------------------------------------------------------------------------------------
  // Runs
  // ---------------------------------------------------------------------------------------

  predicate Possible(q: Queue, es: seq<Event>)
    decreases |es|
  {
    es == [] || (Enabled(q, es[0]) && Possible(Step(q, es[0]), es[1..]))
  }

  function Runs(q: Queue, es: seq<Event>): Queue
    requires Possible(q, es)
    decreases |es|
  {
    if es == [] then q else Runs(Step(q, es[0]), es[1..])
  }

  lemma {:induction false} RunsInv(q: Queue, es: seq<Event>)
    requires Inv(q) && Possible(q, es)
    ensures Inv(Runs(q, es))
    decreases |es|
  {
    hide Inv, Step, Enabled;
    if es != [] {
      StepInv(q, es[0]);
      RunsInv(Step(q, es[0]), es[1..]);
    }
  }

  function Fresh(): Queue {
    Queue(0, Steady, map[], map[], 0, 0)
  }

  lemma FreshInv()
    ensures Inv(Fresh())
  {
    assert PrivateIds(Fresh()) == {};
    assert SortedIds(Fresh()) == {};
  }

  /**
   * In every interleaving, at the moment a new scheduler is attached both counters are zero, no
   * request is in the scheduler, and none has, or is about to get, private data of the old one.
   */
  lemma SwitchIsSafe(es: seq<Event>)
    requires Possible(Fresh(), es) && Enabled(Runs(Fresh(), es), Attach)
    ensures var q := Runs(Fresh(), es); var r := Step(q, Attach);
            && r.nrSorted == 0 && r.elvpriv == 0
            && (forall id <- r.live :: r.live[id].priv.None? && !r.live[id].place.Sorted?)
            && (forall id <- r.reserved :: !r.reserved[id])
  {
    hide Possible, Runs, Inv, Drain;
    FreshInv();
    RunsInv(Fresh(), es);
    var q := Runs(Fresh(), es);
    AttachInv(q);
    AttachReserved(q);
  }

  lemma AttachReserved(q: Queue)
    requires Enabled(q, Attach)
    ensures Step(q, Attach).reserved == q.reserved
  {
  }

  /**
   * In every reachable state private data belongs to the scheduler that is attached, every request
   * in the scheduler has some, and a request that has none, being allocated during a switch, never
   * was in the scheduler.
   */
  lemma PrivateDataIsCurrent(es: seq<Event>, id: nat)
    requires Possible(Fresh(), es) && id in Runs(Fresh(), es).live
    ensures var q := Runs(Fresh(), es); var r := q.live[id];
            && (r.priv.Some? ==> r.priv.value == q.gen)
            && (r.place.Sorted? ==> r.priv == Some(q.gen))
            && (r.priv.None? ==> r.entry != Some(Sort))
  {
    hide Possible, Runs;
    FreshInv();
    RunsInv(Fresh(), es);
  }

  /**
   * In every reachable state a request allocated during a switch that asks to be sorted goes to the
   * back of the dispatch list instead, behind everything that the scheduler held.
   */
  lemma EntersAtBack(es: seq<Event>, id: nat)
    requires Possible(Fresh(), es) && Enabled(Runs(Fresh(), es), Insert(id, Sort))
    requires Runs(Fresh(), es).live[id].priv.None?
    ensures var r := Step(Runs(Fresh(), es), Insert(id, Sort));
            && id in r.live && r.live[id].entry == Some(Back) && r.live[id].place.Queued? && r.live[id].barrier
            && r.nrSorted == 0 && SortedIds(r) == {}
  {
    hide Possible, Runs, Drain, SortedIds, Inv;
    FreshInv();
    RunsInv(Fresh(), es);
    var q := Runs(Fresh(), es);
    LiveOk(q, id);
    DrainInv(q);
    DrainKeeps(q, id);
    Members(Drain(q));
    Members(Step(q, Insert(id, Sort)));
  }

  // ---------------------------------------------------------------------------------------
  // The queue as the code updates it
  // ---------------------------------------------------------------------------------------

  class RequestQueue {
    var gen: nat
    var phase: Phase
    var reserved: map<nat, bool>
    var live: map<nat, Rq>
    var elvpriv: int
    var nrSorted: int

    constructor ()
      ensures View() == Fresh()
    {
      gen, phase, reserved, live, elvpriv, nrSorted := 0, Steady, map[], map[], 0, 0;
    }

    ghost function View(): Queue
      reads this
    {
      Queue(gen, phase, reserved, live, elvpriv, nrSorted)
    }

    /** The accounting of get_request, up to where it lets go of the queue lock. */
    method GetRequest(id: nat)
      requires Enabled(View(), Reserve(id))
      modifies this
      ensures View() == Step(old(View()), Reserve(id))
    {
      var priv := phase.Steady?;
      if priv {
        elvpriv := elvpriv + 1;
      }
      reserved := reserved[id := priv];
    }

    /** freed_request, for a request that has left the scheduler. */
    method FreedRequest(id: nat)
      requires Enabled(View(), Free(id))
      modifies this
      ensures View() == Step(old(View()), Free(id))
    {
      if live[id].priv.Some? {
        elvpriv := elvpriv - 1;
      }
      live := live - {id};
    }

    /** elv_drain_elevator: the scheduler is made to dispatch one request after the other. */
    method DrainElevator()
      modifies this
      ensures View() == Drain(old(View()))
    {
      var waiting := set id | id in live && live[id].place.Sorted?;
      DrainingStart(View(), waiting);
      hide *;
      while waiting != {}
        invariant PartDrained(old(View()), View(), waiting)
      {
        var id :| id in waiting;
        DrainingStep(old(View()), View(), waiting, id);
        live := live[id := live[id].(place := Queued)];
        nrSorted := nrSorted - 1;
        waiting := waiting - {id};
      }
      DrainingEnd(old(View()), View());
    }

    /** __elv_add_request and elv_insert. */
    method AddRequest(id: nat, where: Where)
      requires Enabled(View(), Insert(id, where))
      modifies this
      ensures View() == Step(old(View()), Insert(id, where))
    {
      hide Drain;
      var place := where;
      if !live[id].barrier && live[id].priv.None? && where.Sort? {
        place := Back;
      }
      match place
      case Front => live := live[id := live[id].(place := Queued, barrier := true, entry := Some(Front))];
      case Back =>
        DrainKeeps(View(), id);
        DrainElevator();
        live := live[id := live[id].(place := Queued, barrier := true, entry := Some(Back))];
      case Sort =>
        nrSorted := nrSorted + 1;
        live := live[id := live[id].(place := Sorted, entry := Some(Sort))];
    }

    /** The last round of elv_quiesce_start and elevator_attach, under one hold of the queue lock. */
    method DrainAndAttach() returns (attached: bool)
      requires phase.Draining?
      modifies this
      ensures attached <==> old(elvpriv) == 0
      ensures View() == if attached then Step(old(View()), Attach) else Step(old(View()), SwitchPoll)
    {
      hide Drain;
      DrainOnly(View());
      DrainElevator();
      attached := elvpriv == 0;
      if attached {
        gen := gen + 1;
        phase := Attached;
      }
    }
  }

  lemma DrainDef(q: Queue)
    ensures Drain(q) == q.(live := Drain(q).live, nrSorted := q.nrSorted - |SortedIds(q)|)
  {
  }

  lemma DrainOnly(q: Queue)
    ensures Drain(q) == q.(live := Drain(q).live, nrSorted := Drain(q).nrSorted)
  {
  }

  /** Part of q0 has been drained, and what is waiting is still to be. */
  ghost predicate PartDrained(q0: Queue, q: Queue, waiting: set<nat>) {
    && q == q0.(live := q.live, nrSorted := q.nrSorted)
    && waiting == SortedIds(q) <= SortedIds(q0)
    && q.nrSorted == q0.nrSorted - |SortedIds(q0) - waiting|
    && Drain(q).live == Drain(q0).live
  }

  lemma DrainingStart(q: Queue, waiting: set<nat>)
    requires waiting == set id | id in q.live && q.live[id].place.Sorted?
    ensures PartDrained(q, q, waiting)
  {
    assert SortedIds(q) - waiting == {};
  }

  lemma DrainingStep(q0: Queue, q: Queue, waiting: set<nat>, id: nat)
    requires PartDrained(q0, q, waiting) && id in waiting
    ensures id in q.live
    ensures PartDrained(q0, q.(live := q.live[id := q.live[id].(place := Queued)], nrSorted := q.nrSorted - 1), waiting - {id})
  {
    hide Drain, SortedIds;
    Members(q);
    DispatchOne(q, SortedIds(q0), id);
  }

  lemma DrainingEnd(q0: Queue, q: Queue)
    requires PartDrained(q0, q, {})
    ensures q == Drain(q0)
  {
    hide Drain, SortedIds;
    DrainDef(q0);
    NothingSorted(q);
    assert SortedIds(q0) - {} == SortedIds(q0);
  }

  lemma NothingSorted(q: Queue)
    requires SortedIds(q) == {}
    ensures Drain(q).live == q.live
  {
    hide SortedIds;
    Members(q);
  }

  lemma DispatchOne(q: Queue, before: set<nat>, id: nat)
    requires id in q.live && q.live[id].place.Sorted? && SortedIds(q) <= before
    ensures var r := q.(live := q.live[id := q.live[id].(place := Queued)], nrSorted := q.nrSorted - 1);
            && SortedIds(r) == SortedIds(q) - {id} && id in SortedIds(q)
            && |before - SortedIds(r)| == |before - SortedIds(q)| + 1
            && |SortedIds(r)| < |SortedIds(q)|
            && Drain(r).live == Drain(q).live
  {
    var r := q.(live := q.live[id := q.live[id].(place := Queued)], nrSorted := q.nrSorted - 1);
    assert SortedIds(r) == SortedIds(q) - {id};
    assert before - SortedIds(r) == (before - SortedIds(q)) + {id};
    Counts(before - SortedIds(q), id);
    Counts(SortedIds(q), id);
  }
}
