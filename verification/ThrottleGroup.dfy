/** A throttle group as the source keeps it: the fields of both directions side by side, updated
    in place (borph/block/blk-throttle.c).  Directions are 0 (read) and 1 (write).
 */
module ThrottleGroup {
  import opened Throttle
  import opened ThrottleLanes

  lemma RoundUpSlice(y: nat)
    requires y > 0
    ensures RoundUp(y, y) == y
  {
  }

  class ThrotlGroup {
    const limits: seq<Limits>
    var bytesDisp: seq<nat>
    var ioDisp: seq<nat>
    var sliceStart: seq<nat>
    var sliceEnd: seq<nat>
    var bioLists: seq<seq<Bio>>
    var disptime: nat

    ghost predicate Valid()
      reads this
    {
      && |limits| == |bytesDisp| == |ioDisp| == |sliceStart| == |sliceEnd| == |bioLists| == 2
      && limits[0].Ok() && limits[1].Ok()
    }

    ghost function View(rw: nat): Slice
      requires rw < 2 && Valid()
      reads this
    {
      Slice(bytesDisp[rw], ioDisp[rw], sliceStart[rw], sliceEnd[rw])
    }

    /** The state of the group as the specification has it. */
    ghost function Lanes(): (g: seq<Lane>)
      requires Valid()
      reads this
      ensures GroupOk(limits, g)
    {
      [Lane(View(0), bioLists[0]), Lane(View(1), bioLists[1])]
    }

    constructor (read: Limits, write: Limits)
      requires read.Ok() && write.Ok()
      ensures Valid() && limits == [read, write] && Lanes() == NEW_GROUP
    {
      limits := [read, write];
      bytesDisp, ioDisp, sliceStart, sliceEnd := [0, 0], [0, 0], [0, 0], [0, 0];
      bioLists, disptime := [[], []], 0;
    }

    method StartNewSlice(rw: nat, now: nat)
      requires Valid() && rw < 2
      modifies this`bytesDisp, this`ioDisp, this`sliceStart, this`sliceEnd
      ensures Valid() && View(1 - rw) == old(View(1 - rw))
      ensures View(rw) == Slice(0, 0, now, now + limits[rw].slice)
    {
      bytesDisp := bytesDisp[rw := 0];
      ioDisp := ioDisp[rw := 0];
      sliceStart := sliceStart[rw := now];
      sliceEnd := sliceEnd[rw := now + limits[rw].slice];
    }

    /** throtl_set_slice_end and throtl_extend_slice */
    method ExtendSlice(rw: nat, jiffyEnd: nat)
      requires Valid() && rw < 2
      modifies this`sliceEnd
      ensures Valid() && View(1 - rw) == old(View(1 - rw))
      ensures View(rw) == old(View(rw)).(end := RoundUp(jiffyEnd, limits[rw].slice))
    {
      sliceEnd := sliceEnd[rw := RoundUp(jiffyEnd, limits[rw].slice)];
    }

    /** The BUG_ON at the top of throtl_trim_slice is the third precondition. */
    method TrimSlice(rw: nat, now: nat)
      requires Valid() && rw < 2
      requires sliceStart[rw] <= sliceEnd[rw]
      modifies this`bytesDisp, this`ioDisp, this`sliceStart, this`sliceEnd
      ensures Valid() && View(1 - rw) == old(View(1 - rw))
      ensures View(rw) == Trim(limits[rw], old(View(rw)), now)
    {
      hide Div, Scale, RoundUp;
      if !(sliceStart[rw] <= now <= sliceEnd[rw]) {
        return;
      }
      var L := limits[rw];
      ExtendSlice(rw, now + L.slice);
      var nrSlices := Div(now - sliceStart[rw], L.slice);
      if nrSlices == 0 {
        return;
      }
      var bytesTrim := Scale(L.bps, L.slice * nrSlices, L.hz);
      var ioTrim := Scale(L.iops, L.slice * nrSlices, L.hz);
      if bytesTrim == 0 && ioTrim == 0 {
        return;
      }
      if bytesDisp[rw] >= bytesTrim {
        bytesDisp := bytesDisp[rw := bytesDisp[rw] - bytesTrim];
      } else {
        bytesDisp := bytesDisp[rw := 0];
      }
      if ioDisp[rw] >= ioTrim {
        ioDisp := ioDisp[rw := ioDisp[rw] - ioTrim];
      } else {
        ioDisp := ioDisp[rw := 0];
      }
      sliceStart := sliceStart[rw := sliceStart[rw] + nrSlices * L.slice];
    }

    method WithinIopsLimit(rw: nat, now: nat) returns (ok: bool, wait: nat)
      requires Valid() && rw < 2 && sliceStart[rw] <= now
      ensures Verdict(ok, wait) == IopsVerdict(limits[rw], View(rw), now)
    {
      var L := limits[rw];
      var elapsed := now - sliceStart[rw];
      var rnd := elapsed;
      if elapsed == 0 {
        rnd := L.slice;
        RoundUpSlice(L.slice);
      }
      rnd := RoundUp(rnd, L.slice);
      var tmp := Scale(L.iops, rnd, L.hz);
      var ioAllowed := if tmp > UINT_MAX then UINT_MAX else tmp;
      if ioDisp[rw] + 1 <= ioAllowed {
        return true, 0;
      }
      var jiffyWait := Scale(ioDisp[rw] + 1, L.hz, L.iops) + 1;
      if jiffyWait > elapsed {
        jiffyWait := jiffyWait - elapsed;
      } else {
        jiffyWait := 1;
      }
      return false, jiffyWait;
    }

    method WithinBpsLimit(rw: nat, size: nat, now: nat) returns (ok: bool, wait: nat)
      requires Valid() && rw < 2 && sliceStart[rw] <= now
      ensures Verdict(ok, wait) == BpsVerdict(limits[rw], View(rw), now, size)
    {
      var L := limits[rw];
      var elapsed := now - sliceStart[rw];
      var rnd := elapsed;
      if elapsed == 0 {
        rnd := L.slice;
        RoundUpSlice(L.slice);
      }
      rnd := RoundUp(rnd, L.slice);
      var bytesAllowed := Scale(L.bps, rnd, L.hz);
      if bytesDisp[rw] + size <= bytesAllowed {
        return true, 0;
      }
      var extra := bytesDisp[rw] + size - bytesAllowed;
      var jiffyWait := Scale(extra, L.hz, L.bps);
      if jiffyWait == 0 {
        jiffyWait := 1;
      }
      return false, jiffyWait + (rnd - elapsed);
    }

    method MayDispatchBio(rw: nat, size: nat, now: nat) returns (ok: bool, wait: nat)
      requires Valid() && rw < 2
      modifies this`bytesDisp, this`ioDisp, this`sliceStart, this`sliceEnd
      ensures Valid() && View(1 - rw) == old(View(1 - rw))
      ensures (View(rw), Verdict(ok, wait)) == MayDispatch(limits[rw], old(View(rw)), now, size)
    {
      hide Div, Window, Scale, RoundUp, BpsVerdict, IopsVerdict;
      var L := limits[rw];
      if !(sliceStart[rw] <= now <= sliceEnd[rw]) {
        StartNewSlice(rw, now);
      } else if sliceEnd[rw] < now + L.slice {
        ExtendSlice(rw, now + L.slice);
      }
      ghost var r := View(rw);
      assert r == Renew(L, old(View(rw)), now);
      AgreedWaitsNothing(L, r, now, size);
      var bpsOk, bpsWait := WithinBpsLimit(rw, size, now);
      var iopsOk, iopsWait := false, 0;
      if bpsOk {
        iopsOk, iopsWait := WithinIopsLimit(rw, now);
        if iopsOk {
          return true, 0;
        }
      }
      wait := if bpsWait < iopsWait then iopsWait else bpsWait;
      assert Verdict(false, wait) == Judge(L, r, now, size);
      if sliceEnd[rw] < now + wait {
        ExtendSlice(rw, now + wait);
      }
      return false, wait;
    }

    method ChargeBio(rw: nat, size: nat)
      requires Valid() && rw < 2
      modifies this`bytesDisp, this`ioDisp
      ensures Valid() && View(1 - rw) == old(View(1 - rw))
      ensures View(rw) == Charge(old(View(rw)), size)
    {
      bytesDisp := bytesDisp[rw := bytesDisp[rw] + size];
      ioDisp := ioDisp[rw := ioDisp[rw] + 1];
    }

    /** tg_update_disptime: check the head of each queue and remember the earlier time. */
    method UpdateDisptime(now: nat)
      requires Valid() && (bioLists[0] != [] || bioLists[1] != [])
      modifies this`bytesDisp, this`ioDisp, this`sliceStart, this`sliceEnd, this`disptime
      ensures Valid() && Lanes() == GroupStep(limits, old(Lanes()), Update(now))
      ensures disptime >= now
      ensures forall rw | 0 <= rw < 2 && bioLists[rw] != [] ::
                disptime <= now + MayDispatch(limits[rw], old(View(rw)), now, bioLists[rw][0].size).1.wait
      ensures exists rw | 0 <= rw < 2 && bioLists[rw] != [] ::
                disptime == now + MayDispatch(limits[rw], old(View(rw)), now, bioLists[rw][0].size).1.wait
    {
      hide MayDispatch;
      var readWait, writeWait := 0, 0;
      var ok: bool;
      if bioLists[0] != [] {
        ok, readWait := MayDispatchBio(0, bioLists[0][0].size, now);
      }
      if bioLists[1] != [] {
        ok, writeWait := MayDispatchBio(1, bioLists[1][0].size, now);
      }
      if bioLists[1] == [] || (bioLists[0] != [] && readWait <= writeWait) {
        disptime := now + readWait;
        assert bioLists[0] != [];
      } else {
        disptime := now + writeWait;
        assert bioLists[1] != [];
      }
    }

    /** blk_throtl_bio for a bio that was not throttled before; `passed` says that it goes on to
        the device now rather than into the queue. */
    method ThrotlBio(rw: nat, bio: Bio, now: nat) returns (passed: bool)
      requires Valid() && rw < 2
      modifies this
      ensures Valid() && Lanes() == GroupStep(limits, old(Lanes()), Arrive(now, rw, bio))
      ensures Sent(limits, old(Lanes()), Arrive(now, rw, bio), rw) == if passed then [bio] else []
    {
      hide MayDispatch;
      if bioLists[rw] != [] {
        bioLists := bioLists[rw := bioLists[rw] + [bio]];
        return false;
      }
      var ok, wait := MayDispatchBio(rw, bio.size, now);
      if ok {
        ChargeBio(rw, bio.size);
        return true;
      }
      assert View(rw) == Step(limits[rw], old(View(rw)), Direct(now, bio.size));
      bioLists := bioLists[rw := bioLists[rw] + [bio]];
      assert bioLists[rw] == [bio] && bioLists[1 - rw] == old(bioLists[1 - rw]) && View(1 - rw) == old(View(1 - rw));
      assert Lanes() == old(Lanes())[rw := Lane(Step(limits[rw], old(View(rw)), Direct(now, bio.size)), [bio])];
      WakingArrival(limits, old(Lanes()), now, rw, bio);
      UpdateDisptime(now);
      return false;
    }

    method DispatchOneBio(rw: nat, now: nat) returns (bio: Bio)
      requires Valid() && rw < 2 && bioLists[rw] != [] && sliceStart[rw] <= sliceEnd[rw]
      modifies this`bytesDisp, this`ioDisp, this`sliceStart, this`sliceEnd, this`bioLists
      ensures Valid() && View(1 - rw) == old(View(1 - rw))
      ensures bio == old(bioLists[rw])[0] && bioLists == old(bioLists)[rw := old(bioLists[rw])[1..]]
      ensures View(rw) == Trim(limits[rw], Charge(old(View(rw)), bio.size), now)
    {
      bio := bioLists[rw][0];
      bioLists := bioLists[rw := bioLists[rw][1..]];
      ChargeBio(rw, bio.size);
      TrimSlice(rw, now);
    }

    /** The condition and the body of a loop of throtl_dispatch_tg. */
    method DispatchHead(rw: nat, now: nat, bl: seq<Bio>) returns (ok: bool, bl': seq<Bio>)
      requires Valid() && rw < 2 && bioLists[rw] != []
      modifies this`bytesDisp, this`ioDisp, this`sliceStart, this`sliceEnd, this`bioLists
      ensures Valid() && View(1 - rw) == old(View(1 - rw))
      ensures var bio := old(bioLists[rw])[0];
              var m := MayDispatch(limits[rw], old(View(rw)), now, bio.size);
              && ok == m.1.ok
              && View(rw) == (if ok then Trim(limits[rw], Charge(m.0, bio.size), now) else m.0)
              && bioLists == (if ok then old(bioLists)[rw := old(bioLists[rw])[1..]] else old(bioLists))
              && bl' == if ok then bl + [bio] else bl
    {
      var size := bioLists[rw][0].size;
      CheckedSliceIsOrdered(limits[rw], View(rw), now, size);
      var wait: nat;
      ok, wait := MayDispatchBio(rw, size, now);
      bl' := bl;
      if ok {
        var bio := DispatchOneBio(rw, now);
        bl' := bl + [bio];
      }
    }

    /** One of the two loops of throtl_dispatch_tg; `bl` is the list the bios are moved to. */
    method DispatchDirection(rw: nat, now: nat, max: nat, bl: seq<Bio>) returns (nr: nat, bl': seq<Bio>)
      requires Valid() && rw < 2 && max > 0
      modifies this`bytesDisp, this`ioDisp, this`sliceStart, this`sliceEnd, this`bioLists
      ensures Valid() && View(1 - rw) == old(View(1 - rw)) && bioLists[1 - rw] == old(bioLists[1 - rw])
      ensures (View(rw), nr) == Drain(limits[rw], old(View(rw)), old(bioLists[rw]), now, max)
      ensures nr <= |old(bioLists[rw])| && bioLists[rw] == old(bioLists[rw])[nr..]
      ensures bl' == bl + old(bioLists[rw])[..nr]
    {
      hide MayDispatch, Trim;
      nr, bl' := 0, bl;
      ghost var L, s, q := limits[rw], View(rw), bioLists[rw];
      while bioLists[rw] != []
        invariant Valid() && nr < max && nr <= |q|
        invariant bioLists[rw] == q[nr..] && bioLists[1 - rw] == old(bioLists[1 - rw])
        invariant View(1 - rw) == old(View(1 - rw))
        invariant bl' == bl + q[..nr]
        invariant var d := Drain(L, View(rw), bioLists[rw], now, max - nr);
                  Drain(L, s, q, now, max) == (d.0, d.1 + nr)
        decreases |q| - nr
      {
        DrainUnroll(L, View(rw), bioLists[rw], now, max - nr);
        var ok: bool;
        ok, bl' := DispatchHead(rw, now, bl');
        if !ok {
          return;
        }
        nr := nr + 1;
        assert q[..nr] == q[..nr - 1] + [q[nr - 1]];
        if nr >= max {
          return;
        }
      }
    }

    /** throtl_dispatch_tg: `bl'` is the list of bios to be issued, extended. */
    method DispatchGroup(now: nat, bl: seq<Bio>) returns (nr: nat, bl': seq<Bio>)
      requires Valid()
      modifies this`bytesDisp, this`ioDisp, this`sliceStart, this`sliceEnd, this`bioLists
      ensures Valid() && Lanes() == GroupStep(limits, old(Lanes()), Dispatch(now))
      ensures bl' == bl + Sent(limits, old(Lanes()), Dispatch(now), 0) + Sent(limits, old(Lanes()), Dispatch(now), 1)
      ensures |bl'| == |bl| + nr && nr <= THROTL_GRP_QUANTUM
    {
      hide Drain, GroupStep, Sent;
      var nrReads, nrWrites: nat;
      nrReads, bl' := DispatchDirection(0, now, MAX_NR_READS, bl);
      nrWrites, bl' := DispatchDirection(1, now, MAX_NR_WRITES, bl');
      nr := nrReads + nrWrites;
      DispatchRound(limits, old(Lanes()), now, 0, View(0), nrReads);
      DispatchRound(limits, old(Lanes()), now, 1, View(1), nrWrites);
    }
  }
}
