/** The table as the program runs it: dictionaries updated in place.

    Every method is tied to the function that says what the operation does (`TableState`, `TableSteps`), so every result
    about those functions is a result about these methods. */
module IdTable {
  import opened Ocpp
  import opened TableState
  import opened TableSteps
  import opened TableInvariant
  import opened TableCopies
  import opened TableMoves
  import opened IdSpaces
  import opened TableHolds
  import opened SaveRestore
  import Base = TableState
  import Spec = TableSteps

  // ------------------------------------------------------------------
  // Doing things one at a time
  // ------------------------------------------------------------------

  /** The largest of some numbers is unique. */
  lemma LargestIs(s: set<int>, m: int)
    requires (if s == {} then m == 0 else m in s) && forall x :: x in s ==> x <= m
    ensures MaxOrZero(s) == m
  {
  }

  ghost function IssuedIds(t: Tx): set<int> {
    set p | p in t.ix.byBackend :: p.id
  }

  lemma IssuedId(t: Tx, p: BackendTx)
    requires p in t.ix.byBackend
    ensures p.id in IssuedIds(t)
  {
  }

  lemma FirstFreeIs(s: set<int>, i: int)
    requires 1 <= i && i !in s && forall j :: 1 <= j < i ==> j in s
    ensures FirstFree(s) == i
  {
  }

  /** Some element, as iteration over a set or dictionary finds one. */
  method AnyOf<T(==)>(s: set<T>) returns (x: T)
    requires s != {}
    ensures x in s
  {
    x :| x in s;
  }

  class TransactionIdTable {
    const cfg: Config
    var recs: map<Ref, TxRecord>
    var next: Ref
    var byTx: map<int, Ref>
    var byBackend: map<BackendTx, Ref>
    var byStart: map<StartKey, Ref>
    var startMsgs: map<MsgId, Ref>
    var held: map<Backend, seq<Queued>>
    var copied: seq<Copy>
    var objs: map<Ref, IdRecord>
    var nextObj: Ref
    var records: map<SpaceId, Ref>
    var index: map<SpaceKey, Ref>
    var expected: seq<Expected>

    ghost function TxView(): Tx
      reads this
    {
      Tx(recs, next, Indexes(byTx, byBackend, byStart, startMsgs), held, copied)
    }

    ghost function SpView(): Spaces
      reads this
    {
      Spaces(objs, nextObj, records, index, expected)
    }

    ghost function View(): Table
      reads this
    {
      Table(TxView(), SpView())
    }

    ghost predicate Valid()
      reads this
    {
      WF(TxView()) && SpacesOk(SpView())
    }

    constructor (cfg: Config)
      ensures this.cfg == cfg && View() == EmptyTable && Valid()
    {
      this.cfg := cfg;
      recs, next, byTx, byBackend, byStart, startMsgs, held, copied := map[], 0, map[], map[], map[], map[], map[], [];
      objs, nextObj, records, index, expected := map[], 0, map[], map[], [];
    }

    // ------------------------------------------------------------------
    // Ids for the charger
    // ------------------------------------------------------------------

    /** The largest id the charger holds. */
    method LargestHeld() returns (best: Option<int>)
      ensures best.None? ==> byTx.Keys == {}
      ensures best.Some? ==> best.value in byTx.Keys
      ensures forall k :: k in byTx.Keys ==> best.Some? && k <= best.value
    {
      best := None;
      var ids := byTx.Keys;
      while ids != {}
        invariant ids <= byTx.Keys
        invariant best.None? ==> ids == byTx.Keys
        invariant best.Some? ==> best.value in byTx.Keys
        invariant forall k :: k in byTx.Keys && k !in ids ==> best.Some? && k <= best.value
        decreases |ids|
      {
        var k := AnyOf(ids);
        ids := ids - {k};
        if best.None? || k > best.value {
          best := Some(k);
        }
      }
    }

    /** The largest number any backend issued. */
    method LargestIssued() returns (best: Option<int>)
      ensures best.None? ==> byBackend.Keys == {}
      ensures best.Some? ==> best.value in IssuedIds(TxView())
      ensures forall p :: p in byBackend.Keys ==> best.Some? && p.id <= best.value
    {
      hide IssuedIds;
      best := None;
      var pairs := byBackend.Keys;
      while pairs != {}
        invariant pairs <= byBackend.Keys
        invariant best.None? ==> pairs == byBackend.Keys
        invariant best.Some? ==> best.value in IssuedIds(TxView())
        invariant forall p :: p in byBackend.Keys && p !in pairs ==> best.Some? && p.id <= best.value
        decreases |pairs|
      {
        var p := AnyOf(pairs);
        pairs := pairs - {p};
        if best.None? || p.id > best.value {
          IssuedId(TxView(), p);
          best := Some(p.id);
        }
      }
    }

    /** The largest number in use. */
    method LargestKnown() returns (largest: int)
      ensures largest == MaxOrZero(KnownIds(TxView()))
    {
      var mine := LargestHeld();
      var theirs := LargestIssued();
      largest := if mine.None? then (if theirs.None? then 0 else theirs.value) else if theirs.None? || theirs.value < mine.value then mine.value else theirs.value;
      LargestIs(KnownIds(TxView()), largest);
    }

    method Fresh() returns (id: int)
      ensures id == Base.Fresh(TxView())
    {
      var largest := LargestKnown();
      id := largest + 1;
      if id > MAX_INT32 {
        id := 1;
        while id in byTx
          invariant 1 <= id && forall j :: 1 <= j < id ==> j in byTx.Keys
          decreases |byTx.Keys| + 1 - id
        {
          RangeSize(byTx.Keys, id);
          id := id + 1;
        }
        FirstFreeIs(byTx.Keys, id);
      }
    }

    method Choose(issued: int) returns (id: int)
      ensures id == Base.Choose(TxView(), issued)
    {
      if issued !in byTx {
        return issued;
      }
      id := Fresh();
    }

    // ------------------------------------------------------------------
    // Records that end
    // ------------------------------------------------------------------

    /** Forget the messages `msgs` where they lead to `r`. */
    method DropMessages(r: Ref, msgs: set<MsgId>)
      modifies this`startMsgs
      ensures startMsgs == Untracked(old(startMsgs), msgs, r)
    {
      ghost var before := startMsgs;
      var todo := msgs;
      while todo != {}
        invariant todo <= msgs && startMsgs == Untracked(before, msgs - todo, r)
        decreases |todo|
      {
        var msg := AnyOf(todo);
        todo := todo - {msg};
        if msg in startMsgs && startMsgs[msg] == r {
          startMsgs := startMsgs - {msg};
        }
      }
      assert msgs - todo == msgs;
    }

    /** Forget every backend's number that leads to `r`. */
    method DropNumbers(r: Ref)
      modifies this`byBackend
      ensures byBackend == map p | p in old(byBackend) && old(byBackend)[p] != r :: old(byBackend)[p]
    {
      ghost var before := byBackend;
      var pairs := byBackend.Keys;
      while pairs != {}
        invariant pairs <= before.Keys
        invariant byBackend == map p | p in before && (p in pairs || before[p] != r) :: before[p]
        decreases |pairs|
      {
        var p := AnyOf(pairs);
        pairs := pairs - {p};
        if byBackend[p] == r {
          byBackend := byBackend - {p};
        }
      }
    }

    /** Once no answer is outstanding, a record's messages are dropped; a start that came to nothing is no longer found. */
    method Collect(r: Ref)
      requires WF(TxView()) && r in recs
      modifies this`recs, this`startMsgs, this`byStart
      ensures TxView() == Base.Collect(old(TxView()), r) && WF(TxView())
    {
      hide WF;
      CollectKeeps(TxView(), r);
      var rec := recs[r];
      if rec.tries.sent == {} && rec.flags.awaiting == {} && rec.flags.queued == {} {
        DropMessages(r, rec.tries.msgs);
        recs := recs[r := Unregistered(rec)];
        if rec.state.Pending? && rec.backendIds == map[] && rec.key in byStart && byStart[rec.key] == r {
          byStart := byStart - {rec.key};
        }
      }
    }

    /** Take one record out of every index. */
    method Forget(r: Ref)
      requires WF(TxView()) && r in recs
      modifies this`byTx, this`byBackend, this`byStart, this`startMsgs
      ensures TxView() == ForgetAll(old(TxView()), {r}) && WF(TxView())
    {
      hide WF, ForgetAll;
      ghost var t := TxView();
      ForgetKeeps(t, {r});
      ForgetOne(t, r);
      var rec := recs[r];
      if rec.txId.Some? && rec.txId.value in byTx && byTx[rec.txId.value] == r {
        byTx := byTx - {rec.txId.value};
      }
      DropNumbers(r);
      if rec.key in byStart && byStart[rec.key] == r {
        byStart := byStart - {rec.key};
      }
      DropMessages(r, rec.tries.msgs);
    }

    /** Forget stopped records kept long enough, and ones idle for very long. */
    method PruneHeld(now: Time)
      requires WF(TxView())
      modifies this`byTx, this`byBackend, this`byStart, this`startMsgs
      ensures TxView() == ForgetAll(old(TxView()), TooOldAmong(cfg, old(TxView()), old(byTx).Keys, now)) && WF(TxView())
    {
      hide WF, ForgetAll, TooOldAmong;
      ghost var t := TxView();
      var before := byTx;
      var ids := before.Keys;
      ForgetNone(t);
      NoneTooOld(cfg, t, now);
      assert before.Keys - ids == {};
      while ids != {}
        invariant ids <= before.Keys && recs == old(recs)
        invariant TxView() == ForgetAll(t, TooOldAmong(cfg, t, before.Keys - ids, now)) && WF(TxView())
        decreases |ids|
      {
        var k := AnyOf(ids);
        HeldUnderWF(t, k);
        MoreTooOld(cfg, t, before.Keys - ids, k, now);
        assert before.Keys - (ids - {k}) == before.Keys - ids + {k};
        ghost var dead := TooOldAmong(cfg, t, before.Keys - ids, now);
        ids := ids - {k};
        if TooOld(cfg, recs[before[k]], now) {
          Forget(before[k]);
          ForgetMore(t, dead, before[k]);
        }
      }
      assert before.Keys - ids == before.Keys;
    }

    /** Forget starts that nobody ever answered. */
    method PruneStarts(now: Time)
      requires WF(TxView())
      modifies this`byTx, this`byBackend, this`byStart, this`startMsgs
      ensures TxView() == ForgetAll(old(TxView()), NeverAnsweredAmong(cfg, old(TxView()), old(byStart).Keys, now)) && WF(TxView())
    {
      hide WF, ForgetAll, NeverAnsweredAmong;
      ghost var t := TxView();
      var before := byStart;
      var keys := before.Keys;
      ForgetNone(t);
      NoneUnanswered(cfg, t, now);
      assert before.Keys - keys == {};
      while keys != {}
        invariant keys <= before.Keys && recs == old(recs)
        invariant TxView() == ForgetAll(t, NeverAnsweredAmong(cfg, t, before.Keys - keys, now)) && WF(TxView())
        decreases |keys|
      {
        var k := AnyOf(keys);
        StartLeads(t, k);
        MoreUnanswered(cfg, t, before.Keys - keys, k, now);
        assert before.Keys - (keys - {k}) == before.Keys - keys + {k};
        ghost var dead := NeverAnsweredAmong(cfg, t, before.Keys - keys, now);
        keys := keys - {k};
        if NeverAnswered(cfg, recs[before[k]], now) {
          Forget(before[k]);
          ForgetMore(t, dead, before[k]);
        }
      }
      assert before.Keys - keys == before.Keys;
    }

    /** Take out the numbers `ids` that lead to `r`. */
    method DropObjectNumbers(r: Ref, space: Space, ids: map<Backend, int>)
      requires forall key :: key in index && index[key] == r ==> key.backend in ids && key == SpaceKey(space, key.backend, ids[key.backend])
      modifies this`index
      ensures index == map key | key in old(index) && old(index)[key] != r :: old(index)[key]
    {
      ghost var before := index;
      var todo := ids.Keys;
      while todo != {}
        invariant todo <= ids.Keys
        invariant index == map key | key in before && (key.backend in todo || before[key] != r) :: before[key]
        decreases |todo|
      {
        var b := AnyOf(todo);
        todo := todo - {b};
        var key := SpaceKey(space, b, ids[b]);
        if key in index && index[key] == r {
          index := index - {key};
        }
      }
    }

    /** A released object's entries, where they still lead to it. */
    method SpaceRelease(r: Ref)
      requires SpacesOk(SpView()) && r in objs
      modifies this`records, this`index
      ensures SpView() == ReleaseAll(old(SpView()), {r}) && SpacesOk(SpView())
    {
      hide SpacesOk, ReleaseAll;
      ReleaseOk(SpView(), {r});
      ReleaseOne(SpView(), r);
      var o := objs[r];
      var id := SpaceId(o.space, o.cid);
      if id in records && records[id] == r {
        records := records - {id};
      }
      DropObjectNumbers(r, o.space, o.backendIds);
    }

    /** Forget reservations that ended, and objects that were not used for very long. */
    method PruneObjects(now: Time, wall: Time)
      requires SpacesOk(SpView())
      modifies this`records, this`index
      ensures SpView() == ReleaseAll(old(SpView()), Lapsed(cfg, old(SpView()), now, wall)) && SpacesOk(SpView())
    {
      hide SpacesOk, ReleaseAll, LapsedAmong;
      ghost var sp := SpView();
      var before := records;
      var ids := before.Keys;
      ReleaseNone(sp);
      NoneLapsed(cfg, sp, now, wall);
      assert before.Keys - ids == {};
      while ids != {}
        invariant ids <= before.Keys && objs == old(objs)
        invariant SpView() == ReleaseAll(sp, LapsedAmong(cfg, sp, before.Keys - ids, now, wall)) && SpacesOk(SpView())
        decreases |ids|
      {
        var id := AnyOf(ids);
        RecordLeads(sp, id);
        MoreLapsed(cfg, sp, before.Keys - ids, id, now, wall);
        assert before.Keys - (ids - {id}) == before.Keys - ids + {id};
        ghost var gone := LapsedAmong(cfg, sp, before.Keys - ids, now, wall);
        ids := ids - {id};
        if IsLapsed(cfg, objs[before[id]], now, wall) {
          SpaceRelease(before[id]);
          ReleaseMore(sp, gone, before[id]);
        }
      }
      assert before.Keys - ids == before.Keys;
      AllLapsed(cfg, sp, now, wall);
    }

    /** Forget whatever is old enough. */
    method Prune(now: Time, wall: Time)
      requires Valid()
      modifies this`byTx, this`byBackend, this`byStart, this`startMsgs, this`records, this`index
      ensures View() == Spec.Prune(cfg, old(View()), now, wall) && Valid()
    {
      hide WF, SpacesOk, ForgetAll, TooOldAmong, NeverAnsweredAmong, Expired;
      ghost var t := TxView();
      PruneHeld(now);
      ghost var held := TooOldAmong(cfg, t, t.ix.byTx.Keys, now);
      PruneStarts(now);
      PruneTwice(cfg, t, held, now);
      PruneObjects(now, wall);
    }

    /** Whether the table may be dropped: after pruning, everything is empty. */
    method IsIdle(now: Time, wall: Time) returns (idle: bool)
      requires Valid()
      modifies this`byTx, this`byBackend, this`byStart, this`startMsgs, this`records, this`index
      ensures View() == Spec.Prune(cfg, old(View()), now, wall) && Valid()
      ensures idle <==> byTx == map[] && byStart == map[] && startMsgs == map[] && records == map[] && forall f :: f in held ==> held[f] == []
    {
      hide WF, SpacesOk;
      Prune(now, wall);
      var served := AllServed();
      idle := byTx == map[] && byStart == map[] && startMsgs == map[] && records == map[] && served;
    }

    method AllServed() returns (served: bool)
      ensures served <==> forall f :: f in held ==> held[f] == []
    {
      served := true;
      var todo := held.Keys;
      while todo != {}
        invariant todo <= held.Keys
        invariant served <==> forall f :: f in held && f !in todo ==> held[f] == []
        decreases |todo|
      {
        var f := AnyOf(todo);
        todo := todo - {f};
        if held[f] != [] {
          served := false;
        }
      }
    }

    // ------------------------------------------------------------------
    // Translation
    // ------------------------------------------------------------------

    /** A StartTransaction in the backend's own reservation id, or without one the backend did not make. */
    method StartFrame(backend: Backend, frame: Frame, isLeader: bool, now: Time) returns (out: Frame)
      requires SpacesOk(SpView())
      modifies this`objs
      ensures (SpView(), out) == Spec.StartFrame(old(SpView()), backend, frame, isLeader, now) && SpacesOk(SpView())
    {
      hide SpacesOk;
      StartFrameSame(SpView(), backend, frame, isLeader, now);
      SameObjectsOk(SpView(), Spec.StartFrame(SpView(), backend, frame, isLeader, now).0);
      if !frame.Call? || frame.payload.obj.None? {
        return frame;
      }
      var heldId := frame.payload.obj.value;
      var key := SpaceId(Reservation, heldId);
      if key !in records {
        return if isLeader then frame else WithObj(frame, None);
      }
      RecordLeads(SpView(), key);
      var r := records[key];
      objs := objs[r := objs[r].(touched := now)];
      if backend !in objs[r].backendIds {
        return WithObj(frame, None);
      }
      var issued := objs[r].backendIds[backend];
      if issued == heldId {
        return frame;
      }
      out := WithObj(frame, Some(issued));
    }

    /** A MeterValues/StopTransaction frame in the leader's own transaction id. */
    method FrameForLeader(leader: Backend, frame: Frame, found: Option<Ref>) returns (out: Frame)
      requires WF(TxView()) && (found.Some? ==> found.value in recs)
      modifies this`recs
      ensures (TxView(), out) == LeaderFrame(old(TxView()), leader, frame, found)
      ensures frame.Call? && found.Some? && frame.payload.tx == old(recs)[found.value].txId && leader in old(recs)[found.value].backendIds ==>
                out == WithTx(frame, old(recs)[found.value].backendIds[leader])
    {
      if found.None? {
        return frame;
      }
      var rec := recs[found.value];
      if leader !in rec.backendIds {
        recs := recs[found.value := Degraded(rec, leader)];
        return frame;
      }
      out := InIdOf(rec, leader, frame);
    }

    // ------------------------------------------------------------------
    // Per-follower ordered queue
    // ------------------------------------------------------------------

    /** Remember a CALL copied to a follower; the oldest entries make room. */
    method NoteCopy(f: Backend, msg: MsgId)
      modifies this`copied
      ensures TxView() == Base.NoteCopy(old(TxView()), f, msg)
    {
      if Copy(f, msg) !in copied {
        copied := copied + [Copy(f, msg)];
      }
      ghost var log := copied;
      while |copied| > COPY_LOG
        invariant copied == (if |copied| < |log| then log[|log| - |copied|..] else log)
        invariant |copied| <= |log| && (|log| > COPY_LOG ==> |copied| >= COPY_LOG) && (|log| <= COPY_LOG ==> copied == log)
        decreases |copied|
      {
        copied := copied[1..];
      }
    }

    /** What becomes of the head of a follower's queue. */
    method ServeHead(f: Backend, item: Queued, now: Time) returns (leaves: bool, out: Option<Frame>)
      requires Valid() && ItemOk(TxView(), item)
      modifies this`recs, this`copied, this`objs
      ensures var h := HeadStep(cfg, old(View()), f, item, now);
        if leaves then h.Leaves? && View() == h.t && out == h.out else h == Blocked && View() == old(View())
      ensures item.IdCopy? && out.Some? ==>
                item.rec.Some? && f in old(recs)[item.rec.value].backendIds && out.value == WithTx(item.frame, old(recs)[item.rec.value].backendIds[f])
      ensures !leaves ==> item.IdCopy? && item.rec.Some? && f in old(recs)[item.rec.value].flags.awaiting && f !in old(recs)[item.rec.value].backendIds
    {
      hide WF, SpacesOk, Base.NoteCopy;
      leaves, out := true, None;
      match item
      case IdCopy(found, frame) =>
        if found.Some? {
          var rec := recs[found.value];
          if f in rec.backendIds {
            out := Some(InIdOf(rec, f, frame));
            NoteCopy(f, IdOf(frame));
          } else if f in rec.flags.awaiting && (if f in rec.flags.since then now - rec.flags.since[f] else 0.0) < cfg.followerWait {
            leaves := false;
          } else {
            recs := recs[found.value := GivenUpOn(rec, f)];
          }
        }
      case StartCopy(r, frame) =>
        recs := recs[r := StartWentTo(recs[r], f, IdOf(frame), now)];
        NoteCopy(f, IdOf(frame));
        var copy := StartFrame(f, frame, false, now);
        out := Some(copy);
      case PlainCopy(frame) =>
        NoteCopy(f, IdOf(frame));
        out := Some(frame);
    }

    /** Serve the queue up to the first copy that has to wait. */
    method Drain(f: Backend, now: Time) returns (out: seq<Frame>)
      requires Valid()
      modifies this`recs, this`held, this`copied, this`objs
      ensures (View(), out) == Spec.Drain(cfg, old(View()), f, now) && Valid()
    {
      hide WF, SpacesOk, HeadStep, Spec.Drain;
      ghost var goal := Spec.Drain(cfg, View(), f, now);
      out := [];
      while f in held && held[f] != []
        invariant Valid()
        invariant Spec.Drain(cfg, View(), f, now).0 == goal.0 && out + Spec.Drain(cfg, View(), f, now).1 == goal.1
        decreases |Queue(TxView(), f)|
      {
        var q := held[f];
        ghost var before := View();
        PopKeeps(cfg, before, f, now);
        DrainOnce(cfg, before, f, now, out);
        var leaves, frame := ServeHead(f, q[0], now);
        if !leaves {
          return;
        }
        PoppedObjects(cfg, before, f, now);
        held := held[f := q[1..]];
        out := out + Listed(frame);
      }
      DrainNothing(cfg, View(), f, now, out);
    }

    method Enqueue(f: Backend, item: Queued, now: Time) returns (out: seq<Frame>)
      requires Valid() && ItemOk(TxView(), item)
      modifies this`recs, this`held, this`copied, this`objs
      ensures (View(), out) == Spec.Enqueue(cfg, old(View()), f, item, now) && Valid()
    {
      hide WF, SpacesOk, Spec.Drain;
      EnqueueKeeps(cfg, View(), f, item, now);
      if f !in held {
        held := held[f := []];
      }
      assert held == old(held)[f := Queue(old(TxView()), f)];
      if |held[f]| >= cfg.maxHeld {
        if ConcernsTx(item) {
          recs := recs[RefOf(item) := Refused(recs[RefOf(item)], f)];
        }
        return [];
      }
      QueuedMore(old(View()), f, item);
      held := held[f := held[f] + [item]];
      assert held == old(held)[f := Queue(old(TxView()), f) + [item]];
      out := Drain(f, now);
    }

    /** A copy of one item for every follower that can be written to. */
    method CopyToFollowers(item: Queued, followers: seq<Follower>, now: Time) returns (sent: seq<Sent>)
      requires Valid() && ItemOk(TxView(), item)
      modifies this`recs, this`held, this`copied, this`objs
      ensures (View(), sent) == CopyToAll(cfg, old(View()), item, followers, now) && Valid()
    {
      hide WF, SpacesOk, ItemOk, Grows, Spec.Enqueue;
      ghost var t := View();
      sent := [];
      for i := 0 to |followers|
        invariant (View(), sent) == CopyToAll(cfg, t, item, followers[..i], now) && Valid()
      {
        CopyToAllKeeps(cfg, t, item, followers[..i], now);
        ItemGrows(t.tx, TxView(), item);
        assert followers[..i + 1][..i] == followers[..i];
        if followers[i].ready {
          var frames := Enqueue(followers[i].key, item, now);
          sent := sent + AllTo(followers[i].key, frames);
        }
      }
      assert followers[..|followers|] == followers;
    }

    /** The copy of a start for one follower. */
    method CopyStartTo(r: Ref, isNew: bool, frame: Frame, follower: Follower, now: Time) returns (out: seq<Frame>)
      requires Valid() && ItemOk(TxView(), StartCopy(r, frame))
      modifies this`recs, this`held, this`copied, this`objs
      ensures (View(), out) == CopyStart(cfg, old(View()), r, isNew, frame, follower, now) && Valid()
    {
      hide WF, SpacesOk, Spec.Enqueue;
      CopyStartKeeps(cfg, View(), r, isNew, frame, follower, now);
      var f := follower.key;
      if !isNew && (f in recs[r].backendIds || f in recs[r].flags.awaiting || f in recs[r].flags.degraded) {
        return [];
      }
      if !follower.ready {
        recs := recs[r := Degraded(recs[r], f)];
        return [];
      }
      QueuedForKeeps(View(), r, frame, f);
      recs := recs[r := QueuedAt(recs[r], f)];
      out := Enqueue(f, StartCopy(r, frame), now);
    }

    /** The copies of a start for all followers. */
    method CopyStartToFollowers(r: Ref, isNew: bool, frame: Frame, followers: seq<Follower>, now: Time) returns (sent: seq<Sent>)
      requires Valid() && ItemOk(TxView(), StartCopy(r, frame))
      modifies this`recs, this`held, this`copied, this`objs
      ensures (View(), sent) == CopyStartToAll(cfg, old(View()), r, isNew, frame, followers, now) && Valid()
    {
      hide WF, SpacesOk, ItemOk, Grows, CopyStart;
      ghost var t := View();
      sent := [];
      for i := 0 to |followers|
        invariant (View(), sent) == CopyStartToAll(cfg, t, r, isNew, frame, followers[..i], now) && Valid()
      {
        CopyStartToAllKeeps(cfg, t, r, isNew, frame, followers[..i], now);
        ItemGrows(t.tx, TxView(), StartCopy(r, frame));
        assert followers[..i + 1][..i] == followers[..i];
        var frames := CopyStartTo(r, isNew, frame, followers[i], now);
        sent := sent + AllTo(followers[i].key, frames);
      }
      assert followers[..|followers|] == followers;
    }

    // ------------------------------------------------------------------
    // What is learned about a record
    // ------------------------------------------------------------------

    /** The record opens: the charger's id is chosen, and the leader's number and answer are kept. */
    method Open(r: Ref, leader: Backend, issued: int, conf: Conf, now: Time)
      requires WF(TxView()) && r in recs && recs[r].state.Pending?
      modifies this`recs, this`byTx, this`byBackend
      ensures TxView() == OpenRecord(old(TxView()), r, leader, issued, conf, now) && WF(TxView())
    {
      hide WF, Base.Choose;
      OpenKeeps(TxView(), r, leader, issued, conf, now);
      var id := Choose(issued);
      var rec := recs[r];
      recs := recs[r := rec.(txId := Some(id), state := State.Open, conf := Some(conf.(tx := Some(id))), touched := now,
                             backendIds := rec.backendIds[leader := issued], flags := Heard(rec.flags, leader))];
      byTx := byTx[id := r];
      byBackend := byBackend[BackendTx(leader, issued) := r];
    }

    /** An observer's answer to its copy of the start: keep its number, or note that it has none. */
    method Learn(r: Ref, backend: Backend, frame: Frame)
      requires WF(TxView()) && IsHeld(TxView(), r)
      modifies this`recs, this`byBackend, this`startMsgs, this`byStart
      ensures TxView() == Base.Learn(old(TxView()), r, backend, frame) && WF(TxView())
    {
      hide WF, Base.Collect;
      LearnIdKeeps(TxView(), r, backend, frame);
      var rec := recs[r];
      if frame.Result? && frame.conf.tx.Some? {
        var id := frame.conf.tx.value;
        recs := recs[r := rec.(backendIds := rec.backendIds[backend := id], confs := rec.confs[backend := frame.conf], flags := Heard(rec.flags, backend))];
        byBackend := byBackend[BackendTx(backend, id) := r];
      } else {
        recs := recs[r := rec.(flags := Failed(rec.flags, backend))];
      }
      Collect(r);
    }

    /** An attempt failed; with the last one, the retries that wait are given the error. */
    method AttemptFailed(r: Ref, msg: MsgId, detail: string) returns (extra: seq<Frame>)
      requires WF(TxView()) && r in recs
      modifies this`recs, this`startMsgs, this`byStart
      ensures (TxView(), extra) == Base.AttemptFailed(old(TxView()), r, msg, detail) && WF(TxView())
    {
      hide WF, Base.Collect;
      FoundOk(TxView(), r);
      PutKeeps(TxView(), r, DropAttempt(TxView(), r, msg).recs[r]);
      var rec := recs[r];
      var sent := rec.tries.sent - {msg};
      extra := [];
      if sent == {} {
        extra := ErrorsFor(rec.tries.aliases, detail);
        recs := recs[r := WithoutRetries(rec, msg)];
      } else {
        recs := recs[r := WithoutAttempt(rec, msg)];
      }
      Collect(r);
    }

    /** The charger stopped the transaction. */
    method Close(r: Ref, now: Time)
      requires WF(TxView()) && r in recs && recs[r].txId.Some?
      modifies this`recs, this`startMsgs, this`byStart
      ensures TxView() == CloseRecord(old(TxView()), r, now) && WF(TxView())
      ensures r in recs && recs[r].state.Closed?
    {
      hide WF, Base.Collect;
      ClosedKeeps(TxView(), r, now);
      byStart := byStart - {recs[r].key};
      recs := recs[r := recs[r].(state := Closed, closedAt := Some(now))];
      CollectShape(TxView(), r);
      Collect(r);
    }

    // ------------------------------------------------------------------
    // Frames from the charger
    // ------------------------------------------------------------------

    /** Register one more attempt at a start, on a new record or on a known one. */
    method Attempt(known: Option<Ref>, key: StartKey, msg: MsgId, now: Time) returns (r: Ref)
      requires WF(TxView()) && (known.Some? ==> IsHeld(TxView(), known.value)) && (known.None? && cfg.dedupe ==> key !in byStart)
      modifies this`recs, this`next, this`byStart, this`startMsgs
      ensures (TxView(), r) == Spec.Attempt(cfg, old(TxView()), known, key, msg, now) && WF(TxView()) && IsHeld(TxView(), r)
    {
      hide WF;
      AttemptKeeps(cfg, TxView(), known, key, msg, now);
      if known.Some? {
        r := known.value;
        recs := recs[r := Tried(recs[r], msg, now)];
      } else {
        r := next;
        next := next + 1;
        recs := recs[r := Tried(NewRecord(key, r, now), msg, now)];
        if cfg.dedupe {
          byStart := byStart[key := r];
        }
      }
      startMsgs := startMsgs[msg := r];
    }

    /** A StartTransaction of the charger. */
    method ChargerStart(frame: Frame, leader: Backend, followers: seq<Follower>, now: Time) returns (plan: ChargerPlan)
      requires Valid() && IsStart(frame)
      modifies this
      ensures (View(), plan) == Spec.ChargerStart(cfg, old(View()), frame, leader, followers, now) && Valid()
    {
      hide WF, SpacesOk, CopyStartToAll, OpenRecord, Spec.Attempt, Spec.StartFrame;
      var key := frame.payload.start;
      StartCaseOk(cfg, TxView(), leader, key, now);
      if cfg.dedupe && key in byStart {
        var r := byStart[key];
        FoundByStart(cfg, TxView(), leader, key, now);
        StartLeads(TxView(), key);
        var rec := recs[r];
        if rec.state.Open? && rec.conf.Some? {
          // known and answered: repeat the answer
          return ChargerPlan(None, [], Some(Result(frame.id, rec.conf.value)));
        }
        if rec.state.Pending? && rec.tries.sent == {} && leader in rec.backendIds && leader in rec.confs {
          // the leader answered it while it was a follower
          Open(r, leader, rec.backendIds[leader], rec.confs[leader], now);
          OpenedRef(old(TxView()), r, leader, rec.backendIds[leader], rec.confs[leader], now);
          return ChargerPlan(None, [], Some(Result(frame.id, ConfOf(recs[r]))));
        }
        if rec.state.Pending? && rec.tries.sent == {} && leader in rec.flags.awaiting && leader in rec.flags.copyMsgs {
          // the leader has only its observer copy, not yet answered
          ParkKeeps(TxView(), r, leader, frame.id, now);
          recs := recs[r := Owing(rec, {rec.flags.copyMsgs[leader]}, now)];
          recs := recs[r := Parked(recs[r], frame.id)];
          return ChargerPlan(None, [], None);
        }
        if rec.tries.sent != {} && now - rec.tries.sentAt < cfg.staleStart {
          // share the answer to the outstanding attempt
          ParkKeeps(TxView(), r, leader, frame.id, now);
          recs := recs[r := Parked(rec, frame.id)];
          return ChargerPlan(None, [], None);
        }
        plan := ForwardStart(Some(r), frame, leader, followers, now);
      } else {
        plan := ForwardStart(None, frame, leader, followers, now);
      }
    }

    /** A start that goes to the leader, with a copy for each follower that does not have it. */
    method ForwardStart(known: Option<Ref>, frame: Frame, leader: Backend, followers: seq<Follower>, now: Time) returns (plan: ChargerPlan)
      requires Valid() && IsStart(frame)
      requires known.Some? ==> IsHeld(TxView(), known.value) && recs[known.value].key == frame.payload.start
      requires known.None? && cfg.dedupe ==> frame.payload.start !in byStart
      modifies this
      ensures var (tx1, r) := Spec.Attempt(cfg, old(TxView()), known, frame.payload.start, frame.id, now);
        var (sp1, out) := Spec.StartFrame(old(SpView()), leader, frame, true, now);
        var (t2, sent) := CopyStartToAll(cfg, Table(tx1, sp1), r, known.None?, frame, followers, now);
        View() == t2 && plan == ChargerPlan(Some(out), sent, None) && Valid()
    {
      hide WF, SpacesOk, CopyStartToAll, Spec.StartFrame;
      AttemptKeeps(cfg, TxView(), known, frame.payload.start, frame.id, now);
      var r := Attempt(known, frame.payload.start, frame.id, now);
      var out := StartFrame(leader, frame, true, now);
      var sent := CopyStartToFollowers(r, known.None?, frame, followers, now);
      plan := ChargerPlan(Some(out), sent, None);
    }

    /** A MeterValues or StopTransaction of the charger: the frame in the leader's own id; what is stopped is closed. */
    method QuoteTransaction(frame: Frame, leader: Backend, found: Option<Ref>, now: Time) returns (out: Frame)
      requires WF(TxView()) && QuotesTx(frame) && found == Find(byTx, frame.payload.tx.value)
      modifies this`recs, this`startMsgs, this`byStart
      ensures TxView() == Quoted(old(TxView()), frame, leader, found, now) && WF(TxView())
      ensures out == LeaderFrame(Touch(old(TxView()), found, now), leader, frame, found).1
      ensures found.Some? ==> found.value in old(recs) && found.value in recs
      ensures found.Some? && leader in old(recs)[found.value].backendIds ==> out == WithTx(frame, old(recs)[found.value].backendIds[leader])
      ensures found.Some? && frame.action.StopTransaction? ==> recs[found.value].state.Closed?
    {
      hide WF, CloseRecord;
      ghost var t := TxView();
      QuotedKeeps(t, frame, leader, found, now);
      if found.None? {
        return frame;
      }
      var r := found.value;
      HeldUnderWF(t, frame.payload.tx.value);
      QuotedIsMarked(t, frame, leader, r, now);
      MarkedKeeps(t, leader, r, now);
      recs := recs[r := recs[r].(touched := now)];
      var rec := recs[r];
      if leader in rec.backendIds {
        out := InIdOf(rec, leader, frame);
      } else {
        recs := recs[r := Degraded(rec, leader)];
        out := frame;
      }
      assert TxView() == Marked(t, leader, r, now) by {
        assert recs == t.recs[r := Marked(t, leader, r, now).recs[r]];
      }
      if frame.action.StopTransaction? && !rec.state.Closed? {
        Close(r, now);
      }
    }

    /** A charger CALL other than StartTransaction. */
    method ChargerCall(frame: Frame, leader: Backend, followers: seq<Follower>, now: Time) returns (plan: ChargerPlan)
      requires Valid() && frame.Call? && !IsStart(frame)
      modifies this
      ensures (View(), plan) == Spec.ChargerCall(cfg, old(View()), frame, leader, followers, now) && Valid()
    {
      hide WF, SpacesOk, CopyToAll, Quoted;
      var sent: seq<Sent>;
      if QuotesTx(frame) {
        var found := Find(byTx, frame.payload.tx.value);
        QuotedKeeps(TxView(), frame, leader, found, now);
        QuotedPlan(cfg, View(), frame, leader, followers, now);
        var out := QuoteTransaction(frame, leader, found, now);
        sent := CopyToFollowers(IdCopy(found, frame), followers, now);
        plan := ChargerPlan(Some(out), sent, None);
      } else {
        sent := CopyToFollowers(PlainCopy(frame), followers, now);
        plan := ChargerPlan(Some(frame), sent, None);
      }
    }

    /** Route one charger frame. */
    method FromCharger(frame: Frame, leader: Backend, followers: seq<Follower>, now: Time, wall: Time) returns (plan: ChargerPlan)
      requires Valid()
      modifies this
      ensures (View(), plan) == Spec.FromCharger(cfg, old(View()), frame, leader, followers, now, wall) && Valid()
    {
      hide WF, SpacesOk, Spec.ChargerStart, Spec.ChargerCall, Spec.Prune, Base.SettleReply;
      Prune(now, wall);
      if !frame.Call? {
        if !frame.Odd? {
          SettleReply(frame);
        }
        return ChargerPlan(Some(frame), [], None);
      }
      if frame.action.StartTransaction? {
        plan := ChargerStart(frame, leader, followers, now);
      } else {
        plan := ChargerCall(frame, leader, followers, now);
      }
    }

    // ------------------------------------------------------------------
    // Frames from the leader
    // ------------------------------------------------------------------

    /** From the leader's number to the charger's id, if the number is known. */
    method ReverseId(leader: Backend, issued: int) returns (id: Option<int>)
      requires WF(TxView())
      ensures id == Spec.ReverseId(TxView(), leader, issued)
    {
      if BackendTx(leader, issued) !in byBackend {
        return None;
      }
      id := recs[byBackend[BackendTx(leader, issued)]].txId;
    }

    /** A command of the leader, in the ids the charger knows. */
    method LeaderCall(leader: Backend, frame: Frame, now: Time) returns (out: Frame)
      requires Valid() && frame.Call?
      modifies this`objs, this`nextObj, this`records, this`index, this`expected
      ensures (View(), out) == Spec.LeaderCall(old(View()), leader, frame, now) && Valid()
    {
      hide WF, SpacesOk, Base.SpaceAssign, Spec.ReverseId;
      LeaderCallOk(View(), leader, frame, now);
      out := frame;
      if BackendQuotesTx(frame.action) && frame.payload.tx.Some? {
        var id := ReverseId(leader, frame.payload.tx.value);
        if id.Some? {
          out := WithTx(out, id.value);
        }
      }
      var spec := SpaceOf(frame.action);
      if spec.Some? && frame.payload.obj.Some? {
        var (space, mode) := spec.value;
        var value := frame.payload.obj.value;
        if mode.Assign? {
          var r, made := SpaceAssign(space, leader, value, ExpiryOf(frame.action, frame.payload), now);
          ExpectReply(Expected(frame.id, r, Assign, made));
          out := WithObj(out, Some(objs[r].cid));
        } else if SpaceKey(space, leader, value) in index {
          var r := index[SpaceKey(space, leader, value)];
          IndexLeads(SpView(), SpaceKey(space, leader, value));
          ExpectReply(Expected(frame.id, r, Release, false));
          out := WithObj(out, Some(objs[r].cid));
        }
      }
    }

    /** The leader answered a start it was asked for. */
    method LeaderStarted(r: Ref, leader: Backend, frame: Frame, now: Time) returns (plan: LeaderPlan)
      requires WF(TxView()) && r in recs && recs[r].state.Pending? && frame.Result?
      modifies this`recs, this`byTx, this`byBackend, this`startMsgs, this`byStart
      ensures (TxView(), plan) == Spec.LeaderStarted(old(TxView()), r, leader, frame, now) && WF(TxView())
    {
      hide WF, Base.Collect, OpenRecord, Base.AttemptFailed;
      if frame.conf.tx.None? {
        var unsent := AttemptFailed(r, frame.id, NO_ID);
        return LeaderPlan(Some(frame), []);
      }
      OpenKeeps(TxView(), r, leader, frame.conf.tx.value, frame.conf, now);
      Open(r, leader, frame.conf.tx.value, frame.conf, now);
      OpenedRef(old(TxView()), r, leader, frame.conf.tx.value, frame.conf, now);
      FoundOk(TxView(), r);
      PutKeeps(TxView(), r, WithoutRetries(recs[r], frame.id));
      var conf := ConfOf(recs[r]);
      plan := LeaderPlan(Some(Result(frame.id, conf)), ResultsFor(recs[r].tries.aliases, conf));
      recs := recs[r := WithoutRetries(recs[r], frame.id)];
      Collect(r);
    }

    /** The leader answers a start or an observer copy. */
    method LeaderAnswer(leader: Backend, frame: Frame, now: Time) returns (plan: LeaderPlan)
      requires WF(TxView()) && (frame.Result? || frame.Error?)
      modifies this`recs, this`byTx, this`byBackend, this`startMsgs, this`byStart, this`copied
      ensures (TxView(), plan) == Spec.LeaderAnswer(old(TxView()), leader, frame, now) && WF(TxView())
    {
      hide WF, Base.Collect, Base.Learn, Base.AttemptFailed, Spec.LeaderStarted;
      LeaderAnswerKeeps(TxView(), leader, frame, now);
      if frame.id in startMsgs {
        var r := startMsgs[frame.id];
        TrackedHeld(TxView(), frame.id);
        var rec := recs[r];
        if frame.id in rec.tries.sent {
          if rec.state.Pending? {
            if frame.Result? {
              plan := LeaderStarted(r, leader, frame, now);
            } else {
              var extra := AttemptFailed(r, frame.id, frame.detail);
              plan := LeaderPlan(Some(frame), extra);
            }
          } else {
            // the transaction exists by now: repeat its answer
            FoundOk(TxView(), r);
            PutKeeps(TxView(), r, WithoutAttempt(rec, frame.id));
            recs := recs[r := WithoutAttempt(rec, frame.id)];
            Collect(r);
            plan := LeaderPlan(Some(if frame.Result? && rec.conf.Some? then Result(frame.id, rec.conf.value) else frame), []);
          }
          return;
        }
        if leader in rec.flags.copyMsgs && rec.flags.copyMsgs[leader] == frame.id && leader !in rec.backendIds {
          // the promoted follower finally answers its observer copy: only the table reads it
          Learn(r, leader, frame);
          copied := Without(copied, Copy(leader, frame.id));
          return LeaderPlan(None, []);
        }
      }
      if Copy(leader, frame.id) in copied {
        copied := Without(copied, Copy(leader, frame.id));
        return LeaderPlan(None, []);
      }
      plan := LeaderPlan(Some(frame), []);
    }

    /** What the charger is sent for a frame of the leader. */
    method FromLeader(leader: Backend, frame: Frame, now: Time) returns (plan: LeaderPlan)
      requires Valid()
      modifies this
      ensures (View(), plan) == Spec.FromLeader(old(View()), leader, frame, now) && Valid()
    {
      hide WF, SpacesOk, Spec.LeaderAnswer, Spec.LeaderCall;
      if frame.Odd? {
        return LeaderPlan(Some(frame), []);
      }
      if frame.Call? {
        var out := LeaderCall(leader, frame, now);
        return LeaderPlan(Some(out), []);
      }
      plan := LeaderAnswer(leader, frame, now);
    }

    /** The broker itself refused a start: what the retries that shared the attempt are told. */
    method StartFailed(msg: MsgId) returns (extra: seq<Frame>)
      requires Valid()
      modifies this`recs, this`startMsgs, this`byStart
      ensures (TxView(), extra) == Spec.StartFailed(old(TxView()), msg) && Valid()
    {
      hide WF, SpacesOk, Base.AttemptFailed;
      if msg !in startMsgs {
        return [];
      }
      TrackedHeld(TxView(), msg);
      if msg !in recs[startMsgs[msg]].tries.sent {
        return [];
      }
      extra := AttemptFailed(startMsgs[msg], msg, UNAVAILABLE);
    }

    // ------------------------------------------------------------------
    // Followers, timers and leader changes
    // ------------------------------------------------------------------

    /** A follower answered: the frames that are now free for it. */
    method FromFollower(follower: Backend, frame: Frame, now: Time) returns (sent: seq<Sent>)
      requires Valid()
      modifies this`recs, this`byBackend, this`startMsgs, this`byStart, this`held, this`copied, this`objs
      ensures (View(), sent) == Spec.FromFollower(cfg, old(View()), follower, frame, now) && Valid()
    {
      hide WF, SpacesOk, Base.Learn, Spec.Drain;
      if !(frame.Result? || frame.Error?) {
        return [];
      }
      CopiedKeeps(TxView(), Without(copied, Copy(follower, frame.id)));
      copied := Without(copied, Copy(follower, frame.id));
      if frame.id !in startMsgs {
        return [];
      }
      var r := startMsgs[frame.id];
      TrackedHeld(TxView(), frame.id);
      if follower !in recs[r].flags.awaiting && follower in recs[r].backendIds {
        return [];
      }
      Learn(r, follower, frame);
      var frames := Drain(follower, now);
      sent := AllTo(follower, frames);
    }

    /** The hold timer fires; `order` lists the queues. */
    method ExpireHolds(order: seq<Backend>, now: Time) returns (released: seq<Sent>)
      requires Valid()
      modifies this`recs, this`held, this`copied, this`objs
      ensures (View(), released) == Spec.ExpireHolds(cfg, old(View()), order, now) && Valid()
    {
      hide WF, SpacesOk, Spec.Drain;
      ghost var t := View();
      released := [];
      for i := 0 to |order|
        invariant (View(), released) == Spec.ExpireHolds(cfg, t, order[..i], now) && Valid()
      {
        assert order[..i + 1][..i] == order[..i];
        var frames := Drain(order[i], now);
        released := released + AllTo(order[i], frames);
      }
      assert order[..|order|] == order;
    }

    /** How long until the first waiting head is due (None: nothing waits); `order` lists the queues. */
    method NextExpiryIn(order: seq<Backend>, now: Time) returns (due: Option<Time>)
      requires Valid()
      ensures due == TableHolds.NextExpiryIn(cfg, TxView(), order, now)
    {
      hide WF, SpacesOk;
      var soonest: Option<Time> := None;
      for i := 0 to |order|
        invariant soonest == Soonest(cfg, TxView(), order[..i], now)
      {
        assert order[..i + 1][..i] == order[..i];
        var f := order[i];
        if f in held && held[f] != [] && held[f][0].IdCopy? && held[f][0].rec.Some? {
          var rec := Resolve(held[f][0].rec.value);
          if f in rec.flags.awaiting {
            var at := (if f in rec.flags.since then rec.flags.since[f] else now) + cfg.followerWait;
            if soonest.None? || at < soonest.value {
              soonest := Some(at);
            }
          }
        }
      }
      assert order[..|order|] == order;
      due := if soonest.None? then None else Some(if soonest.value - now < 0.0 then 0.0 else soonest.value - now);
    }

    /** The record a queued copy refers to. */
    method Resolve(r: Ref) returns (rec: TxRecord)
      ensures rec == Rec(TxView(), r)
    {
      rec := if r in recs then recs[r] else Blank;
    }

    /** Every outstanding attempt at a start is void: the charger will retry. */
    method LeaderGaveUp(r: Ref)
      requires WF(TxView()) && r in recs && recs[r].state.Pending?
      modifies this`recs, this`startMsgs, this`byStart
      ensures TxView() == GiveUpAll(old(TxView()), {r}) && WF(TxView())
    {
      hide WF, Base.Collect, GiveUpAll;
      FoundOk(TxView(), r);
      GiveUpOne(TxView(), r);
      PutKeeps(TxView(), r, Voided(recs[r]));
      recs := recs[r := Voided(recs[r])];
      Collect(r);
    }

    /** No outstanding start is answered by the old leader any more. */
    method VoidStarts()
      requires WF(TxView())
      modifies this`recs, this`startMsgs, this`byStart
      ensures TxView() == GiveUpAll(old(TxView()), Waiting(old(TxView()))) && WF(TxView())
    {
      hide WF, GiveUpAll, WaitingAmong;
      ghost var t := TxView();
      var before := byStart;
      var keys := before.Keys;
      GiveUpNone(t);
      NoneWaiting(t);
      assert before.Keys - keys == {};
      while keys != {}
        invariant keys <= before.Keys
        invariant TxView() == GiveUpAll(t, WaitingAmong(t, before.Keys - keys)) && WF(TxView())
        decreases |keys|
      {
        var k := AnyOf(keys);
        StartLeads(t, k);
        MoreWaiting(t, before.Keys - keys, k);
        NotGivenUpYet(t, before.Keys - keys, k);
        assert before.Keys - (keys - {k}) == before.Keys - keys + {k};
        ghost var given := WaitingAmong(t, before.Keys - keys);
        keys := keys - {k};
        var r := before[k];
        if recs[r].state.Pending? && recs[r].tries.sent != {} {
          LeaderGaveUp(r);
          GiveUpMore(t, given, r);
        }
      }
      assert before.Keys - keys == before.Keys;
      AllWaiting(t);
    }

    /** What was queued for the promoted follower is given up on. */
    method DropQueueOf(b: Backend)
      requires WF(TxView())
      modifies this`recs, this`held
      ensures TxView() == DropQueue(old(TxView()), b) && WF(TxView())
    {
      hide WF, RefsIn, Demoted, DemotedIn, ItemOk, DropQueue;
      DropQueueKeeps(TxView(), b);
      ghost var t := TxView();
      var q := if b in held then held[b] else [];
      held := held - {b};
      NoneDemoted(t.recs, b);
      NoRefs(q);
      for i := 0 to |q|
        invariant recs == DemotedIn(t.recs, RefsIn(q[..i]), b) && held == t.held - {b}
      {
        MoreRefs(q, i);
        if ConcernsTx(q[i]) {
          QueuedRef(t, b, i);
          MoreDemoted(t.recs, RefsIn(q[..i]), RefOf(q[i]), b);
          recs := recs[RefOf(q[i]) := Demoted(recs[RefOf(q[i])], b)];
        }
      }
      assert q[..|q|] == q;
      DroppedIs(t, b);
    }

    /** A follower was promoted. */
    method LeaderChanged(newLeader: Option<Backend>)
      requires Valid()
      modifies this`recs, this`startMsgs, this`byStart, this`held
      ensures TxView() == Spec.LeaderChanged(old(TxView()), newLeader) && Valid()
    {
      hide WF, SpacesOk, GiveUpAll, DropQueue;
      VoidStarts();
      if newLeader.Some? {
        DropQueueOf(newLeader.value);
      }
    }

    // ------------------------------------------------------------------
    // Reservations and charging profiles
    // ------------------------------------------------------------------

    /** The largest of the charger's ids in a space. */
    method LargestCid(space: Space) returns (best: Option<int>)
      ensures best.Some? ==> best.value in SpaceKnown(SpView(), space)
      ensures forall k :: k in records.Keys && k.space == space ==> best.Some? && k.cid <= best.value
    {
      best := None;
      var ids := records.Keys;
      while ids != {}
        invariant ids <= records.Keys
        invariant best.Some? ==> best.value in SpaceKnown(SpView(), space)
        invariant forall k :: k in records.Keys && k !in ids && k.space == space ==> best.Some? && k.cid <= best.value
        decreases |ids|
      {
        hide SpaceKnown;
        var k := AnyOf(ids);
        ids := ids - {k};
        if k.space == space && (best.None? || k.cid > best.value) {
          RecordNumber(SpView(), k);
          best := Some(k.cid);
        }
      }
    }

    /** The largest of the backends' numbers in a space. */
    method LargestBid(space: Space) returns (best: Option<int>)
      ensures best.Some? ==> best.value in SpaceKnown(SpView(), space)
      ensures forall k :: k in index.Keys && k.space == space ==> best.Some? && k.bid <= best.value
    {
      best := None;
      var keys := index.Keys;
      while keys != {}
        invariant keys <= index.Keys
        invariant best.Some? ==> best.value in SpaceKnown(SpView(), space)
        invariant forall k :: k in index.Keys && k !in keys && k.space == space ==> best.Some? && k.bid <= best.value
        decreases |keys|
      {
        hide SpaceKnown;
        var k := AnyOf(keys);
        keys := keys - {k};
        if k.space == space && (best.None? || k.bid > best.value) {
          IndexNumber(SpView(), k);
          best := Some(k.bid);
        }
      }
    }

    /** The largest number in use in a space. */
    method LargestInSpace(space: Space) returns (largest: int)
      ensures largest == MaxOrZero(SpaceKnown(SpView(), space))
    {
      var cid := LargestCid(space);
      var bid := LargestBid(space);
      largest := if cid.None? then (if bid.None? then 0 else bid.value) else if bid.None? || bid.value < cid.value then cid.value else bid.value;
      LargestOfSpace(SpView(), space, largest);
    }

    method SpaceFresh(space: Space) returns (cid: int)
      ensures cid == Base.SpaceFresh(SpView(), space)
    {
      var largest := LargestInSpace(space);
      cid := largest + 1;
      if cid > MAX_INT32 {
        cid := 1;
        ghost var taken := TakenIds(SpView(), space);
        while SpaceId(space, cid) in records
          invariant 1 <= cid && forall j :: 1 <= j < cid ==> j in taken
          decreases |taken| + 1 - cid
        {
          TakenUnder(SpView(), SpaceId(space, cid));
          RangeSize(taken, cid);
          cid := cid + 1;
        }
        NotTaken(SpView(), space, cid);
        FirstFreeIs(taken, cid);
      }
    }

    /** The object `backend` numbers `bid`: the known one, or a new one (then the last part is true). */
    method SpaceAssign(space: Space, backend: Backend, bid: int, expires: Option<Time>, now: Time) returns (r: Ref, made: bool)
      requires SpacesOk(SpView())
      modifies this`objs, this`nextObj, this`records, this`index
      ensures (SpView(), r, made) == Base.SpaceAssign(old(SpView()), space, backend, bid, expires, now) && SpacesOk(SpView()) && r in objs
    {
      hide SpacesOk, Base.SpaceFresh;
      SpaceAssignOk(SpView(), space, backend, bid, expires, now);
      var key := SpaceKey(space, backend, bid);
      if key in index {
        IndexLeads(SpView(), key);
        r := index[key];
        objs := objs[r := Later(expires, objs[r], now)];
        return r, false;
      }
      var cid := bid;
      if SpaceId(space, cid) in records {
        cid := SpaceFresh(space);
      }
      r, made := nextObj, true;
      nextObj := nextObj + 1;
      objs := objs[r := IdRecord(space, cid, r, map[backend := bid], expires, now, now)];
      records := records[SpaceId(space, cid) := r];
      index := index[key := r];
    }

    /** An object of nobody's: its id is taken. */
    method SpaceOccupy(space: Space, cid: int, expires: Option<Time>, now: Time)
      requires SpacesOk(SpView())
      modifies this`objs, this`nextObj, this`records
      ensures SpView() == Base.SpaceOccupy(old(SpView()), space, cid, expires, now) && SpacesOk(SpView())
    {
      hide SpacesOk;
      SpaceOccupyOk(SpView(), space, cid, expires, now);
      var id := SpaceId(space, cid);
      if id in records {
        RecordLeads(SpView(), id);
        objs := objs[records[id] := Later(expires, objs[records[id]], now)];
      } else {
        objs := objs[nextObj := IdRecord(space, cid, nextObj, map[], expires, now, now)];
        records := records[id := nextObj];
        nextObj := nextObj + 1;
      }
    }

    /** Remember a command whose answer decides; the oldest entries make room. */
    method ExpectReply(e: Expected)
      requires SpacesOk(SpView())
      modifies this`expected
      ensures SpView() == Base.ExpectReply(old(SpView()), e) && SpacesOk(SpView())
    {
      hide SpacesOk;
      ExpectedOk(SpView(), Base.ExpectReply(SpView(), e).expected);
      expected := Noted(expected, e);
      ghost var log := expected;
      while |expected| > REPLY_LOG
        invariant expected == (if |expected| < |log| then log[|log| - |expected|..] else log)
        invariant |expected| <= |log| && (|log| > REPLY_LOG ==> |expected| >= REPLY_LOG) && (|log| <= REPLY_LOG ==> expected == log)
        decreases |expected|
      {
        expected := expected[1..];
      }
    }

    /** An answer to a logged command: a new object that was refused goes, and so does one whose release was accepted. */
    method SettleReply(frame: Frame)
      requires Valid()
      modifies this`expected, this`records, this`index
      ensures SpView() == Base.SettleReply(old(SpView()), frame) && Valid()
    {
      hide WF, SpacesOk;
      var e := ExpectedFor(expected, IdOf(frame));
      if e.None? {
        return;
      }
      ghost var sp := SpView();
      ExpectedOk(SpView(), DropExpected(expected, IdOf(frame)));
      expected := DropExpected(expected, IdOf(frame));
      var accepted := frame.Result? && frame.conf.accepted;
      if (e.value.mode.Assign? && e.value.made && !accepted) || (e.value.mode.Release? && accepted) {
        ReleaseExpected(e.value.ref);
      }
    }

    /** Release an object a command was about (it may be gone already). */
    method ReleaseExpected(r: Ref)
      requires SpacesOk(SpView())
      modifies this`records, this`index
      ensures SpView() == ReleaseAll(old(SpView()), {r}) && SpacesOk(SpView())
    {
      hide SpacesOk;
      if r in objs {
        SpaceRelease(r);
      } else {
        NothingLeads(SpView(), r);
      }
    }

    /** A command through the broker's own interface: no backend's, but its ids count. */
    method NoteCommand(action: Action, payload: Payload, now: Time)
      requires Valid()
      modifies this`objs, this`nextObj, this`records, this`index
      ensures SpView() == Spec.NoteCommand(old(SpView()), action, payload, now) && Valid()
    {
      hide WF, SpacesOk, ReleaseAll;
      var spec := SpaceOf(action);
      if spec.None? || payload.obj.None? {
        return;
      }
      var (space, mode) := spec.value;
      var id := SpaceId(space, payload.obj.value);
      if mode.Assign? {
        SpaceOccupy(space, id.cid, ExpiryOf(action, payload), now);
      } else if id in records {
        RecordLeads(SpView(), id);
        SpaceRelease(records[id]);
      }
    }

    // ------------------------------------------------------------------
    // Restoring
    // ------------------------------------------------------------------

    /** One stored transaction; `loaded` tells whether it was taken in. */
    method ImportTx(doc: Doc, known: Option<set<Backend>>, at: Clock) returns (loaded: bool)
      modifies this`recs, this`next, this`byTx, this`byBackend, this`byStart
      ensures TxView() == Import(cfg, old(TxView()), doc, known, at) && (loaded <==> !Skipped(cfg, old(TxView()), doc, at))
      ensures next == old(next) + if loaded then 1 else 0
    {
      hide Loaded, NumbersOf;
      var expired := if doc.state.Closed? then doc.closedAt.Some? && at.wall - doc.closedAt.value > cfg.retainClosed
                     else at.wall - OrNow(doc.updatedAt, at) > cfg.retainOpen;
      if expired || (doc.txId.Some? && doc.txId.value in byTx) {
        return false;
      }
      var rec := Loaded(doc, known, at);
      var r := next;
      next := next + 1;
      recs := recs[r := rec];
      if doc.txId.Some? {
        byTx := byTx[doc.txId.value := r];
      }
      AddNumbers(rec.backendIds, r);
      if !doc.state.Closed? && cfg.dedupe {
        byStart := byStart[doc.key := r];
      }
      loaded := true;
    }

    /** Every backend's number for a loaded record leads to it. */
    method AddNumbers(ids: map<Backend, int>, r: Ref)
      modifies this`byBackend
      ensures byBackend == old(byBackend) + NumbersOf(ids, r)
    {
      hide NumbersOf, Done;
      ghost var before := byBackend;
      var todo := ids.Keys;
      NoNumbers(before, ids, r);
      while todo != {}
        invariant todo <= ids.Keys
        invariant byBackend == before + NumbersOf(Done(ids, todo), r)
        decreases |todo|
      {
        var b := AnyOf(todo);
        MoreNumbers(ids, todo, b, r);
        OneMore(before, NumbersOf(Done(ids, todo), r), BackendTx(b, ids[b]), r);
        todo := todo - {b};
        byBackend := byBackend[BackendTx(b, ids[b]) := r];
      }
      AllDone(ids);
    }

    /** One stored reservation or profile. */
    method ImportSpace(doc: ObjDoc, known: Option<set<Backend>>, at: Clock) returns (loaded: bool)
      modifies this`objs, this`nextObj, this`records, this`index
      ensures SpView() == ImportObj(cfg, old(SpView()), doc, known, at) && (loaded <==> !SkippedObj(cfg, old(SpView()), doc, at))
      ensures nextObj == old(nextObj) + if loaded then 1 else 0
    {
      var expired := if doc.space.Reservation? then at.wall > (if doc.expires.Some? then doc.expires.value else OrNow(doc.updatedAt, at)) + cfg.retainClosed
                     else at.wall - OrNow(doc.updatedAt, at) > cfg.retainOpen;
      if expired || SpaceId(doc.space, doc.cid) in records {
        return false;
      }
      var r := nextObj;
      var o := LoadedObj(doc, known, at);
      nextObj := nextObj + 1;
      objs := objs[r := o];
      records := records[SpaceId(doc.space, doc.cid) := r];
      AddKeys(doc.space, o.backendIds, r);
      loaded := true;
    }

    method AddKeys(space: Space, ids: map<Backend, int>, r: Ref)
      modifies this`index
      ensures index == old(index) + KeysFor(space, ids, r)
    {
      hide KeysFor, Done;
      ghost var before := index;
      var todo := ids.Keys;
      NoKeys(before, space, ids, r);
      while todo != {}
        invariant todo <= ids.Keys
        invariant index == before + KeysFor(space, Done(ids, todo), r)
        decreases |todo|
      {
        var b := AnyOf(todo);
        MoreKeys(space, ids, todo, b, r);
        OneMore(before, KeysFor(space, Done(ids, todo), r), SpaceKey(space, b, ids[b]), r);
        todo := todo - {b};
        index := index[SpaceKey(space, b, ids[b]) := r];
      }
      AllDone(ids);
    }

    /** Load stored documents one by one; the result is how many records and objects that made. */
    method Restore(docs: seq<Stored>, known: Option<set<Backend>>, at: Clock) returns (restored: nat)
      modifies this`recs, this`next, this`byTx, this`byBackend, this`byStart, this`objs, this`nextObj, this`records, this`index
      ensures View() == LoadAll(cfg, old(View()), docs, known, at)
      ensures restored == (next - old(next)) + (nextObj - old(nextObj)) && restored <= |docs|
    {
      hide Import, ImportObj, Skipped, SkippedObj;
      ghost var t := View();
      restored := 0;
      for i := 0 to |docs|
        invariant View() == LoadAll(cfg, t, docs[..i], known, at) && restored <= i
        invariant restored == (next - old(next)) + (nextObj - old(nextObj))
      {
        assert docs[..i + 1][..i] == docs[..i];
        var loaded: bool;
        match docs[i] {
          case OfTx(doc) => loaded := ImportTx(doc, known, at);
          case OfObj(obj) => loaded := ImportSpace(obj, known, at);
        }
        if loaded {
          restored := restored + 1;
        }
      }
      assert docs[..|docs|] == docs;
    }
  }

  /** The record with every attempt void. */
  function Voided(rec: TxRecord): TxRecord {
    rec.(tries := Tries({}, rec.tries.sentAt, [], rec.tries.msgs))
  }

  lemma GiveUpOne(t: Tx, r: Ref)
    requires WF(t) && r in t.recs && t.recs[r].state.Pending?
    ensures Base.Collect(Put(t, r, Voided(t.recs[r])), r) == GiveUpAll(t, {r})
  {
    var (a, b) := (Base.Collect(Put(t, r, Voided(t.recs[r])), r), GiveUpAll(t, {r}));
    assert a.recs == b.recs;
    GiveUpOneStart(t, r);
    GiveUpOneMsgs(t, r);
  }

  lemma GiveUpOneStart(t: Tx, r: Ref)
    requires WF(t) && r in t.recs && t.recs[r].state.Pending?
    ensures Base.Collect(Put(t, r, Voided(t.recs[r])), r).ix.byStart == GiveUpAll(t, {r}).ix.byStart
  {
  }

  lemma GiveUpOneMsgs(t: Tx, r: Ref)
    requires WF(t) && r in t.recs && t.recs[r].state.Pending?
    ensures Base.Collect(Put(t, r, Voided(t.recs[r])), r).ix.startMsgs == GiveUpAll(t, {r}).ix.startMsgs
  {
  }

  lemma GiveUpNone(t: Tx)
    ensures GiveUpAll(t, {}) == t
  {
    var t' := GiveUpAll(t, {});
    assert t'.recs == t.recs && t'.ix.byStart == t.ix.byStart && t'.ix.startMsgs == t.ix.startMsgs;
  }

  /** Giving up one after the other is giving up all. */
  lemma GiveUpMore(t: Tx, given: set<Ref>, r: Ref)
    requires r !in given
    ensures GiveUpAll(GiveUpAll(t, given), {r}) == GiveUpAll(t, given + {r})
  {
    hide GaveUp, Dropped, Dead;
    var (a, b) := (GiveUpAll(GiveUpAll(t, given), {r}), GiveUpAll(t, given + {r}));
    assert a.recs == b.recs;
    assert a.ix.startMsgs == b.ix.startMsgs;
    assert a.ix.byStart == b.ix.byStart;
  }

  function WaitingAmong(t: Tx, keys: set<StartKey>): set<Ref> {
    set k | k in keys && k in t.ix.byStart && Rec(t, t.ix.byStart[k]).state.Pending? && Rec(t, t.ix.byStart[k]).tries.sent != {} :: t.ix.byStart[k]
  }

  lemma NoneWaiting(t: Tx)
    ensures WaitingAmong(t, {}) == {}
  {
  }

  lemma AllWaiting(t: Tx)
    ensures WaitingAmong(t, t.ix.byStart.Keys) == Waiting(t)
  {
  }

  lemma MoreWaiting(t: Tx, keys: set<StartKey>, k: StartKey)
    requires k in t.ix.byStart
    ensures var rec := Rec(t, t.ix.byStart[k]);
      WaitingAmong(t, keys + {k}) == WaitingAmong(t, keys) + if rec.state.Pending? && rec.tries.sent != {} then {t.ix.byStart[k]} else {}
  {
    assert forall x :: x in keys + {k} <==> x in keys || x == k;
  }

  /** Every start leads to a record of its own, which is as it was until its turn comes. */
  lemma NotGivenUpYet(t: Tx, keys: set<StartKey>, k: StartKey)
    requires WF(t) && k in t.ix.byStart && k !in keys
    ensures t.ix.byStart[k] !in WaitingAmong(t, keys) && t.ix.byStart[k] in GiveUpAll(t, WaitingAmong(t, keys)).recs
    ensures GiveUpAll(t, WaitingAmong(t, keys)).recs[t.ix.byStart[k]] == t.recs[t.ix.byStart[k]]
  {
  }

  lemma MoreRefs(q: seq<Queued>, i: nat)
    requires i < |q|
    ensures RefsIn(q[..i + 1]) == if ConcernsTx(q[i]) then RefsIn(q[..i]) + {RefOf(q[i])} else RefsIn(q[..i])
  {
    assert forall j :: 0 <= j < i ==> q[..i + 1][j] == q[..i][j];
    assert q[..i + 1][i] == q[i];
  }

  lemma NoRefs(q: seq<Queued>)
    ensures RefsIn(q[..0]) == {}
  {
  }

  lemma QueuedRef(t: Tx, b: Backend, i: nat)
    requires WF(t) && i < |Queue(t, b)| && ConcernsTx(Queue(t, b)[i])
    ensures RefOf(Queue(t, b)[i]) in t.recs
  {
    assert QueueOk(t, Queue(t, b)) && ItemOk(t, Queue(t, b)[i]);
  }

  /** The records with those of `refs` demoted. */
  function DemotedIn(recs: map<Ref, TxRecord>, refs: set<Ref>, b: Backend): map<Ref, TxRecord> {
    map r | r in recs :: if r in refs then Demoted(recs[r], b) else recs[r]
  }

  lemma NoneDemoted(recs: map<Ref, TxRecord>, b: Backend)
    ensures DemotedIn(recs, {}, b) == recs
  {
  }

  lemma MoreDemoted(recs: map<Ref, TxRecord>, refs: set<Ref>, r: Ref, b: Backend)
    requires r in recs
    ensures r in DemotedIn(recs, refs, b) && DemotedIn(recs, refs + {r}, b) == DemotedIn(recs, refs, b)[r := Demoted(DemotedIn(recs, refs, b)[r], b)]
  {
    DemotedTwice(recs[r], b);
  }

  lemma DroppedIs(t: Tx, b: Backend)
    ensures DropQueue(t, b) == t.(recs := DemotedIn(t.recs, RefsIn(Queue(t, b)), b), held := t.held - {b})
  {
  }

  lemma DemotedTwice(rec: TxRecord, b: Backend)
    ensures Demoted(Demoted(rec, b), b) == Demoted(rec, b)
  {
    var f := Demoted(rec, b).flags;
    assert f.degraded + {b} == f.degraded && f.awaiting - {b} == f.awaiting && f.queued - {b} == f.queued;
  }

  /** The entries that are not left to do. */
  ghost function Done(ids: map<Backend, int>, todo: set<Backend>): map<Backend, int> {
    map b | b in ids && b !in todo :: ids[b]
  }

  lemma NoNumbers(before: map<BackendTx, Ref>, ids: map<Backend, int>, r: Ref)
    ensures before + NumbersOf(Done(ids, ids.Keys), r) == before
  {
  }

  lemma NoKeys(before: map<SpaceKey, Ref>, space: Space, ids: map<Backend, int>, r: Ref)
    ensures before + KeysFor(space, Done(ids, ids.Keys), r) == before
  {
  }

  lemma AllDone(ids: map<Backend, int>)
    ensures Done(ids, {}) == ids
  {
  }

  lemma OneMore<K, V>(a: map<K, V>, b: map<K, V>, k: K, v: V)
    ensures (a + b)[k := v] == a + b[k := v]
  {
  }

  lemma MoreNumbers(ids: map<Backend, int>, todo: set<Backend>, b: Backend, r: Ref)
    requires b in ids && b in todo
    ensures NumbersOf(Done(ids, todo - {b}), r) == NumbersOf(Done(ids, todo), r)[BackendTx(b, ids[b]) := r]
  {
    assert Done(ids, todo - {b}) == Done(ids, todo)[b := ids[b]];
  }

  lemma MoreKeys(space: Space, ids: map<Backend, int>, todo: set<Backend>, b: Backend, r: Ref)
    requires b in ids && b in todo
    ensures KeysFor(space, Done(ids, todo - {b}), r) == KeysFor(space, Done(ids, todo), r)[SpaceKey(space, b, ids[b]) := r]
  {
    assert Done(ids, todo - {b}) == Done(ids, todo)[b := ids[b]];
  }

  lemma LargestOfSpace(sp: Spaces, space: Space, m: int)
    requires forall k :: k in sp.records.Keys && k.space == space ==> k.cid <= m
    requires forall k :: k in sp.index.Keys && k.space == space ==> k.bid <= m
    requires m in SpaceKnown(sp, space) || (m == 0 && forall k :: (k in sp.records.Keys ==> k.space != space))
    requires m in SpaceKnown(sp, space) || (m == 0 && forall k :: (k in sp.index.Keys ==> k.space != space))
    ensures MaxOrZero(SpaceKnown(sp, space)) == m
  {
    LargestIs(SpaceKnown(sp, space), m);
  }

  ghost function SpaceKnown(sp: Spaces, space: Space): set<int> {
    TakenIds(sp, space) + (set k | k in sp.index && k.space == space :: k.bid)
  }

  lemma RecordNumber(sp: Spaces, k: SpaceId)
    requires k in sp.records
    ensures k.cid in SpaceKnown(sp, k.space)
  {
  }

  lemma IndexNumber(sp: Spaces, k: SpaceKey)
    requires k in sp.index
    ensures k.bid in SpaceKnown(sp, k.space)
  {
  }

  lemma TakenUnder(sp: Spaces, id: SpaceId)
    requires id in sp.records
    ensures id.cid in TakenIds(sp, id.space)
  {
  }

  lemma NotTaken(sp: Spaces, space: Space, cid: int)
    requires SpaceId(space, cid) !in sp.records
    ensures cid !in TakenIds(sp, space)
  {
  }

  lemma NothingLeads(sp: Spaces, r: Ref)
    requires SpacesOk(sp) && r !in sp.objs
    ensures ReleaseAll(sp, {r}) == sp
  {
    forall id | id in sp.records ensures sp.records[id] != r {
      assert RecordedOk(sp, id);
    }
    forall key | key in sp.index ensures sp.index[key] != r {
      assert IndexedOk(sp, key);
    }
    assert ReleaseAll(sp, {r}).records == sp.records && ReleaseAll(sp, {r}).index == sp.index;
  }

  lemma IndexLeads(sp: Spaces, key: SpaceKey)
    requires SpacesOk(sp) && key in sp.index
    ensures sp.index[key] in sp.objs
  {
    assert IndexedOk(sp, key);
  }

  /** What is sent for a quoted transaction, and to whom. */
  lemma QuotedPlan(cfg: Config, t: Table, frame: Frame, leader: Backend, followers: seq<Follower>, now: Time)
    requires QuotesTx(frame)
    ensures var found := Find(t.tx.ix.byTx, frame.payload.tx.value);
      var (t', sent) := CopyToAll(cfg, t.(tx := Quoted(t.tx, frame, leader, found, now)), IdCopy(found, frame), followers, now);
      Spec.ChargerCall(cfg, t, frame, leader, followers, now) ==
      (t', ChargerPlan(Some(LeaderFrame(Touch(t.tx, found, now), leader, frame, found).1), sent, None))
  {
    hide CopyToAll;
  }

  lemma OpenedRef(t: Tx, r: Ref, leader: Backend, issued: int, conf: Conf, now: Time)
    ensures r in OpenRecord(t, r, leader, issued, conf, now).recs
  {
  }

  /** Serving a queue is serving its head and then the rest. */
  lemma DrainOnce(cfg: Config, t: Table, f: Backend, now: Time, out: seq<Frame>)
    requires Queue(t.tx, f) != []
    ensures var h := HeadStep(cfg, t, f, Queue(t.tx, f)[0], now);
      if h.Leaves? then
        var rest := Spec.Drain(cfg, Popped(h, f, Queue(t.tx, f)), f, now);
        Spec.Drain(cfg, t, f, now).0 == rest.0 && out + Spec.Drain(cfg, t, f, now).1 == (out + Listed(h.out)) + rest.1
      else Spec.Drain(cfg, t, f, now).0 == t && out + Spec.Drain(cfg, t, f, now).1 == out
  {
    hide HeadStep;
    var h := HeadStep(cfg, t, f, Queue(t.tx, f)[0], now);
    if h.Leaves? {
      var rest := Spec.Drain(cfg, Popped(h, f, Queue(t.tx, f)), f, now);
      assert out + (Listed(h.out) + rest.1) == (out + Listed(h.out)) + rest.1;
    } else {
      assert out + [] == out;
    }
  }

  lemma DrainNothing(cfg: Config, t: Table, f: Backend, now: Time, out: seq<Frame>)
    requires Queue(t.tx, f) == []
    ensures Spec.Drain(cfg, t, f, now).0 == t && out + Spec.Drain(cfg, t, f, now).1 == out
  {
    assert out + [] == out;
  }

  lemma PoppedObjects(cfg: Config, t: Table, f: Backend, now: Time)
    requires WF(t.tx) && SpacesOk(t.sp) && Queue(t.tx, f) != [] && HeadStep(cfg, t, f, Queue(t.tx, f)[0], now).Leaves?
    ensures SpacesOk(HeadStep(cfg, t, f, Queue(t.tx, f)[0], now).t.sp)
  {
    hide WF, SpacesOk, HeadStep;
    PopKeeps(cfg, t, f, now);
    HeadStepServes(cfg, t, f, Queue(t.tx, f)[0], now);
    SameObjectsOk(t.sp, HeadStep(cfg, t, f, Queue(t.tx, f)[0], now).t.sp);
  }

  function TooOldAmong(cfg: Config, t: Tx, ids: set<int>, now: Time): set<Ref> {
    set k | k in ids && k in t.ix.byTx && TooOld(cfg, Rec(t, t.ix.byTx[k]), now) :: t.ix.byTx[k]
  }

  lemma NoneTooOld(cfg: Config, t: Tx, now: Time)
    ensures TooOldAmong(cfg, t, {}, now) == {}
  {
  }

  lemma MoreTooOld(cfg: Config, t: Tx, ids: set<int>, k: int, now: Time)
    requires k in t.ix.byTx
    ensures TooOldAmong(cfg, t, ids + {k}, now) == TooOldAmong(cfg, t, ids, now) + if TooOld(cfg, Rec(t, t.ix.byTx[k]), now) then {t.ix.byTx[k]} else {}
  {
    assert forall x :: x in ids + {k} <==> x in ids || x == k;
  }

  function NeverAnsweredAmong(cfg: Config, t: Tx, keys: set<StartKey>, now: Time): set<Ref> {
    set k | k in keys && k in t.ix.byStart && NeverAnswered(cfg, Rec(t, t.ix.byStart[k]), now) :: t.ix.byStart[k]
  }

  lemma NoneUnanswered(cfg: Config, t: Tx, now: Time)
    ensures NeverAnsweredAmong(cfg, t, {}, now) == {}
  {
  }

  lemma MoreUnanswered(cfg: Config, t: Tx, keys: set<StartKey>, k: StartKey, now: Time)
    requires k in t.ix.byStart
    ensures NeverAnsweredAmong(cfg, t, keys + {k}, now) ==
            NeverAnsweredAmong(cfg, t, keys, now) + if NeverAnswered(cfg, Rec(t, t.ix.byStart[k]), now) then {t.ix.byStart[k]} else {}
  {
    assert forall x :: x in keys + {k} <==> x in keys || x == k;
  }

  lemma StartLeads(t: Tx, key: StartKey)
    requires WF(t) && key in t.ix.byStart
    ensures t.ix.byStart[key] in t.recs
  {
  }

  /** The second pass finds what the first one left, which is every start nobody answered. */
  lemma PruneTwice(cfg: Config, t: Tx, held: set<Ref>, now: Time)
    requires WF(t) && held == TooOldAmong(cfg, t, t.ix.byTx.Keys, now)
    ensures var t1 := ForgetAll(t, held);
      ForgetAll(t1, NeverAnsweredAmong(cfg, t1, t1.ix.byStart.Keys, now)) == ForgetAll(t, Expired(cfg, t, now))
  {
    hide WF;
    var t1 := ForgetAll(t, held);
    PassesCover(cfg, t, held, now);
    ForgetUnion(t, held, NeverAnsweredAmong(cfg, t1, t1.ix.byStart.Keys, now));
  }

  lemma PassesCover(cfg: Config, t: Tx, held: set<Ref>, now: Time)
    requires held == TooOldAmong(cfg, t, t.ix.byTx.Keys, now)
    ensures var t1 := ForgetAll(t, held); held + NeverAnsweredAmong(cfg, t1, t1.ix.byStart.Keys, now) == Expired(cfg, t, now)
  {
    var t1 := ForgetAll(t, held);
    forall r | r in Expired(cfg, t, now) && r !in held ensures r in NeverAnsweredAmong(cfg, t1, t1.ix.byStart.Keys, now) {
      var k :| k in t.ix.byStart && NeverAnswered(cfg, Rec(t, t.ix.byStart[k]), now) && t.ix.byStart[k] == r;
      assert k in t1.ix.byStart;
    }
  }

  lemma ForgetUnion(t: Tx, a: set<Ref>, b: set<Ref>)
    ensures ForgetAll(ForgetAll(t, a), b) == ForgetAll(t, a + b)
  {
    var (x, y) := (ForgetAll(ForgetAll(t, a), b).ix, ForgetAll(t, a + b).ix);
    assert x.byTx == y.byTx;
    assert x.byBackend == y.byBackend;
    assert x.byStart == y.byStart;
    assert x.startMsgs == y.startMsgs;
  }

  /** Only an object's own id and numbers lead to it. */
  lemma ReleaseOne(sp: Spaces, r: Ref)
    requires SpacesOk(sp) && r in sp.objs
    ensures var o := sp.objs[r];
      var id := SpaceId(o.space, o.cid);
      && ReleaseAll(sp, {r}) == sp.(
           records := if id in sp.records && sp.records[id] == r then sp.records - {id} else sp.records,
           index := map key | key in sp.index && sp.index[key] != r :: sp.index[key])
      && (forall key :: key in sp.index && sp.index[key] == r ==> key.backend in o.backendIds && key == SpaceKey(o.space, key.backend, o.backendIds[key.backend]))
  {
    forall key | key in sp.index && sp.index[key] == r
      ensures key.backend in sp.objs[r].backendIds && key == SpaceKey(sp.objs[r].space, key.backend, sp.objs[r].backendIds[key.backend])
    {
      assert IndexedOk(sp, key);
    }
    forall id | id in sp.records && sp.records[id] == r ensures id == SpaceId(sp.objs[r].space, sp.objs[r].cid) {
      assert RecordedOk(sp, id);
    }
    var id := SpaceId(sp.objs[r].space, sp.objs[r].cid);
    assert ReleaseAll(sp, {r}).records == if id in sp.records && sp.records[id] == r then sp.records - {id} else sp.records;
    assert ReleaseAll(sp, {r}).index == map key | key in sp.index && sp.index[key] != r :: sp.index[key];
  }

  function LapsedAmong(cfg: Config, sp: Spaces, ids: set<SpaceId>, now: Time, wall: Time): set<Ref> {
    set k | k in ids && k in sp.records && IsLapsed(cfg, Obj(sp, sp.records[k]), now, wall) :: sp.records[k]
  }

  lemma NoneLapsed(cfg: Config, sp: Spaces, now: Time, wall: Time)
    ensures LapsedAmong(cfg, sp, {}, now, wall) == {}
  {
  }

  lemma AllLapsed(cfg: Config, sp: Spaces, now: Time, wall: Time)
    ensures LapsedAmong(cfg, sp, sp.records.Keys, now, wall) == Lapsed(cfg, sp, now, wall)
  {
  }

  lemma MoreLapsed(cfg: Config, sp: Spaces, ids: set<SpaceId>, id: SpaceId, now: Time, wall: Time)
    requires id in sp.records
    ensures LapsedAmong(cfg, sp, ids + {id}, now, wall) ==
            LapsedAmong(cfg, sp, ids, now, wall) + if IsLapsed(cfg, Obj(sp, sp.records[id]), now, wall) then {sp.records[id]} else {}
  {
    assert forall x :: x in ids + {id} <==> x in ids || x == id;
  }

  lemma RecordLeads(sp: Spaces, id: SpaceId)
    requires SpacesOk(sp) && id in sp.records
    ensures sp.records[id] in sp.objs
  {
    assert RecordedOk(sp, id);
  }

  lemma ReleaseNone(sp: Spaces)
    ensures ReleaseAll(sp, {}) == sp
  {
    assert ReleaseAll(sp, {}).records == sp.records && ReleaseAll(sp, {}).index == sp.index;
  }

  lemma ReleaseMore(sp: Spaces, gone: set<Ref>, r: Ref)
    ensures ReleaseAll(ReleaseAll(sp, gone), {r}) == ReleaseAll(sp, gone + {r})
  {
    var (a, b) := (ReleaseAll(ReleaseAll(sp, gone), {r}), ReleaseAll(sp, gone + {r}));
    assert a.records == b.records && a.index == b.index;
  }

  lemma ForgetNone(t: Tx)
    ensures ForgetAll(t, {}) == t
  {
    assert ForgetAll(t, {}).ix.byTx == t.ix.byTx && ForgetAll(t, {}).ix.byBackend == t.ix.byBackend;
    assert ForgetAll(t, {}).ix.byStart == t.ix.byStart && ForgetAll(t, {}).ix.startMsgs == t.ix.startMsgs;
  }

  /** Forgetting one after the other is forgetting all. */
  lemma ForgetMore(t: Tx, dead: set<Ref>, r: Ref)
    ensures ForgetAll(ForgetAll(t, dead), {r}) == ForgetAll(t, dead + {r})
  {
    var (a, b) := (ForgetAll(ForgetAll(t, dead), {r}).ix, ForgetAll(t, dead + {r}).ix);
    assert a.byTx == b.byTx;
    assert a.byBackend == b.byBackend;
    assert a.byStart == b.byStart;
    assert a.startMsgs == b.startMsgs;
  }

  /** Only a record's own id, start and messages lead to it, so forgetting it is removing those. */
  lemma ForgetOne(t: Tx, r: Ref)
    requires WF(t) && r in t.recs
    ensures var (rec, t') := (t.recs[r], ForgetAll(t, {r}));
      t' == t.(ix := Indexes(
        if rec.txId.Some? && rec.txId.value in t.ix.byTx && t.ix.byTx[rec.txId.value] == r then t.ix.byTx - {rec.txId.value} else t.ix.byTx,
        map p | p in t.ix.byBackend && t.ix.byBackend[p] != r :: t.ix.byBackend[p],
        if rec.key in t.ix.byStart && t.ix.byStart[rec.key] == r then t.ix.byStart - {rec.key} else t.ix.byStart,
        Untracked(t.ix.startMsgs, rec.tries.msgs, r)))
  {
    hide WF;
    ForgetOneId(t, r);
    ForgetOneStart(t, r);
    ForgetOneMsgs(t, r);
    ForgetOneNumbers(t, r);
  }

  lemma ForgetOneNumbers(t: Tx, r: Ref)
    ensures (map p | p in t.ix.byBackend && t.ix.byBackend[p] !in {r} :: t.ix.byBackend[p]) ==
            map p | p in t.ix.byBackend && t.ix.byBackend[p] != r :: t.ix.byBackend[p]
  {
  }

  lemma ForgetOneStart(t: Tx, r: Ref)
    requires WF(t) && r in t.recs
    ensures (map k | k in t.ix.byStart && t.ix.byStart[k] !in {r} :: t.ix.byStart[k]) ==
            var key := t.recs[r].key; if key in t.ix.byStart && t.ix.byStart[key] == r then t.ix.byStart - {key} else t.ix.byStart
  {
  }

  lemma ForgetOneMsgs(t: Tx, r: Ref)
    requires WF(t) && r in t.recs
    ensures (map m | m in t.ix.startMsgs && t.ix.startMsgs[m] !in {r} :: t.ix.startMsgs[m]) == Untracked(t.ix.startMsgs, t.recs[r].tries.msgs, r)
  {
  }

  lemma ForgetOneId(t: Tx, r: Ref)
    requires WF(t) && r in t.recs
    ensures (map k | k in t.ix.byTx && t.ix.byTx[k] !in {r} :: t.ix.byTx[k]) ==
            var id := t.recs[r].txId;
            if id.Some? && id.value in t.ix.byTx && t.ix.byTx[id.value] == r then t.ix.byTx - {id.value} else t.ix.byTx
  {
    forall k: int | k in t.ix.byTx ensures t.ix.byTx[k] == r ==> t.recs[r].txId == Some(k) {
      HeldUnderWF(t, k);
    }
  }
}
