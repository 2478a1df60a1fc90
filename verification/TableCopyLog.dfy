/** Which answers of the leader the charger hears: not those to copies that the leader got as a follower. */
module TableCopyLog {
  import opened Ocpp
  import opened TableState
  import opened TableSteps
  import opened TableInvariant
  import opened TableCopies
  import opened TableRuns
  import opened TableMoves
  import opened TableRules

  // ------------------------------------------------------------------
  // The log of copies
  // ------------------------------------------------------------------

  /** One more copy is remembered, unless it is already; the oldest of more than 4096 is forgotten. */
  function Remembering(log: seq<Copy>, c: Copy): seq<Copy> {
    if c in log then log else if |log| < 4096 then log + [c] else (log + [c])[|log| + 1 - 4096..]
  }

  function RememberingAll(log: seq<Copy>, sent: seq<Sent>): seq<Copy> {
    if sent == [] then log
    else Remembering(RememberingAll(log, sent[..|sent| - 1]), Copy(sent[|sent| - 1].to, IdOf(sent[|sent| - 1].frame)))
  }

  lemma {:induction false} RememberingMore(log: seq<Copy>, a: seq<Sent>, b: seq<Sent>)
    ensures RememberingAll(log, a + b) == RememberingAll(RememberingAll(log, a), b)
  {
    if b == [] {
      assert a + b == a;
    } else {
      assert (a + b)[..|a + b| - 1] == a + b[..|b| - 1];
      RememberingMore(log, a, b[..|b| - 1]);
    }
  }

  lemma OneLogged(t: Tx, f: Backend, msg: MsgId)
    requires |t.copied| <= 4096
    ensures NoteCopy(t, f, msg).copied == Remembering(t.copied, Copy(f, msg)) && |NoteCopy(t, f, msg).copied| <= 4096
  {
  }

  /** The copies that were sent are remembered. */
  ghost predicate Logged(t: Tx, t': Tx, sent: seq<Sent>) {
    t'.copied == RememberingAll(t.copied, sent) && |t'.copied| <= 4096
  }

  lemma LoggedTwice(t: Tx, t1: Tx, t2: Tx, a: seq<Sent>, b: seq<Sent>)
    requires Logged(t, t1, a) && Logged(t1, t2, b)
    ensures Logged(t, t2, a + b)
  {
    RememberingMore(t.copied, a, b);
  }

  lemma HeadLogged(cfg: Config, t: Table, f: Backend, item: Queued, now: Time)
    requires ItemOk(t.tx, item) && |t.tx.copied| <= 4096
    ensures var h := HeadStep(cfg, t, f, item, now); h.Leaves? ==> Logged(t.tx, h.t.tx, AllTo(f, Listed(h.out)))
  {
    HeadNotes(cfg, t, f, item, now);
    var h := HeadStep(cfg, t, f, item, now);
    hide HeadStep, Remembering, NoteCopy, ItemOk;
    if h.Leaves? && h.out.Some? {
      OneLogged(t.tx, f, IdOf(h.out.value));
      OneSent(t.tx.copied, f, h.out.value);
    } else if h.Leaves? {
      NothingTo(f);
    }
  }

  lemma HeadNotes(cfg: Config, t: Table, f: Backend, item: Queued, now: Time)
    requires ItemOk(t.tx, item)
    ensures var h := HeadStep(cfg, t, f, item, now);
      h.Leaves? ==> h.t.tx.copied == if h.out.Some? then NoteCopy(t.tx, f, IdOf(h.out.value)).copied else t.tx.copied
  {
    hide NoteCopy, StartFrame, StartWentTo, GivenUpOn;
    match item
    case PlainCopy(frame) =>
    case StartCopy(r, frame) =>
      StartKeepsId(t.sp, f, frame, now);
      NotedAlike(t.tx, Put(t.tx, r, StartWentTo(Rec(t.tx, r), f, IdOf(frame), now)), f, IdOf(frame));
    case IdCopy(found, frame) =>
  }

  lemma StartKeepsId(sp: Spaces, f: Backend, frame: Frame, now: Time)
    requires frame.Call?
    ensures IdOf(StartFrame(sp, f, frame, false, now).1) == IdOf(frame)
  {
  }

  lemma NotedAlike(t: Tx, t': Tx, f: Backend, msg: MsgId)
    requires t'.copied == t.copied
    ensures NoteCopy(t', f, msg).copied == NoteCopy(t, f, msg).copied
  {
  }

  lemma OneSent(log: seq<Copy>, f: Backend, out: Frame)
    ensures RememberingAll(log, AllTo(f, Listed(Some(out)))) == Remembering(log, Copy(f, IdOf(out)))
  {
    hide Remembering;
    var sent := AllTo(f, Listed(Some(out)));
    assert sent == [Sent(f, out)] && sent[..0] == [];
    assert RememberingAll(log, sent[..0]) == log;
  }

  lemma AllToMore(f: Backend, a: seq<Frame>, b: seq<Frame>)
    ensures AllTo(f, a + b) == AllTo(f, a) + AllTo(f, b)
  {
    assert forall i :: 0 <= i < |a + b| ==> AllTo(f, a + b)[i] == (AllTo(f, a) + AllTo(f, b))[i];
  }

  lemma {:induction false} DrainLogged(cfg: Config, t: Table, f: Backend, now: Time)
    requires WF(t.tx) && |t.tx.copied| <= 4096
    ensures Logged(t.tx, Drain(cfg, t, f, now).0.tx, AllTo(f, Drain(cfg, t, f, now).1))
    decreases |Queue(t.tx, f)|
  {
    hide WF, HeadStep, AllTo;
    var q := Queue(t.tx, f);
    if q == [] || HeadStep(cfg, t, f, q[0], now).Blocked? {
      NothingTo(f);
    } else {
      PopKeeps(cfg, t, f, now);
      var h := HeadStep(cfg, t, f, q[0], now);
      HeadLogged(cfg, t, f, q[0], now);
      var t1 := Popped(h, f, q);
      DrainLogged(cfg, t1, f, now);
      var (t2, rest) := Drain(cfg, t1, f, now);
      AllToMore(f, Listed(h.out), rest);
      LoggedTwice(t.tx, t1.tx, t2.tx, AllTo(f, Listed(h.out)), AllTo(f, rest));
    }
  }

  lemma NothingTo(f: Backend)
    ensures AllTo(f, []) == []
  {
  }

  lemma EnqueueLogged(cfg: Config, t: Table, f: Backend, item: Queued, now: Time)
    requires WF(t.tx) && ItemOk(t.tx, item) && |t.tx.copied| <= 4096
    ensures Logged(t.tx, Enqueue(cfg, t, f, item, now).0.tx, AllTo(f, Enqueue(cfg, t, f, item, now).1))
  {
    hide ItemOk, Drain;
    if |Queue(t.tx, f)| < cfg.maxHeld {
      assert QueueOk(t.tx, Queue(t.tx, f) + [item]);
      hide WF;
      SetQueueKeeps(t.tx, f, Queue(t.tx, f) + [item]);
      DrainLogged(cfg, t.(tx := SetQueue(t.tx, f, Queue(t.tx, f) + [item])), f, now);
    }
  }

  lemma {:induction false} CopyToAllLogged(cfg: Config, t: Table, item: Queued, followers: seq<Follower>, now: Time)
    requires WF(t.tx) && ItemOk(t.tx, item) && |t.tx.copied| <= 4096
    ensures Logged(t.tx, CopyToAll(cfg, t, item, followers, now).0.tx, CopyToAll(cfg, t, item, followers, now).1)
  {
    hide WF, ItemOk, Enqueue, AllTo;
    if followers != [] {
      var rest, last := followers[..|followers| - 1], followers[|followers| - 1];
      CopyToAllLogged(cfg, t, item, rest, now);
      if last.ready {
        CopyToAllKeeps(cfg, t, item, rest, now);
        var (t1, sent) := CopyToAll(cfg, t, item, rest, now);
        ItemGrows(t.tx, t1.tx, item);
        EnqueueLogged(cfg, t1, last.key, item, now);
        LoggedTwice(t.tx, t1.tx, Enqueue(cfg, t1, last.key, item, now).0.tx, sent, AllTo(last.key, Enqueue(cfg, t1, last.key, item, now).1));
      }
    }
  }

  lemma CopyStartLogged(cfg: Config, t: Table, r: Ref, isNew: bool, frame: Frame, follower: Follower, now: Time)
    requires WF(t.tx) && ItemOk(t.tx, StartCopy(r, frame)) && |t.tx.copied| <= 4096
    ensures var (t', out) := CopyStart(cfg, t, r, isNew, frame, follower, now); Logged(t.tx, t'.tx, AllTo(follower.key, out))
  {
    hide WF, Enqueue;
    if (isNew || !HasStart(t.tx.recs[r], follower.key)) && follower.ready {
      QueuedForKeeps(t, r, frame, follower.key);
      EnqueueLogged(cfg, QueuedFor(t, r, follower.key), follower.key, StartCopy(r, frame), now);
    }
  }

  lemma {:induction false} CopyStartToAllLogged(cfg: Config, t: Table, r: Ref, isNew: bool, frame: Frame, followers: seq<Follower>, now: Time)
    requires WF(t.tx) && ItemOk(t.tx, StartCopy(r, frame)) && |t.tx.copied| <= 4096
    ensures var (t', sent) := CopyStartToAll(cfg, t, r, isNew, frame, followers, now); Logged(t.tx, t'.tx, sent)
  {
    hide WF, ItemOk, CopyStart, AllTo;
    if followers != [] {
      var rest, last := followers[..|followers| - 1], followers[|followers| - 1];
      CopyStartToAllLogged(cfg, t, r, isNew, frame, rest, now);
      CopyStartToAllKeeps(cfg, t, r, isNew, frame, rest, now);
      var (t1, sent) := CopyStartToAll(cfg, t, r, isNew, frame, rest, now);
      ItemGrows(t.tx, t1.tx, StartCopy(r, frame));
      CopyStartLogged(cfg, t1, r, isNew, frame, last, now);
      var (t2, frames) := CopyStart(cfg, t1, r, isNew, frame, last, now);
      LoggedTwice(t.tx, t1.tx, t2.tx, sent, AllTo(last.key, frames));
    }
  }

  lemma {:induction false} ExpireHoldsLogged(cfg: Config, t: Table, order: seq<Backend>, now: Time)
    requires WF(t.tx) && |t.tx.copied| <= 4096
    ensures Logged(t.tx, ExpireHolds(cfg, t, order, now).0.tx, ExpireHolds(cfg, t, order, now).1)
  {
    hide WF, Drain, AllTo;
    if order != [] {
      var rest, last := order[..|order| - 1], order[|order| - 1];
      ExpireHoldsLogged(cfg, t, rest, now);
      ExpireHoldsKeeps(cfg, t, rest, now);
      var (t1, sent) := ExpireHolds(cfg, t, rest, now);
      DrainLogged(cfg, t1, last, now);
      var (t2, frames) := Drain(cfg, t1, last, now);
      LoggedTwice(t.tx, t1.tx, t2.tx, sent, AllTo(last, frames));
    }
  }

  // ------------------------------------------------------------------
  // One step
  // ------------------------------------------------------------------

  /** `b` answers the message that `c` says it was sent. */
  predicate Answers(input: Input, c: Copy) {
    || (input.FollowerFrame? && input.follower == c.backend && (input.frame.Result? || input.frame.Error?) && input.frame.id == c.msg)
    || (input.LeaderFrameIn? && input.leader == c.backend && (input.frame.Result? || input.frame.Error?) && input.frame.id == c.msg)
  }

  /** The leader was asked to number a start under that message, and has not answered. */
  predicate IsAsked(t: Tx, msg: MsgId) {
    msg in t.ix.startMsgs && t.ix.startMsgs[msg] in t.recs && msg in t.recs[t.ix.startMsgs[msg]].tries.sent
  }

  /** What is left of the log when the event's answer is read: a follower's answer settles its copy, and so does an answer of the
      leader's to something it was not asked. */
  ghost function ReadLog(t: Tx, input: Input): seq<Copy> {
    if input.FollowerFrame? && (input.frame.Result? || input.frame.Error?) then Without(t.copied, Copy(input.follower, input.frame.id))
    else if input.LeaderFrameIn? && (input.frame.Result? || input.frame.Error?) && !IsAsked(t, input.frame.id) then Without(t.copied, Copy(input.leader, input.frame.id))
    else t.copied
  }

  lemma FollowerLogged(cfg: Config, t: Table, follower: Backend, frame: Frame, now: Time)
    requires WF(t.tx) && |t.tx.copied| <= 4096
    ensures var (t', sent) := FromFollower(cfg, t, follower, frame, now);
      t'.tx.copied == RememberingAll(ReadLog(t.tx, FollowerFrame(follower, frame)), sent) && |t'.tx.copied| <= 4096
  {
    hide WF, Drain, Learn, AllTo;
    if frame.Result? || frame.Error? {
      var log := Without(t.tx.copied, Copy(follower, frame.id));
      WithoutLess(t.tx.copied, Copy(follower, frame.id));
      var t1 := t.(tx := t.tx.(copied := log));
      CopiedKeeps(t.tx, log);
      if frame.id in t1.tx.ix.startMsgs {
        var r := t1.tx.ix.startMsgs[frame.id];
        TrackedHeld(t1.tx, frame.id);
        if !(follower !in Rec(t1.tx, r).flags.awaiting && follower in Rec(t1.tx, r).backendIds) {
          LearnKeeps(t1.tx, r, follower, frame);
          LearnLogs(t1.tx, r, follower, frame);
          DrainLogged(cfg, t1.(tx := Learn(t1.tx, r, follower, frame)), follower, now);
        }
      }
    }
  }

  lemma {:induction false} WithoutLess(log: seq<Copy>, c: Copy)
    ensures |Without(log, c)| <= |log|
  {
    if log != [] && log[0] != c {
      WithoutLess(log[1..], c);
    }
  }

  lemma LearnLogs(t: Tx, r: Ref, b: Backend, frame: Frame)
    requires r in t.recs && (frame.Result? || frame.Error?)
    ensures Learn(t, r, b, frame).copied == t.copied
  {
    CollectShape(LearnId(t, r, b, frame), r);
  }

  lemma StartLogged(cfg: Config, t: Table, frame: Frame, leader: Backend, followers: seq<Follower>, now: Time)
    requires WF(t.tx) && |t.tx.copied| <= 4096 && IsStart(frame)
    ensures var (t', plan) := ChargerStart(cfg, t, frame, leader, followers, now); Logged(t.tx, t'.tx, plan.toFollowers)
  {
    hide WF, CopyStartToAll, IsHeld;
    var key := frame.payload.start;
    StartCaseOk(cfg, t.tx, leader, key, now);
    var case_ := StartCaseOf(cfg, t.tx, leader, key, now);
    hide StartCaseOf, OpenRecord;
    if case_.Forwarded? {
      AttemptKeeps(cfg, t.tx, case_.known, key, frame.id, now);
      var (tx1, r) := Attempt(cfg, t.tx, case_.known, key, frame.id, now);
      CopyStartToAllLogged(cfg, Table(tx1, StartFrame(t.sp, leader, frame, true, now).0), r, case_.known.None?, frame, followers, now);
    } else if case_.Numbered? {
      OpenLogs(t.tx, case_.ref, leader, now);
    }
  }

  lemma OpenLogs(t: Tx, r: Ref, leader: Backend, now: Time)
    requires r in t.recs && leader in t.recs[r].backendIds && leader in t.recs[r].confs
    ensures OpenRecord(t, r, leader, t.recs[r].backendIds[leader], t.recs[r].confs[leader], now).copied == t.copied
  {
  }

  lemma CallLogged(cfg: Config, t: Table, frame: Frame, leader: Backend, followers: seq<Follower>, now: Time)
    requires WF(t.tx) && |t.tx.copied| <= 4096 && frame.Call? && !IsStart(frame)
    ensures var (t', plan) := ChargerCall(cfg, t, frame, leader, followers, now); Logged(t.tx, t'.tx, plan.toFollowers)
  {
    hide WF, CopyToAll;
    if QuotesTx(frame) {
      var found := Find(t.tx.ix.byTx, frame.payload.tx.value);
      QuotedKeeps(t.tx, frame, leader, found, now);
      QuotedIs(cfg, t, frame, leader, followers, now);
      QuotedLogs(t.tx, frame, leader, found, now);
      CopyToAllLogged(cfg, t.(tx := Quoted(t.tx, frame, leader, found, now)), IdCopy(found, frame), followers, now);
    } else {
      PlainOk(t.tx, frame);
      CopyToAllLogged(cfg, t, PlainCopy(frame), followers, now);
    }
  }

  lemma QuotedLogs(t: Tx, frame: Frame, leader: Backend, found: Option<Ref>, now: Time)
    requires WF(t) && QuotesTx(frame) && found == Find(t.ix.byTx, frame.payload.tx.value)
    ensures Quoted(t, frame, leader, found, now).copied == t.copied
  {
    if found.Some? {
      HeldUnder(t, frame.payload.tx.value);
      QuotedIsMarked(t, frame, leader, found.value, now);
      hide WF, Quoted;
      CollectShape(ClosedRecord(Marked(t, leader, found.value, now), found.value, now), found.value);
    }
  }

  /** What the leader's answer leaves of the log. */
  lemma LeaderLogged(t: Tx, leader: Backend, frame: Frame, now: Time)
    requires WF(t) && (frame.Result? || frame.Error?)
    ensures LeaderAnswer(t, leader, frame, now).0.copied == ReadLog(t, LeaderFrameIn(leader, frame))
    ensures IsOwed(t, frame.id) == IsAsked(t, frame.id)
  {
    if frame.id in t.ix.startMsgs {
      TrackedHeld(t, frame.id);
    }
    hide WF;
    if IsOwed(t, frame.id) {
      OwedLogs(t, t.ix.startMsgs[frame.id], leader, frame, now);
    } else {
      StrayLogs(t, leader, frame);
    }
  }

  lemma StrayLogs(t: Tx, leader: Backend, frame: Frame)
    requires WF(t) && (frame.Result? || frame.Error?)
    ensures StrayAnswer(t, leader, frame).0.copied == Without(t.copied, Copy(leader, frame.id))
  {
    hide WF, Learn;
    if Copy(leader, frame.id) !in t.copied {
      WithoutOthers(t.copied, Copy(leader, frame.id));
    }
  }

  lemma {:induction false} WithoutOthers(log: seq<Copy>, c: Copy)
    requires c !in log
    ensures Without(log, c) == log
  {
    if log != [] {
      WithoutOthers(log[1..], c);
      assert log == [log[0]] + log[1..];
    }
  }

  lemma OwedLogs(t: Tx, r: Ref, leader: Backend, frame: Frame, now: Time)
    requires WF(t) && (frame.Result? || frame.Error?) && IsOwed(t, frame.id) && r == t.ix.startMsgs[frame.id]
    ensures OwedAnswer(t, r, leader, frame, now).0.copied == t.copied
  {
    TrackedHeld(t, frame.id);
    hide WF, Collect;
    CollectShape(DropAttempt(t, r, frame.id), r);
    CollectShape(Put(t, r, WithoutAttempt(Rec(t, r), frame.id)), r);
    if frame.Result? && frame.conf.tx.Some? {
      var t1 := OpenRecord(t, r, leader, frame.conf.tx.value, frame.conf, now);
      CollectShape(Put(t1, r, WithoutRetries(Rec(t1, r), frame.id)), r);
    }
  }

  lemma FailedLogs(t: Tx, msg: MsgId)
    requires WF(t)
    ensures StartFailed(t, msg).0.copied == t.copied
  {
    if IsOwed(t, msg) {
      TrackedHeld(t, msg);
      hide WF;
      CollectShape(DropAttempt(t, t.ix.startMsgs[msg], msg), t.ix.startMsgs[msg]);
    }
  }

  lemma GaveUpLogs(t: Tx, newLeader: Option<Backend>)
    ensures LeaderChanged(t, newLeader).copied == t.copied
  {
  }

  /** One event: an answered copy is no longer remembered, then every copy that was sent is. */
  lemma StepLogged(cfg: Config, t: Table, e: Event)
    requires WF(t.tx) && |t.tx.copied| <= 4096
    ensures var (t', out) := Step(cfg, t, e); t'.tx.copied == RememberingAll(ReadLog(t.tx, e.input), out.toFollowers) && |t'.tx.copied| <= 4096
  {
    hide WF, ForgetAll, Expired, Lapsed, ReleaseAll, ChargerStart, ChargerCall, LeaderAnswer, LeaderCall, FromFollower, ExpireHolds, StartFailed, LeaderChanged, NoteCommand,
      SettleReply;
    match e.input
    case ChargerFrame(frame, leader, followers) =>
      ForgetKeeps(t.tx, Expired(cfg, t.tx, e.now));
      ForgetShape(t.tx, Expired(cfg, t.tx, e.now));
      var p := Prune(cfg, t, e.now, e.wall);
      if IsStart(frame) {
        StartLogged(cfg, p, frame, leader, followers, e.now);
      } else if frame.Call? {
        CallLogged(cfg, p, frame, leader, followers, e.now);
      }
    case LeaderFrameIn(leader, frame) =>
      if frame.Result? || frame.Error? {
        LeaderLogged(t.tx, leader, frame, e.now);
        WithoutLess(t.tx.copied, Copy(leader, frame.id));
      }
    case FollowerFrame(follower, frame) => FollowerLogged(cfg, t, follower, frame, e.now);
    case Promotion(newLeader) => GaveUpLogs(t.tx, newLeader);
    case HoldTimer(order) => ExpireHoldsLogged(cfg, t, order, e.now);
    case BrokerRefused(msg) => FailedLogs(t.tx, msg);
    case RestCommand(action, payload) =>
    case IdleCheck => ForgetShape(t.tx, Expired(cfg, t.tx, e.now));
  }

  // ------------------------------------------------------------------
  // Whole runs
  // ------------------------------------------------------------------

  lemma {:induction false} RunLogged(cfg: Config, run: seq<Event>)
    ensures |After(cfg, run).tx.copied| <= 4096
  {
    hide WF, Step;
    if run != [] {
      var before := run[..|run| - 1];
      RunLogged(cfg, before);
      RunKeeps(cfg, before);
      StepLogged(cfg, After(cfg, before), run[|run| - 1]);
    }
  }

  /** The copy is remembered, and at most `n` younger ones are. */
  ghost predicate IsRecent(log: seq<Copy>, c: Copy, n: nat) {
    exists i :: 0 <= i < |log| && IsAt(log, i, c) && |log| - 1 - i <= n
  }

  predicate IsAt(log: seq<Copy>, i: nat, c: Copy)
    requires i < |log|
  {
    log[i] == c
  }

  lemma RecentStill(log: seq<Copy>, c: Copy, n: nat, d: Copy)
    requires |log| <= 4096 && IsRecent(log, c, n) && n < 4095
    ensures IsRecent(Remembering(log, d), c, n + 1) && |Remembering(log, d)| <= 4096
  {
    var i :| 0 <= i < |log| && IsAt(log, i, c) && |log| - 1 - i <= n;
    var more := Remembering(log, d);
    if d in log {
      assert IsAt(more, i, c);
    } else if |log| < 4096 {
      assert IsAt(more, i, c);
    } else {
      assert IsAt(more, i - 1, c);
    }
  }

  lemma {:induction false} RecentAll(log: seq<Copy>, c: Copy, n: nat, sent: seq<Sent>)
    requires |log| <= 4096 && IsRecent(log, c, n) && n + |sent| < 4096
    ensures IsRecent(RememberingAll(log, sent), c, n + |sent|) && |RememberingAll(log, sent)| <= 4096
  {
    hide IsRecent, Remembering;
    if sent != [] {
      RecentAll(log, c, n, sent[..|sent| - 1]);
      RecentStill(RememberingAll(log, sent[..|sent| - 1]), c, n + |sent| - 1, Copy(sent[|sent| - 1].to, IdOf(sent[|sent| - 1].frame)));
    }
  }

  lemma {:induction false} RecentWithout(log: seq<Copy>, c: Copy, n: nat, d: Copy)
    requires IsRecent(log, c, n) && c != d
    ensures IsRecent(Without(log, d), c, n)
  {
    var i :| 0 <= i < |log| && IsAt(log, i, c) && |log| - 1 - i <= n;
    if log[0] == d {
      assert IsAt(log[1..], i - 1, c);
    } else if i == 0 {
      WithoutLess(log, d);
      assert IsAt(Without(log, d), 0, c);
    } else {
      assert IsAt(log[1..], i - 1, c);
      RecentWithout(log[1..], c, n, d);
      ConsRecent(log[0], Without(log[1..], d), c, n);
    }
  }

  lemma ConsRecent(x: Copy, log: seq<Copy>, c: Copy, n: nat)
    requires IsRecent(log, c, n)
    ensures IsRecent([x] + log, c, n)
  {
    var i :| 0 <= i < |log| && IsAt(log, i, c) && |log| - 1 - i <= n;
    assert IsAt([x] + log, i + 1, c);
  }

  lemma NowRecent(log: seq<Copy>, c: Copy)
    requires c !in log && |log| <= 4096
    ensures IsRecent(Remembering(log, c), c, 0) && |Remembering(log, c)| <= 4096
  {
    var more := Remembering(log, c);
    assert IsAt(more, |more| - 1, c);
  }

  lemma RecentIn(log: seq<Copy>, c: Copy, n: nat)
    requires IsRecent(log, c, n)
    ensures c in log
  {
    var i :| 0 <= i < |log| && IsAt(log, i, c) && |log| - 1 - i <= n;
    assert log[i] == c;
  }

  /** How many copies were sent in the run. */
  ghost function CopiesSent(cfg: Config, run: seq<Event>): nat {
    if run == [] then 0
    else CopiesSent(cfg, run[..|run| - 1]) + |Step(cfg, After(cfg, run[..|run| - 1]), run[|run| - 1]).1.toFollowers|
  }

  /** The copy was first sent in the `k`th event. */
  ghost predicate FirstSent(cfg: Config, run: seq<Event>, k: nat, c: Copy)
    requires k < |run|
  {
    (exists s :: s in Emitted(cfg, run, k).toFollowers && IsCopy(s, c)) && forall i: nat :: i < k ==> !SendsCopy(Emitted(cfg, run, i), c)
  }

  predicate IsCopy(s: Sent, c: Copy) {
    s.to == c.backend && IdOf(s.frame) == c.msg
  }

  ghost predicate SendsCopy(out: Output, c: Copy) {
    exists s :: s in out.toFollowers && IsCopy(s, c)
  }

  lemma {:induction false} OnlySentLogged(log: seq<Copy>, sent: seq<Sent>, c: Copy)
    requires c in RememberingAll(log, sent)
    ensures c in log || exists s :: s in sent && IsCopy(s, c)
  {
    if sent != [] {
      var last := sent[|sent| - 1];
      if IsCopy(last, c) {
        assert last in sent;
      } else {
        OnlySentLogged(log, sent[..|sent| - 1], c);
        if s :| s in sent[..|sent| - 1] && IsCopy(s, c) {
          assert s in sent;
        }
      }
    }
  }

  lemma {:induction false} FirstRecent(log: seq<Copy>, sent: seq<Sent>, c: Copy)
    requires |log| <= 4096 && c !in log && (exists s :: s in sent && IsCopy(s, c)) && |sent| <= 4096
    ensures IsRecent(RememberingAll(log, sent), c, |sent| - 1) && |RememberingAll(log, sent)| <= 4096
  {
    hide IsRecent, Remembering, RememberingAll;
    var n := |sent| - 1;
    var before := RememberingAll(log, sent[..n]);
    assert RememberingAll(log, sent) == Remembering(before, Copy(sent[n].to, IdOf(sent[n].frame))) by {
      LastRemembered(log, sent);
    }
    if exists s :: s in sent[..n] && IsCopy(s, c) {
      FirstRecent(log, sent[..n], c);
      RecentStill(before, c, n - 1, Copy(sent[n].to, IdOf(sent[n].frame)));
    } else {
      LastIsCopy(sent, c);
      if c in before {
        OnlySentLogged(log, sent[..n], c);
      }
      StillBounded(log, sent[..n]);
      NowRecent(before, c);
      Longer(Remembering(before, c), c, 0, n);
    }
  }

  lemma LastIsCopy(sent: seq<Sent>, c: Copy)
    requires sent != [] && (exists s :: s in sent && IsCopy(s, c))
    ensures IsCopy(sent[|sent| - 1], c) || exists s :: s in sent[..|sent| - 1] && IsCopy(s, c)
  {
    var i :| 0 <= i < |sent| && IsCopy(sent[i], c);
    if i < |sent| - 1 {
      assert sent[..|sent| - 1][i] == sent[i];
    }
  }

  lemma LastRemembered(log: seq<Copy>, sent: seq<Sent>)
    requires sent != []
    ensures RememberingAll(log, sent) == Remembering(RememberingAll(log, sent[..|sent| - 1]), Copy(sent[|sent| - 1].to, IdOf(sent[|sent| - 1].frame)))
  {
  }

  lemma {:induction false} StillBounded(log: seq<Copy>, sent: seq<Sent>)
    requires |log| <= 4096
    ensures |RememberingAll(log, sent)| <= 4096
  {
    if sent != [] {
      StillBounded(log, sent[..|sent| - 1]);
    }
  }

  lemma Longer(log: seq<Copy>, c: Copy, n: nat, m: nat)
    requires IsRecent(log, c, n) && n <= m
    ensures IsRecent(log, c, m)
  {
  }

  lemma {:induction false} WithoutIn(log: seq<Copy>, d: Copy, c: Copy)
    requires c in Without(log, d)
    ensures c in log
  {
    if log[0] != d && c != log[0] {
      WithoutIn(log[1..], d, c);
    }
  }

  lemma ReadIn(t: Tx, input: Input, c: Copy)
    ensures c in ReadLog(t, input) ==> c in t.copied
  {
    if c in ReadLog(t, input) && c !in t.copied {
      if input.FollowerFrame? {
        WithoutIn(t.copied, Copy(input.follower, input.frame.id), c);
      } else {
        WithoutIn(t.copied, Copy(input.leader, input.frame.id), c);
      }
    }
  }

  /** What was never sent is not remembered. */
  lemma {:induction false} OnlySent(cfg: Config, run: seq<Event>, c: Copy)
    requires forall i: nat :: i < |run| ==> !SendsCopy(Emitted(cfg, run, i), c)
    ensures c !in After(cfg, run).tx.copied
  {
    hide WF, Step, SendsCopy, RememberingAll, ReadLog;
    if run != [] {
      var n := |run| - 1;
      forall i: nat | i < n ensures !SendsCopy(Emitted(cfg, run[..n], i), c) {
        assert run[..n][..i] == run[..i] && !SendsCopy(Emitted(cfg, run, i), c);
      }
      OnlySent(cfg, run[..n], c);
      RunKeeps(cfg, run[..n]);
      RunLogged(cfg, run[..n]);
      var t := After(cfg, run[..n]);
      StepLogged(cfg, t, run[n]);
      ReadIn(t.tx, run[n].input, c);
      if c in After(cfg, run).tx.copied {
        OnlySentLogged(ReadLog(t.tx, run[n].input), Step(cfg, t, run[n]).1.toFollowers, c);
        Sends(Emitted(cfg, run, n), c);
        assert false;
      }
    }
  }

  lemma Sends(out: Output, c: Copy)
    ensures SendsCopy(out, c) <==> exists s :: s in out.toFollowers && IsCopy(s, c)
  {
  }

  lemma ReadRecent(t: Tx, input: Input, c: Copy, n: nat)
    requires IsRecent(t.copied, c, n) && !Answers(input, c)
    ensures IsRecent(ReadLog(t, input), c, n)
  {
    hide IsRecent;
    if input.FollowerFrame? && (input.frame.Result? || input.frame.Error?) {
      RecentWithout(t.copied, c, n, Copy(input.follower, input.frame.id));
    } else if input.LeaderFrameIn? && (input.frame.Result? || input.frame.Error?) {
      RecentWithout(t.copied, c, n, Copy(input.leader, input.frame.id));
    }
  }

  lemma ReadBounded(t: Tx, input: Input)
    requires |t.copied| <= 4096
    ensures |ReadLog(t, input)| <= 4096
  {
    if input.FollowerFrame? && (input.frame.Result? || input.frame.Error?) {
      WithoutLess(t.copied, Copy(input.follower, input.frame.id));
    } else if input.LeaderFrameIn? && (input.frame.Result? || input.frame.Error?) {
      WithoutLess(t.copied, Copy(input.leader, input.frame.id));
    }
  }

  /** Nobody answers the copy after the `k`th event. */
  ghost predicate Unanswered(run: seq<Event>, k: nat, c: Copy) {
    forall i :: k < i < |run| ==> !Answers(run[i].input, c)
  }

  lemma FirstSentBefore(cfg: Config, run: seq<Event>, k: nat, c: Copy, n: nat)
    requires k < n <= |run| && FirstSent(cfg, run, k, c)
    ensures FirstSent(cfg, run[..n], k, c)
  {
    hide Step, IsCopy;
    assert run[..n][..k] == run[..k] && run[..n][k] == run[k];
    forall i: nat | i < k ensures !SendsCopy(Emitted(cfg, run[..n], i), c) {
      assert run[..n][..i] == run[..i] && !SendsCopy(Emitted(cfg, run, i), c);
    }
  }

  /** As long as no more than 4096 copies are sent from then on, an unanswered copy is remembered. */
  lemma {:induction false} StaysLogged(cfg: Config, run: seq<Event>, k: nat, c: Copy)
    requires k < |run| && FirstSent(cfg, run, k, c) && Unanswered(run, k, c) && CopiesSent(cfg, run) - CopiesSent(cfg, run[..k]) <= 4096
    ensures CopiesSent(cfg, run) > CopiesSent(cfg, run[..k]) && IsRecent(After(cfg, run).tx.copied, c, CopiesSent(cfg, run) - CopiesSent(cfg, run[..k]) - 1)
  {
    hide WF, Step, SendsCopy, RememberingAll, ReadLog, IsRecent, Answers;
    var n := |run| - 1;
    var t := After(cfg, run[..n]);
    var sent := Step(cfg, t, run[n]).1.toFollowers;
    RunKeeps(cfg, run[..n]);
    RunLogged(cfg, run[..n]);
    StepLogged(cfg, t, run[n]);
    ReadBounded(t.tx, run[n].input);
    if k == n {
      assert Emitted(cfg, run, k).toFollowers == sent;
      forall i: nat | i < n ensures !SendsCopy(Emitted(cfg, run[..n], i), c) {
        assert run[..n][..i] == run[..i] && !SendsCopy(Emitted(cfg, run, i), c);
      }
      OnlySent(cfg, run[..n], c);
      ReadIn(t.tx, run[n].input, c);
      FirstRecent(ReadLog(t.tx, run[n].input), sent, c);
    } else {
      FirstSentBefore(cfg, run, k, c, n);
      assert run[..n][..k] == run[..k];
      StaysLogged(cfg, run[..n], k, c);
      var younger := CopiesSent(cfg, run[..n]) - CopiesSent(cfg, run[..k]) - 1;
      ReadRecent(t.tx, run[n].input, c, younger);
      RecentAll(ReadLog(t.tx, run[n].input), c, younger, sent);
    }
  }

  // ------------------------------------------------------------------
  // What the charger hears
  // ------------------------------------------------------------------

  /** The message is the copy of a start that the backend got as a follower, and it has not numbered that start. */
  predicate IsUnreadCopy(t: Tx, b: Backend, msg: MsgId) {
    msg in t.ix.startMsgs && t.ix.startMsgs[msg] in t.recs &&
    var rec := t.recs[t.ix.startMsgs[msg]];
    b in rec.flags.copyMsgs && rec.flags.copyMsgs[b] == msg && b !in rec.backendIds
  }

  /** `out` is the answer, and after it the same for each of the retries, in their order. */
  predicate IsTold(out: seq<Frame>, first: Frame, retries: seq<MsgId>, detail: Option<string>) {
    |out| == 1 + |retries| && out[0] == first &&
    forall i :: 0 <= i < |retries| ==> out[1 + i] == if detail.Some? then Error(retries[i], detail.value) else if first.Result? then Result(retries[i], first.conf) else first
  }

  /** MAIN RESULT. What the charger hears when the leader answers. If the leader was asked to number a start under that message: while the
      start is pending, its result in the charger's id, and the same for every retry that waits; an answer without a number
      alone; an error, and the same for every retry if it was the last attempt; and once the start was answered, the answer it
      got. If it was not asked: nothing, if it was sent that message as a copy; otherwise its answer as it is. */
  lemma AnswersReachTheChargerExactly(cfg: Config, run: seq<Event>, e: Event)
    requires e.input.LeaderFrameIn? && (e.input.frame.Result? || e.input.frame.Error?)
    ensures var (t, leader, frame) := (After(cfg, run).tx, e.input.leader, e.input.frame); var (t', out) := Step(cfg, After(cfg, run), e);
      && out.toLeader.None? && out.toFollowers == []
      && if IsAsked(t, frame.id) then
           var r := t.ix.startMsgs[frame.id]; var rec := t.recs[r];
           if !rec.state.Pending? then out.toCharger == [if frame.Result? && rec.conf.Some? then Result(frame.id, rec.conf.value) else frame]
           else if frame.Error? then IsTold(out.toCharger, frame, if rec.tries.sent == {frame.id} then rec.tries.aliases else [], Some(frame.detail))
           else if frame.conf.tx.None? then out.toCharger == [frame]
           else r in t'.tx.recs && t'.tx.recs[r].conf.Some? && IsTold(out.toCharger, Result(frame.id, t'.tx.recs[r].conf.value), rec.tries.aliases, None)
         else out.toCharger == if IsUnreadCopy(t, leader, frame.id) || Copy(leader, frame.id) in t.copied then [] else [frame]
  {
    hide WF, After, Collect, OpenRecord;
    RunKeeps(cfg, run);
    var t, leader, frame := After(cfg, run).tx, e.input.leader, e.input.frame;
    LeaderLogged(t, leader, frame, e.now);
    if frame.id in t.ix.startMsgs {
      TrackedHeld(t, frame.id);
      if IsOwed(t, frame.id) {
        OwedTold(t, t.ix.startMsgs[frame.id], leader, frame, e.now);
      }
    }
  }

  lemma OwedTold(t: Tx, r: Ref, leader: Backend, frame: Frame, now: Time)
    requires WF(t) && (frame.Result? || frame.Error?) && IsOwed(t, frame.id) && r == t.ix.startMsgs[frame.id] && r in t.recs
    ensures var (t', plan) := OwedAnswer(t, r, leader, frame, now); var out := Listed(plan.frame) + plan.extra; var rec := t.recs[r];
      if !rec.state.Pending? then out == [if frame.Result? && rec.conf.Some? then Result(frame.id, rec.conf.value) else frame]
      else if frame.Error? then IsTold(out, frame, if rec.tries.sent == {frame.id} then rec.tries.aliases else [], Some(frame.detail))
      else if frame.conf.tx.None? then out == [frame]
      else r in t'.recs && t'.recs[r].conf.Some? && IsTold(out, Result(frame.id, t'.recs[r].conf.value), rec.tries.aliases, None)
  {
    hide WF, Collect, Choose;
    if t.recs[r].state.Pending? && frame.Result? && frame.conf.tx.Some? {
      var t1 := OpenRecord(t, r, leader, frame.conf.tx.value, frame.conf, now);
      CollectShape(Put(t1, r, WithoutRetries(Rec(t1, r), frame.id)), r);
    }
    assert t.recs[r].tries.sent - {frame.id} == {} <==> t.recs[r].tries.sent == {frame.id};
  }

  /** MAIN RESULT. A backend was sent a copy as a follower, and leads when it answers it: the charger hears nothing of that answer, unless
      the leader was asked under the same message since, or more than 4096 copies were sent from then on. */
  lemma AnswersToCopiesAreSwallowed(cfg: Config, run: seq<Event>, k: nat, c: Copy, e: Event)
    requires k < |run| && FirstSent(cfg, run, k, c) && Unanswered(run, k, c) && CopiesSent(cfg, run) - CopiesSent(cfg, run[..k]) <= 4096
    requires e.input.LeaderFrameIn? && Answers(e.input, c) && !IsAsked(After(cfg, run).tx, c.msg)
    ensures Step(cfg, After(cfg, run), e).1.toCharger == []
  {
    hide Step, After, IsRecent, FirstSent, Unanswered;
    StaysLogged(cfg, run, k, c);
    RecentIn(After(cfg, run).tx.copied, c, CopiesSent(cfg, run) - CopiesSent(cfg, run[..k]) - 1);
    AnswersReachTheChargerExactly(cfg, run, e);
  }
}
