/** What the watchers see of a link, once per poll: how long a leader is waited for, when it is lost and when it is back.

    A link that broke is left alone for a while before it is tried again, and the watcher of the configured leader looks
    more often than that; so no break of its link goes unseen (`FailbackWaits`). */
module LeaderPolls {
  import opened Backends
  import opened LeaderRoles

  /** The shortest pause before a connection is tried again, in seconds. */
  const RECONNECT_DELAY := 1.0

  // ------------------------------------------------------------------
  // Links and polls
  // ------------------------------------------------------------------

  ghost predicate IsUp(s: Session, p: nat) {
    p < |s.up| && s.up[p]
  }

  /** `e` makes `p`'s link ready, or stops it being so. */
  predicate TurnsTo(c: Setup, e: Event, p: nat, up: bool)
    requires p < |c.backends|
  {
    if up then e.LinkUp? && e.who == p && !c.backends[p].local else e == NotReady(p) || (e.LinkLost? && e.who == p && !c.backends[p].local)
  }

  /** The watcher of the configured leader waits for a link to stay up, that of a lost leader for it to stay down. */
  predicate IsPoll(e: Event, up: bool) {
    if up then e.FailbackPoll? else e.FailoverPoll?
  }

  /** Every poll from the `i`th event on found the link as it was waited for. */
  ghost predicate SeenAtPolls(c: Setup, run: seq<Event>, p: nat, up: bool, i: nat)
    requires OneLocal(c.backends)
  {
    forall k :: i <= k < |run| && IsPoll(run[k], up) ==> IsUp(Run(c, run[..k]), p) == up
  }

  /** The link was so all the time. */
  ghost predicate Steady(c: Setup, run: seq<Event>, p: nat, up: bool, i: nat)
    requires OneLocal(c.backends)
  {
    forall k :: i <= k <= |run| ==> IsUp(Run(c, run[..k]), p) == up
  }

  /** The link turned and turned back with no poll in between. */
  ghost predicate TurnsUnseen(c: Setup, run: seq<Event>, p: nat, up: bool, i: nat)
    requires p < |c.backends|
  {
    exists k, m :: i <= k < m < |run| && Spans(c, run, p, up, k, m)
  }

  ghost predicate Spans(c: Setup, run: seq<Event>, p: nat, up: bool, k: nat, m: nat)
    requires p < |c.backends| && k < m < |run|
  {
    TurnsTo(c, run[k], p, !up) && TurnsTo(c, run[m], p, up) && forall j :: k <= j <= m ==> !IsPoll(run[j], up)
  }

  predicate InSession(s: Session) {
    s.preferred.Just? && !s.closed
  }

  /** A session that has begun and is not over was not over before. */
  lemma StepSession(c: Setup, s: Session, e: Event)
    requires Ok(c, s)
    ensures InSession(s) && !Act(c, s, e).closed ==> InSession(Act(c, s, e))
    ensures s.closed ==> Act(c, s, e).closed
  {
    hide Team, New, Distinct, LeaderIndex, KeyOf, Below;
  }

  lemma StepTurns(c: Setup, s: Session, e: Event, p: nat)
    requires Ok(c, s) && InSession(s) && p < |c.backends|
    ensures IsUp(Act(c, s, e), p) != IsUp(s, p) ==> TurnsTo(c, e, p, !IsUp(s, p))
    ensures forall up :: TurnsTo(c, e, p, up) ==> IsUp(Act(c, s, e), p) == up
  {
    hide Team, New, Distinct, LeaderIndex, KeyOf, Below;
  }

  lemma NextState(c: Setup, run: seq<Event>, k: nat)
    requires OneLocal(c.backends) && k < |run|
    ensures Ok(c, Run(c, run[..k])) && Run(c, run[..k + 1]) == Act(c, Run(c, run[..k]), run[k])
  {
    hide Act, Ok, Run;
    assert run[..k] + [run[k]] == run[..k + 1];
    RunActs(c, run[..k], run[k]);
  }

  /** A session that lasts to the end and had begun by the `i`th event goes on in between. */
  lemma {:induction false} SessionLasts(c: Setup, run: seq<Event>, i: nat, k: nat)
    requires OneLocal(c.backends) && i <= k <= |run| && InSession(Run(c, run[..i])) && !Run(c, run).closed
    ensures InSession(Run(c, run[..k]))
  {
    hide Act, Ok, Run;
    NotOverYet(c, run, k);
    if i < k {
      SessionLasts(c, run, i, k - 1);
      NextState(c, run, k - 1);
      StepSession(c, Run(c, run[..k - 1]), run[k - 1]);
    }
  }

  lemma {:induction false} NotOverYet(c: Setup, run: seq<Event>, k: nat)
    requires OneLocal(c.backends) && k <= |run| && !Run(c, run).closed
    ensures !Run(c, run[..k]).closed
    decreases |run| - k
  {
    hide Act, Ok, Run;
    if k == |run| {
      assert run[..k] == run;
    } else {
      NotOverYet(c, run, k + 1);
      NextState(c, run, k);
      StepSession(c, Run(c, run[..k]), run[k]);
    }
  }

  /** The link is not as it was any more: the last turn before. */
  lemma {:induction false} LastTurn(c: Setup, run: seq<Event>, p: nat, up: bool, i: nat, j: nat) returns (k: nat)
    requires OneLocal(c.backends) && p < |c.backends| && i <= j <= |run| && InSession(Run(c, run[..i])) && !Run(c, run).closed
    requires IsUp(Run(c, run[..i]), p) == up && IsUp(Run(c, run[..j]), p) != up
    ensures i <= k < j && TurnsTo(c, run[k], p, !up) && forall x :: k < x <= j ==> IsUp(Run(c, run[..x]), p) != up
  {
    hide Act, Ok, Run, IsUp, TurnsTo;
    if IsUp(Run(c, run[..j - 1]), p) == up {
      k := j - 1;
      SessionLasts(c, run, i, k);
      NextState(c, run, k);
      StepTurns(c, Run(c, run[..k]), run[k], p);
    } else {
      k := LastTurn(c, run, p, up, i, j - 1);
    }
  }

  /** The link will be as it was again: the next turn back. */
  lemma {:induction false} NextTurn(c: Setup, run: seq<Event>, p: nat, up: bool, j: nat) returns (m: nat)
    requires OneLocal(c.backends) && p < |c.backends| && j <= |run| && InSession(Run(c, run[..j])) && !Run(c, run).closed
    requires IsUp(Run(c, run[..j]), p) != up && IsUp(Run(c, run), p) == up
    ensures j <= m < |run| && TurnsTo(c, run[m], p, up) && forall x :: j <= x <= m ==> IsUp(Run(c, run[..x]), p) != up
    decreases |run| - j
  {
    hide Act, Ok, Run, IsUp, TurnsTo;
    assert j < |run| by {
      assert run[..|run|] == run;
    }
    NextState(c, run, j);
    if IsUp(Run(c, run[..j + 1]), p) == up {
      m := j;
      StepTurns(c, Run(c, run[..j]), run[j], p);
    } else {
      SessionLasts(c, run, j, j + 1);
      m := NextTurn(c, run, p, up, j + 1);
    }
  }

  /** When every poll found a link as it was waited for, and it was so at both ends: it was so all the time if and only if it
      did not turn and turn back between two polls. */
  lemma SteadyExactly(c: Setup, run: seq<Event>, p: nat, up: bool, i: nat)
    requires OneLocal(c.backends) && p < |c.backends| && i <= |run| && InSession(Run(c, run[..i])) && !Run(c, run).closed
    requires SeenAtPolls(c, run, p, up, i) && IsUp(Run(c, run[..i]), p) == up && IsUp(Run(c, run), p) == up
    ensures Steady(c, run, p, up, i) <==> !TurnsUnseen(c, run, p, up, i)
  {
    hide Run, IsUp, TurnsTo, IsPoll, Spans;
    if !Steady(c, run, p, up, i) {
      var j :| i <= j <= |run| && IsUp(Run(c, run[..j]), p) != up;
      var k := LastTurn(c, run, p, up, i, j);
      SessionLasts(c, run, i, j);
      var m := NextTurn(c, run, p, up, j);
      UnseenTurn(c, run, p, up, i, k, m);
    }
    if TurnsUnseen(c, run, p, up, i) {
      var k, m :| i <= k < m < |run| && Spans(c, run, p, up, k, m);
      SessionLasts(c, run, i, k);
      ATurn(c, run, p, up, k, m);
    }
  }

  lemma UnseenTurn(c: Setup, run: seq<Event>, p: nat, up: bool, i: nat, k: nat, m: nat)
    requires OneLocal(c.backends) && p < |c.backends| && i <= k < m < |run| && SeenAtPolls(c, run, p, up, i)
    requires TurnsTo(c, run[k], p, !up) && TurnsTo(c, run[m], p, up) && forall x :: k < x <= m ==> IsUp(Run(c, run[..x]), p) != up
    ensures Spans(c, run, p, up, k, m)
  {
    hide Run, IsUp;
  }

  lemma ATurn(c: Setup, run: seq<Event>, p: nat, up: bool, k: nat, m: nat)
    requires OneLocal(c.backends) && p < |c.backends| && k < m < |run| && InSession(Run(c, run[..k])) && Spans(c, run, p, up, k, m)
    ensures IsUp(Run(c, run[..k + 1]), p) != up
  {
    hide Run, IsUp, Act;
    NextState(c, run, k);
    StepTurns(c, Run(c, run[..k]), run[k], p);
  }

  lemma LongerSeen(c: Setup, run: seq<Event>, e: Event, p: nat, up: bool, i: nat)
    requires OneLocal(c.backends) && i <= |run| && SeenAtPolls(c, run, p, up, i) && (IsPoll(e, up) ==> IsUp(Run(c, run), p) == up)
    ensures SeenAtPolls(c, run + [e], p, up, i)
  {
    hide IsUp, Run, IsPoll;
    var more := run + [e];
    forall k | i <= k < |more| && IsPoll(more[k], up) ensures IsUp(Run(c, more[..k]), p) == up {
      assert more[..k] == run[..k] && (k == |run| ==> run[..k] == run);
    }
  }

  // ------------------------------------------------------------------
  // Fail-back
  // ------------------------------------------------------------------

  function Preferred(c: Setup): nat {
    LeaderIndex(c.backends)
  }

  /** The `i`th event was the poll at `since`, which found the configured leader up after it had been down (or first looked);
      so did every poll after it. */
  ghost predicate CountsFrom(c: Setup, run: seq<Event>, since: real, i: nat)
    requires OneLocal(c.backends)
  {
    && i < |run| && run[i] == FailbackPoll(since)
    && Run(c, run[..i]).giveBack == Just(Nothing) && Run(c, run[..i + 1]).giveBack == Just(Just(since))
    && InSession(Run(c, run[..i])) && SeenAtPolls(c, run, Preferred(c), true, i) && WatchedFrom(c, run, i)
  }

  /** The watcher of the configured leader is there after the `i`th event, and stays. */
  ghost predicate WatchedFrom(c: Setup, run: seq<Event>, i: nat)
    requires OneLocal(c.backends)
  {
    forall k :: i < k <= |run| ==> Run(c, run[..k]).giveBack.Just?
  }

  lemma LongerWatchedFrom(c: Setup, run: seq<Event>, e: Event, i: nat)
    requires OneLocal(c.backends) && i <= |run| && WatchedFrom(c, run, i) && Run(c, run + [e]).giveBack.Just?
    ensures WatchedFrom(c, run + [e], i)
  {
    hide Run;
    var more := run + [e];
    forall k | i < k <= |more| ensures Run(c, more[..k]).giveBack.Just? {
      if k <= |run| {
        assert more[..k] == run[..k];
      } else {
        assert more[..k] == more;
      }
    }
  }

  lemma CountsOn(c: Setup, run: seq<Event>, e: Event, since: real, i: nat)
    requires OneLocal(c.backends) && CountsFrom(c, run, since, i) && (e.FailbackPoll? ==> IsUp(Run(c, run), Preferred(c)))
    requires Run(c, run + [e]).giveBack.Just?
    ensures CountsFrom(c, run + [e], since, i)
  {
    hide IsUp, Run, SeenAtPolls, Preferred, WatchedFrom;
    LongerWatchedFrom(c, run, e, i);
    LongerSeen(c, run, e, Preferred(c), true, i);
    assert (run + [e])[..i] == run[..i] && (run + [e])[..i + 1] == run[..i + 1];
  }

  lemma CountsNow(c: Setup, run: seq<Event>, now: real)
    requires OneLocal(c.backends) && IsUp(Run(c, run), Preferred(c)) && InSession(Run(c, run))
    requires Run(c, run).giveBack == Just(Nothing) && Run(c, run + [FailbackPoll(now)]).giveBack == Just(Just(now))
    ensures CountsFrom(c, run + [FailbackPoll(now)], now, |run|)
  {
    hide IsUp, Run, Preferred;
    LongerSeen(c, run, FailbackPoll(now), Preferred(c), true, |run|);
    var more := run + [FailbackPoll(now)];
    assert more[..|run|] == run && more[..|run| + 1] == more;
  }

  /** What a step does to the wait: it starts over, begins, goes on, or ends. */
  lemma StepWait(c: Setup, s: Session, e: Event)
    requires Ok(c, s)
    ensures var g := Act(c, s, e).giveBack;
      g.Just? && g.value.Just? ==>
        && (e.FailbackPoll? ==> IsUp(s, Preferred(c)) && InSession(s))
        && (g == s.giveBack || (e.FailbackPoll? && s.giveBack == Just(Nothing) && g.value.value == e.now))
  {
    hide New, Distinct, LeaderIndex;
  }

  lemma {:induction false} WaitCounts(c: Setup, run: seq<Event>) returns (i: nat)
    requires OneLocal(c.backends)
    ensures var g := Run(c, run).giveBack; g.Just? && g.value.Just? ==> CountsFrom(c, run, g.value.value, i)
  {
    hide Act, CountsFrom, Ok, IsUp, InSession, Run, Preferred;
    i := 0;
    if run == [] {
      NoWait(c);
    } else {
      var init, e := run[..|run| - 1], run[|run| - 1];
      assert run == init + [e];
      i := WaitCounts(c, init);
      RunActs(c, init, e);
      StepWait(c, Run(c, init), e);
      var g := Run(c, run).giveBack;
      if g.Just? && g.value.Just? {
        if g == Run(c, init).giveBack {
          CountsOn(c, init, e, g.value.value, i);
        } else {
          i := |init|;
          CountsNow(c, init, e.now);
        }
      }
    }
  }

  lemma NoWait(c: Setup)
    requires OneLocal(c.backends)
    ensures Run(c, []).giveBack.Nothing? && Run(c, []).watch.Nothing?
  {
  }

  /** What a poll that gives the charger back found. */
  lemma GivenBack(c: Setup, s: Session, now: real)
    requires Ok(c, s) && FailbackPolled(c, s, now).leader != s.leader && c.failbackAfter > 0.0
    ensures IsUp(s, Preferred(c)) && !s.closed && s.giveBack.Just? && s.giveBack.value.Just? && now - s.giveBack.value.value >= c.failbackAfter
  {
    hide New, Distinct, LeaderIndex;
  }

  /** When the charger is given back, the `i`th event was the poll that began the count, and every poll since found the
      configured leader connected. */
  lemma GivenBackAsSeen(c: Setup, run: seq<Event>, now: real) returns (i: nat)
    requires OneLocal(c.backends) && c.failbackAfter > 0.0 && GivesBack(c, run, now)
    ensures i < |run| && run[i].FailbackPoll? && now - run[i].now >= c.failbackAfter && CountsFrom(c, run, run[i].now, i)
    ensures IsUp(Run(c, run), Preferred(c)) && Preferred(c) < |c.backends|
    ensures Steady(c, run, Preferred(c), true, i) <==> !TurnsUnseen(c, run, Preferred(c), true, i)
  {
    hide Run, Promoted, IsUp, Steady, TurnsUnseen, SeenAtPolls, WatchedFrom, Preferred;
    RunActs(c, run, FailbackPoll(now));
    GivenBack(c, Run(c, run), now);
    i := WaitCounts(c, run);
    SeenFirst(c, run, i);
    ThereIsOne(c, Run(c, run));
    SteadyExactly(c, run, Preferred(c), true, i);
  }

  lemma SeenFirst(c: Setup, run: seq<Event>, i: nat)
    requires OneLocal(c.backends) && i < |run| && run[i].FailbackPoll? && SeenAtPolls(c, run, Preferred(c), true, i)
    ensures IsUp(Run(c, run[..i]), Preferred(c))
  {
    hide Run, IsUp;
  }

  lemma ThereIsOne(c: Setup, s: Session)
    requires Ok(c, s) && IsUp(s, Preferred(c))
    ensures Preferred(c) < |c.backends|
  {
  }

  // ------------------------------------------------------------------
  // How often the watcher looks, and how soon a link is back
  // ------------------------------------------------------------------

  /** The watcher of the configured leader looks this often, for a given delay. */
  function Period(delay: real): (p: real)
    ensures 0.05 <= p <= RECONNECT_DELAY && (delay >= 0.2 ==> p <= delay / 4.0)
  {
    var quarter := if delay / 4.0 > 0.05 then delay / 4.0 else 0.05;
    if quarter < 1.0 then quarter else 1.0
  }

  function When(e: Event): Maybe<real> {
    if e.LinkUp? || e.LinkLost? || e.FailoverPoll? || e.FailbackPoll? then Just(e.now) else Nothing
  }

  /** The clock never goes back. */
  ghost predicate Clock(run: seq<Event>) {
    forall j, k :: 0 <= j < k < |run| && When(run[j]).Just? && When(run[k]).Just? ==> When(run[j]).value <= When(run[k]).value
  }

  /** Between a break of a link and its return the loss is noticed, and the pause is kept. */
  ghost predicate Pauses(c: Setup, run: seq<Event>) {
    forall k, m :: 0 <= k < m < |run| && IsBreak(c, run, k, m) ==> Paused(c, run, k, m)
  }

  predicate IsBreak(c: Setup, run: seq<Event>, k: nat, m: nat)
    requires k < m < |run|
  {
    run[m].LinkUp? && run[m].who < |c.backends| && !c.backends[run[m].who].local && TurnsTo(c, run[k], run[m].who, false)
  }

  ghost predicate Paused(c: Setup, run: seq<Event>, k: nat, m: nat)
    requires k < m < |run| && run[m].LinkUp?
  {
    exists j :: k <= j < m && run[j].LinkLost? && run[j].who == run[m].who && run[j].now + c.pause <= run[m].now
  }

  /** As long as the watcher is there, its next look comes before any link that returns when the look is due, or later: both
      wait for a timer, and the link still has to be made. */
  ghost predicate Looks(c: Setup, run: seq<Event>)
    requires OneLocal(c.backends)
  {
    forall q, m :: 0 <= q < m < |run| && IsLate(c, run, q, m) && StaysFrom(c, run, q, m) ==> LooksBetween(run, q, m)
  }

  predicate IsLate(c: Setup, run: seq<Event>, q: nat, m: nat)
    requires q < m < |run|
  {
    run[q].FailbackPoll? && run[m].LinkUp? && run[q].now + Period(c.failbackAfter) <= run[m].now
  }

  ghost predicate StaysFrom(c: Setup, run: seq<Event>, q: nat, m: nat)
    requires OneLocal(c.backends) && q < m < |run|
  {
    forall x :: q < x <= m ==> Run(c, run[..x]).giveBack.Just?
  }

  ghost predicate LooksBetween(run: seq<Event>, q: nat, m: nat) {
    exists x :: q < x < m < |run| && run[x].FailbackPoll?
  }

  ghost predicate Paced(c: Setup, run: seq<Event>)
    requires OneLocal(c.backends)
  {
    Clock(run) && Pauses(c, run) && Looks(c, run)
  }

  /** The last look at or after the `i`th event, before the `k`th. */
  lemma {:induction false} LastLook(run: seq<Event>, i: nat, k: nat) returns (q: nat)
    requires i < k < |run| && run[i].FailbackPoll?
    ensures i <= q < k && run[q].FailbackPoll? && forall x :: q < x < k ==> !run[x].FailbackPoll?
  {
    if run[k - 1].FailbackPoll? {
      q := k - 1;
    } else {
      q := LastLook(run, i, k - 1);
    }
  }

  /** With a pause that is no shorter than the time between two looks, a look falls into every break. */
  lemma BreaksAreSeen(c: Setup, run: seq<Event>, since: real, i: nat)
    requires OneLocal(c.backends) && Paced(c, run) && c.pause >= Period(c.failbackAfter) && CountsFrom(c, run, since, i)
    requires Preferred(c) < |c.backends|
    ensures !TurnsUnseen(c, run, Preferred(c), true, i)
  {
    hide Run, SeenAtPolls, Preferred, Paced, WatchedFrom;
    var p := Preferred(c);
    forall k, m | i <= k < m < |run| ensures !Spans(c, run, p, true, k, m) {
      if Spans(c, run, p, true, k, m) {
        var q := LastLook(run, i, k);
        BreakIsSeen(c, run, i, q, k, m);
        assert false;
      }
    }
  }

  /** A look after the one at `q` comes before the return at `m` of a link that broke at `k`. */
  lemma BreakIsSeen(c: Setup, run: seq<Event>, i: nat, q: nat, k: nat, m: nat)
    requires OneLocal(c.backends) && Paced(c, run) && c.pause >= Period(c.failbackAfter) && WatchedFrom(c, run, i)
    requires i <= q < k < m < |run| && run[q].FailbackPoll? && IsBreak(c, run, k, m)
    ensures LooksBetween(run, q, m)
  {
    hide Run, TurnsTo;
    assert Paused(c, run, k, m);
    var j :| k <= j < m && run[j].LinkLost? && run[j].who == run[m].who && run[j].now + c.pause <= run[m].now;
    assert When(run[q]).value <= When(run[j]).value;
    assert IsLate(c, run, q, m) && StaysFrom(c, run, q, m);
  }

  /** The poll at `now` gives the charger back. */
  ghost predicate GivesBack(c: Setup, run: seq<Event>, now: real)
    requires OneLocal(c.backends)
  {
    Run(c, run + [FailbackPoll(now)]).leader != Run(c, run).leader
  }

  /** MAIN RESULT. If a connection is never tried again sooner than the watcher looks (as it is with the shipped pause,
      whatever the delay: `UnbrokenAsShipped`), then, when the charger is given back to the configured leader, that leader has been
      connected without a break since a poll `leader_failback_delay` seconds ago or more. */
  lemma FailbackWaits(c: Setup, run: seq<Event>, now: real) returns (i: nat)
    requires OneLocal(c.backends) && c.failbackAfter > 0.0 && Paced(c, run) && c.pause >= Period(c.failbackAfter) && GivesBack(c, run, now)
    ensures i < |run| && run[i].FailbackPoll? && now - run[i].now >= c.failbackAfter && Steady(c, run, Preferred(c), true, i)
  {
    hide Run, Steady, Spans, Preferred, CountsFrom, Paced, GivesBack, TurnsUnseen;
    i := GivenBackAsSeen(c, run, now);
    BreaksAreSeen(c, run, run[i].now, i);
  }

  lemma UnbrokenAsShipped(c: Setup, run: seq<Event>, now: real) returns (i: nat)
    requires OneLocal(c.backends) && c.failbackAfter > 0.0 && Paced(c, run) && c.pause >= RECONNECT_DELAY && GivesBack(c, run, now)
    ensures i < |run| && run[i].FailbackPoll? && now - run[i].now >= c.failbackAfter && Steady(c, run, Preferred(c), true, i)
  {
    hide Steady, Preferred, Paced, GivesBack;
    i := FailbackWaits(c, run, now);
  }

  // ------------------------------------------------------------------
  // Failover
  // ------------------------------------------------------------------

  /** The `i`th event reported the loss that is waited on, and every poll since found that leader down. */
  ghost predicate WatchesFrom(c: Setup, run: seq<Event>, w: Watch, i: nat)
    requires OneLocal(c.backends)
  {
    && i < |run| && run[i].LinkLost? && run[i].who == w.leader && w.deadline == run[i].now + c.failoverAfter
    && Run(c, run[..i]).watch.Nothing? && Run(c, run[..i]).leader == Just(w.leader) && Run(c, run[..i + 1]).watch == Just(w)
    && Run(c, run[..i + 1]).preferred.Just? && !IsUp(Run(c, run[..i + 1]), w.leader) && SeenAtPolls(c, run, w.leader, false, i + 1)
  }

  lemma StepWatches(c: Setup, s: Session, e: Event)
    requires Ok(c, s)
    ensures var w := Act(c, s, e).watch;
      w.Just? ==>
        if s.watch.Just? then s.watch == w && (e.FailoverPoll? ==> !IsUp(s, w.value.leader))
        else e.LinkLost? && e.who == w.value.leader && s.leader == Just(e.who) && w.value.deadline == e.now + c.failoverAfter && Act(c, s, e).preferred.Just? && !IsUp(Act(c, s, e), e.who)
  {
    hide New, Distinct, LeaderIndex, KeyOf, Below;
  }

  lemma WatchesOn(c: Setup, run: seq<Event>, e: Event, w: Watch, i: nat)
    requires OneLocal(c.backends) && WatchesFrom(c, run, w, i) && (e.FailoverPoll? ==> !IsUp(Run(c, run), w.leader))
    ensures WatchesFrom(c, run + [e], w, i)
  {
    hide IsUp, Run, SeenAtPolls;
    LongerSeen(c, run, e, w.leader, false, i + 1);
    assert (run + [e])[..i] == run[..i] && (run + [e])[..i + 1] == run[..i + 1];
  }

  lemma WatchesNow(c: Setup, run: seq<Event>, e: Event, w: Watch)
    requires OneLocal(c.backends) && e.LinkLost? && e.who == w.leader && w.deadline == e.now + c.failoverAfter
    requires Run(c, run).watch.Nothing? && Run(c, run).leader == Just(w.leader) && Run(c, run + [e]).watch == Just(w)
    requires Run(c, run + [e]).preferred.Just? && !IsUp(Run(c, run + [e]), w.leader)
    ensures WatchesFrom(c, run + [e], w, |run|)
  {
    hide IsUp, Run;
    var more := run + [e];
    assert more[..|run|] == run && more[..|run| + 1] == more;
  }

  lemma {:induction false} WatchCounts(c: Setup, run: seq<Event>) returns (i: nat)
    requires OneLocal(c.backends)
    ensures Run(c, run).watch.Just? ==> WatchesFrom(c, run, Run(c, run).watch.value, i)
  {
    hide Act, WatchesFrom, Ok, IsUp, Run;
    i := 0;
    if run == [] {
      NoWait(c);
    } else {
      var init, e := run[..|run| - 1], run[|run| - 1];
      assert run == init + [e];
      i := WatchCounts(c, init);
      RunActs(c, init, e);
      StepWatches(c, Run(c, init), e);
      var w := Run(c, run).watch;
      if w.Just? {
        if Run(c, init).watch.Just? {
          WatchesOn(c, init, e, w.value, i);
        } else {
          i := |init|;
          WatchesNow(c, init, e, w.value);
        }
      }
    }
  }

  /** What a poll that promotes a follower found. */
  lemma GivenUpOn(c: Setup, s: Session, now: real)
    requires Ok(c, s) && FailoverPolled(c, s, now).leader != s.leader
    ensures s.watch.Just? && !s.closed && s.leader == Just(s.watch.value.leader) && !IsUp(s, s.watch.value.leader) && now >= s.watch.value.deadline
    ensures s.watch.value.leader < |c.backends|
  {
    hide New, Distinct, LeaderIndex;
  }

  /** MAIN RESULT. When a follower is promoted because the leader is gone, the `i`th event reported the leader's loss, at least
      `leader_failover_timeout` seconds ago, and every poll since found it down. It was down all that time if and only if its
      link never came back and was lost again between two polls: such a return does not move the deadline. */
  lemma FailoverWaits(c: Setup, run: seq<Event>, now: real) returns (i: nat)
    requires OneLocal(c.backends) && Run(c, run + [FailoverPoll(now)]).leader != Run(c, run).leader
    ensures Run(c, run).leader.Just? && Run(c, run).leader.value < |c.backends|
    ensures i < |run| && run[i].LinkLost? && run[i].who == Run(c, run).leader.value && now - run[i].now >= c.failoverAfter
    ensures SeenAtPolls(c, run, run[i].who, false, i + 1)
    ensures Steady(c, run, run[i].who, false, i + 1) <==> !TurnsUnseen(c, run, run[i].who, false, i + 1)
  {
    hide Run, Promoted, IsUp, Steady, TurnsUnseen, SeenAtPolls;
    RunActs(c, run, FailoverPoll(now));
    GivenUpOn(c, Run(c, run), now);
    i := WatchCounts(c, run);
    NotOverYet(c, run, i + 1);
    SteadyExactly(c, run, run[i].who, false, i + 1);
  }

  // ------------------------------------------------------------------
  // What a watcher does not see
  // ------------------------------------------------------------------

  /** Polls that find nothing to do. */
  lemma {:induction false} IdlePolls(c: Setup, run: seq<Event>, polls: seq<Event>)
    requires OneLocal(c.backends) && Shaped(c, Run(c, run)) && forall k :: 0 <= k < |polls| ==> Act(c, Run(c, run), polls[k]) == Run(c, run)
    ensures Run(c, run + polls) == Run(c, run)
  {
    hide Act, Run, Shaped;
    if polls == [] {
      assert run + polls == run;
    } else {
      var init, e := polls[..|polls| - 1], polls[|polls| - 1];
      IdlePolls(c, run, init);
      RunActs(c, run + init, e);
      assert run + init + [e] == run + polls;
    }
  }

  /** The first backend leads by configuration, but follows the second, and is connected. */
  ghost predicate Following(c: Setup, s: Session) {
    |s.up| == 2 && s.leader == Just(1) && s.followers == [0] && s.preferred == Just(0) && s.up[0]
  }

  /** The configured leader is lost and the other backend takes over at the deadline; the configured leader is back. */
  function BackAgain(c: Setup, lost: real): seq<Event> {
    [Connects, LinkUp(1, lost), LinkLost(0, lost), FailoverPoll(lost + c.failoverAfter), LinkUp(0, lost + c.failoverAfter + c.pause)]
  }

  /** When the watcher of the configured leader looks for the first time. */
  function FirstLook(c: Setup, lost: real): real {
    lost + c.failoverAfter + Period(c.failbackAfter)
  }

  /** The watcher looks, and begins to count; then the link breaks, and is back when `w` seconds of the period are over. */
  function Breaks(c: Setup, lost: real, w: real): seq<Event> {
    var back := FirstLook(c, lost);
    BackAgain(c, lost) + [FailbackPoll(back), LinkLost(0, back + w - c.pause), LinkUp(0, back + w)]
  }

  function Times(k: nat, p: real): real {
    k as real * p
  }

  /** The watcher's next looks, one period apart. */
  function Ticks(t: real, p: real, n: nat): (ticks: seq<Event>)
    ensures |ticks| == n && forall k :: 0 <= k < n ==> ticks[k] == FailbackPoll(t + Times(k + 1, p))
  {
    seq(n, k requires 0 <= k < n => FailbackPoll(t + Times(k + 1, p)))
  }

  /** How many looks come before the one at which the delay is over. */
  lemma TickCount(delay: real, p: real) returns (n: nat)
    requires delay > 0.0 && p > 0.0
    ensures Times(n, p) < delay <= Times(n + 1, p)
  {
    hide Times;
    var x := Quotient(delay, p);
    n := if x.Floor as real == x then x.Floor - 1 else x.Floor;
    TimesAre(n, x, p);
    TimesAre(n + 1, x, p);
  }

  lemma Quotient(delay: real, p: real) returns (x: real)
    requires delay > 0.0 && p > 0.0
    ensures x > 0.0 && x * p == delay
  {
    x := delay / p;
  }

  lemma TimesAre(n: nat, x: real, p: real)
    requires p > 0.0
    ensures (n as real < x ==> Times(n, p) < x * p) && (x <= n as real ==> x * p <= Times(n, p))
  {
    Scaled(n as real, x, p);
    Scaled(x, n as real, p);
  }

  lemma Scaled(a: real, b: real, p: real)
    requires p > 0.0
    ensures a < b ==> a * p < b * p
    ensures a <= b ==> a * p <= b * p
  {
    if a < b {
      assert (b - a) * p > 0.0;
    }
  }

  lemma MoreTimes(j: nat, k: nat, p: real)
    requires p > 0.0 && j <= k
    ensures Times(j, p) <= Times(k, p) && Times(1, p) == p && Times(j + 1, p) == Times(j, p) + p
  {
    Scaled(j as real, k as real, p);
  }

  lemma BackAgainState(c: Setup, lost: real)
    requires Plain(c, 2) && OneLocal(c.backends) && c.failback
    ensures Following(c, Run(c, BackAgain(c, lost))) && Run(c, BackAgain(c, lost)).giveBack == Just(Nothing)
  {
    hide Ok, KeysDiffer, LeaderIndex, Run, Without, Upto, FirstLocal, KeyOf;
    FollowersAtFirst();
    Connecting(c);
    var r1 := [Connects];
    TwoAfter(c, r1, LinkUp(1, lost), LinkLost(0, lost));
    var r2 := r1 + [LinkUp(1, lost), LinkLost(0, lost)];
    TwoAfter(c, r2, FailoverPoll(lost + c.failoverAfter), LinkUp(0, lost + c.failoverAfter + c.pause));
    assert r2 + [FailoverPoll(lost + c.failoverAfter), LinkUp(0, lost + c.failoverAfter + c.pause)] == BackAgain(c, lost);
  }

  lemma BreaksState(c: Setup, lost: real, w: real)
    requires Plain(c, 2) && OneLocal(c.backends) && c.failback && c.failbackAfter > 0.0
    ensures var run := Breaks(c, lost, w);
      Following(c, Run(c, run)) && Run(c, run).giveBack == Just(Just(FirstLook(c, lost))) && !IsUp(Run(c, run[..7]), 0)
  {
    hide Ok, Run, KeysDiffer, LeaderIndex;
    var run, back := BackAgain(c, lost), FirstLook(c, lost);
    BackAgainState(c, lost);
    TwoAfter(c, run, FailbackPoll(back), LinkLost(0, back + w - c.pause));
    var two := run + [FailbackPoll(back), LinkLost(0, back + w - c.pause)];
    OkShaped(c, Run(c, run));
    OkShaped(c, Act(c, Run(c, run), FailbackPoll(back)));
    CountBegins(c, Run(c, run), back, back + w - c.pause);
    RunActs(c, two, LinkUp(0, back + w));
    var more := Breaks(c, lost, w);
    assert two + [LinkUp(0, back + w)] == more && more[..7] == two;
  }

  lemma OkShaped(c: Setup, s: Session)
    requires Ok(c, s)
    ensures Shaped(c, s)
  {
  }

  lemma CountBegins(c: Setup, s: Session, back: real, lost: real)
    requires Ok(c, s) && |c.backends| == 2 && !c.backends[0].local && c.failbackAfter > 0.0 && Following(c, s) && s.giveBack == Just(Nothing)
    requires Shaped(c, FailbackPolled(c, s, back))
    ensures Act(c, FailbackPolled(c, s, back), LinkLost(0, lost)) == s.(giveBack := Just(Just(back)), up := s.up[0 := false], lost := s.lost[0 := true])
  {
    hide Team, Promoted;
  }

  /** What `Breaks` and the looks after it are, at their times. */
  function TimeAt(c: Setup, lost: real, w: real, k: nat): real {
    if k <= 2 then lost
    else if k == 3 then lost + c.failoverAfter
    else if k == 4 then lost + c.failoverAfter + c.pause
    else if k == 5 then FirstLook(c, lost)
    else if k == 6 then FirstLook(c, lost) + w - c.pause
    else if k == 7 then FirstLook(c, lost) + w
    else FirstLook(c, lost) + Times(k - 7, Period(c.failbackAfter))
  }

  predicate ShortPause(c: Setup, w: real) {
    0.0 <= c.pause <= w < Period(c.failbackAfter) && c.failoverAfter > 0.0
  }

  lemma TimesGrow(c: Setup, lost: real, w: real, j: nat, k: nat)
    requires ShortPause(c, w) && j < k
    ensures TimeAt(c, lost, w, j) <= TimeAt(c, lost, w, k)
  {
    hide Period, Times;
    if k >= 8 {
      MoreTimes(1, k - 7, Period(c.failbackAfter));
      if j >= 8 {
        MoreTimes(j - 7, k - 7, Period(c.failbackAfter));
      }
    }
  }

  lemma AtItsTime(c: Setup, lost: real, w: real, n: nat, k: nat)
    requires k < 8 + n
    ensures var run := Breaks(c, lost, w) + Ticks(FirstLook(c, lost), Period(c.failbackAfter), n);
      |run| == 8 + n && (When(run[k]).Just? ==> When(run[k]).value == TimeAt(c, lost, w, k))
      && (run[k].FailbackPoll? <==> k == 5 || k >= 8) && (run[k].LinkUp? ==> k in {1, 4, 7})
  {
  }

  /** The run obeys the pacing. */
  lemma ShortRunPaced(c: Setup, lost: real, w: real, n: nat)
    requires ShortPause(c, w) && OneLocal(c.backends)
    ensures Paced(c, Breaks(c, lost, w) + Ticks(FirstLook(c, lost), Period(c.failbackAfter), n))
  {
    hide StaysFrom, LooksBetween;
    var run := Breaks(c, lost, w) + Ticks(FirstLook(c, lost), Period(c.failbackAfter), n);
    forall j, k | 0 <= j < k < |run| && When(run[j]).Just? && When(run[k]).Just? ensures When(run[j]).value <= When(run[k]).value {
      AtItsTime(c, lost, w, n, j);
      AtItsTime(c, lost, w, n, k);
      TimesGrow(c, lost, w, j, k);
    }
    forall k, m | 0 <= k < m < |run| && IsBreak(c, run, k, m) ensures Paused(c, run, k, m) {
      AtItsTime(c, lost, w, n, m);
      ShortPaused(c, lost, w, n, k, m);
    }
    forall q, m | 0 <= q < m < |run| ensures !IsLate(c, run, q, m) {
      AtItsTime(c, lost, w, n, q);
      AtItsTime(c, lost, w, n, m);
    }
  }

  lemma ShortPaused(c: Setup, lost: real, w: real, n: nat, k: nat, m: nat)
    requires ShortPause(c, w) && k < m < 8 + n && m in {1, 4, 7}
    requires IsBreak(c, Breaks(c, lost, w) + Ticks(FirstLook(c, lost), Period(c.failbackAfter), n), k, m)
    ensures Paused(c, Breaks(c, lost, w) + Ticks(FirstLook(c, lost), Period(c.failbackAfter), n), k, m)
  {
    var run := Breaks(c, lost, w) + Ticks(FirstLook(c, lost), Period(c.failbackAfter), n);
    assert run[2] == LinkLost(0, lost) && run[6] == LinkLost(0, FirstLook(c, lost) + w - c.pause);
    assert k in {2, 6};
  }

  /** `leader_failback_delay` seconds before the charger is given back at `now`, the configured leader was connected, and has
      been ever since. */
  ghost predicate Unbroken(c: Setup, run: seq<Event>, now: real)
    requires OneLocal(c.backends)
  {
    exists i :: 0 <= i < |run| && LongAgo(c, run[i], now) && Steady(c, run, Preferred(c), true, i + 1)
  }

  predicate LongAgo(c: Setup, e: Event, now: real) {
    When(e).Just? && now - When(e).value >= c.failbackAfter
  }

  /** With a shorter pause it happens: the configured leader's link breaks and comes back between two looks, and the charger
      is given back at the first look after the delay, though the link has not been there for so long. */
  lemma ABreakGoesUnseen(c: Setup, lost: real) returns (run: seq<Event>, now: real)
    requires Plain(c, 2) && OneLocal(c.backends) && c.failback && c.failbackAfter > 0.0 && 0.0 <= c.pause < Period(c.failbackAfter)
    ensures Paced(c, run) && GivesBack(c, run, now) && !Unbroken(c, run, now)
  {
    hide Run, Plain, Paced, GivesBack, Unbroken, Times;
    var p, back := Period(c.failbackAfter), FirstLook(c, lost);
    var n := TickCount(c.failbackAfter, p);
    now := back + Times(n + 1, p);
    var least := if now - back - c.failbackAfter > c.pause then now - back - c.failbackAfter else c.pause;
    MoreTimes(n, n + 1, p);
    assert now - back - c.failbackAfter < p;
    var w := (least + p) / 2.0;
    run := Breaks(c, lost, w) + Ticks(back, p, n);
    WaitsFirst(c);
    ShortRunPaced(c, lost, w, n);
    ShortGivesBack(c, lost, w, n);
    NotSoLong(c, lost, w, n, now);
  }

  lemma WaitsFirst(c: Setup)
    requires Plain(c, 2)
    ensures c.failoverAfter > 0.0
  {
  }

  lemma ShortGivesBack(c: Setup, lost: real, w: real, n: nat)
    requires Plain(c, 2) && OneLocal(c.backends) && c.failback && c.failbackAfter > 0.0
    requires Times(n, Period(c.failbackAfter)) < c.failbackAfter <= Times(n + 1, Period(c.failbackAfter))
    ensures var p, back := Period(c.failbackAfter), FirstLook(c, lost);
      GivesBack(c, Breaks(c, lost, w) + Ticks(back, p, n), back + Times(n + 1, p))
  {
    hide Run, Promoted, Plain, Breaks, Times;
    var p, back, before := Period(c.failbackAfter), FirstLook(c, lost), Breaks(c, lost, w);
    var ticks := Ticks(back, p, n);
    BreaksState(c, lost, w);
    StepShapedRun(c, before);
    forall k | 0 <= k < n ensures Act(c, Run(c, before), ticks[k]) == Run(c, before) {
      MoreTimes(k + 1, n, p);
    }
    IdlePolls(c, before, ticks);
    GivenBackAt(c, before + ticks, back, back + Times(n + 1, p));
  }

  lemma GivenBackAt(c: Setup, run: seq<Event>, back: real, now: real)
    requires OneLocal(c.backends) && Following(c, Run(c, run)) && Run(c, run).giveBack == Just(Just(back)) && now - back >= c.failbackAfter
    ensures GivesBack(c, run, now)
  {
    hide Run, Ok;
    RunActs(c, run, FailbackPoll(now));
    StepShapedRun(c, run);
  }

  lemma NotSoLong(c: Setup, lost: real, w: real, n: nat, now: real)
    requires Plain(c, 2) && OneLocal(c.backends) && c.failback && c.failbackAfter > 0.0 && ShortPause(c, w)
    requires now - FirstLook(c, lost) - w < c.failbackAfter
    ensures !Unbroken(c, Breaks(c, lost, w) + Ticks(FirstLook(c, lost), Period(c.failbackAfter), n), now)
  {
    hide Run, IsUp;
    var run := Breaks(c, lost, w) + Ticks(FirstLook(c, lost), Period(c.failbackAfter), n);
    BreaksState(c, lost, w);
    assert run[..7] == Breaks(c, lost, w)[..7];
    forall i | 0 <= i < |run| && LongAgo(c, run[i], now) ensures !Steady(c, run, Preferred(c), true, i + 1) {
      AtItsTime(c, lost, w, n, i);
      if i > 7 {
        TimesGrow(c, lost, w, 7, i);
      }
      assert i < 7 && !IsUp(Run(c, run[..7]), Preferred(c));
    }
  }

  /** MAIN RESULT. For two backends with fail-back on: the configured leader has always been connected without a break for the
      delay when the charger is given back, if and only if a connection is never tried again sooner than the watcher looks. */
  lemma UnbrokenExactly(c: Setup)
    requires Plain(c, 2) && OneLocal(c.backends) && c.failback && c.failbackAfter > 0.0 && c.pause >= 0.0
    ensures (forall run, now :: Paced(c, run) && GivesBack(c, run, now) ==> Unbroken(c, run, now)) <==> c.pause >= Period(c.failbackAfter)
  {
    hide Paced, GivesBack, Steady, Plain;
    if c.pause >= Period(c.failbackAfter) {
      forall run, now | Paced(c, run) && GivesBack(c, run, now) ensures Unbroken(c, run, now) {
        var i := FailbackWaits(c, run, now);
        SteadyOn(c, run, Preferred(c), i);
        assert LongAgo(c, run[i], now);
      }
    } else {
      var run, now := ABreakGoesUnseen(c, 0.0);
    }
  }

  lemma SteadyOn(c: Setup, run: seq<Event>, p: nat, i: nat)
    requires OneLocal(c.backends) && Steady(c, run, p, true, i)
    ensures Steady(c, run, p, true, i + 1)
  {
  }

  lemma StepShapedRun(c: Setup, run: seq<Event>)
    requires OneLocal(c.backends)
    ensures Shaped(c, Run(c, run))
  {
    RunOk(c, run);
  }

  /** It happens: the leader is lost, the watcher looks any number of times, the leader comes back, and it is lost again at `again`
      before the watcher looks once more. However many polls follow before the first deadline, it is given up on at the
      first deadline, not `leader_failover_timeout` after `again`. */
  lemma AReturnGoesUnseen(c: Setup, lost: real, looks: seq<Event>, again: real, polls: seq<Event>) returns (run: seq<Event>)
    requires Plain(c, 2) && OneLocal(c.backends)
    requires forall k :: 0 <= k < |looks| ==> looks[k].FailoverPoll? && looks[k].now - lost < c.failoverAfter
    requires forall k :: 0 <= k < |polls| ==> polls[k].FailoverPoll? && polls[k].now - lost < c.failoverAfter
    ensures run == [Connects, LinkUp(1, lost), LinkLost(0, lost)] + looks + [LinkUp(0, again), LinkLost(0, again)] + polls
    ensures TurnsUnseen(c, run, 0, false, 3)
    ensures Run(c, run).leader == Just(0) && Run(c, run + [FailoverPoll(lost + c.failoverAfter)]).leader == Just(1)
  {
    hide Ok, KeysDiffer, LeaderIndex, Run, Promoted;
    var deadline, r2 := lost + c.failoverAfter, [Connects, LinkUp(1, lost), LinkLost(0, lost)];
    LostAt(c, lost);
    StepShapedRun(c, r2);
    IdlePolls(c, r2, looks);
    LostAgain(c, r2 + looks, again, deadline);
    var r3 := r2 + looks + [LinkUp(0, again), LinkLost(0, again)];
    StepShapedRun(c, r3);
    IdlePolls(c, r3, polls);
    run := r3 + polls;
    assert run[3 + |looks|] == LinkUp(0, again) && run[4 + |looks|] == LinkLost(0, again);
    assert Spans(c, run, 0, false, 3 + |looks|, 4 + |looks|);
    GivesUp(c, run, deadline);
  }

  lemma LostAt(c: Setup, lost: real)
    requires Plain(c, 2) && OneLocal(c.backends)
    ensures IsWaitedFor(c, Run(c, [Connects, LinkUp(1, lost), LinkLost(0, lost)]), lost + c.failoverAfter)
  {
    hide Ok, KeysDiffer, LeaderIndex, Run, Without, Upto, FirstLocal, KeyOf;
    FollowersAtFirst();
    Connecting(c);
    TwoAfter(c, [Connects], LinkUp(1, lost), LinkLost(0, lost));
    assert [Connects] + [LinkUp(1, lost), LinkLost(0, lost)] == [Connects, LinkUp(1, lost), LinkLost(0, lost)];
  }

  /** The first backend leads, is lost, and is waited for; the second could take over. */
  ghost predicate IsWaitedFor(c: Setup, s: Session, deadline: real) {
    s.leader == Just(0) && s.followers == [1] && s.up == [false, true] && s.watch == Just(Watch(0, deadline)) && !s.closed
  }

  lemma LostAgain(c: Setup, run: seq<Event>, again: real, deadline: real)
    requires Plain(c, 2) && OneLocal(c.backends) && IsWaitedFor(c, Run(c, run), deadline)
    ensures IsWaitedFor(c, Run(c, run + [LinkUp(0, again), LinkLost(0, again)]), deadline)
  {
    hide Ok, KeysDiffer, LeaderIndex, Run;
    TwoAfter(c, run, LinkUp(0, again), LinkLost(0, again));
  }

  lemma GivesUp(c: Setup, run: seq<Event>, deadline: real)
    requires OneLocal(c.backends) && IsWaitedFor(c, Run(c, run), deadline)
    ensures Run(c, run + [FailoverPoll(deadline)]).leader == Just(1)
  {
    hide Run, Ok;
    RunActs(c, run, FailoverPoll(deadline));
    StepShapedRun(c, run);
  }
}
