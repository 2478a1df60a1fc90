/** Who leads: the roles of one charger's backends over failovers, an operator's changes and fail-backs. */
module LeaderRoles {
  import opened Backends

  const DEFAULT_MAX_BUFFERED := 200

  datatype Mode = Broker | Relay

  datatype Reason = Failover | Manual | Failback

  datatype Refusal = Disconnected | AlreadyLeads | NoSuchBackend | NotConnected

  /** What a backend's connection believes of itself: that it leads, how many frames may wait for it, and that a frame which
      cannot be delivered is answered. */
  datatype Role = Role(leads: bool, buffer: int, rejects: bool)

  const Observer := Role(false, 0, false)

  /** The watcher of a lost leader, and when it acts. */
  datatype Watch = Watch(leader: nat, deadline: real)

  /** `pause`: how long a connection that broke is at least left alone before it is tried again. */
  datatype Setup = Setup(backends: seq<Backend>, buffer: int, failoverAfter: real, failback: bool, failbackAfter: real, pause: real)

  /** Backends are named by their places in the configuration. `voice`: the local backend whose library answers commands;
      `lost`: the loss of its link has been reported; `giveBack`: the watcher of the configured leader, and since when it
      has seen it connected; `broken`: a change of roles was asked for that cannot be made. */
  datatype Session = Session(
    leader: Maybe<nat>, followers: seq<nat>, preferred: Maybe<nat>, mode: Mode, voice: Maybe<nat>,
    roles: seq<Role>, up: seq<bool>, lost: seq<bool>,
    watch: Maybe<Watch>, giveBack: Maybe<Maybe<real>>, closed: bool, broken: bool)

  datatype Event =
    | Connects
    | LinkUp(who: nat, now: real)
    | NotReady(who: nat)               // frames cannot be written any more; nobody has been told
    | LinkLost(who: nat, now: real)    // the loss is reported
    | FailoverPoll(now: real)
    | Chooses(key: string)             // an operator
    | FailbackPoll(now: real)
    | CloseBegins
    | LeaderCloses
    | FollowersClose

  function KeyOf(c: Setup, who: nat): string
    requires who < |c.backends|
  {
    KeyAt(BasesOf(c.backends), who)
  }

  function Without(s: seq<nat>, who: nat): (r: seq<nat>)
    ensures forall x :: x in r <==> x in s && x != who
    ensures forall i :: 0 <= i < |r| ==> r[i] in s && r[i] != who
  {
    if s == [] then []
    else
      var rest := Without(s[1..], who);
      assert forall i :: 0 <= i < |rest| ==> rest[i] in s[1..] && rest[i] in s;
      if s[0] == who then rest else [s[0]] + rest
  }

  function Upto(n: nat): (s: seq<nat>)
    ensures |s| == n && forall i :: 0 <= i < n ==> s[i] == i
  {
    seq(n, i => i)
  }

  ghost predicate Below(s: seq<nat>, n: nat) {
    forall i :: 0 <= i < |s| ==> s[i] < n
  }

  ghost predicate Shaped(c: Setup, s: Session) {
    && |s.roles| == |s.up| == |s.lost| == |c.backends|
    && (s.leader.Just? ==> s.leader.value < |c.backends|) && (s.preferred.Just? ==> s.preferred.value < |c.backends|)
    && Below(s.followers, |c.backends|)
    && (s.watch.Just? ==> s.watch.value.leader < |c.backends|)
  }

  // ------------------------------------------------------------------
  // The operations
  // ------------------------------------------------------------------

  /** Before anything is connected. */
  function New(c: Setup): Session {
    var local := FirstLocal(c.backends);
    Session(Nothing, [], Nothing, if local.Just? && LeaderIndex(c.backends) == local.value then Broker else Relay, Nothing,
            seq(|c.backends|, _ => Observer), seq(|c.backends|, _ => false), seq(|c.backends|, _ => false), Nothing, Nothing, false, false)
  }

  /** The role a backend starts in. An external leader holds frames and answers those it cannot deliver; the local one
      has nothing to wait for. */
  function FirstRole(c: Setup, who: nat): Role
    requires who < |c.backends|
  {
    if LeaderIndex(c.backends) != who then Observer
    else if c.backends[who].local then Role(true, DEFAULT_MAX_BUFFERED, false)
    else Role(true, c.buffer, true)
  }

  function Connected(c: Setup, s: Session): Session {
    if c.backends == [] || s.leader.Just? || s.closed then s
    else
      var lead := LeaderIndex(c.backends);
      s.(leader := Just(lead), preferred := Just(lead), followers := Without(Upto(|c.backends|), lead),
         voice := if c.backends[lead].local then Just(lead) else Nothing,
         roles := seq(|c.backends|, i requires 0 <= i < |c.backends| => FirstRole(c, i)),
         up := seq(|c.backends|, i requires 0 <= i < |c.backends| => c.backends[i].local), lost := seq(|c.backends|, _ => false))
  }

  /** `who` becomes the leader, the leader a follower. */
  function Promoted(c: Setup, s: Session, who: nat, reason: Reason): Session
    requires Shaped(c, s)
  {
    if s.leader.Nothing? || who !in s.followers then s.(broken := true)
    else
      var was := s.leader.value;
      s.(roles := s.roles[was := Observer][who := Role(true, c.buffer, true)],
         followers := Without(s.followers, who) + [was],
         leader := Just(who),
         mode := if c.backends[who].local then Broker else if c.backends[was].local then Relay else s.mode,
         voice := if c.backends[who].local then Just(who) else if c.backends[was].local then Nothing else s.voice,
         giveBack := if reason.Failover? && Just(who) != s.preferred && c.failback && s.giveBack.Nothing? then Just(Nothing) else s.giveBack)
  }

  function LinkWentUp(c: Setup, s: Session, who: nat): Session
    requires Shaped(c, s)
  {
    if who >= |c.backends| || s.preferred.Nothing? || c.backends[who].local then s else s.(up := s.up[who := true], lost := s.lost[who := false])
  }

  function WentDown(c: Setup, s: Session, who: nat): Session
    requires Shaped(c, s)
  {
    if who >= |c.backends| || s.preferred.Nothing? then s else s.(up := s.up[who := false])
  }

  /** The loss is reported once per outage; if it is the leader's, and there is anybody to take over, it is watched. */
  function WasLost(c: Setup, s: Session, who: nat, now: real): Session
    requires Shaped(c, s)
  {
    if who >= |c.backends| || s.preferred.Nothing? || c.backends[who].local then s
    else
      var s' := s.(up := s.up[who := false], lost := s.lost[who := true]);
      if s.lost[who] || s.leader != Just(who) || s.followers == [] || c.failoverAfter == 0.0 || s.watch.Just? then s'
      else s'.(watch := Just(Watch(who, now + c.failoverAfter)))
  }

  function FirstUp(followers: seq<nat>, up: seq<bool>): (f: Maybe<nat>)
    requires Below(followers, |up|)
    ensures f.Just? ==> f.value in followers && up[f.value]
    ensures f.Nothing? <==> forall i :: 0 <= i < |followers| ==> !up[followers[i]]
  {
    if followers == [] then Nothing else if up[followers[0]] then Just(followers[0]) else FirstUp(followers[1..], up)
  }

  function FailoverPolled(c: Setup, s: Session, now: real): Session
    requires Shaped(c, s)
  {
    if s.watch.Nothing? then s
    else if s.closed || s.leader != Just(s.watch.value.leader) || s.up[s.watch.value.leader] then s.(watch := Nothing)
    else if now < s.watch.value.deadline then s
    else
      var f := FirstUp(s.followers, s.up);
      if f.Just? then Promoted(c, s, f.value, Failover).(watch := Nothing) else s
  }

  function FirstCalled(c: Setup, followers: seq<nat>, key: string): (f: Maybe<nat>)
    requires Below(followers, |c.backends|)
    ensures f.Just? ==> f.value in followers && KeyOf(c, f.value) == key
    ensures f.Nothing? <==> forall i :: 0 <= i < |followers| ==> KeyOf(c, followers[i]) != key
  {
    if followers == [] then Nothing else if KeyOf(c, followers[0]) == key then Just(followers[0]) else FirstCalled(c, followers[1..], key)
  }

  /** Why an operator's choice cannot be made. */
  function Refused(c: Setup, s: Session, key: string): Maybe<Refusal>
    requires Shaped(c, s)
  {
    if s.closed then Just(Disconnected)
    else if s.leader.Just? && KeyOf(c, s.leader.value) == key then Just(AlreadyLeads)
    else
      var f := FirstCalled(c, s.followers, key);
      if f.Nothing? then Just(NoSuchBackend) else if !s.up[f.value] then Just(NotConnected) else Nothing
  }

  function Chosen(c: Setup, s: Session, key: string): Session
    requires Shaped(c, s)
  {
    if Refused(c, s, key).Just? then s else Promoted(c, s, FirstCalled(c, s.followers, key).value, Manual)
  }

  function FailbackPolled(c: Setup, s: Session, now: real): Session
    requires Shaped(c, s)
  {
    if s.giveBack.Nothing? then s
    else if s.preferred.Nothing? || s.preferred == s.leader || s.preferred.value !in s.followers then s.(giveBack := Nothing)
    else if !s.up[s.preferred.value] then s.(giveBack := Just(Nothing))
    else
      var since := if s.giveBack.value.Just? then s.giveBack.value.value else now;
      if now - since >= c.failbackAfter then Promoted(c, s, s.preferred.value, Failback).(giveBack := Nothing)
      else s.(giveBack := Just(Just(since)))
  }

  function Act(c: Setup, s: Session, e: Event): Session
    requires Shaped(c, s)
  {
    match e
    case Connects => Connected(c, s)
    case LinkUp(who, _) => LinkWentUp(c, s, who)
    case NotReady(who) => WentDown(c, s, who)
    case LinkLost(who, now) => WasLost(c, s, who, now)
    case FailoverPoll(now) => FailoverPolled(c, s, now)
    case Chooses(key) => Chosen(c, s, key)
    case FailbackPoll(now) => FailbackPolled(c, s, now)
    case CloseBegins => s.(closed := true, watch := Nothing, giveBack := Nothing)
    case LeaderCloses => if s.closed && s.leader.Just? then s.(leader := Nothing, up := s.up[s.leader.value := false]) else s
    case FollowersClose => if s.closed && s.leader.Nothing? then s.(followers := []) else s
  }

  // ------------------------------------------------------------------
  // What every step keeps
  // ------------------------------------------------------------------

  ghost predicate Distinct(s: seq<nat>) {
    forall i, j :: 0 <= i < j < |s| ==> s[i] != s[j]
  }

  /** The leader and the followers are all the backends, each once; only the leader believes that it leads, holds frames and
      answers for them; and the broker itself answers the charger exactly when the leader is the local backend. */
  ghost predicate Team(c: Setup, s: Session)
    requires Shaped(c, s)
  {
    && s.leader.Just? && Distinct(s.followers) && s.leader.value !in s.followers
    && (forall i :: 0 <= i < |c.backends| ==> i == s.leader.value || i in s.followers)
    && (forall i :: 0 <= i < |c.backends| ==> (s.roles[i].leads <==> i == s.leader.value))
    && (forall i :: 0 <= i < |c.backends| && i != s.leader.value ==> s.roles[i] == Observer)
    && (s.mode.Broker? <==> c.backends[s.leader.value].local)
    && s.voice == (if c.backends[s.leader.value].local then Just(s.leader.value) else Nothing)
    && s.preferred == Just(LeaderIndex(c.backends))
    && (!c.backends[s.leader.value].local ==> s.roles[s.leader.value] == Role(true, c.buffer, true))
  }

  /** Nothing is connected yet, or everything is, or the session is closing. */
  ghost predicate Ok(c: Setup, s: Session) {
    && Shaped(c, s) && !s.broken
    && (s.leader.Just? ==> Team(c, s))
    && (s.leader.Nothing? && !s.closed ==> s.followers == [] && s.preferred.Nothing? && s.giveBack.Nothing? && s.mode == New(c).mode && s.roles == New(c).roles)
    && (s.closed ==> s.giveBack.Nothing?)
    && AtMostOneLeads(s)
    && (forall i :: 0 <= i < |s.up| && s.up[i] ==> !s.lost[i])
    && (forall i :: 0 <= i < |s.lost| && s.lost[i] ==> !c.backends[i].local)
  }

  ghost predicate AtMostOneLeads(s: Session) {
    forall i, j :: 0 <= i < |s.roles| && 0 <= j < |s.roles| && s.roles[i].leads && s.roles[j].leads ==> i == j
  }

  lemma {:induction false} WithoutDistinct(s: seq<nat>, who: nat)
    requires Distinct(s)
    ensures Distinct(Without(s, who))
  {
    if s != [] {
      assert forall i :: 0 <= i < |s[1..]| ==> s[1..][i] == s[i + 1];
      WithoutDistinct(s[1..], who);
      var rest := Without(s[1..], who);
      assert s[0] !in s[1..];
      assert forall i :: 0 <= i < |rest| ==> rest[i] in rest;
    }
  }

  lemma UptoDistinct(n: nat)
    ensures Distinct(Upto(n)) && forall i :: 0 <= i < n ==> i in Upto(n)
  {
    forall i | 0 <= i < n ensures i in Upto(n) {
      assert Upto(n)[i] == i;
    }
  }

  lemma WithoutBelow(s: seq<nat>, who: nat, n: nat)
    requires Below(s, n)
    ensures Below(Without(s, who), n)
  {
    var r := Without(s, who);
    forall i | 0 <= i < |r| ensures r[i] < n {
      var k :| 0 <= k < |s| && s[k] == r[i];
    }
  }

  lemma UptoBelow(n: nat)
    ensures Below(Upto(n), n)
  {
  }

  lemma ConnectedOk(c: Setup, s: Session)
    requires Ok(c, s) && OneLocal(c.backends) && c.backends != [] && s.leader.Nothing? && !s.closed
    ensures Ok(c, Connected(c, s))
  {
    hide Distinct, Below, Upto;
    var lead := LeaderIndex(c.backends);
    UptoDistinct(|c.backends|);
    WithoutDistinct(Upto(|c.backends|), lead);
    UptoBelow(|c.backends|);
    WithoutBelow(Upto(|c.backends|), lead, |c.backends|);
    hide LeaderIndex;
    ConnectedTeam(c, s);
  }

  /** MAIN RESULT. Whoever is configured to lead leads at first: an external backend with the configured outbox, answering for what it
      cannot deliver; the local one with the standard outbox, answering for nothing. Only local backends are ready at once. */
  lemma FirstRolesExactly(c: Setup, run: seq<Event>, who: nat)
    requires OneLocal(c.backends) && who < |c.backends| && Run(c, run).leader.Nothing? && !Run(c, run).closed
    ensures var s := Run(c, run + [Connects]);
      && |s.roles| == |s.up| == |s.lost| == |c.backends|
      && s.roles[who] == (if who != LeaderIndex(c.backends) then Role(false, 0, false) else if c.backends[who].local then Role(true, 200, false) else Role(true, c.buffer, true))
      && (s.up[who] <==> c.backends[who].local) && !s.lost[who] && s.leader == Just(LeaderIndex(c.backends))
      && (forall f: nat :: f in s.followers <==> f < |c.backends| && f != LeaderIndex(c.backends))
  {
    hide Run, LeaderIndex, Ok;
    RunActs(c, run, Connects);
    forall f: nat ensures f in Upto(|c.backends|) <==> f < |c.backends| {
      assert f < |c.backends| ==> Upto(|c.backends|)[f] == f;
    }
  }

  lemma ConnectedTeam(c: Setup, s: Session)
    requires Ok(c, s) && OneLocal(c.backends) && c.backends != [] && s.leader.Nothing? && !s.closed && Shaped(c, Connected(c, s))
    requires Distinct(Connected(c, s).followers)
    ensures Team(c, Connected(c, s))
  {
    hide Distinct, Below;
    UptoDistinct(|c.backends|);
  }

  lemma PromotedOk(c: Setup, s: Session, who: nat, reason: Reason)
    requires Ok(c, s) && s.leader.Just? && who in s.followers && !s.closed
    ensures Ok(c, Promoted(c, s, who, reason))
  {
    hide Distinct, LeaderIndex;
    SwappedDistinct(s.leader.value, s.followers, who);
    WithoutBelow(s.followers, who, |c.backends|);
  }

  lemma SwappedDistinct(was: nat, followers: seq<nat>, who: nat)
    requires Distinct(followers) && was !in followers
    ensures Distinct(Without(followers, who) + [was])
  {
    var kept := Without(followers, who);
    WithoutDistinct(followers, who);
    assert forall i :: 0 <= i < |kept| ==> kept[i] in kept;
  }

  /** The watchers are not part of the team. */
  lemma WaitingOk(c: Setup, s: Session, watch: Maybe<Watch>, giveBack: Maybe<Maybe<real>>)
    requires Ok(c, s) && (giveBack.Just? ==> s.giveBack.Just?) && (watch.Just? ==> watch == s.watch)
    ensures Ok(c, s.(watch := watch, giveBack := giveBack))
  {
    hide Distinct, New, LeaderIndex, Below;
  }

  lemma FailoverOk(c: Setup, s: Session, now: real)
    requires Ok(c, s)
    ensures Ok(c, FailoverPolled(c, s, now))
  {
    hide Promoted, Team, New, Below;
    WaitingOk(c, s, Nothing, s.giveBack);
    if s.watch.Just? && !s.closed && s.leader == Just(s.watch.value.leader) && FirstUp(s.followers, s.up).Just? {
      var s' := Promoted(c, s, FirstUp(s.followers, s.up).value, Failover);
      PromotedOk(c, s, FirstUp(s.followers, s.up).value, Failover);
      WaitingOk(c, s', Nothing, s'.giveBack);
    }
  }

  lemma ChosenOk(c: Setup, s: Session, key: string)
    requires Ok(c, s)
    ensures Ok(c, Chosen(c, s, key))
  {
    hide Promoted, Team, New, KeyOf, Below;
    if Refused(c, s, key).Nothing? {
      PromotedOk(c, s, FirstCalled(c, s.followers, key).value, Manual);
    }
  }

  lemma FailbackOk(c: Setup, s: Session, now: real)
    requires Ok(c, s)
    ensures Ok(c, FailbackPolled(c, s, now))
  {
    hide Promoted, Team, New, Below;
    if s.giveBack.Just? {
      WaitingOk(c, s, s.watch, FailbackPolled(c, s, now).giveBack);
      if s.preferred.Just? && s.preferred.value in s.followers {
        var s' := Promoted(c, s, s.preferred.value, Failback);
        PromotedOk(c, s, s.preferred.value, Failback);
        WaitingOk(c, s', s'.watch, Nothing);
      }
    }
  }

  lemma LinkOk(c: Setup, s: Session, e: Event)
    requires Ok(c, s) && (e.LinkUp? || e.NotReady? || e.LinkLost?)
    ensures Ok(c, Act(c, s, e))
  {
    hide Distinct, New, Below, LeaderIndex, Team, AtMostOneLeads;
    OnlyLinksOk(c, s, Act(c, s, e));
  }

  /** Who leads and who follows does not depend on the links. */
  lemma OnlyLinksOk(c: Setup, s: Session, s': Session)
    requires Ok(c, s) && s' == s.(up := s'.up, lost := s'.lost, watch := s'.watch) && |s'.up| == |s.up| && |s'.lost| == |s.lost|
    requires s'.watch.Just? ==> s'.watch.value.leader < |c.backends|
    requires forall i :: 0 <= i < |s'.up| && s'.up[i] ==> !s'.lost[i]
    requires forall i :: 0 <= i < |s'.lost| && s'.lost[i] ==> !c.backends[i].local
    ensures Ok(c, s')
  {
    hide Distinct, New, Below, LeaderIndex;
  }

  lemma CloseOk(c: Setup, s: Session, e: Event)
    requires Ok(c, s) && (e.CloseBegins? || e.LeaderCloses? || e.FollowersClose?)
    ensures Ok(c, Act(c, s, e))
  {
    hide Distinct, New, LeaderIndex;
  }

  lemma ActOk(c: Setup, s: Session, e: Event)
    requires Ok(c, s) && OneLocal(c.backends)
    ensures Ok(c, Act(c, s, e))
  {
    hide Distinct, New, LeaderIndex, Chosen, FailbackPolled, FailoverPolled, Team, Below, AtMostOneLeads;
    match e
    case Connects =>
      if c.backends != [] && s.leader.Nothing? && !s.closed {
        ConnectedOk(c, s);
      }
    case FailoverPoll(now) => FailoverOk(c, s, now);
    case Chooses(key) => ChosenOk(c, s, key);
    case FailbackPoll(now) => FailbackOk(c, s, now);
    case LinkUp(_, _) => LinkOk(c, s, e);
    case NotReady(_) => LinkOk(c, s, e);
    case LinkLost(_, _) => LinkOk(c, s, e);
    case _ => CloseOk(c, s, e);
  }

  function After(c: Setup, s: Session, run: seq<Event>): (s': Session)
    requires Ok(c, s) && OneLocal(c.backends)
    ensures Ok(c, s')
  {
    if run == [] then s
    else
      var before := After(c, s, run[..|run| - 1]);
      ActOk(c, before, run[|run| - 1]);
      Act(c, before, run[|run| - 1])
  }

  lemma NewOk(c: Setup)
    ensures Ok(c, New(c))
  {
  }

  function Run(c: Setup, run: seq<Event>): Session
    requires OneLocal(c.backends)
  {
    NewOk(c);
    After(c, New(c), run)
  }

  // ------------------------------------------------------------------
  // One leader
  // ------------------------------------------------------------------

  lemma {:induction false} DistinctOnce(s: seq<nat>, x: nat)
    requires Distinct(s)
    ensures multiset(s)[x] == if x in s then 1 else 0
  {
    if s != [] {
      var init, end := s[..|s| - 1], s[|s| - 1];
      assert s == init + [end];
      assert forall i :: 0 <= i < |init| ==> init[i] == s[i];
      DistinctOnce(init, x);
      assert end !in init;
    }
  }

  lemma TeamOnce(n: nat, leader: nat, followers: seq<nat>)
    requires Distinct(followers) && leader !in followers && leader < n && Below(followers, n)
    requires forall i :: 0 <= i < n ==> i == leader || i in followers
    ensures multiset([leader] + followers) == multiset(Upto(n))
  {
    var all := [leader] + followers;
    assert all[1..] == followers;
    assert Distinct(all) by {
      assert forall i :: 0 < i < |all| ==> all[i] == followers[i - 1];
    }
    UptoDistinct(n);
    assert Below(all, n);
    forall x: nat ensures multiset(all)[x] == multiset(Upto(n))[x] {
      DistinctOnce(all, x);
      DistinctOnce(Upto(n), x);
      if x < n && x != leader {
        assert x in followers && x in all;
      }
    }
  }

  /** Whose frames are passed on to the charger. */
  predicate IsHeard(s: Session, who: nat)
    requires who < |s.roles|
  {
    s.roles[who].leads
  }

  /** MAIN RESULT. Over any sequence of failovers, operator's changes, fail-backs and breaks of links: a change of roles that
      cannot be made is never asked for; while the session lasts, the leader and the followers are all the backends, each once,
      only the leader is heard and only it holds frames or answers for them, and the broker answers the charger itself exactly
      when the leader is the local backend; and nobody else is ever heard, even while it closes. */
  lemma OneLeader(c: Setup, run: seq<Event>)
    requires OneLocal(c.backends)
    ensures var s := Run(c, run);
      && !s.broken
      && (s.leader.Just? ==>
            && Shaped(c, s)
            && multiset([s.leader.value] + s.followers) == multiset(Upto(|c.backends|))
            && (forall i :: 0 <= i < |c.backends| ==> (IsHeard(s, i) <==> i == s.leader.value))
            && (forall i :: 0 <= i < |c.backends| && i != s.leader.value ==> s.roles[i] == Observer)
            && (s.mode.Broker? <==> c.backends[s.leader.value].local)
            && s.voice == (if c.backends[s.leader.value].local then s.leader else Nothing))
      && (forall i, j :: 0 <= i < |s.roles| && 0 <= j < |s.roles| && IsHeard(s, i) && IsHeard(s, j) ==> i == j)
  {
    hide After;
    NewOk(c);
    var s := Run(c, run);
    if s.leader.Just? {
      TeamOnce(|c.backends|, s.leader.value, s.followers);
    }
  }

  // ------------------------------------------------------------------
  // When the leader changes, and to whom
  // ------------------------------------------------------------------

  /** `who` is the first follower that can be written to. */
  ghost predicate IsFirstReady(s: Session, who: nat)
    requires Below(s.followers, |s.up|)
  {
    exists i :: 0 <= i < |s.followers| && s.followers[i] == who && s.up[who] && forall j :: 0 <= j < i ==> !s.up[s.followers[j]]
  }

  lemma {:induction false} FirstUpIs(followers: seq<nat>, up: seq<bool>) returns (i: nat)
    requires Below(followers, |up|) && FirstUp(followers, up).Just?
    ensures i < |followers| && followers[i] == FirstUp(followers, up).value && up[followers[i]] && forall j :: 0 <= j < i ==> !up[followers[j]]
  {
    if up[followers[0]] {
      i := 0;
    } else {
      var rest := followers[1..];
      assert forall j :: 0 <= j < |rest| ==> rest[j] == followers[j + 1];
      i := FirstUpIs(rest, up);
      i := i + 1;
      forall j | 0 <= j < i ensures !up[followers[j]] {
        if j > 0 {
          assert rest[j - 1] == followers[j];
        }
      }
    }
  }

  /** A leader whose loss is waited on is down at the deadline, or later, and some follower can take over. */
  ghost predicate FailsOver(c: Setup, s: Session, now: real)
    requires Shaped(c, s)
  {
    && s.watch.Just? && !s.closed && s.leader == Just(s.watch.value.leader) && !s.up[s.watch.value.leader] && now >= s.watch.value.deadline
    && exists i :: 0 <= i < |s.followers| && s.up[s.followers[i]]
  }

  /** MAIN RESULT. A look for a lost leader changes the leader exactly when that leader is still down at the deadline and some
      follower is ready; then the first one that is ready leads, in the followers' order, and the old leader follows last. */
  lemma FailoverExactly(c: Setup, s: Session, now: real)
    requires Ok(c, s)
    ensures Shaped(c, FailoverPolled(c, s, now))
    ensures var s' := FailoverPolled(c, s, now);
      && (s'.leader != s.leader <==> FailsOver(c, s, now))
      && (FailsOver(c, s, now) ==>
            s'.leader.Just? && IsFirstReady(s, s'.leader.value) && s'.followers == Without(s.followers, s'.leader.value) + [s.leader.value] && s'.watch.Nothing? && !s'.broken)
  {
    hide Distinct, New, LeaderIndex, AtMostOneLeads;
    FailoverKeepsShape(c, s, now);
    if FirstUp(s.followers, s.up).Just? {
      var i := FirstUpIs(s.followers, s.up);
    }
  }

  lemma FailoverKeepsShape(c: Setup, s: Session, now: real)
    requires Shaped(c, s)
    ensures Shaped(c, FailoverPolled(c, s, now))
  {
  }

  /** The backend an operator names can lead: the session goes on, another one leads, and the first follower called so is ready. */
  ghost predicate CanBeChosen(c: Setup, s: Session, key: string, who: nat)
    requires Shaped(c, s)
  {
    && !s.closed && s.leader.Just? && KeyOf(c, s.leader.value) != key
    && exists i :: 0 <= i < |s.followers| && s.followers[i] == who && IsFirstCalled(c, s.followers, key, i) && s.up[who]
  }

  ghost predicate IsFirstCalled(c: Setup, followers: seq<nat>, key: string, i: nat)
    requires Below(followers, |c.backends|) && i < |followers|
  {
    KeyOf(c, followers[i]) == key && forall j :: 0 <= j < i ==> KeyOf(c, followers[j]) != key
  }

  lemma {:induction false} FirstCalledIs(c: Setup, followers: seq<nat>, key: string) returns (i: nat)
    requires Below(followers, |c.backends|) && FirstCalled(c, followers, key).Just?
    ensures i < |followers| && followers[i] == FirstCalled(c, followers, key).value && IsFirstCalled(c, followers, key, i)
  {
    hide KeyOf;
    if KeyOf(c, followers[0]) == key {
      i := 0;
    } else {
      var rest := followers[1..];
      assert forall j :: 0 <= j < |rest| ==> rest[j] == followers[j + 1];
      i := FirstCalledIs(c, rest, key);
      i := i + 1;
      forall j | 0 <= j < i ensures KeyOf(c, followers[j]) != key {
        if j > 0 {
          assert rest[j - 1] == followers[j];
        }
      }
    }
  }

  lemma OneFirstCalled(c: Setup, followers: seq<nat>, key: string, i: nat, j: nat)
    requires Below(followers, |c.backends|) && i < |followers| && j < |followers| && IsFirstCalled(c, followers, key, i) && IsFirstCalled(c, followers, key, j)
    ensures i == j
  {
    hide KeyOf;
  }

  ghost predicate Follows(c: Setup, s: Session, key: string)
    requires Shaped(c, s)
  {
    exists i :: 0 <= i < |s.followers| && KeyOf(c, s.followers[i]) == key
  }

  /** MAIN RESULT. An operator's choice makes `who` the leader exactly when that is the backend named, and it can lead; otherwise
      nothing changes, and the refusal is the first that applies: the charger is gone, the backend leads already, no follower has
      that name, or the one that has it is not connected. */
  lemma ChoiceExactly(c: Setup, s: Session, key: string, who: nat)
    requires Ok(c, s) && s.leader.Just?
    ensures var s' := Chosen(c, s, key); (s' != s && s'.leader == Just(who) && !s'.broken) <==> CanBeChosen(c, s, key, who)
    ensures Refused(c, s, key).Just? ==> Chosen(c, s, key) == s
    ensures Refused(c, s, key) == Just(Disconnected) <==> s.closed
    ensures Refused(c, s, key) == Just(AlreadyLeads) <==> !s.closed && KeyOf(c, s.leader.value) == key
    ensures Refused(c, s, key) == Just(NoSuchBackend) <==> !s.closed && KeyOf(c, s.leader.value) != key && !Follows(c, s, key)
    ensures Refused(c, s, key) == Just(NotConnected) ==> Follows(c, s, key)
  {
    hide Distinct, New, LeaderIndex, AtMostOneLeads, KeyOf, Without, Team;
    var f := FirstCalled(c, s.followers, key);
    if f.Just? {
      var i := FirstCalledIs(c, s.followers, key);
      if CanBeChosen(c, s, key, who) {
        var j: nat :| j < |s.followers| && s.followers[j] == who && IsFirstCalled(c, s.followers, key, j) && s.up[who];
        OneFirstCalled(c, s.followers, key, i, j);
      }
      LeaderApart(c, s);
    }
  }

  lemma LeaderApart(c: Setup, s: Session)
    requires Ok(c, s) && s.leader.Just?
    ensures s.leader.value !in s.followers
  {
  }

  /** The configured leader follows, is connected, and has been seen so for the delay. */
  predicate FailsBack(c: Setup, s: Session, now: real)
    requires Shaped(c, s)
  {
    && s.giveBack.Just? && s.preferred.Just? && s.preferred != s.leader && s.preferred.value in s.followers && s.up[s.preferred.value]
    && (if s.giveBack.value.Just? then now - s.giveBack.value.value >= c.failbackAfter else c.failbackAfter <= 0.0)
  }

  /** MAIN RESULT. A look for the configured leader gives the charger back to it exactly when it follows, is connected, and has been
      seen so for `leader_failback_delay`; the count begins at the first look that finds it connected, and starts over at every
      look that does not. */
  lemma FailbackExactly(c: Setup, s: Session, now: real)
    requires Ok(c, s)
    ensures var s' := FailbackPolled(c, s, now);
      && (s'.leader != s.leader <==> FailsBack(c, s, now))
      && (FailsBack(c, s, now) ==> s'.leader == s.preferred && s'.giveBack.Nothing? && !s'.broken)
      && (!FailsBack(c, s, now) ==>
            s' == s.(giveBack := if s.giveBack.Nothing? || s.preferred.Nothing? || s.preferred == s.leader || s.preferred.value !in s.followers then Nothing
                                 else if !s.up[s.preferred.value] then Just(Nothing)
                                 else if s.giveBack.value.Just? then s.giveBack else Just(Just(now))))
  {
    hide Distinct, New, LeaderIndex, AtMostOneLeads;
  }

  // ------------------------------------------------------------------
  // When the watchers start and end
  // ------------------------------------------------------------------

  /** The loss of the leader's link is reported for the first time in this outage, while there is somebody to take over. */
  predicate LosesLeader(c: Setup, s: Session, e: Event)
    requires Shaped(c, s)
  {
    && e.LinkLost? && s.leader == Just(e.who) && s.preferred.Just? && e.who < |c.backends| && !c.backends[e.who].local && !s.lost[e.who]
    && s.followers != [] && c.failoverAfter != 0.0
  }

  /** The look finds nothing to wait for any more, or changes the leader. */
  ghost predicate EndsWatch(c: Setup, s: Session, e: Event)
    requires Shaped(c, s) && s.watch.Just?
  {
    e.CloseBegins? || (e.FailoverPoll? && (s.closed || s.leader != Just(s.watch.value.leader) || s.up[s.watch.value.leader] || FailsOver(c, s, e.now)))
  }

  /** MAIN RESULT. A lost leader begins to be waited for exactly when its loss is reported, for the first time in that outage,
      with followers to take over and nobody waited for yet, and until the configured delay has passed from then; that ends only
      when it is over. The configured leader begins to be looked for exactly when a lost leader was replaced by another backend
      than it, if fail-back is configured: never because of an operator's choice. */
  lemma WatchersExactly(c: Setup, s: Session, e: Event)
    requires Ok(c, s)
    ensures var s' := Act(c, s, e);
      && (s.watch.Nothing? ==> s'.watch == if LosesLeader(c, s, e) then Just(Watch(e.who, e.now + c.failoverAfter)) else Nothing)
      && (s.watch.Just? ==> s'.watch == if EndsWatch(c, s, e) then Nothing else s.watch)
      && (s.giveBack.Nothing? ==>
            s'.giveBack == if e.FailoverPoll? && FailsOver(c, s, e.now) && c.failback && s'.leader != s.preferred then Just(Nothing) else Nothing)
  {
    hide Distinct, New, LeaderIndex, AtMostOneLeads, KeyOf, Team, Without;
    match e
    case FailoverPoll(now) => FailoverEnds(c, s, now);
    case _ =>
  }

  lemma FailoverEnds(c: Setup, s: Session, now: real)
    requires Ok(c, s)
    ensures var s' := FailoverPolled(c, s, now);
      && (s.watch.Nothing? ==> s'.watch.Nothing?)
      && (s.watch.Just? ==> s'.watch == if EndsWatch(c, s, FailoverPoll(now)) then Nothing else s.watch)
      && (s.giveBack.Nothing? ==> s'.giveBack == if FailsOver(c, s, now) && c.failback && s'.leader != s.preferred then Just(Nothing) else Nothing)
  {
    hide Distinct, New, LeaderIndex, AtMostOneLeads, KeyOf, Team, Without;
    if FirstUp(s.followers, s.up).Just? {
      var i := FirstUpIs(s.followers, s.up);
    }
  }

  // ------------------------------------------------------------------
  // A leader an operator chose
  // ------------------------------------------------------------------

  /** Nobody chooses, nothing is given up on, and the session goes on. */
  predicate IsQuiet(e: Event) {
    e.Connects? || e.LinkUp? || e.NotReady? || e.LinkLost? || e.FailbackPoll?
  }

  ghost predicate AllQuiet(run: seq<Event>) {
    forall i :: 0 <= i < |run| ==> IsQuiet(run[i])
  }

  /** The configured leader is still watched, and it follows and can come back (the
      local backend cannot, once it has failed). */
  ghost predicate TakenBack(c: Setup, s: Session)
    requires Shaped(c, s)
  {
    s.giveBack.Just? && s.preferred.Just? && s.preferred != s.leader && (!c.backends[s.preferred.value].local || s.up[s.preferred.value])
  }

  lemma QuietStep(c: Setup, s: Session, e: Event)
    requires Ok(c, s) && s.leader.Just? && !TakenBack(c, s) && IsQuiet(e)
    ensures Act(c, s, e).leader == s.leader && Shaped(c, Act(c, s, e)) && !TakenBack(c, Act(c, s, e))
  {
    hide Distinct, New, LeaderIndex;
  }

  lemma {:induction false} ChoiceStays(c: Setup, s: Session, more: seq<Event>)
    requires Ok(c, s) && OneLocal(c.backends) && s.leader.Just? && !TakenBack(c, s) && AllQuiet(more)
    ensures After(c, s, more).leader == s.leader && !TakenBack(c, After(c, s, more))
  {
    hide TakenBack, Act, Team, IsQuiet;
    if more != [] {
      ChoiceStays(c, s, more[..|more| - 1]);
      QuietStep(c, After(c, s, more[..|more| - 1]), more[|more| - 1]);
    }
  }

  lemma Three(c: Setup, s: Session, a: Event, b: Event, d: Event)
    requires Ok(c, s) && OneLocal(c.backends)
    ensures Ok(c, Act(c, s, a)) && Ok(c, Act(c, Act(c, s, a), b))
    ensures After(c, s, [a, b, d]) == Act(c, Act(c, Act(c, s, a), b), d)
  {
    hide Act, Ok, After;
    AfterOne(c, s, [], a);
    AfterOne(c, s, [a], b);
    AfterOne(c, s, [a, b], d);
    assert [] + [a] == [a] && [a] + [b] == [a, b] && [a, b] + [d] == [a, b, d];
  }

  lemma AfterOne(c: Setup, s: Session, more: seq<Event>, e: Event)
    requires Ok(c, s) && OneLocal(c.backends)
    ensures Ok(c, After(c, s, more)) && After(c, s, more + [e]) == Act(c, After(c, s, more), e) && Ok(c, After(c, s, more + [e])) && After(c, s, []) == s
  {
    hide Act, Ok;
    assert (more + [e])[..|more|] == more;
  }

  lemma ChoiceIsTaken(c: Setup, s: Session) returns (more: seq<Event>)
    requires Ok(c, s) && OneLocal(c.backends) && s.leader.Just? && TakenBack(c, s)
    ensures AllQuiet(more) && After(c, s, more).leader != s.leader
  {
    hide Distinct, LeaderIndex, New, After;
    var p := s.preferred.value;
    var t := if s.giveBack.value.Just? then s.giveBack.value.value else 0.0;
    more := [LinkUp(p, t), FailbackPoll(t), FailbackPoll(t + c.failbackAfter)];
    Three(c, s, LinkUp(p, t), FailbackPoll(t), FailbackPoll(t + c.failbackAfter));
    var s1 := Act(c, s, LinkUp(p, t));
    assert s1 == s.(up := s1.up, lost := s1.lost) && s1.up[p];
    hide Act, Ok, Team;
    TwoPolls(c, s1, p, t);
  }

  /** The configured leader is there: the first poll counts, or the second gives the charger back. */
  lemma TwoPolls(c: Setup, s: Session, p: nat, t: real)
    requires Ok(c, s) && s.leader.Just? && s.preferred == Just(p) && s.leader != Just(p) && s.up[p]
    requires s.giveBack.Just? && (s.giveBack.value.Just? ==> s.giveBack.value.value == t)
    requires Shaped(c, FailbackPolled(c, s, t))
    ensures FailbackPolled(c, FailbackPolled(c, s, t), t + c.failbackAfter).leader == Just(p)
  {
    hide Distinct, LeaderIndex, New, AtMostOneLeads;
    assert p in s.followers;
    var s1 := FailbackPolled(c, s, t);
    assert s1.leader == Just(p) || s1 == s.(giveBack := Just(Just(t)));
  }

  /** MAIN RESULT. A leader an operator chose stays, as long as nobody chooses again and it is not given up on itself, exactly
      when no watcher of the configured leader is left (or the chosen one is that leader, or that leader cannot come
      back). The documentation promises it without that condition. */
  lemma OperatorsChoiceStands(c: Setup, run: seq<Event>, key: string)
    requires OneLocal(c.backends) && Ok(c, Run(c, run)) && Refused(c, Run(c, run), key).Nothing?
    ensures var s := Chosen(c, Run(c, run), key);
      && Ok(c, s) && s.leader.Just? && KeyOf(c, s.leader.value) == key
      && ((forall more :: AllQuiet(more) ==> After(c, s, more).leader == s.leader) <==> !TakenBack(c, s))
  {
    hide After, Run, TakenBack;
    ChosenOk(c, Run(c, run), key);
    var s := Chosen(c, Run(c, run), key);
    ChosenLeads(c, Run(c, run), key);
    if TakenBack(c, s) {
      var more := ChoiceIsTaken(c, s);
    } else {
      forall more | AllQuiet(more) ensures After(c, s, more).leader == s.leader {
        ChoiceStays(c, s, more);
      }
    }
  }

  lemma ChosenLeads(c: Setup, s: Session, key: string)
    requires Ok(c, s) && Refused(c, s, key).Nothing?
    ensures Chosen(c, s, key).leader.Just? && Chosen(c, s, key).leader.value < |c.backends| && KeyOf(c, Chosen(c, s, key).leader.value) == key
  {
    hide KeyOf, New, LeaderIndex;
  }

  // ------------------------------------------------------------------
  // A lost leader is watched
  // ------------------------------------------------------------------

  /** The reported loss of the leader's link, when there is anybody to take over, is waited on. */
  ghost predicate Watched(c: Setup, s: Session)
    requires Shaped(c, s)
  {
    s.leader.Just? && !s.closed && s.lost[s.leader.value] && s.followers != [] && c.failoverAfter != 0.0 ==>
      s.watch.Just? && Just(s.watch.value.leader) == s.leader
  }

  /** The leader's loss is reported while an earlier leader's watcher is still there. */
  ghost predicate Missed(c: Setup, s: Session, e: Event)
    requires Shaped(c, s)
  {
    && e.LinkLost? && s.leader == Just(e.who) && !s.closed && !c.backends[e.who].local && !s.lost[e.who]
    && s.followers != [] && c.failoverAfter != 0.0 && s.watch.Just? && s.watch.value.leader != e.who
  }

  lemma StepWatched(c: Setup, s: Session, e: Event)
    requires Ok(c, s) && OneLocal(c.backends) && Watched(c, s)
    ensures Shaped(c, Act(c, s, e)) && (Watched(c, Act(c, s, e)) <==> !Missed(c, s, e))
  {
    hide Distinct, New, LeaderIndex, KeyOf, Below;
    ActOk(c, s, e);
  }

  ghost predicate AlwaysWatched(c: Setup, run: seq<Event>)
    requires OneLocal(c.backends)
  {
    forall k :: 0 <= k <= |run| ==> Watched(c, Run(c, run[..k]))
  }

  ghost predicate NeverMissed(c: Setup, run: seq<Event>)
    requires OneLocal(c.backends)
  {
    forall k :: 0 <= k < |run| ==> !Missed(c, Run(c, run[..k]), run[k])
  }

  lemma LongerWatched(c: Setup, run: seq<Event>, e: Event)
    requires OneLocal(c.backends)
    ensures AlwaysWatched(c, run + [e]) <==> AlwaysWatched(c, run) && Watched(c, Run(c, run + [e]))
    ensures NeverMissed(c, run + [e]) <==> NeverMissed(c, run) && !Missed(c, Run(c, run), e)
  {
    hide Watched, Missed, Run;
    var more := run + [e];
    assert more[..|more|] == more && more[..|run|] == run;
    assert forall k :: 0 <= k <= |run| ==> more[..k] == run[..k];
    assert forall k :: 0 <= k < |run| ==> more[k] == run[k];
  }

  lemma RunActs(c: Setup, run: seq<Event>, e: Event)
    requires OneLocal(c.backends)
    ensures Ok(c, Run(c, run)) && Run(c, run + [e]) == Act(c, Run(c, run), e)
  {
    hide Act, Ok;
    assert (run + [e])[..|run|] == run;
    NewOk(c);
  }

  /** MAIN RESULT. In a run, the loss of the current leader is always waited on, exactly when it is never reported while a
      watcher still waits for an earlier leader. */
  lemma {:induction false} LossesAreWatched(c: Setup, run: seq<Event>)
    requires OneLocal(c.backends)
    ensures AlwaysWatched(c, run) <==> NeverMissed(c, run)
  {
    hide Act, Watched, Missed, Ok, AlwaysWatched, NeverMissed, Run;
    if run == [] {
      NothingWatched(c);
    } else {
      var init, e := run[..|run| - 1], run[|run| - 1];
      assert run == init + [e];
      LossesAreWatched(c, init);
      LongerWatched(c, init, e);
      RunActs(c, init, e);
      if AlwaysWatched(c, init) {
        LastWatched(c, init);
        StepWatched(c, Run(c, init), e);
      }
    }
  }

  lemma NothingWatched(c: Setup)
    requires OneLocal(c.backends)
    ensures AlwaysWatched(c, []) && NeverMissed(c, [])
  {
  }

  lemma LastWatched(c: Setup, run: seq<Event>)
    requires OneLocal(c.backends) && AlwaysWatched(c, run)
    ensures Watched(c, Run(c, run))
  {
    assert run[..|run|] == run;
  }

  // ------------------------------------------------------------------
  // The two conditions do fail
  // ------------------------------------------------------------------

  /** External backends only, called differently, the first of them configured to lead; failover is on. */
  ghost predicate Plain(c: Setup, n: nat) {
    && |c.backends| == n && LeaderIndex(c.backends) == 0 && KeysDiffer(BasesOf(c.backends)) && c.failoverAfter > 0.0
    && forall i :: 0 <= i < n ==> !c.backends[i].local
  }

  lemma RunOk(c: Setup, run: seq<Event>)
    requires OneLocal(c.backends)
    ensures Ok(c, Run(c, run))
  {
    NewOk(c);
  }

  lemma TwoAfter(c: Setup, run: seq<Event>, a: Event, b: Event)
    requires OneLocal(c.backends)
    ensures Ok(c, Run(c, run)) && Ok(c, Act(c, Run(c, run), a)) && Run(c, run + [a, b]) == Act(c, Act(c, Run(c, run), a), b)
  {
    hide Act, Ok, Run;
    RunActs(c, run, a);
    RunActs(c, run + [a], b);
    assert run + [a] + [b] == run + [a, b];
    RunActs(c, run + [a, b], b);
  }

  lemma Connecting(c: Setup)
    requires OneLocal(c.backends) && c.backends != []
    ensures Ok(c, Run(c, [Connects])) && Run(c, [Connects]) == Connected(c, New(c))
  {
    RunActs(c, [], Connects);
    assert [] + [Connects] == [Connects];
  }

  lemma FollowersAtFirst()
    ensures Without(Upto(2), 0) == [1] && Without(Upto(3), 0) == [1, 2] && Without([1], 1) == [] && Without([1, 2], 1) == [2] && Without([2, 0], 2) == [0]
  {
    assert Upto(2) == [0, 1] && Upto(3) == [0, 1, 2];
    assert [0, 1][1..] == [1] && [1][1..] == [] && [0, 1, 2][1..] == [1, 2] && [1, 2][1..] == [2] && [2][1..] == [] && [2, 0][1..] == [0] && [0][1..] == [];
  }

  /** It happens: the leader's link is lost; while that is waited on an operator makes the other backend the leader, and it is
      lost as well. The watcher of the first one looks, and is gone. From then on nobody waits, although the first one
      comes back. */
  lemma ALossCanGoUnwatched(c: Setup, now: real) returns (run: seq<Event>)
    requires Plain(c, 2) && OneLocal(c.backends)
    ensures Ok(c, Run(c, run))
    ensures var s := Run(c, run); s.leader == Just(1) && s.lost[1] && s.followers == [0] && s.up[0] && s.watch.Nothing? && !s.closed
    ensures forall later :: FailoverPolled(c, Run(c, run), later) == Run(c, run)
  {
    hide KeyOf, Ok, KeysDiffer, LeaderIndex, Run, Without, Upto, FirstLocal;
    FollowersAtFirst();
    Connecting(c);
    var r1, k := [Connects], KeyOf(c, 1);
    TwoAfter(c, r1, LinkUp(1, now), LinkLost(0, now));
    var r2 := r1 + [LinkUp(1, now), LinkLost(0, now)];
    assert Run(c, r2).watch.Just? && Run(c, r2).followers == [1] && Run(c, r2).up == [false, true];
    TwoAfter(c, r2, Chooses(k), LinkLost(1, now));
    var r3 := r2 + [Chooses(k), LinkLost(1, now)];
    assert KeyOf(c, 0) != k by {
      KeysOfTwo(c, 0, 1);
    }
    assert Chosen(c, Run(c, r2), k).leader == Just(1) && Chosen(c, Run(c, r2), k).followers == [0];
    assert Run(c, r3).leader == Just(1) && Run(c, r3).lost[1];
    TwoAfter(c, r3, FailoverPoll(now), LinkUp(0, now + c.pause));
    run := r3 + [FailoverPoll(now), LinkUp(0, now + c.pause)];
    RunOk(c, run);
  }

  lemma KeysOfTwo(c: Setup, i: nat, j: nat)
    requires KeysDiffer(BasesOf(c.backends)) && i < j < |c.backends|
    ensures KeyOf(c, i) != KeyOf(c, j)
  {
  }

  /** It happens: the configured leader is lost and the second backend takes over; an operator chooses the third. The
      watcher of the configured leader is still there. */
  lemma AChoiceCanBeTakenBack(c: Setup, now: real) returns (run: seq<Event>, key: string)
    requires Plain(c, 3) && OneLocal(c.backends) && c.failback
    ensures Ok(c, Run(c, run)) && Refused(c, Run(c, run), key).Nothing?
    ensures Ok(c, Chosen(c, Run(c, run), key)) && Chosen(c, Run(c, run), key).leader == Just(2) && TakenBack(c, Chosen(c, Run(c, run), key))
  {
    hide KeyOf, Ok, KeysDiffer, LeaderIndex, Run, Without, Upto, FirstLocal;
    FollowersAtFirst();
    Connecting(c);
    key := KeyOf(c, 2);
    var r1 := [Connects];
    TwoAfter(c, r1, LinkUp(1, now), LinkUp(2, now));
    var r2 := r1 + [LinkUp(1, now), LinkUp(2, now)];
    assert Run(c, r2).up == [false, true, true] && Run(c, r2).followers == [1, 2] && Run(c, r2).lost == [false, false, false];
    TwoAfter(c, r2, LinkLost(0, now), FailoverPoll(now + c.failoverAfter));
    run := r2 + [LinkLost(0, now), FailoverPoll(now + c.failoverAfter)];
    RunOk(c, run);
    KeysOfTwo(c, 1, 2);
    assert Run(c, run).leader == Just(1) && Run(c, run).followers == [2, 0] && Run(c, run).giveBack.Just?;
    ChosenOk(c, Run(c, run), key);
  }
}
