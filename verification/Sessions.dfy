/**
 What each thread may hold: a handler's session pointer is its own connection's, other threads refer only
 to sessions whose 200 reply is out (or whose socket has failed), and a bare send is made only by the
 handler of a connection, which in a disciplined run has no session then.
 */
module Sessions {
  import opened Framing
  import opened Protocol
  import opened Steps
  import opened Locks
  import opened Owners
  import R = Registry

  // Registered clients never send a request that is answered on the bare socket.
  ghost predicate Disciplined(env: Env) {
    forall rq | env.allow(rq) :: !Bare(rq)
  }

  predicate Complete(env: Env, e: Entry) {
    e.written >= Size(env, e.frame)
  }

  // The 200 reply went out whole, or nothing more will go out at all.
  ghost predicate Greeted(env: Env, k: Sock) {
    k.broken || exists i | 0 <= i < |k.log| :: k.log[i].frame == Reply(OK_REGISTER) && Complete(env, k.log[i])
  }

  // The handler is sending the 200 reply, with sessions_mutex_ held.
  predicate Welcoming(pc: Pc, c: nat) {
    (pc.Sending? || pc.Writing?) && pc.locked && pc.after == Unlock && pc.jobs == [Job(c, Reply(OK_REGISTER), Plain)]
  }

  ghost predicate Reachable(env: Env, s: State, d: nat)
    requires Shaped(s)
  {
    d < |s.socks| && s.sess[d].made && Greeted(env, s.socks[d])
  }

  predicate Mine(s: State, t: Tid, me: nat)
    requires Shaped(s)
  {
    t == Handler(me) && me < |s.sess| && s.sess[me].made
  }

  predicate SecInv(s: State, t: Tid, sec: Section)
    requires Shaped(s)
  {
    match sec
    case Gather(me, _) => Mine(s, t, me)
    case Seek(me, _, _) => Mine(s, t, me)
    case Roll(me) => Mine(s, t, me)
    case Inspect(me, _) => Mine(s, t, me)
    case _ => true
  }

  // Only the watchdog sends 602, and nothing but 602.
  predicate FrameBy(t: Tid, f: Frame) {
    if t.Watchdog? then f == Reply(AUTO_INACTIVE) else !(f.Response? && f.code == AUTO_INACTIVE)
  }

  ghost predicate JobInv(env: Env, s: State, t: Tid, j: Job)
    requires Shaped(s)
  {
    Reachable(env, s, j.to) && FrameBy(t, j.frame) && j.frame != Reply(OK_REGISTER)
  }

  ghost predicate JobsInv(env: Env, s: State, t: Tid, pc: Pc)
    requires Shaped(s) && (pc.Sending? || pc.Writing?)
  {
    if pc.locked then
      if t.Handler? && Welcoming(pc, t.c) then t.c < |s.sess| && s.sess[t.c].made
      else forall i | 0 <= i < |pc.jobs| :: JobInv(env, s, t, pc.jobs[i])
    else
      pc.jobs == [] ||
      (t.Handler? && |pc.jobs| == 1 && pc.jobs[0].to == t.c && pc.jobs[0].tag == Plain && Refusal(pc.jobs[0].frame)
       && t.c < |s.sess| && (Disciplined(env) ==> !s.sess[t.c].made))
  }

  predicate AfterInv(s: State, t: Tid, after: After)
    requires Shaped(s)
  {
    after.Then? ==> SecInv(s, t, after.sec)
  }

  predicate Started(e: Entry, j: Job, t: Tid, locked: bool) {
    e.frame == j.frame && e.tag == j.tag && e.author == t && e.locked == locked
  }

  ghost predicate AllReachable(env: Env, s: State, cs: seq<nat>)
    requires Shaped(s)
  {
    forall i | 0 <= i < |cs| :: Reachable(env, s, cs[i])
  }

  ghost predicate SetReachable(env: Env, s: State, cs: set<nat>)
    requires Shaped(s)
  {
    forall c | c in cs :: Reachable(env, s, c)
  }

  ghost predicate PcInv(env: Env, s: State, t: Tid, pc: Pc)
    requires Shaped(s)
  {
    match pc
    case Waiting(sec) => SecInv(s, t, sec)
    case Inside(sec) => SecInv(s, t, sec)
    case Sending(_, _, after) => JobsInv(env, s, t, pc) && AfterInv(s, t, after)
    case Writing(jobs, at, locked, after) =>
      && JobsInv(env, s, t, pc) && AfterInv(s, t, after)
      && jobs != [] && jobs[0].to < |s.socks| && at < |s.socks[jobs[0].to].log|
      && Started(s.socks[jobs[0].to].log[at], jobs[0], t, locked)
    case RestoreTest(me, sec) => Mine(s, t, me) && SecInv(s, t, sec)
    case RestoreStatus(me, sec) => Mine(s, t, me) && SecInv(s, t, sec)
    case RestoreManual(me, sec) => Mine(s, t, me) && SecInv(s, t, sec)
    case SetStatus(me, _) => Mine(s, t, me)
    case SetManual(me, _) => Mine(s, t, me)
    case Deliver(me, _, to) => Mine(s, t, me) && Reachable(env, s, to)
    case Describe(me, _) => Mine(s, t, me)
    case Sweep(todo, marked) => SetReachable(env, s, todo) && AllReachable(env, s, marked)
    case Mark(c, todo, marked) => Reachable(env, s, c) && SetReachable(env, s, todo) && AllReachable(env, s, marked)
    case _ => true
  }

  ghost predicate WelcomeOk(env: Env, s: State, c: nat)
    requires Domain(s) && c < |s.socks|
  {
    s.sess[c].made ==> Greeted(env, s.socks[c]) || Welcoming(s.pcs[Handler(c)], c)
  }

  ghost predicate OwnOk(env: Env, s: State) {
    && Domain(s)
    && (forall t | t in s.pcs :: PcInv(env, s, t, s.pcs[t]))
    && (forall c | 0 <= c < |s.socks| :: WelcomeOk(env, s, c))
  }

  // ---------- what a step of one thread leaves to the others ----------

  predicate Later(e: Entry, e': Entry) {
    e'.frame == e.frame && e'.author == e.author && e'.tag == e.tag && e'.locked == e.locked && e.written <= e'.written
  }

  ghost predicate LogGrows(log: seq<Entry>, log': seq<Entry>) {
    |log| <= |log'| && forall i | 0 <= i < |log| :: Later(log[i], log'[i])
  }

  ghost predicate ConnRely(k: Sock, k': Sock, e: Sess, e': Sess, own: bool) {
    && LogGrows(k.log, k'.log) && (k.broken ==> k'.broken)
    && (e.made ==> e'.made && e'.name == e.name) && (!own ==> e'.made == e.made)
  }

  ghost predicate Rely(s: State, s': State, t: Tid)
    requires Shaped(s) && Shaped(s')
  {
    && |s.socks| <= |s'.socks|
    && (forall c | 0 <= c < |s.socks| :: ConnRely(s.socks[c], s'.socks[c], s.sess[c], s'.sess[c], t == Handler(c)))
  }

  lemma GreetedStays(env: Env, k: Sock, k': Sock)
    requires LogGrows(k.log, k'.log) && (k.broken ==> k'.broken) && Greeted(env, k)
    ensures Greeted(env, k')
  {
    if !k'.broken {
      var i :| 0 <= i < |k.log| && k.log[i].frame == Reply(OK_REGISTER) && Complete(env, k.log[i]);
      assert Later(k.log[i], k'.log[i]);
    }
  }

  lemma ReachableStays(env: Env, s: State, s': State, t: Tid, d: nat)
    requires Shaped(s) && Shaped(s') && Rely(s, s', t) && Reachable(env, s, d)
    ensures Reachable(env, s', d)
  {
    assert ConnRely(s.socks[d], s'.socks[d], s.sess[d], s'.sess[d], t == Handler(d));
    GreetedStays(env, s.socks[d], s'.socks[d]);
  }

  lemma MineStays(s: State, s': State, t: Tid, u: Tid)
    requires Shaped(s) && Shaped(s') && Rely(s, s', t)
    ensures forall me: nat | Mine(s, u, me) :: Mine(s', u, me)
  {
    if u.Handler? && u.c < |s.socks| {
      assert ConnRely(s.socks[u.c], s'.socks[u.c], s.sess[u.c], s'.sess[u.c], t == u);
    }
  }

  lemma JobsStay(env: Env, s: State, s': State, t: Tid, u: Tid, pc: Pc)
    requires Shaped(s) && Shaped(s') && Rely(s, s', t) && (u != t || t.Watchdog?) && (pc.Sending? || pc.Writing?)
    requires JobsInv(env, s, u, pc)
    ensures JobsInv(env, s', u, pc)
  {
    if u.Handler? && u.c < |s.socks| {
      assert ConnRely(s.socks[u.c], s'.socks[u.c], s.sess[u.c], s'.sess[u.c], t == u);
    }
    if pc.locked && !(u.Handler? && Welcoming(pc, u.c)) {
      forall i | 0 <= i < |pc.jobs| ensures JobInv(env, s', u, pc.jobs[i]) {
        assert JobInv(env, s, u, pc.jobs[i]);
        ReachableStays(env, s, s', t, pc.jobs[i].to);
      }
    }
  }

  // A thread's own facts survive the steps of all others.
  lemma Stable(env: Env, s: State, s': State, t: Tid, u: Tid, pc: Pc)
    requires Shaped(s) && Shaped(s') && Rely(s, s', t) && (u != t || t.Watchdog?)
    requires PcInv(env, s, u, pc)
    ensures PcInv(env, s', u, pc)
  {
    MineStays(s, s', t, u);
    match pc {
      case Sending(_, _, _) => JobsStay(env, s, s', t, u, pc);
      case Writing(jobs, at, _, _) =>
        JobsStay(env, s, s', t, u, pc);
        var d := jobs[0].to;
        assert ConnRely(s.socks[d], s'.socks[d], s.sess[d], s'.sess[d], t == Handler(d));
        assert Later(s.socks[d].log[at], s'.socks[d].log[at]);
      case Deliver(_, _, to) => ReachableStays(env, s, s', t, to);
      case Sweep(todo, marked) => ListsStay(env, s, s', t, todo, marked);
      case Mark(c, todo, marked) =>
        ReachableStays(env, s, s', t, c);
        ListsStay(env, s, s', t, todo, marked);
      case _ =>
    }
  }

  lemma ListsStay(env: Env, s: State, s': State, t: Tid, todo: set<nat>, marked: seq<nat>)
    requires Shaped(s) && Shaped(s') && Rely(s, s', t)
    requires SetReachable(env, s, todo) && AllReachable(env, s, marked)
    ensures SetReachable(env, s', todo) && AllReachable(env, s', marked)
  {
    forall c | c in todo ensures Reachable(env, s', c) { ReachableStays(env, s, s', t, c); }
    forall i | 0 <= i < |marked| ensures Reachable(env, s', marked[i]) { ReachableStays(env, s, s', t, marked[i]); }
  }

  lemma OwnMove(env: Env, s: State, s': State, t: Tid, pc: Pc)
    requires OwnOk(env, s) && Domain(s') && t in s.pcs && Rely(s, s', t) && |s'.socks| == |s.socks|
    requires s'.pcs == s.pcs[t := pc] && PcInv(env, s', t, pc)
    requires t.Handler? && t.c < |s'.socks| ==> WelcomeOk(env, s', t.c)
    ensures OwnOk(env, s')
  {
    forall u | u in s'.pcs ensures PcInv(env, s', u, s'.pcs[u]) {
      if u != t { Stable(env, s, s', t, u, s.pcs[u]); }
    }
    forall c | 0 <= c < |s'.socks| ensures WelcomeOk(env, s', c) {
      if t != Handler(c) {
        assert WelcomeOk(env, s, c);
        assert ConnRely(s.socks[c], s'.socks[c], s.sess[c], s'.sess[c], false);
        if Greeted(env, s.socks[c]) { GreetedStays(env, s.socks[c], s'.socks[c]); }
      }
    }
  }

  // A step of t that makes no session: t's own facts survive it too, as far as they do not change.
  lemma OwnPlain(env: Env, s: State, s': State, t: Tid, pc: Pc)
    requires OwnOk(env, s) && Domain(s') && t in s.pcs && Rely(s, s', Watchdog) && |s'.socks| == |s.socks|
    requires s'.pcs == s.pcs[t := pc] && PcInv(env, s, t, pc)
    requires pc.Writing? ==> s.pcs[t].Writing?
    requires t.Handler? && t.c < |s.socks| ==> !Welcoming(s.pcs[t], t.c) || pc == s.pcs[t]
    ensures OwnOk(env, s')
  {
    RelyWeakens(s, s', t);
    Stable(env, s, s', Watchdog, t, pc);
    if t.Handler? && t.c < |s.socks| {
      var c := t.c;
      assert WelcomeOk(env, s, c);
      assert ConnRely(s.socks[c], s'.socks[c], s.sess[c], s'.sess[c], false);
      if Greeted(env, s.socks[c]) { GreetedStays(env, s.socks[c], s'.socks[c]); }
    }
    OwnMove(env, s, s', t, pc);
  }

  lemma RelyWeakens(s: State, s': State, t: Tid)
    requires Shaped(s) && Shaped(s') && Rely(s, s', Watchdog)
    ensures Rely(s, s', t)
  {
    forall c | 0 <= c < |s.socks| ensures ConnRely(s.socks[c], s'.socks[c], s.sess[c], s'.sess[c], t == Handler(c)) {
      assert ConnRely(s.socks[c], s'.socks[c], s.sess[c], s'.sess[c], false);
    }
  }

  // Steps that leave sockets and identities alone.
  lemma RelySame(s: State, s': State)
    requires Shaped(s) && Shaped(s') && s'.socks == s.socks
    requires forall c | 0 <= c < |s.sess| :: s'.sess[c].made == s.sess[c].made && s'.sess[c].name == s.sess[c].name
    ensures Rely(s, s', Watchdog)
  {}

  lemma WelcomerHoldsReg(s: State, c: nat)
    requires LocksOk(s) && Handler(c) in s.pcs && Welcoming(s.pcs[Handler(c)], c)
    ensures s.reg == Some(Handler(c))
  {
    assert HoldsReg(s.pcs[Handler(c)]);
  }

  // Whoever holds sessions_mutex_ sees only greeted sessions.
  lemma UnderLock(env: Env, s: State, t: Tid, d: nat)
    requires LocksOk(s) && OwnOk(env, s) && t in s.pcs && HoldsReg(s.pcs[t]) && !s.pcs[t].Sending? && !s.pcs[t].Writing?
    requires d < |s.socks| && s.sess[d].made
    ensures Reachable(env, s, d)
  {
    assert WelcomeOk(env, s, d);
    if Welcoming(s.pcs[Handler(d)], d) { WelcomerHoldsReg(s, d); }
  }

  // A handler outside the 200 reply sees its own session greeted.
  lemma OwnGreeted(env: Env, s: State, c: nat)
    requires OwnOk(env, s) && c < |s.socks| && s.sess[c].made && !Welcoming(s.pcs[Handler(c)], c)
    ensures Reachable(env, s, c)
  {
    assert WelcomeOk(env, s, c);
  }

  // ---------- critical sections ----------

  // With a session found, the handler goes on with its own; without one, its reply is a bare send of its own.
  lemma FoundPcInv(env: Env, s: State, c: nat, rq: Request)
    requires Shaped(s) && c < |s.sess| && Reachable(env, s, c)
    ensures PcInv(env, s, Handler(c), AfterFetch(c, Some(c), rq))
  {}

  lemma StrangerPcInv(env: Env, s: State, c: nat, rq: Request)
    requires Shaped(s) && c < |s.sess| && !s.sess[c].made
    ensures PcInv(env, s, Handler(c), AfterFetch(c, None, rq))
  {}

  lemma FetchPcInv(env: Env, s: State, c: nat, rq: Request)
    requires LivesOk(s) && LocksOk(s) && OwnOk(env, s) && c < |s.socks| && s.pcs[Handler(c)] == Inside(Fetch(rq))
    ensures PcInv(env, s, Handler(c), FetchBody(s, c, rq).pcs[Handler(c)])
  {
    OwnSession(s, c);
    if s.sess[c].made {
      UnderLock(env, s, Handler(c), c);
      FoundPcInv(env, s, c, rq);
    } else {
      StrangerPcInv(env, s, c, rq);
    }
  }

  lemma FetchOwn(env: Env, s: State, c: nat, rq: Request)
    requires LivesOk(s) && LocksOk(s) && OwnOk(env, s) && c < |s.socks| && s.pcs[Handler(c)] == Inside(Fetch(rq))
    ensures OwnOk(env, FetchBody(s, c, rq))
  {
    var s' := FetchBody(s, c, rq);
    RelySame(s, s');
    FetchPcInv(env, s, c, rq);
    OwnPlain(env, s, s', Handler(c), s'.pcs[Handler(c)]);
  }

  // A refused registration only sets the reply to be sent.
  lemma RefusePc(env: Env, s: State, c: nat, name: string)
    requires Shaped(s) && c < |s.socks|
    requires R.Join(Regs(s), s.socks[c].fd, name, s.socks[c].ip).1 != OK_REGISTER
    requires s.socks[c].fd in s.sessions <==> s.sess[c].made
    requires s.socks[c].fd in s.sessions ==> s.sessions[s.socks[c].fd] == c && Reachable(env, s, c)
    ensures EnrolBody(s, c, name) == SetPc(s, Handler(c), EnrolBody(s, c, name).pcs[Handler(c)])
    ensures PcInv(env, s, Handler(c), EnrolBody(s, c, name).pcs[Handler(c)])
    ensures !EnrolBody(s, c, name).pcs[Handler(c)].Writing?
  {}

  lemma AdmitOwn(env: Env, s: State, c: nat, name: string)
    requires LivesOk(s) && OwnOk(env, s) && c < |s.socks| && s.pcs[Handler(c)] == Inside(Enrol(name))
    requires R.Join(Regs(s), s.socks[c].fd, name, s.socks[c].ip).1 == OK_REGISTER
    ensures OwnOk(env, EnrolBody(s, c, name))
  {
    var s' := EnrolBody(s, c, name);
    OwnSession(s, c);
    assert !s.sess[c].made;
    assert Rely(s, s', Handler(c));
    OwnMove(env, s, s', Handler(c), s'.pcs[Handler(c)]);
  }

  lemma EnrolOwn(env: Env, s: State, c: nat, name: string)
    requires LivesOk(s) && LocksOk(s) && OwnOk(env, s) && c < |s.socks| && s.pcs[Handler(c)] == Inside(Enrol(name))
    ensures OwnOk(env, EnrolBody(s, c, name))
  {
    if R.Join(Regs(s), s.socks[c].fd, name, s.socks[c].ip).1 == OK_REGISTER {
      AdmitOwn(env, s, c, name);
    } else {
      OwnSession(s, c);
      if s.sess[c].made { UnderLock(env, s, Handler(c), c); }
      RefusePc(env, s, c, name);
      MoveOwn(env, s, EnrolBody(s, c, name), Handler(c), EnrolBody(s, c, name).pcs[Handler(c)]);
    }
  }

  lemma GatherReaches(env: Env, s: State, c: nat, order: seq<nat>)
    requires LivesOk(s) && LocksOk(s) && OwnOk(env, s) && c < |s.socks| && s.pcs[Handler(c)].Inside?
    requires IsSnapshot(s, order)
    ensures AllReachable(env, s, order)
  {
    forall i | 0 <= i < |order| ensures Reachable(env, s, order[i]) {
      assert order[i] in order;
      assert ConnOk(s, order[i]);
      UnderLock(env, s, Handler(c), order[i]);
    }
  }

  lemma GatherOwn(env: Env, s: State, c: nat, me: nat, text: string, order: seq<nat>)
    requires LivesOk(s) && LocksOk(s) && OwnOk(env, s) && c < |s.socks| && s.pcs[Handler(c)] == Inside(Gather(me, text))
    requires me < |s.sess| && IsSnapshot(s, order)
    ensures OwnOk(env, GatherBody(s, c, me, text, order))
  {
    var s' := GatherBody(s, c, me, text, order);
    RelySame(s, s');
    GatherReaches(env, s, c, order);
    OwnPlain(env, s, s', Handler(c), s'.pcs[Handler(c)]);
  }

  lemma HolderReachable(env: Env, s: State, t: Tid, name: string)
    requires LivesOk(s) && LocksOk(s) && OwnOk(env, s) && t in s.pcs && s.pcs[t].Inside?
    ensures Holder(s, name).Some? ==> Reachable(env, s, Holder(s, name).value)
  {
    if Holder(s, name).Some? {
      assert SessionOk(s, s.names[name]);
      UnderLock(env, s, t, Holder(s, name).value);
    }
  }

  lemma SeekOwn(env: Env, s: State, c: nat, me: nat, dest: string, text: string)
    requires LivesOk(s) && LocksOk(s) && OwnOk(env, s) && c < |s.socks|
    requires s.pcs[Handler(c)] == Inside(Seek(me, dest, text))
    requires me < |s.sess|
    ensures OwnOk(env, SeekBody(s, c, me, dest, text))
  {
    var s' := SeekBody(s, c, me, dest, text);
    assert PcInv(env, s, Handler(c), s.pcs[Handler(c)]);
    RelySame(s, s');
    OwnGreeted(env, s, c);
    HolderReachable(env, s, Handler(c), dest);
    OwnPlain(env, s, s', Handler(c), s'.pcs[Handler(c)]);
  }

  lemma InspectOwn(env: Env, s: State, c: nat, me: nat, target: string)
    requires LivesOk(s) && OwnOk(env, s) && c < |s.socks| && s.pcs[Handler(c)] == Inside(Inspect(me, target))
    ensures OwnOk(env, InspectBody(s, c, me, target))
  {
    var s' := InspectBody(s, c, me, target);
    assert PcInv(env, s, Handler(c), s.pcs[Handler(c)]);
    RelySame(s, s');
    OwnGreeted(env, s, c);
    OwnPlain(env, s, s', Handler(c), s'.pcs[Handler(c)]);
  }

  lemma RollOwn(env: Env, s: State, c: nat, me: nat, rows: seq<(string, Status)>)
    requires LivesOk(s) && OwnOk(env, s) && c < |s.socks| && s.pcs[Handler(c)] == Inside(Roll(me))
    ensures OwnOk(env, RollBody(s, c, me, rows))
  {
    var s' := RollBody(s, c, me, rows);
    assert PcInv(env, s, Handler(c), s.pcs[Handler(c)]);
    RelySame(s, s');
    OwnGreeted(env, s, c);
    OwnPlain(env, s, s', Handler(c), s'.pcs[Handler(c)]);
  }

  lemma ScanOwn(env: Env, s: State)
    requires LivesOk(s) && LocksOk(s) && OwnOk(env, s) && Watchdog in s.pcs && s.pcs[Watchdog] == Inside(Scan)
    ensures OwnOk(env, ScanBody(s))
  {
    var s' := ScanBody(s);
    RelySame(s, s');
    forall fd | fd in s.sessions ensures Reachable(env, s, s.sessions[fd]) {
      assert SessionOk(s, fd);
      UnderLock(env, s, Watchdog, s.sessions[fd]);
    }
    OwnPlain(env, s, s', Watchdog, s'.pcs[Watchdog]);
  }

  lemma LeaveOwn(env: Env, s: State, c: nat)
    requires LivesOk(s) && OwnOk(env, s) && c < |s.socks| && s.pcs[Handler(c)] == Inside(Leave)
    ensures OwnOk(env, LeaveBody(s, c))
  {
    RelySame(s, LeaveBody(s, c));
    OwnPlain(env, s, LeaveBody(s, c), Handler(c), LeaveBody(s, c).pcs[Handler(c)]);
  }

  lemma EraseOwn(env: Env, s: State, c: nat)
    requires LivesOk(s) && OwnOk(env, s) && c < |s.socks| && s.pcs[Handler(c)].Erasing?
    ensures OwnOk(env, EraseBody(s, c))
  {
    RelySame(s, EraseBody(s, c));
    OwnPlain(env, s, EraseBody(s, c), Handler(c), Closing);
  }

  lemma BodyOwn(env: Env, s: State, t: Tid, order: seq<nat>, rows: seq<(string, Status)>)
    requires Ok(s) && LivesOk(s) && LocksOk(s) && OwnOk(env, s) && Can(env, s, EvBody(t, order, rows))
    ensures OwnOk(env, Body(s, t, s.pcs[t].sec, order, rows))
  {
    assert PcFor(t, s.pcs[t], s.socks, s.hist);
    match s.pcs[t].sec {
      case Enrol(name) => EnrolOwn(env, s, t.c, name);
      case Fetch(rq) => FetchOwn(env, s, t.c, rq);
      case Gather(me, text) => GatherOwn(env, s, t.c, me, text, order);
      case Seek(me, dest, text) => SeekOwn(env, s, t.c, me, dest, text);
      case Roll(me) => RollOwn(env, s, t.c, me, rows);
      case Inspect(me, target) => InspectOwn(env, s, t.c, me, target);
      case Scan => ScanOwn(env, s);
      case Leave => LeaveOwn(env, s, t.c);
    }
  }

  // ---------- fields ----------

  lemma RestorePcInv(env: Env, s: State, t: Tid)
    requires Ok(s) && t in s.pcs && (s.pcs[t].RestoreTest? || s.pcs[t].RestoreStatus? || s.pcs[t].RestoreManual?)
    requires PcInv(env, s, t, s.pcs[t]) && t.Handler? && Reachable(env, s, t.c)
    ensures t in Field(s, t).pcs && PcInv(env, s, t, Field(s, t).pcs[t]) && !Field(s, t).pcs[t].Writing?
  {
    assert PcFor(t, s.pcs[t], s.socks, s.hist);
  }

  lemma ChangePcInv(env: Env, s: State, t: Tid)
    requires Ok(s) && t in s.pcs && (s.pcs[t].SetStatus? || s.pcs[t].SetManual?)
    requires PcInv(env, s, t, s.pcs[t]) && t.Handler? && Reachable(env, s, t.c)
    ensures t in Field(s, t).pcs && PcInv(env, s, t, Field(s, t).pcs[t]) && !Field(s, t).pcs[t].Writing?
  {
    assert PcFor(t, s.pcs[t], s.socks, s.hist);
  }

  lemma LookPcInv(env: Env, s: State, t: Tid)
    requires Ok(s) && t in s.pcs && (s.pcs[t].Deliver? || s.pcs[t].Describe?)
    requires PcInv(env, s, t, s.pcs[t]) && t.Handler? && Reachable(env, s, t.c)
    ensures t in Field(s, t).pcs && PcInv(env, s, t, Field(s, t).pcs[t]) && !Field(s, t).pcs[t].Writing?
  {
    assert PcFor(t, s.pcs[t], s.socks, s.hist);
  }

  lemma FieldPcInv(env: Env, s: State, t: Tid)
    requires Ok(s) && t in s.pcs && FieldPc(s.pcs[t])
    requires PcInv(env, s, t, s.pcs[t]) && t.Handler? && Reachable(env, s, t.c)
    ensures t in Field(s, t).pcs && PcInv(env, s, t, Field(s, t).pcs[t]) && !Field(s, t).pcs[t].Writing?
  {
    assert PcFor(t, s.pcs[t], s.socks, s.hist);
    match s.pcs[t] {
      case RestoreTest(_, _) => RestorePcInv(env, s, t);
      case RestoreStatus(_, _) => RestorePcInv(env, s, t);
      case RestoreManual(_, _) => RestorePcInv(env, s, t);
      case SetStatus(_, _) => ChangePcInv(env, s, t);
      case SetManual(_, _) => ChangePcInv(env, s, t);
      case Deliver(_, _, _) => LookPcInv(env, s, t);
      case Describe(_, _) => LookPcInv(env, s, t);
    }
  }

  lemma FieldRely(s: State, t: Tid)
    requires Ok(s) && t in s.pcs && FieldPc(s.pcs[t])
    ensures Domain(Field(s, t)) && Rely(s, Field(s, t), Watchdog) && |Field(s, t).socks| == |s.socks|
    ensures t in Field(s, t).pcs && Field(s, t).pcs == s.pcs[t := Field(s, t).pcs[t]]
  {
    assert PcFor(t, s.pcs[t], s.socks, s.hist);
    RelySame(s, Field(s, t));
  }

  lemma FieldOwn(env: Env, s: State, t: Tid)
    requires Ok(s) && OwnOk(env, s) && t in s.pcs && FieldPc(s.pcs[t])
    ensures OwnOk(env, Field(s, t))
  {
    assert PcFor(t, s.pcs[t], s.socks, s.hist);
    assert PcInv(env, s, t, s.pcs[t]);
    OwnGreeted(env, s, t.c);
    FieldPcInv(env, s, t);
    FieldRely(s, t);
    OwnPlain(env, s, Field(s, t), t, Field(s, t).pcs[t]);
  }

  // ---------- sends ----------

  lemma TakeRely(env: Env, s: State, t: Tid)
    requires Ok(s) && OwnOk(env, s) && CanSend(env, s, t, TakeLock)
    ensures var s' := DoSend(env, s, t, TakeLock);
            && Domain(s') && |s'.socks| == |s.socks| && Rely(s, s', Watchdog) && Rely(s, s', t)
            && t in s'.pcs && s'.pcs == s.pcs[t := s'.pcs[t]]
  {
    var s' := DoSend(env, s, t, TakeLock);
    assert PcFor(t, s.pcs[t], s.socks, s.hist);
    assert Rely(s, s', Watchdog);
    RelyWeakens(s, s', t);
  }

  lemma TakePcInv(env: Env, s: State, t: Tid)
    requires Ok(s) && OwnOk(env, s) && CanSend(env, s, t, TakeLock)
    ensures var s' := DoSend(env, s, t, TakeLock); Domain(s') && t in s'.pcs && PcInv(env, s', t, s'.pcs[t])
  {
    var s' := DoSend(env, s, t, TakeLock);
    assert PcFor(t, s.pcs[t], s.socks, s.hist);
    TakeRely(env, s, t);
    Stable(env, s, s', Watchdog, t, s.pcs[t]);
    assert JobsInv(env, s', t, s.pcs[t]) ==> JobsInv(env, s', t, s'.pcs[t]);
  }

  lemma TakeOwn(env: Env, s: State, t: Tid)
    requires Ok(s) && OwnOk(env, s) && CanSend(env, s, t, TakeLock)
    ensures OwnOk(env, DoSend(env, s, t, TakeLock))
  {
    var s' := DoSend(env, s, t, TakeLock);
    assert PcFor(t, s.pcs[t], s.socks, s.hist);
    TakeRely(env, s, t);
    TakePcInv(env, s, t);
    if t.Handler? {
      var c := t.c;
      assert WelcomeOk(env, s, c);
      assert ConnRely(s.socks[c], s'.socks[c], s.sess[c], s'.sess[c], false);
      if Greeted(env, s.socks[c]) { GreetedStays(env, s.socks[c], s'.socks[c]); }
    }
    OwnMove(env, s, s', t, s'.pcs[t]);
  }

  lemma PutOwn(env: Env, s: State, t: Tid, n: nat)
    requires Ok(s) && OwnOk(env, s) && CanSend(env, s, t, PutBytes(n))
    ensures OwnOk(env, DoSend(env, s, t, PutBytes(n)))
  {
    var s' := DoSend(env, s, t, PutBytes(n));
    assert PcFor(t, s.pcs[t], s.socks, s.hist);
    assert Rely(s, s', Watchdog);
    OwnPlain(env, s, s', t, s.pcs[t]);
  }

  lemma RestJobs(env: Env, s: State, t: Tid, pc: Pc, pc': Pc)
    requires Shaped(s) && pc.Writing? && pc.jobs != [] && JobsInv(env, s, t, pc)
    requires pc' == Sending(pc.jobs[1..], pc.locked, pc.after)
    ensures JobsInv(env, s, t, pc')
  {
    if pc.locked && !(t.Handler? && Welcoming(pc, t.c)) {
      if |pc.jobs| > 1 { assert JobInv(env, s, t, pc.jobs[1]); }
      forall i | 0 <= i < |pc'.jobs| ensures JobInv(env, s, t, pc'.jobs[i]) {
        assert JobInv(env, s, t, pc.jobs[i + 1]);
      }
    }
  }

  lemma FinishRely(s: State, t: Tid, failed: bool)
    requires Ok(s) && t in s.pcs && s.pcs[t].Writing?
    ensures var s' := Finish(s, t, s.pcs[t].jobs, s.pcs[t].locked, s.pcs[t].after, failed);
            Domain(s') && Rely(s, s', Watchdog) && |s'.socks| == |s.socks|
  {
    assert PcFor(t, s.pcs[t], s.socks, s.hist);
  }

  // After the 200 reply, or after its failure, the session counts as greeted.
  lemma FinishWelcome(env: Env, s: State, c: nat, failed: bool)
    requires Ok(s) && OwnOk(env, s) && c < |s.socks| && CanSend(env, s, Handler(c), if failed then Break else Return)
    ensures var pc := s.pcs[Handler(c)];
            var s' := Finish(s, Handler(c), pc.jobs, pc.locked, pc.after, failed);
            Domain(s') && WelcomeOk(env, s', c)
  {
    var was := s.pcs[Handler(c)];
    assert PcFor(Handler(c), was, s.socks, s.hist);
    assert PcInv(env, s, Handler(c), was);
    FinishRely(s, Handler(c), failed);
    var s' := Finish(s, Handler(c), was.jobs, was.locked, was.after, failed);
    assert WelcomeOk(env, s, c);
    assert ConnRely(s.socks[c], s'.socks[c], s.sess[c], s'.sess[c], false);
    if Greeted(env, s.socks[c]) {
      GreetedStays(env, s.socks[c], s'.socks[c]);
    } else if s.sess[c].made {
      assert s'.socks[c].broken || Complete(env, s'.socks[c].log[was.at]);
    }
  }

  lemma FinishOwn(env: Env, s: State, t: Tid, failed: bool)
    requires Ok(s) && OwnOk(env, s) && CanSend(env, s, t, if failed then Break else Return)
    ensures OwnOk(env, Finish(s, t, s.pcs[t].jobs, s.pcs[t].locked, s.pcs[t].after, failed))
  {
    var was := s.pcs[t];
    assert PcFor(t, was, s.socks, s.hist);
    assert PcInv(env, s, t, was);
    var s' := Finish(s, t, was.jobs, was.locked, was.after, failed);
    FinishRely(s, t, failed);
    RelyWeakens(s, s', t);
    var pc := Sending(was.jobs[1..], was.locked, was.after);
    RestJobs(env, s, t, was, pc);
    Stable(env, s, s', Watchdog, t, pc);
    if t.Handler? { FinishWelcome(env, s, t.c, failed); }
    OwnMove(env, s, s', t, pc);
  }

  lemma ResumeOwn(env: Env, s: State, t: Tid)
    requires Ok(s) && OwnOk(env, s) && CanSend(env, s, t, NoMore)
    ensures OwnOk(env, DoSend(env, s, t, NoMore))
  {
    assert PcFor(t, s.pcs[t], s.socks, s.hist);
    assert PcInv(env, s, t, s.pcs[t]);
    var s' := DoSend(env, s, t, NoMore);
    RelySame(s, s');
    OwnPlain(env, s, s', t, s'.pcs[t]);
  }

  lemma SendOwn(env: Env, s: State, t: Tid, act: SendAct)
    requires Ok(s) && OwnOk(env, s) && CanSend(env, s, t, act)
    ensures OwnOk(env, DoSend(env, s, t, act))
  {
    match act {
      case TakeLock => TakeOwn(env, s, t);
      case PutBytes(n) => PutOwn(env, s, t, n);
      case Return => FinishOwn(env, s, t, false);
      case Break => FinishOwn(env, s, t, true);
      case NoMore => ResumeOwn(env, s, t);
    }
  }

  // ---------- the watchdog ----------

  lemma SweepPcInv(env: Env, s: State, act: SweepAct)
    requires Ok(s) && OwnOk(env, s) && CanSweep(s, act)
    ensures PcInv(env, s, Watchdog, DoSweep(s, act).pcs[Watchdog])
  {
    var was := s.pcs[Watchdog];
    assert PcFor(Watchdog, was, s.socks, s.hist);
    assert PcInv(env, s, Watchdog, was);
    if act.EndScan? {
      forall i | 0 <= i < |was.marked| ensures Reachable(env, s, was.marked[i]) {}
    }
  }

  lemma SweepOwn(env: Env, s: State, act: SweepAct)
    requires Ok(s) && OwnOk(env, s) && CanSweep(s, act)
    ensures OwnOk(env, DoSweep(s, act))
  {
    var s' := DoSweep(s, act);
    var was := s.pcs[Watchdog];
    assert PcFor(Watchdog, was, s.socks, s.hist);
    assert PcInv(env, s, Watchdog, was);
    RelySame(s, s');
    SweepPcInv(env, s, act);
    OwnPlain(env, s, s', Watchdog, s'.pcs[Watchdog]);
  }

  // ---------- every step ----------

  lemma AcceptOwn(env: Env, s: State, fd: int, ip: string)
    requires OwnOk(env, s)
    ensures OwnOk(env, Accept(s, fd, ip))
  {
    var s' := Accept(s, fd, ip);
    assert Rely(s, s', Watchdog);
    forall u | u in s'.pcs ensures PcInv(env, s', u, s'.pcs[u]) {
      if u in s.pcs && s'.pcs[u] == s.pcs[u] { Stable(env, s, s', Watchdog, u, s.pcs[u]); }
    }
    forall c | 0 <= c < |s'.socks| ensures WelcomeOk(env, s', c) {
      if c < |s.socks| { assert WelcomeOk(env, s, c); }
    }
  }

  lemma RequestOwn(env: Env, s: State, c: nat, rq: Request)
    requires Ok(s) && OwnOk(env, s) && Can(env, s, EvRequest(c, rq))
    ensures OwnOk(env, SetPc(s, Handler(c), Dispatch(c, rq)))
  {
    var s' := SetPc(s, Handler(c), Dispatch(c, rq));
    RelySame(s, s');
    assert Disciplined(env) && s.sess[c].made ==> !Bare(rq);
    OwnPlain(env, s, s', Handler(c), Dispatch(c, rq));
  }

  lemma MoveOwn(env: Env, s: State, s': State, t: Tid, pc: Pc)
    requires OwnOk(env, s) && t in s.pcs && s' == SetPc(s, t, pc).(reg := s'.reg)
    requires PcInv(env, s, t, pc) && !pc.Writing? && !s.pcs[t].Sending? && !s.pcs[t].Writing?
    ensures OwnOk(env, s')
  {
    RelySame(s, s');
    OwnPlain(env, s, s', t, pc);
  }

  lemma CloseOwn(env: Env, s: State, c: nat)
    requires OwnOk(env, s) && c < |s.socks| && s.pcs[Handler(c)].Closing?
    ensures OwnOk(env, Close(s, c))
  {
    assert Rely(s, Close(s, c), Watchdog);
    OwnPlain(env, s, Close(s, c), Handler(c), Closed);
  }

  // Every step keeps all this.
  lemma DoOwn(env: Env, s: State, e: Event)
    requires Ok(s) && LivesOk(s) && LocksOk(s) && OwnOk(env, s) && Can(env, s, e)
    ensures OwnOk(env, Do(env, s, e))
  {
    match e {
      case EvAccept(fd, ip) => AcceptOwn(env, s, fd, ip);
      case EvRequest(c, rq) => RequestOwn(env, s, c, rq);
      case EvHangUp(c) => MoveOwn(env, s, Do(env, s, e), Handler(c), Waiting(Leave));
      case EvWake => MoveOwn(env, s, Do(env, s, e), Watchdog, Waiting(Scan));
      case EvAcquire(t) =>
        assert PcInv(env, s, t, s.pcs[t]);
        MoveOwn(env, s, Do(env, s, e), t, Inside(s.pcs[t].sec));
      case EvBody(t, order, rows) => BodyOwn(env, s, t, order, rows);
      case EvErase(c) => EraseOwn(env, s, c);
      case EvClose(c) => CloseOwn(env, s, c);
      case EvSend(t, act) => SendOwn(env, s, t, act);
      case EvField(t) => FieldOwn(env, s, t);
      case EvSweep(act) => SweepOwn(env, s, act);
    }
  }
}
