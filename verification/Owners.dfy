/**
 The registry and the connections: the maps stay mutually inverse and name only sessions whose handler is
 still running, so a handler never sees a session other than its own connection's.
 */
module Owners {
  import opened Protocol
  import opened Steps
  import R = Registry

  // The handler has not yet given up its session.
  predicate Active(pc: Pc) {
    !pc.Closing? && !pc.Closed?
  }

  predicate Domain(s: State) {
    Shaped(s) && forall c | 0 <= c < |s.socks| :: Handler(c) in s.pcs
  }

  // A registered session belongs to the open connection with that fd, whose handler is running.
  predicate SessionOk(s: State, fd: int)
    requires Domain(s) && fd in s.sessions
  {
    var c := s.sessions[fd];
    s.sess[c].made && s.socks[c].fd == fd && Active(s.pcs[Handler(c)])
  }

  predicate ConnOk(s: State, c: nat)
    requires Domain(s) && c < |s.socks|
  {
    var pc := s.pcs[Handler(c)];
    && (s.sess[c].made && Active(pc) ==> s.socks[c].fd in s.sessions && s.sessions[s.socks[c].fd] == c)
    && (s.socks[c].open <==> !pc.Closed?)
    && (s.sess[c].alive <==> s.sess[c].made && Active(pc) && !pc.Erasing?)
  }

  ghost predicate FdsDiffer(s: State) {
    forall c, d | 0 <= c < d < |s.socks| && s.socks[c].open && s.socks[d].open :: s.socks[c].fd != s.socks[d].fd
  }

  ghost predicate LivesOk(s: State) {
    && Domain(s)
    && (forall fd | fd in s.sessions :: SessionOk(s, fd))
    && (forall c | 0 <= c < |s.socks| :: ConnOk(s, c))
    && FdsDiffer(s)
  }

  ghost predicate MapsOk(s: State)
    requires Domain(s)
  {
    R.Inverse(Regs(s))
  }

  ghost predicate RegOk(s: State) {
    LivesOk(s) && MapsOk(s)
  }

  // No session of this fd number can be anyone's but this connection's.
  lemma OwnSession(s: State, c: nat)
    requires LivesOk(s) && c < |s.socks| && Active(s.pcs[Handler(c)])
    ensures s.socks[c].fd in s.sessions <==> s.sess[c].made
    ensures s.socks[c].fd in s.sessions ==> s.sessions[s.socks[c].fd] == c
  {
    var fd := s.socks[c].fd;
    assert ConnOk(s, c);
    if fd in s.sessions {
      assert SessionOk(s, fd);
      assert ConnOk(s, s.sessions[fd]);
    }
  }

  predicate SameStanding(pc: Pc, pc': Pc) {
    Active(pc) == Active(pc') && pc.Closed? == pc'.Closed? && pc.Erasing? == pc'.Erasing?
  }

  predicate SameConn(k: Sock, k': Sock, e: Sess, e': Sess) {
    k'.fd == k.fd && k'.ip == k.ip && k'.open == k.open && e'.made == e.made && e'.name == e.name && e'.alive == e.alive
  }

  // A step that leaves the registry, the identities and the life cycle alone.
  ghost predicate RegSame(s: State, s': State)
    requires Domain(s)
  {
    && s'.sessions == s.sessions && s'.names == s.names && s'.ips == s.ips
    && |s'.socks| == |s.socks| == |s'.sess| == |s'.hist|
    && (forall c | 0 <= c < |s.socks| :: SameConn(s.socks[c], s'.socks[c], s.sess[c], s'.sess[c]))
  }

  lemma SameRegs(s: State, s': State)
    requires Shaped(s) && Shaped(s') && s'.sessions == s.sessions && s'.names == s.names && s'.ips == s.ips
    requires forall fd | fd in s.sessions :: UserOf(s', fd) == UserOf(s, fd)
    ensures Regs(s') == Regs(s)
  {
    assert Regs(s').users == Regs(s).users;
  }

  lemma LivesFrame(s: State, s': State, t: Tid, pc: Pc)
    requires LivesOk(s) && RegSame(s, s') && t in s.pcs
    requires s'.pcs == s.pcs[t := pc] && SameStanding(s.pcs[t], pc)
    ensures LivesOk(s')
  {
    assert Domain(s');
    forall fd | fd in s'.sessions ensures SessionOk(s', fd) {
      assert SessionOk(s, fd);
    }
    forall c | 0 <= c < |s'.socks| ensures ConnOk(s', c) {
      assert ConnOk(s, c);
    }
  }

  lemma AcceptLives(s: State, fd: int, ip: string)
    requires LivesOk(s) && CanAccept(s, fd)
    ensures LivesOk(Accept(s, fd, ip))
  {
    var s' := Accept(s, fd, ip);
    forall g | g in s'.sessions ensures SessionOk(s', g) {
      assert SessionOk(s, g);
    }
    forall c | 0 <= c < |s'.socks| ensures ConnOk(s', c) {
      if c < |s.socks| {
        assert ConnOk(s, c);
      } else {
        assert s'.pcs[Handler(c)] == Reading;
      }
    }
  }

  lemma EnrolUsers(s: State, c: nat, name: string)
    requires LivesOk(s) && c < |s.socks| && s.pcs[Handler(c)] == Inside(Enrol(name))
    requires R.Join(Regs(s), s.socks[c].fd, name, s.socks[c].ip).1 == OK_REGISTER
    ensures var s' := EnrolBody(s, c, name);
            && Shaped(s') && s'.sessions == s.sessions[s.socks[c].fd := c]
            && UserOf(s', s.socks[c].fd) == R.User(name, s.socks[c].ip)
            && forall g | g in s.sessions :: UserOf(s', g) == UserOf(s, g)
  {
    OwnSession(s, c);
    forall g | g in s.sessions ensures UserOf(EnrolBody(s, c, name), g) == UserOf(s, g) {
      assert SessionOk(s, g);
    }
  }

  lemma RegsAdded(s: State, s': State, fd: int, c: nat, u: R.User)
    requires Shaped(s) && Shaped(s') && s'.sessions == s.sessions[fd := c] && fd !in s.sessions && UserOf(s', fd) == u
    requires forall g | g in s.sessions :: UserOf(s', g) == UserOf(s, g)
    ensures Regs(s').users == Regs(s).users[fd := u]
  {}

  lemma EnrolRegs(s: State, c: nat, name: string)
    requires LivesOk(s) && c < |s.socks| && s.pcs[Handler(c)] == Inside(Enrol(name))
    requires R.Join(Regs(s), s.socks[c].fd, name, s.socks[c].ip).1 == OK_REGISTER
    ensures Shaped(EnrolBody(s, c, name))
    ensures Regs(EnrolBody(s, c, name)) == R.Join(Regs(s), s.socks[c].fd, name, s.socks[c].ip).0
  {
    var s' := EnrolBody(s, c, name);
    EnrolUsers(s, c, name);
    RegsAdded(s, s', s.socks[c].fd, c, R.User(name, s.socks[c].ip));
  }

  lemma EnrolSessions(s: State, c: nat, name: string)
    requires LivesOk(s) && c < |s.socks| && s.pcs[Handler(c)] == Inside(Enrol(name))
    requires R.Join(Regs(s), s.socks[c].fd, name, s.socks[c].ip).1 == OK_REGISTER
    ensures var s' := EnrolBody(s, c, name); Domain(s') && forall g | g in s'.sessions :: SessionOk(s', g)
  {
    OwnSession(s, c);
    var s' := EnrolBody(s, c, name);
    assert Domain(s');
    forall g | g in s'.sessions ensures SessionOk(s', g) {
      if g != s.socks[c].fd { assert SessionOk(s, g); }
    }
  }

  lemma EnrolConns(s: State, c: nat, name: string)
    requires LivesOk(s) && c < |s.socks| && s.pcs[Handler(c)] == Inside(Enrol(name))
    requires R.Join(Regs(s), s.socks[c].fd, name, s.socks[c].ip).1 == OK_REGISTER
    ensures var s' := EnrolBody(s, c, name); Domain(s') && forall d | 0 <= d < |s'.socks| :: ConnOk(s', d)
  {
    OwnSession(s, c);
    var s' := EnrolBody(s, c, name);
    assert Domain(s');
    forall d | 0 <= d < |s'.socks| ensures ConnOk(s', d) {
      assert ConnOk(s, d);
    }
  }

  lemma EnrolLives(s: State, c: nat, name: string)
    requires LivesOk(s) && c < |s.socks| && s.pcs[Handler(c)] == Inside(Enrol(name))
    ensures LivesOk(EnrolBody(s, c, name))
  {
    var s' := EnrolBody(s, c, name);
    if R.Join(Regs(s), s.socks[c].fd, name, s.socks[c].ip).1 == OK_REGISTER {
      EnrolSessions(s, c, name);
      EnrolConns(s, c, name);
    } else {
      LivesFrame(s, s', Handler(c), s'.pcs[Handler(c)]);
    }
  }

  lemma LeaveLives(s: State, c: nat)
    requires LivesOk(s) && c < |s.socks| && s.pcs[Handler(c)] == Inside(Leave)
    ensures LivesOk(LeaveBody(s, c))
  {
    OwnSession(s, c);
    var s' := LeaveBody(s, c);
    assert Domain(s');
    forall fd | fd in s'.sessions ensures SessionOk(s', fd) {
      assert SessionOk(s, fd);
    }
    forall d | 0 <= d < |s'.socks| ensures ConnOk(s', d) {
      assert ConnOk(s, d);
    }
  }

  lemma EraseLives(s: State, c: nat)
    requires LivesOk(s) && c < |s.socks| && s.pcs[Handler(c)].Erasing?
    ensures LivesOk(EraseBody(s, c))
  {
    OwnSession(s, c);
    var s' := EraseBody(s, c);
    var fd := s.socks[c].fd;
    assert Domain(s');
    forall g | g in s'.sessions ensures SessionOk(s', g) {
      assert SessionOk(s, g);
    }
    forall d | 0 <= d < |s'.socks| ensures ConnOk(s', d) {
      assert ConnOk(s, d);
    }
  }

  lemma CloseLives(s: State, c: nat)
    requires LivesOk(s) && c < |s.socks| && s.pcs[Handler(c)].Closing?
    ensures LivesOk(Close(s, c))
  {
    var s' := Close(s, c);
    assert Domain(s');
    forall fd | fd in s'.sessions ensures SessionOk(s', fd) {
      assert SessionOk(s, fd);
    }
    forall d | 0 <= d < |s'.socks| ensures ConnOk(s', d) {
      assert ConnOk(s, d);
    }
  }

  lemma EraseRegs(s: State, c: nat)
    requires LivesOk(s) && c < |s.socks| && s.pcs[Handler(c)].Erasing?
    ensures Domain(EraseBody(s, c)) && Regs(EraseBody(s, c)) == R.Leave(Regs(s), s.socks[c].fd)
  {
    OwnSession(s, c);
    var s' := EraseBody(s, c);
    assert Regs(s').users == R.Leave(Regs(s), s.socks[c].fd).users;
  }

  // ---------- the three maps ----------

  lemma MapsFrame(s: State, s': State)
    requires Domain(s) && Domain(s') && MapsOk(s)
    requires s'.sessions == s.sessions && s'.names == s.names && s'.ips == s.ips
    requires forall fd | fd in s.sessions :: UserOf(s', fd) == UserOf(s, fd)
    ensures MapsOk(s')
  {
    SameRegs(s, s');
  }

  lemma EnrolMaps(s: State, c: nat, name: string)
    requires RegOk(s) && c < |s.socks| && s.pcs[Handler(c)] == Inside(Enrol(name)) && Domain(EnrolBody(s, c, name))
    ensures MapsOk(EnrolBody(s, c, name))
  {
    R.JoinKeepsInverse(Regs(s), s.socks[c].fd, name, s.socks[c].ip);
    if R.Join(Regs(s), s.socks[c].fd, name, s.socks[c].ip).1 == OK_REGISTER {
      EnrolRegs(s, c, name);
    } else {
      SameRegs(s, EnrolBody(s, c, name));
    }
  }

  lemma EraseMaps(s: State, c: nat)
    requires RegOk(s) && c < |s.socks| && s.pcs[Handler(c)].Erasing?
    ensures Domain(EraseBody(s, c)) && MapsOk(EraseBody(s, c))
  {
    R.LeaveKeepsInverse(Regs(s), s.socks[c].fd);
    EraseRegs(s, c);
  }

  // ---------- every step ----------

  lemma RegFrame(s: State, s': State, t: Tid, pc: Pc)
    requires RegOk(s) && RegSame(s, s') && t in s.pcs
    requires s'.pcs == s.pcs[t := pc] && SameStanding(s.pcs[t], pc)
    ensures RegOk(s')
  {
    LivesFrame(s, s', t, pc);
    MapsFrame(s, s');
  }

  ghost predicate RegQuiet(s: State, s': State, t: Tid)
    requires Domain(s) && t in s.pcs
  {
    RegSame(s, s') && t in s'.pcs && s'.pcs == s.pcs[t := s'.pcs[t]] && SameStanding(s.pcs[t], s'.pcs[t])
  }

  lemma BodyQuiet(s: State, t: Tid, sec: Section, order: seq<nat>, rows: seq<(string, Status)>)
    requires Domain(s) && t in s.pcs && SectionFor(t, sec, |s.socks|) && (t.Handler? ==> t.c < |s.socks|)
    requires s.pcs[t] == Inside(sec) && !sec.Enrol? && !sec.Leave?
    ensures RegQuiet(s, Body(s, t, sec, order, rows), t)
  {}

  lemma DeliverQuiet(s: State, c: nat, me: nat, k: nat, d: nat)
    requires Ok(s) && c < |s.hist| && k < |s.hist[c].dms| && d < |s.sess| && me < |s.sess|
    requires s.pcs[Handler(c)] == Deliver(me, k, d)
    ensures RegQuiet(s, DeliverDm(s, c, me, k, d), Handler(c))
  {}

  lemma TestQuiet(s: State, t: Tid, me: nat, sec: Section)
    requires Domain(s) && t in s.pcs && me < |s.sess| && s.pcs[t].RestoreTest?
    ensures RegQuiet(s, Test(s, t, me, sec), t)
  {}

  lemma RestoreQuiet(s: State, t: Tid, me: nat, sec: Section)
    requires Domain(s) && t in s.pcs && me < |s.sess| && (s.pcs[t].RestoreStatus? || s.pcs[t].RestoreManual?)
    ensures RegQuiet(s, Restore1(s, t, me, sec), t)
    ensures RegQuiet(s, Restore2(s, t, me, sec), t)
  {}

  lemma ChangeQuiet(s: State, t: Tid, me: nat, v: Status)
    requires Domain(s) && t in s.pcs && me < |s.sess| && (s.pcs[t].SetStatus? || s.pcs[t].SetManual?)
    ensures RegQuiet(s, Change1(s, t, me, v), t)
    ensures RegQuiet(s, Change2(s, t, me, v), t)
  {}

  lemma DescribeQuiet(s: State, t: Tid, me: nat, d: nat)
    requires Domain(s) && t in s.pcs && d < |s.sess| && s.pcs[t].Describe?
    ensures RegQuiet(s, DescribeUser(s, t, me, d), t)
  {}

  lemma FieldQuiet(s: State, t: Tid)
    requires Ok(s) && t in s.pcs && FieldPc(s.pcs[t])
    ensures RegQuiet(s, Field(s, t), t)
  {
    assert PcFor(t, s.pcs[t], s.socks, s.hist);
    match s.pcs[t] {
      case RestoreTest(me, sec) => TestQuiet(s, t, me, sec);
      case RestoreStatus(me, sec) => RestoreQuiet(s, t, me, sec);
      case RestoreManual(me, sec) => RestoreQuiet(s, t, me, sec);
      case SetStatus(me, v) => ChangeQuiet(s, t, me, v);
      case SetManual(me, v) => ChangeQuiet(s, t, me, v);
      case Deliver(me, k, d) => DeliverQuiet(s, t.c, me, k, d);
      case Describe(me, d) => DescribeQuiet(s, t, me, d);
    }
  }

  lemma TakeQuiet(env: Env, s: State, t: Tid)
    requires Ok(s) && CanSend(env, s, t, TakeLock)
    ensures RegQuiet(s, Take(s, t, s.pcs[t].jobs, s.pcs[t].locked, s.pcs[t].after), t)
  {}

  lemma PutQuiet(env: Env, s: State, t: Tid, n: nat)
    requires Ok(s) && CanSend(env, s, t, PutBytes(n))
    ensures RegQuiet(s, Put(env, s, s.pcs[t].jobs[0].to, s.pcs[t].at, n), t)
  {}

  lemma FinishQuiet(env: Env, s: State, t: Tid, failed: bool)
    requires Domain(s) && t in s.pcs && s.pcs[t].Writing? && s.pcs[t].jobs != [] && s.pcs[t].jobs[0].to < |s.sess|
    ensures RegQuiet(s, Finish(s, t, s.pcs[t].jobs, s.pcs[t].locked, s.pcs[t].after, failed), t)
  {}

  lemma ResumeQuiet(s: State, t: Tid)
    requires Domain(s) && t in s.pcs && s.pcs[t].Sending?
    ensures RegQuiet(s, Resume(s, t, s.pcs[t].after), t)
  {}

  lemma SendQuiet(env: Env, s: State, t: Tid, act: SendAct)
    requires Ok(s) && CanSend(env, s, t, act)
    ensures RegQuiet(s, DoSend(env, s, t, act), t)
  {
    assert PcFor(t, s.pcs[t], s.socks, s.hist);
    match act {
      case TakeLock => TakeQuiet(env, s, t);
      case PutBytes(n) => PutQuiet(env, s, t, n);
      case Return => FinishQuiet(env, s, t, false);
      case Break => FinishQuiet(env, s, t, true);
      case NoMore => ResumeQuiet(s, t);
    }
  }

  lemma SweepQuiet(s: State, act: SweepAct)
    requires Ok(s) && CanSweep(s, act)
    ensures RegQuiet(s, DoSweep(s, act), Watchdog)
  {
    assert PcFor(Watchdog, s.pcs[Watchdog], s.socks, s.hist);
  }

  // The thread an event is a step of.
  function Actor(e: Event): Tid {
    match e
    case EvAccept(_, _) => Watchdog
    case EvRequest(c, _) => Handler(c)
    case EvHangUp(c) => Handler(c)
    case EvWake => Watchdog
    case EvAcquire(t) => t
    case EvBody(t, _, _) => t
    case EvErase(c) => Handler(c)
    case EvClose(c) => Handler(c)
    case EvSend(t, _) => t
    case EvField(t) => t
    case EvSweep(_) => Watchdog
  }

  // The events that change the registry or a connection's life.
  predicate Touches(s: State, e: Event) {
    e.EvAccept? || e.EvErase? || e.EvClose? ||
    (e.EvBody? && e.t in s.pcs && s.pcs[e.t].Inside? && (s.pcs[e.t].sec.Enrol? || s.pcs[e.t].sec.Leave?))
  }

  lemma QuietEvent(env: Env, s: State, e: Event)
    requires Ok(s) && Can(env, s, e) && !Touches(s, e)
    ensures Actor(e) in s.pcs && RegQuiet(s, Do(env, s, e), Actor(e))
  {
    match e {
      case EvBody(t, order, rows) =>
        assert PcFor(t, s.pcs[t], s.socks, s.hist);
        BodyQuiet(s, t, s.pcs[t].sec, order, rows);
      case EvSend(t, act) => SendQuiet(env, s, t, act);
      case EvField(t) => FieldQuiet(s, t);
      case EvSweep(act) => SweepQuiet(s, act);
      case _ =>
    }
  }

  lemma AcceptReg(s: State, fd: int, ip: string)
    requires RegOk(s) && CanAccept(s, fd)
    ensures RegOk(Accept(s, fd, ip))
  {
    AcceptLives(s, fd, ip);
    MapsFrame(s, Accept(s, fd, ip));
  }

  lemma EraseReg(s: State, c: nat)
    requires RegOk(s) && c < |s.socks| && s.pcs[Handler(c)].Erasing?
    ensures RegOk(EraseBody(s, c))
  {
    EraseLives(s, c);
    EraseMaps(s, c);
  }

  lemma CloseReg(s: State, c: nat)
    requires RegOk(s) && c < |s.socks| && s.pcs[Handler(c)].Closing?
    ensures RegOk(Close(s, c))
  {
    CloseLives(s, c);
    MapsFrame(s, Close(s, c));
  }

  lemma EnrolReg(s: State, c: nat, name: string)
    requires RegOk(s) && c < |s.socks| && s.pcs[Handler(c)] == Inside(Enrol(name))
    ensures RegOk(EnrolBody(s, c, name))
  {
    EnrolLives(s, c, name);
    EnrolMaps(s, c, name);
  }

  // Clearing a session's alive flag changes nothing the maps are about.
  lemma DeadMaps(s: State, s': State)
    requires Domain(s) && Domain(s') && MapsOk(s) && s'.socks == s.socks
    requires s'.sessions == s.sessions && s'.names == s.names && s'.ips == s.ips
    requires forall d | 0 <= d < |s.sess| :: s'.sess[d].name == s.sess[d].name
    ensures MapsOk(s')
  {
    forall fd | fd in s.sessions ensures UserOf(s', fd) == UserOf(s, fd) {}
    MapsFrame(s, s');
  }

  lemma LeaveFrame(s: State, c: nat)
    requires Shaped(s) && c < |s.socks|
    ensures var s' := LeaveBody(s, c);
            && s'.socks == s.socks && s'.sessions == s.sessions && s'.names == s.names && s'.ips == s.ips
            && |s'.sess| == |s.sess| && forall d | 0 <= d < |s.sess| :: s'.sess[d].name == s.sess[d].name
  {}

  lemma LeaveMaps(s: State, c: nat)
    requires Domain(s) && MapsOk(s) && c < |s.socks| && Domain(LeaveBody(s, c))
    ensures MapsOk(LeaveBody(s, c))
  {
    LeaveFrame(s, c);
    DeadMaps(s, LeaveBody(s, c));
  }

  lemma LeaveReg(s: State, c: nat)
    requires RegOk(s) && c < |s.socks| && s.pcs[Handler(c)] == Inside(Leave)
    ensures RegOk(LeaveBody(s, c))
  {
    LeaveLives(s, c);
    LeaveMaps(s, c);
  }

  lemma TouchingBodyReg(s: State, t: Tid, sec: Section)
    requires RegOk(s) && t.Handler? && t.c < |s.socks| && t in s.pcs && s.pcs[t] == Inside(sec)
    ensures sec.Enrol? ==> RegOk(EnrolBody(s, t.c, sec.name))
    ensures sec.Leave? ==> RegOk(LeaveBody(s, t.c))
  {
    if sec.Enrol? {
      EnrolReg(s, t.c, sec.name);
    } else if sec.Leave? {
      LeaveReg(s, t.c);
    }
  }

  // Every step keeps the registry and the life cycle of connections in order.
  lemma DoReg(env: Env, s: State, e: Event)
    requires Ok(s) && RegOk(s) && Can(env, s, e)
    ensures RegOk(Do(env, s, e))
  {
    if !Touches(s, e) {
      QuietEvent(env, s, e);
      RegFrame(s, Do(env, s, e), Actor(e), Do(env, s, e).pcs[Actor(e)]);
    } else {
      match e {
        case EvAccept(fd, ip) => AcceptReg(s, fd, ip);
        case EvErase(c) => EraseReg(s, c);
        case EvClose(c) => CloseReg(s, c);
        case EvBody(t, order, rows) =>
          assert PcFor(t, s.pcs[t], s.socks, s.hist);
          TouchingBodyReg(s, t, s.pcs[t].sec);
      }
    }
  }

  lemma LiveFdIsTaken(s: State, fd: int)
    requires RegOk(s) && fd in s.sessions
    ensures s.socks[s.sessions[fd]].open && s.socks[s.sessions[fd]].fd == fd
  {
    assert SessionOk(s, fd) && ConnOk(s, s.sessions[fd]);
  }

  // A connection accepted on a reused fd number starts with no session.
  lemma FreshConnectionHasNoSession(s: State, fd: int, ip: string)
    requires RegOk(s) && CanAccept(s, fd)
    ensures fd !in Accept(s, fd, ip).sessions
  {
    if fd in s.sessions {
      LiveFdIsTaken(s, fd);
    }
  }

  // Only accepting a connection adds a socket.
  lemma Lengths(env: Env, s: State, e: Event)
    requires Ok(s) && Can(env, s, e) && !e.EvAccept?
    ensures |Do(env, s, e).socks| == |s.socks|
  {
    if !Touches(s, e) {
      QuietEvent(env, s, e);
    } else if e.EvBody? {
      assert PcFor(e.t, s.pcs[e.t], s.socks, s.hist);
    }
  }
}
