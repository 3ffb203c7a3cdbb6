/**
 Lock discipline: who holds which mutex is read off the program counters, and no thread waits in a circle.
 */
module Locks {
  import opened Framing
  import opened Protocol
  import opened Steps

  predicate HoldsReg(pc: Pc) {
    pc.Inside? || pc.Erasing? || pc.Sweep? || pc.Mark? || ((pc.Sending? || pc.Writing?) && pc.after == Unlock)
  }

  predicate HoldsSend(pc: Pc, d: nat) {
    pc.Writing? && pc.locked && pc.jobs != [] && pc.jobs[0].to == d
  }

  // A writer that uses the send mutex of its target holds it.
  predicate HasItsLock(s: State, t: Tid, pc: Pc)
    requires pc.Writing?
  {
    pc.locked && pc.jobs != [] ==> pc.jobs[0].to < |s.sess| && s.sess[pc.jobs[0].to].lock == Some(t)
  }

  ghost predicate LocksOk(s: State) {
    && (s.reg.Some? ==> s.reg.value in s.pcs)
    && (forall t | t in s.pcs :: HoldsReg(s.pcs[t]) <==> s.reg == Some(t))
    && (forall d | 0 <= d < |s.sess| && s.sess[d].lock.Some? :: s.sess[d].lock.value in s.pcs)
    && (forall t | t in s.pcs && s.pcs[t].Writing? :: HasItsLock(s, t, s.pcs[t]))
    && (forall d, t | 0 <= d < |s.sess| && s.sess[d].lock == Some(t) :: HoldsSend(s.pcs[t], d))
  }

  // What a mutex may do when thread t goes from holding it or not (was) to holding it or not (now).
  predicate Hand(lock: Option<Tid>, lock': Option<Tid>, t: Tid, was: bool, now: bool) {
    if was && !now then lock' == None
    else if !was && now then lock == None && lock' == Some(t)
    else lock' == lock
  }

  lemma HandOver(s: State, s': State, t: Tid, pc: Pc)
    requires LocksOk(s) && t in s.pcs && |s'.sess| == |s.sess|
    requires s'.pcs == s.pcs[t := pc]
    requires Hand(s.reg, s'.reg, t, HoldsReg(s.pcs[t]), HoldsReg(pc))
    requires forall d | 0 <= d < |s.sess| ::
        Hand(s.sess[d].lock, s'.sess[d].lock, t, HoldsSend(s.pcs[t], d), HoldsSend(pc, d))
    requires forall d: nat | HoldsSend(pc, d) :: d < |s.sess|
    ensures LocksOk(s')
  {
    forall u | u in s'.pcs && s'.pcs[u].Writing? ensures HasItsLock(s', u, s'.pcs[u]) {
      var p := s'.pcs[u];
      if p.locked && p.jobs != [] {
        var d := p.jobs[0].to;
        assert HoldsSend(p, d);
        assert u != t ==> HasItsLock(s, u, s.pcs[u]);
        assert Hand(s.sess[d].lock, s'.sess[d].lock, t, HoldsSend(s.pcs[t], d), HoldsSend(pc, d));
        assert HoldsSend(s.pcs[t], d) ==> HasItsLock(s, t, s.pcs[t]);
      }
    }
  }

  // A step of t that keeps every send mutex and hands over the registry mutex as its program counter says.
  lemma Quiet(s: State, s': State, t: Tid, pc: Pc)
    requires LocksOk(s) && t in s.pcs && |s'.sess| == |s.sess|
    requires s'.pcs == s.pcs[t := pc] && !pc.Writing? && !s.pcs[t].Writing?
    requires Hand(s.reg, s'.reg, t, HoldsReg(s.pcs[t]), HoldsReg(pc))
    requires forall d | 0 <= d < |s.sess| :: s'.sess[d].lock == s.sess[d].lock
    ensures LocksOk(s')
  {
    HandOver(s, s', t, pc);
  }

  lemma AcceptLocks(s: State, fd: int, ip: string)
    requires Ok(s) && LocksOk(s)
    ensures LocksOk(Accept(s, fd, ip))
  {}

  lemma EnrolLocks(s: State, c: nat, name: string)
    requires Ok(s) && LocksOk(s) && c < |s.socks| && s.pcs[Handler(c)] == Inside(Enrol(name))
    ensures LocksOk(EnrolBody(s, c, name))
  {
    var s' := EnrolBody(s, c, name);
    Quiet(s, s', Handler(c), s'.pcs[Handler(c)]);
  }

  lemma LeaveLocks(s: State, c: nat)
    requires Ok(s) && LocksOk(s) && c < |s.socks| && s.pcs[Handler(c)] == Inside(Leave)
    ensures LocksOk(LeaveBody(s, c))
  {
    var s' := LeaveBody(s, c);
    Quiet(s, s', Handler(c), s'.pcs[Handler(c)]);
  }

  lemma SeekLocks(s: State, c: nat, me: nat, dest: string, text: string)
    requires Ok(s) && LocksOk(s) && c < |s.socks| && me < |s.sess| && s.pcs[Handler(c)] == Inside(Seek(me, dest, text))
    ensures LocksOk(SeekBody(s, c, me, dest, text))
  {
    var s' := SeekBody(s, c, me, dest, text);
    Quiet(s, s', Handler(c), s'.pcs[Handler(c)]);
  }

  lemma BodyLocks(s: State, t: Tid, sec: Section, order: seq<nat>, rows: seq<(string, Status)>)
    requires Ok(s) && LocksOk(s) && t in s.pcs && s.pcs[t] == Inside(sec) && SectionFor(t, sec, |s.socks|)
    ensures LocksOk(Body(s, t, sec, order, rows))
  {
    if sec.Enrol? {
      EnrolLocks(s, t.c, sec.name);
    } else if sec.Leave? {
      LeaveLocks(s, t.c);
    } else if sec.Seek? {
      SeekLocks(s, t.c, sec.me, sec.dest, sec.text);
    } else {
      var s' := Body(s, t, sec, order, rows);
      Quiet(s, s', t, s'.pcs[t]);
    }
  }

  // A step that takes no mutex and gives none back.
  ghost predicate NoHand(s: State, s': State, t: Tid) {
    && t in s'.pcs && s'.pcs == s.pcs[t := s'.pcs[t]] && !s'.pcs[t].Writing? && !HoldsReg(s'.pcs[t])
    && s'.reg == s.reg && |s'.sess| == |s.sess|
    && forall d | 0 <= d < |s.sess| :: s'.sess[d].lock == s.sess[d].lock
  }

  lemma DeliverShape(s: State, c: nat, me: nat, k: nat, d: nat)
    requires c < |s.hist| && k < |s.hist[c].dms| && d < |s.sess| && me < |s.sess|
    ensures NoHand(s, DeliverDm(s, c, me, k, d), Handler(c))
  {}

  lemma FieldShape(s: State, t: Tid)
    requires Ok(s) && t in s.pcs && FieldPc(s.pcs[t])
    ensures NoHand(s, Field(s, t), t)
  {
    assert PcFor(t, s.pcs[t], s.socks, s.hist);
    if s.pcs[t].Deliver? {
      DeliverShape(s, t.c, s.pcs[t].me, s.pcs[t].k, s.pcs[t].to);
    }
  }

  lemma FieldLocks(s: State, t: Tid)
    requires Ok(s) && LocksOk(s) && t in s.pcs && FieldPc(s.pcs[t])
    ensures LocksOk(Field(s, t))
  {
    FieldShape(s, t);
    Quiet(s, Field(s, t), t, Field(s, t).pcs[t]);
  }

  lemma TakeLocks(s: State, t: Tid)
    requires Ok(s) && LocksOk(s) && t in s.pcs && s.pcs[t].Sending? && s.pcs[t].jobs != []
    requires s.pcs[t].locked ==> s.sess[s.pcs[t].jobs[0].to].lock == None
    ensures LocksOk(Take(s, t, s.pcs[t].jobs, s.pcs[t].locked, s.pcs[t].after))
  {
    assert PcFor(t, s.pcs[t], s.socks, s.hist);
    var s' := Take(s, t, s.pcs[t].jobs, s.pcs[t].locked, s.pcs[t].after);
    HandOver(s, s', t, s'.pcs[t]);
  }

  lemma FinishLocks(s: State, t: Tid, failed: bool)
    requires Ok(s) && LocksOk(s) && t in s.pcs && s.pcs[t].Writing?
    ensures LocksOk(Finish(s, t, s.pcs[t].jobs, s.pcs[t].locked, s.pcs[t].after, failed))
  {
    assert PcFor(t, s.pcs[t], s.socks, s.hist);
    var s' := Finish(s, t, s.pcs[t].jobs, s.pcs[t].locked, s.pcs[t].after, failed);
    HandOver(s, s', t, s'.pcs[t]);
  }

  lemma PutLocks(env: Env, s: State, t: Tid, n: nat)
    requires Ok(s) && LocksOk(s) && CanSend(env, s, t, PutBytes(n))
    ensures LocksOk(Put(env, s, s.pcs[t].jobs[0].to, s.pcs[t].at, n))
  {
    HandOver(s, Put(env, s, s.pcs[t].jobs[0].to, s.pcs[t].at, n), t, s.pcs[t]);
  }

  lemma ResumeLocks(s: State, t: Tid)
    requires Ok(s) && LocksOk(s) && t in s.pcs && s.pcs[t].Sending?
    ensures LocksOk(Resume(s, t, s.pcs[t].after))
  {
    var s' := Resume(s, t, s.pcs[t].after);
    Quiet(s, s', t, s'.pcs[t]);
  }

  lemma SendLocks(env: Env, s: State, t: Tid, act: SendAct)
    requires Ok(s) && LocksOk(s) && CanSend(env, s, t, act)
    ensures LocksOk(DoSend(env, s, t, act))
  {
    match act {
      case TakeLock => TakeLocks(s, t);
      case PutBytes(n) => PutLocks(env, s, t, n);
      case Return => FinishLocks(s, t, false);
      case Break => FinishLocks(s, t, true);
      case NoMore => ResumeLocks(s, t);
    }
  }

  lemma SweepLocks(s: State, act: SweepAct)
    requires Ok(s) && LocksOk(s) && CanSweep(s, act)
    ensures LocksOk(DoSweep(s, act))
  {
    var s' := DoSweep(s, act);
    Quiet(s, s', Watchdog, s'.pcs[Watchdog]);
  }

  lemma MoveLocks(s: State, t: Tid, pc: Pc)
    requires Ok(s) && LocksOk(s) && t in s.pcs && !s.pcs[t].Writing? && !pc.Writing?
    requires !HoldsReg(s.pcs[t]) && !HoldsReg(pc)
    ensures LocksOk(SetPc(s, t, pc))
  {
    Quiet(s, SetPc(s, t, pc), t, pc);
  }

  lemma AcquireLocks(s: State, t: Tid)
    requires Ok(s) && LocksOk(s) && t in s.pcs && s.pcs[t].Waiting? && s.reg.None?
    ensures LocksOk(Acquire(s, t))
  {
    Quiet(s, Acquire(s, t), t, Inside(s.pcs[t].sec));
  }

  lemma EraseLocks(s: State, c: nat)
    requires Ok(s) && LocksOk(s) && c < |s.socks| && s.pcs[Handler(c)].Erasing?
    ensures LocksOk(EraseBody(s, c))
  {
    Quiet(s, EraseBody(s, c), Handler(c), Closing);
  }

  lemma CloseLocks(s: State, c: nat)
    requires Ok(s) && LocksOk(s) && c < |s.socks| && s.pcs[Handler(c)].Closing?
    ensures LocksOk(Close(s, c))
  {
    Quiet(s, Close(s, c), Handler(c), Closed);
  }

  // Every step keeps the lock discipline.
  lemma DoLocks(env: Env, s: State, e: Event)
    requires Ok(s) && LocksOk(s) && Can(env, s, e)
    ensures LocksOk(Do(env, s, e))
  {
    match e {
      case EvAccept(fd, ip) => AcceptLocks(s, fd, ip);
      case EvRequest(c, rq) => MoveLocks(s, Handler(c), Dispatch(c, rq));
      case EvHangUp(c) => MoveLocks(s, Handler(c), Waiting(Leave));
      case EvWake => MoveLocks(s, Watchdog, Waiting(Scan));
      case EvAcquire(t) => AcquireLocks(s, t);
      case EvBody(t, order, rows) =>
        assert PcFor(t, s.pcs[t], s.socks, s.hist);
        BodyLocks(s, t, s.pcs[t].sec, order, rows);
      case EvErase(c) => EraseLocks(s, c);
      case EvClose(c) => CloseLocks(s, c);
      case EvSend(t, act) => SendLocks(env, s, t, act);
      case EvField(t) => FieldLocks(s, t);
      case EvSweep(act) => SweepLocks(s, act);
    }
  }

  // ---------- waiting ----------

  // Thread t cannot go on until u lets go of a mutex.
  ghost predicate WaitsFor(s: State, t: Tid, u: Tid)
    requires Ok(s)
  {
    t in s.pcs &&
    ((s.pcs[t].Waiting? && s.reg == Some(u)) ||
     (s.pcs[t].Sending? && s.pcs[t].locked && s.pcs[t].jobs != [] && s.sess[s.pcs[t].jobs[0].to].lock == Some(u)))
  }

  // sessions_mutex_ is waited for with no mutex held, a send mutex at most with sessions_mutex_ held, and
  // nothing is waited for with a send mutex held.
  function Rank(pc: Pc): nat {
    if pc.Waiting? then 2 else if pc.Sending? then 1 else 0
  }

  lemma WaitingGoesDown(s: State, t: Tid, u: Tid)
    requires Ok(s) && LocksOk(s) && WaitsFor(s, t, u)
    ensures u in s.pcs && Rank(s.pcs[u]) < Rank(s.pcs[t])
  {
    if s.pcs[t].Waiting? {
      assert HoldsReg(s.pcs[u]);
    } else {
      assert HoldsSend(s.pcs[u], s.pcs[t].jobs[0].to);
    }
  }

  ghost predicate WaitChain(s: State, chain: seq<Tid>)
    requires Ok(s)
  {
    forall i | 0 <= i < |chain| - 1 :: WaitsFor(s, chain[i], chain[i + 1])
  }

  lemma {:induction false} ChainGoesDown(s: State, chain: seq<Tid>)
    requires Ok(s) && LocksOk(s) && |chain| >= 2 && WaitChain(s, chain)
    ensures chain[0] in s.pcs && chain[|chain| - 1] in s.pcs
    ensures Rank(s.pcs[chain[|chain| - 1]]) < Rank(s.pcs[chain[0]])
  {
    WaitingGoesDown(s, chain[0], chain[1]);
    if |chain| > 2 {
      var rest := chain[1..];
      forall i | 0 <= i < |rest| - 1 ensures WaitsFor(s, rest[i], rest[i + 1]) {
        assert WaitsFor(s, chain[i + 1], chain[i + 2]);
      }
      ChainGoesDown(s, rest);
    }
  }

  // The wait-for graph has no cycle of any length, whatever the number of threads.
  lemma NoWaitCycle(s: State, chain: seq<Tid>)
    requires Ok(s) && LocksOk(s) && |chain| >= 2 && WaitChain(s, chain)
    ensures chain[0] != chain[|chain| - 1]
  {
    ChainGoesDown(s, chain);
  }

  // Some event of thread t is possible. A ::send is taken to return, with bytes accepted or not.
  ghost predicate Moves(env: Env, s: State, t: Tid, e: Event)
    requires Ok(s)
  {
    Can(env, s, e) &&
    (match e
     case EvErase(c) => t == Handler(c)
     case EvBody(u, _, _) => t == u
     case EvSend(u, _) => t == u
     case EvSweep(_) => t == Watchdog
     case _ => false)
  }

  lemma {:induction false} Enumerate(cs: set<nat>) returns (order: seq<nat>)
    ensures forall c :: c in order <==> c in cs
    ensures forall i, j | 0 <= i < j < |order| :: order[i] != order[j]
    decreases cs
  {
    if cs == {} {
      order := [];
    } else {
      var c :| c in cs;
      var rest := Enumerate(cs - {c});
      order := [c] + rest;
    }
  }

  lemma SnapshotExists(s: State) returns (order: seq<nat>)
    requires Ok(s)
    ensures IsSnapshot(s, order)
  {
    var cs := set fd | fd in s.sessions && s.sess[s.sessions[fd]].alive :: s.sessions[fd];
    order := Enumerate(cs);
    assert forall c: nat :: c in cs <==>
        c < |s.sess| && s.sess[c].alive && exists fd | fd in s.sessions :: s.sessions[fd] == c;
  }

  // The holder of a send mutex is never waiting.
  lemma WriterMoves(env: Env, s: State, t: Tid)
    requires Ok(s) && t in s.pcs && s.pcs[t].Writing?
    ensures Moves(env, s, t, EvSend(t, Return)) || Moves(env, s, t, EvSend(t, Break))
  {
    assert PcFor(t, s.pcs[t], s.socks, s.hist);
  }

  // The holder of sessions_mutex_ moves, or waits for a send mutex whose holder moves.
  lemma RegistryHolderMoves(env: Env, s: State, t: Tid) returns (u: Tid, e: Event)
    requires Ok(s) && LocksOk(s) && t in s.pcs && HoldsReg(s.pcs[t])
    ensures Moves(env, s, u, e)
  {
    u := t;
    var pc := s.pcs[t];
    assert PcFor(t, pc, s.socks, s.hist);
    if pc.Inside? {
      var order := SnapshotExists(s);
      e := EvBody(t, order, []);
    } else if pc.Erasing? {
      e := EvErase(t.c);
    } else if pc.Sweep? {
      if pc.todo == {} {
        e := EvSweep(EndScan);
      } else {
        var c :| c in pc.todo;
        e := EvSweep(VisitOne(c, true));
      }
    } else if pc.Mark? {
      e := EvSweep(MarkOne);
    } else if pc.Writing? {
      WriterMoves(env, s, t);
      e := if Moves(env, s, t, EvSend(t, Return)) then EvSend(t, Return) else EvSend(t, Break);
    } else if pc.jobs == [] {
      e := EvSend(t, NoMore);
    } else if pc.locked && s.sess[pc.jobs[0].to].lock.Some? {
      u := s.sess[pc.jobs[0].to].lock.value;
      assert HoldsSend(s.pcs[u], pc.jobs[0].to);
      WriterMoves(env, s, u);
      e := if Moves(env, s, u, EvSend(u, Return)) then EvSend(u, Return) else EvSend(u, Break);
    } else {
      e := EvSend(t, TakeLock);
    }
  }

  // Whenever some thread waits for a mutex, some thread can step.
  lemma NoDeadlock(env: Env, s: State, t: Tid, u: Tid) returns (v: Tid, e: Event)
    requires Ok(s) && LocksOk(s) && WaitsFor(s, t, u)
    ensures Moves(env, s, v, e)
  {
    if s.pcs[t].Waiting? {
      v, e := RegistryHolderMoves(env, s, u);
    } else {
      assert HoldsSend(s.pcs[u], s.pcs[t].jobs[0].to);
      WriterMoves(env, s, u);
      v, e := u, if Moves(env, s, u, EvSend(u, Return)) then EvSend(u, Return) else EvSend(u, Break);
    }
  }
}
