/**
 The unlocked status fields. The handler writes `status` and then `manual_status`; the watchdog writes
 `status` at any moment in between. Also: every 602 is accounted for by one of those writes.
 */
module Statuses {
  import opened Protocol
  import opened Steps
  import opened Owners
  import opened Sessions
  import opened Calls

  // What `status` can be, given where the handler is between its two writes.
  predicate FieldsOk(e: Sess, pc: Pc) {
    match pc
    case SetManual(_, v) => e.status == v || e.status == INVISIBLE
    case RestoreManual(_, _) => e.status == ACTIVE || e.status == INVISIBLE
    case RestoreStatus(_, _) => e.status == INVISIBLE && e.manual != INVISIBLE
    case _ => e.status == e.manual || e.status == INVISIBLE
  }

  // One watchdog write not yet undone by a restoration.
  function Credit(e: Sess, pc: Pc): nat {
    var choice := match pc
      case SetManual(_, v) => v
      case RestoreManual(_, _) => ACTIVE
      case _ => e.manual;
    if e.status == INVISIBLE && choice != INVISIBLE then 1 else 0
  }

  predicate StatusOk(e: Sess, h: Hist, pc: Pc) {
    FieldsOk(e, pc) && h.restores + Credit(e, pc) <= h.marks
  }

  ghost predicate StatusesOk(s: State) {
    Domain(s) && forall c | 0 <= c < |s.socks| :: StatusOk(s.sess[c], s.hist[c], s.pcs[Handler(c)])
  }

  // Program counters at which the handler is not between two writes.
  predicate Settled(pc: Pc) {
    !pc.SetManual? && !pc.RestoreManual? && !pc.RestoreStatus?
  }

  predicate SameStatus(e: Sess, e': Sess, h: Hist, h': Hist) {
    e'.status == e.status && e'.manual == e.manual && h'.marks == h.marks && h'.restores == h.restores
  }

  // A step of t that touches no status field and keeps t settled.
  ghost predicate StatusQuiet(s: State, s': State, t: Tid)
    requires Domain(s)
  {
    && |s'.socks| == |s.socks| == |s'.sess| == |s'.hist| && t in s.pcs && t in s'.pcs && s'.pcs == s.pcs[t := s'.pcs[t]]
    && (forall c | 0 <= c < |s.socks| :: SameStatus(s.sess[c], s'.sess[c], s.hist[c], s'.hist[c]))
    && (s'.pcs[t] == s.pcs[t] || (Settled(s.pcs[t]) && Settled(s'.pcs[t])))
  }

  lemma StatusFrame(s: State, s': State, t: Tid)
    requires StatusesOk(s) && Domain(s') && StatusQuiet(s, s', t)
    ensures StatusesOk(s')
  {
    forall c | 0 <= c < |s'.socks| ensures StatusOk(s'.sess[c], s'.hist[c], s'.pcs[Handler(c)]) {
      assert StatusOk(s.sess[c], s.hist[c], s.pcs[Handler(c)]);
      assert SameStatus(s.sess[c], s'.sess[c], s.hist[c], s'.hist[c]);
    }
  }

  lemma GatherStatus(s: State, c: nat, me: nat, text: string, order: seq<nat>)
    requires Domain(s) && c < |s.socks| && s.pcs[Handler(c)].Inside? && me < |s.sess|
    ensures StatusQuiet(s, GatherBody(s, c, me, text, order), Handler(c))
  {}

  lemma SeekStatus(s: State, c: nat, me: nat, dest: string, text: string)
    requires Domain(s) && c < |s.socks| && s.pcs[Handler(c)].Inside? && me < |s.sess|
    ensures StatusQuiet(s, SeekBody(s, c, me, dest, text), Handler(c))
  {}

  lemma LeaveStatus(s: State, c: nat)
    requires Domain(s) && c < |s.socks| && s.pcs[Handler(c)].Inside?
    ensures StatusQuiet(s, LeaveBody(s, c), Handler(c))
  {}

  lemma SectionStatus(s: State, t: Tid, sec: Section, order: seq<nat>, rows: seq<(string, Status)>)
    requires Domain(s) && t in s.pcs && s.pcs[t].Inside? && SectionFor(t, sec, |s.socks|)
    requires (t.Handler? ==> t.c < |s.socks|)
    requires !sec.Enrol?
    ensures StatusQuiet(s, Body(s, t, sec, order, rows), t)
  {
    match sec {
      case Fetch(_) =>
      case Gather(me, text) => GatherStatus(s, t.c, me, text, order);
      case Seek(me, dest, text) => SeekStatus(s, t.c, me, dest, text);
      case Roll(_) =>
      case Inspect(_, _) =>
      case Scan =>
      case Leave => LeaveStatus(s, t.c);
    }
  }

  lemma EnrolFields(s: State, c: nat, name: string)
    requires Domain(s) && c < |s.socks| && s.pcs[Handler(c)].Inside?
    ensures var s' := EnrolBody(s, c, name);
            && s'.hist == s.hist && |s'.sess| == |s.sess| && s'.pcs == s.pcs[Handler(c) := s'.pcs[Handler(c)]]
            && Settled(s'.pcs[Handler(c)])
            && (forall d | 0 <= d < |s.sess| && d != c :: s'.sess[d] == s.sess[d])
            && (s'.sess[c] == s.sess[c] || s'.sess[c].status == s'.sess[c].manual == ACTIVE)
  {}

  lemma EnrolStatus(s: State, c: nat, name: string)
    requires StatusesOk(s) && c < |s.socks| && s.pcs[Handler(c)].Inside?
    requires Domain(EnrolBody(s, c, name))
    ensures StatusesOk(EnrolBody(s, c, name))
  {
    var s' := EnrolBody(s, c, name);
    EnrolFields(s, c, name);
    forall d | 0 <= d < |s'.socks| ensures StatusOk(s'.sess[d], s'.hist[d], s'.pcs[Handler(d)]) {
      assert StatusOk(s.sess[d], s.hist[d], s.pcs[Handler(d)]);
    }
  }

  lemma TakeStatus(env: Env, s: State, t: Tid)
    requires Ok(s) && CanSend(env, s, t, TakeLock)
    ensures StatusQuiet(s, Take(s, t, s.pcs[t].jobs, s.pcs[t].locked, s.pcs[t].after), t)
  {}

  lemma PutStatus(env: Env, s: State, t: Tid, n: nat)
    requires Ok(s) && CanSend(env, s, t, PutBytes(n))
    ensures StatusQuiet(s, Put(env, s, s.pcs[t].jobs[0].to, s.pcs[t].at, n), t)
  {}

  lemma FinishStatus(s: State, t: Tid, failed: bool)
    requires Ok(s) && t in s.pcs && s.pcs[t].Writing? && s.pcs[t].jobs != [] && s.pcs[t].jobs[0].to < |s.sess|
    ensures StatusQuiet(s, Finish(s, t, s.pcs[t].jobs, s.pcs[t].locked, s.pcs[t].after, failed), t)
  {}

  lemma ResumeStatus(s: State, t: Tid)
    requires Ok(s) && t in s.pcs && s.pcs[t].Sending?
    ensures StatusQuiet(s, Resume(s, t, s.pcs[t].after), t)
  {}

  lemma SendStatus(env: Env, s: State, t: Tid, act: SendAct)
    requires Ok(s) && CanSend(env, s, t, act)
    ensures StatusQuiet(s, DoSend(env, s, t, act), t)
  {
    assert PcFor(t, s.pcs[t], s.socks, s.hist);
    match act {
      case TakeLock => TakeStatus(env, s, t);
      case PutBytes(n) => PutStatus(env, s, t, n);
      case Return => FinishStatus(s, t, false);
      case Break => FinishStatus(s, t, true);
      case NoMore => ResumeStatus(s, t);
    }
  }

  // The handler's writes of the two fields, one at a time, on its own session.
  lemma RestoreWrites(s: State, c: nat, sec: Section)
    requires StatusesOk(s) && c < |s.socks|
    ensures s.pcs[Handler(c)].RestoreStatus? ==>
              var s' := Restore1(s, Handler(c), c, sec); Domain(s') ==> StatusesOk(s')
    ensures s.pcs[Handler(c)].RestoreManual? ==>
              var s' := Restore2(s, Handler(c), c, sec); Domain(s') ==> StatusesOk(s')
  {
    forall d | 0 <= d < |s.socks| ensures StatusOk(s.sess[d], s.hist[d], s.pcs[Handler(d)]) {}
  }

  lemma FirstWrite(s: State, c: nat, v: Status)
    requires StatusesOk(s) && c < |s.socks| && s.pcs[Handler(c)].SetStatus?
    ensures var s' := Change1(s, Handler(c), c, v); Domain(s') ==> StatusesOk(s')
  {
    forall d | 0 <= d < |s.socks| ensures StatusOk(s.sess[d], s.hist[d], s.pcs[Handler(d)]) {}
  }

  lemma SecondWrite(s: State, c: nat, v: Status)
    requires StatusesOk(s) && c < |s.socks| && s.pcs[Handler(c)].SetManual? && s.pcs[Handler(c)].v == v
    ensures var s' := Change2(s, Handler(c), c, v); Domain(s') ==> StatusesOk(s')
  {
    forall d | 0 <= d < |s.socks| ensures StatusOk(s.sess[d], s.hist[d], s.pcs[Handler(d)]) {}
  }

  lemma TestStatus(s: State, c: nat, sec: Section)
    requires StatusesOk(s) && c < |s.socks| && s.pcs[Handler(c)].RestoreTest?
    ensures var s' := Test(s, Handler(c), c, sec); Domain(s') ==> StatusesOk(s')
  {
    forall d | 0 <= d < |s.socks| ensures StatusOk(s.sess[d], s.hist[d], s.pcs[Handler(d)]) {}
  }

  lemma LookStatus(s: State, t: Tid)
    requires Ok(s) && t in s.pcs && (s.pcs[t].Deliver? || s.pcs[t].Describe?)
    ensures StatusQuiet(s, Field(s, t), t)
  {
    assert PcFor(t, s.pcs[t], s.socks, s.hist);
  }

  lemma FieldStatus(s: State, t: Tid)
    requires Ok(s) && StatusesOk(s) && t in s.pcs && FieldPc(s.pcs[t]) && Domain(Field(s, t))
    requires !s.pcs[t].Deliver? && !s.pcs[t].Describe? ==> t == Handler(s.pcs[t].me)
    ensures StatusesOk(Field(s, t))
  {
    assert PcFor(t, s.pcs[t], s.socks, s.hist);
    if s.pcs[t].Deliver? || s.pcs[t].Describe? {
      LookStatus(s, t);
      StatusFrame(s, Field(s, t), t);
    } else {
      match s.pcs[t] {
        case RestoreTest(me, sec) => TestStatus(s, me, sec);
        case RestoreStatus(me, sec) => RestoreWrites(s, me, sec);
        case RestoreManual(me, sec) => RestoreWrites(s, me, sec);
        case SetStatus(me, v) => FirstWrite(s, me, v);
        case SetManual(me, v) => SecondWrite(s, me, v);
      }
    }
  }

  lemma SweepStatus(s: State, act: SweepAct)
    requires Ok(s) && StatusesOk(s) && CanSweep(s, act) && Domain(DoSweep(s, act))
    ensures StatusesOk(DoSweep(s, act))
  {
    assert PcFor(Watchdog, s.pcs[Watchdog], s.socks, s.hist);
    var s' := DoSweep(s, act);
    forall c | 0 <= c < |s'.socks| ensures StatusOk(s'.sess[c], s'.hist[c], s'.pcs[Handler(c)]) {
      assert StatusOk(s.sess[c], s.hist[c], s.pcs[Handler(c)]);
    }
  }

  lemma OkDomain(s: State)
    requires Ok(s)
    ensures Domain(s)
  {}

  // Events that only move a thread, open or close a connection, or change the registry maps.
  predicate Plain(e: Event) {
    e.EvRequest? || e.EvHangUp? || e.EvWake? || e.EvAcquire? || e.EvErase? || e.EvClose?
  }

  lemma MoveStatus(s: State, s': State, t: Tid, pc: Pc)
    requires Ok(s) && t in s.pcs && Settled(s.pcs[t]) && Settled(pc) && s'.pcs == s.pcs[t := pc]
    requires s'.sess == s.sess && s'.hist == s.hist && |s'.socks| == |s.socks|
    ensures StatusQuiet(s, s', t)
  {}

  lemma EraseStatus(s: State, c: nat)
    requires Ok(s) && c < |s.socks| && s.pcs[Handler(c)].Erasing?
    ensures StatusQuiet(s, EraseBody(s, c), Handler(c))
  {}

  lemma PlainStatus(env: Env, s: State, e: Event)
    requires Ok(s) && Can(env, s, e) && Plain(e)
    ensures Domain(s) && StatusQuiet(s, Do(env, s, e), Actor(e))
  {
    match e {
      case EvErase(c) => EraseStatus(s, c);
      case EvClose(c) => MoveStatus(s, Close(s, c), Handler(c), Closed);
      case EvAcquire(t) => MoveStatus(s, Acquire(s, t), t, Inside(s.pcs[t].sec));
      case EvWake => MoveStatus(s, SetPc(s, Watchdog, Waiting(Scan)), Watchdog, Waiting(Scan));
      case EvHangUp(c) => MoveStatus(s, SetPc(s, Handler(c), Waiting(Leave)), Handler(c), Waiting(Leave));
      case EvRequest(c, rq) => MoveStatus(s, SetPc(s, Handler(c), Dispatch(c, rq)), Handler(c), Dispatch(c, rq));
    }
  }

  lemma SendEvent(env: Env, s: State, t: Tid, act: SendAct)
    requires Ok(s) && StatusesOk(s) && CanSend(env, s, t, act) && Domain(DoSend(env, s, t, act))
    ensures StatusesOk(DoSend(env, s, t, act))
  {
    SendStatus(env, s, t, act);
    StatusFrame(s, DoSend(env, s, t, act), t);
  }

  lemma FieldEvent(env: Env, s: State, t: Tid)
    requires Ok(s) && OwnOk(env, s) && StatusesOk(s) && t in s.pcs && FieldPc(s.pcs[t]) && Domain(Field(s, t))
    ensures StatusesOk(Field(s, t))
  {
    assert PcInv(env, s, t, s.pcs[t]);
    FieldStatus(s, t);
  }

  // The two-field invariant and the restoration bound survive every interleaving.
  lemma DoStatuses(env: Env, s: State, e: Event)
    requires Ok(s) && OwnOk(env, s) && StatusesOk(s) && Can(env, s, e)
    ensures StatusesOk(Do(env, s, e))
  {
    DoOk(env, s, e);
    OkDomain(Do(env, s, e));
    if Plain(e) {
      PlainStatus(env, s, e);
      StatusFrame(s, Do(env, s, e), Actor(e));
    } else {
      match e {
        case EvAccept(fd, ip) => AcceptStatus(s, fd, ip);
        case EvBody(t, order, rows) =>
          assert PcFor(t, s.pcs[t], s.socks, s.hist);
          BodyStatus(s, t, s.pcs[t].sec, order, rows);
        case EvSend(t, act) => SendEvent(env, s, t, act);
        case EvField(t) => FieldEvent(env, s, t);
        case EvSweep(act) => SweepStatus(s, act);
      }
    }
  }

  lemma BodyStatus(s: State, t: Tid, sec: Section, order: seq<nat>, rows: seq<(string, Status)>)
    requires StatusesOk(s) && t in s.pcs && s.pcs[t].Inside? && SectionFor(t, sec, |s.socks|)
    requires (t.Handler? ==> t.c < |s.socks|)
    requires Domain(Body(s, t, sec, order, rows))
    ensures StatusesOk(Body(s, t, sec, order, rows))
  {
    if sec.Enrol? {
      EnrolStatus(s, t.c, sec.name);
    } else {
      SectionStatus(s, t, sec, order, rows);
      StatusFrame(s, Body(s, t, sec, order, rows), t);
    }
  }

  lemma AcceptStatus(s: State, fd: int, ip: string)
    requires StatusesOk(s)
    ensures Domain(Accept(s, fd, ip)) ==> StatusesOk(Accept(s, fd, ip))
  {
    var s' := Accept(s, fd, ip);
    forall c | 0 <= c < |s'.socks|
      ensures Handler(c) in s'.pcs && StatusOk(s'.sess[c], s'.hist[c], s'.pcs[Handler(c)])
    {
      if c < |s.socks| { assert StatusOk(s.sess[c], s.hist[c], s.pcs[Handler(c)]); }
    }
  }

  // ---------- 602 notices ----------

  // The sessions the watchdog has marked and not yet started to notify.
  function Owed(pc: Pc): multiset<nat> {
    match pc
    case Sweep(_, marked) => multiset(marked)
    case Mark(_, _, marked) => multiset(marked)
    case _ => multiset(Targets(Todo(pc)))
  }

  function Targets(jobs: seq<Job>): (cs: seq<nat>)
    ensures |cs| == |jobs|
    ensures forall i | 0 <= i < |jobs| :: cs[i] == jobs[i].to
  {
    seq(|jobs|, i requires 0 <= i < |jobs| => jobs[i].to)
  }

  // 602 calls started plus notices owed are the watchdog's INVISIBLE writes to that session.
  ghost predicate NoticeOk(s: State, c: nat)
    requires Domain(s) && Watchdog in s.pcs && c < |s.socks|
  {
    |Issued(s.socks[c].log, Watchdog)| + Owed(s.pcs[Watchdog])[c] == s.hist[c].marks
  }

  ghost predicate NoticesOk(s: State) {
    Domain(s) && Watchdog in s.pcs && forall c | 0 <= c < |s.socks| :: NoticeOk(s, c)
  }

  // How a step changes the watchdog's debts: it marks c, or it starts the notice it owes.
  lemma EndSweepOwed(s: State, marked: seq<nat>)
    ensures Watchdog in EndSweep(s, marked).pcs && Owed(EndSweep(s, marked).pcs[Watchdog]) == multiset(marked)
  {
    assert Targets(NoticeJobs(marked)) == marked;
  }

  lemma MarkIdleOwed(s: State, d: nat, todo: set<nat>, marked: seq<nat>)
    requires d < |s.sess| == |s.hist|
    ensures var s' := MarkIdle(s, d, todo, marked);
            && Watchdog in s'.pcs && Owed(s'.pcs[Watchdog]) == multiset(marked) + multiset{d}
            && |s'.hist| == |s.hist|
            && forall c | 0 <= c < |s.hist| :: s'.hist[c].marks == s.hist[c].marks + if c == d then 1 else 0
  {
    assert multiset(marked + [d]) == multiset(marked) + multiset{d};
  }

  lemma VisitOwed(s: State, d: nat, idle: bool, todo: set<nat>, marked: seq<nat>)
    requires d < |s.sess|
    ensures var s' := Visit(s, d, idle, todo, marked);
            Watchdog in s'.pcs && Owed(s'.pcs[Watchdog]) == multiset(marked) && s'.hist == s.hist
  {}

  lemma SweepNotices(s: State, act: SweepAct, c: nat)
    requires Ok(s) && CanSweep(s, act) && c < |s.socks|
    ensures var s' := DoSweep(s, act);
            && Watchdog in s'.pcs && c < |s'.hist|
            && Owed(s'.pcs[Watchdog])[c] + s.hist[c].marks == Owed(s.pcs[Watchdog])[c] + s'.hist[c].marks
  {
    var pc := s.pcs[Watchdog];
    assert PcFor(Watchdog, pc, s.socks, s.hist);
    match act {
      case EndScan => EndSweepOwed(s, pc.marked);
      case MarkOne => MarkIdleOwed(s, pc.c, pc.todo, pc.marked);
      case VisitOne(d, idle) => VisitOwed(s, d, idle, pc.todo, pc.marked);
    }
  }

  lemma OwedSplit(jobs: seq<Job>)
    requires jobs != []
    ensures multiset(Targets(jobs)) == multiset{jobs[0].to} + multiset(Targets(jobs[1..]))
  {
    assert Targets(jobs) == [jobs[0].to] + Targets(jobs[1..]);
  }

  // The debt a thread's program counter carries, before and after one step of a send.
  lemma SendTodo(env: Env, s: State, t: Tid, act: SendAct)
    requires Ok(s) && CanSend(env, s, t, act)
    ensures var pc' := DoSend(env, s, t, act).pcs[t];
            && !pc'.Sweep? && !pc'.Mark? && !s.pcs[t].Sweep? && !s.pcs[t].Mark?
            && (act.TakeLock? ==> s.pcs[t].Sending? && s.pcs[t].jobs != [] && Todo(pc') == s.pcs[t].jobs[1..])
            && (!act.TakeLock? ==> Todo(pc') == Todo(s.pcs[t]))
  {
    assert PcFor(t, s.pcs[t], s.socks, s.hist);
  }

  lemma WatchdogSend(env: Env, s: State, act: SendAct, c: nat)
    requires Ok(s) && CanSend(env, s, Watchdog, act) && c < |s.socks|
    ensures var s' := DoSend(env, s, Watchdog, act);
            && Watchdog in s'.pcs
            && Owed(s'.pcs[Watchdog])[c] + |NewCall(s, EvSend(Watchdog, act), Watchdog, c)| == Owed(s.pcs[Watchdog])[c]
  {
    SendStatus(env, s, Watchdog, act);
    SendTodo(env, s, Watchdog, act);
    if act.TakeLock? { OwedSplit(s.pcs[Watchdog].jobs); }
  }

  // No one else marks sessions or notifies them.
  ghost predicate NoticeQuiet(s: State, s': State, c: nat)
    requires Watchdog in s.pcs && c < |s.hist|
  {
    && Watchdog in s'.pcs && c < |s'.hist| && s'.hist[c].marks == s.hist[c].marks
    && Owed(s'.pcs[Watchdog]) == Owed(s.pcs[Watchdog])
  }

  lemma HandlerNotices(env: Env, s: State, e: Event, c: nat)
    requires Ok(s) && Can(env, s, e) && (e.EvRequest? || e.EvHangUp? || e.EvErase? || e.EvClose? || e.EvAccept?)
    requires c < |s.socks|
    ensures NoticeQuiet(s, Do(env, s, e), c)
  {
    var s' := Do(env, s, e);
    assert Watchdog in s'.pcs && s'.pcs[Watchdog] == s.pcs[Watchdog];
    assert s'.hist[c] == s.hist[c];
  }

  lemma PlainNotices(env: Env, s: State, e: Event, c: nat)
    requires Ok(s) && Can(env, s, e) && (Plain(e) || e.EvAccept?) && c < |s.socks|
    ensures NoticeQuiet(s, Do(env, s, e), c)
  {
    if !e.EvAcquire? && !e.EvWake? {
      HandlerNotices(env, s, e, c);
    }
  }

  lemma OthersNotices(env: Env, s: State, e: Event, c: nat)
    requires Ok(s) && Can(env, s, e) && c < |s.socks| && !e.EvSweep? && !(e.EvSend? && e.t == Watchdog)
    ensures NoticeQuiet(s, Do(env, s, e), c) && NewCall(s, e, Watchdog, c) == []
  {
    match e {
      case EvBody(t, order, rows) =>
        assert PcFor(t, s.pcs[t], s.socks, s.hist);
        SectionMarks(s, t, s.pcs[t].sec, order, rows, c);
      case EvSend(t, act) =>
        SendStatus(env, s, t, act);
        assert SameStatus(s.sess[c], DoSend(env, s, t, act).sess[c], s.hist[c], DoSend(env, s, t, act).hist[c]);
      case EvField(t) => FieldMarks(s, t, c);
      case _ => PlainNotices(env, s, e, c);
    }
  }

  lemma SectionMarks(s: State, t: Tid, sec: Section, order: seq<nat>, rows: seq<(string, Status)>, c: nat)
    requires Domain(s) && Watchdog in s.pcs && t in s.pcs && s.pcs[t].Inside? && SectionFor(t, sec, |s.socks|)
    requires (t.Handler? ==> t.c < |s.socks|) && c < |s.socks|
    ensures var s' := Body(s, t, sec, order, rows);
            && Watchdog in s'.pcs && c < |s'.hist| && s'.hist[c].marks == s.hist[c].marks
            && (if sec.Scan? then Owed(s'.pcs[Watchdog]) == multiset{} else s'.pcs[Watchdog] == s.pcs[Watchdog])
  {
    match sec {
      case Enrol(_) =>
      case Fetch(_) =>
      case Gather(_, _) =>
      case Seek(_, _, _) =>
      case Roll(_) =>
      case Inspect(_, _) =>
      case Scan =>
      case Leave =>
    }
  }

  lemma FieldMarks(s: State, t: Tid, c: nat)
    requires Ok(s) && t in s.pcs && FieldPc(s.pcs[t]) && c < |s.socks|
    ensures var s' := Field(s, t);
            && t.Handler? && Watchdog in s'.pcs && s'.pcs[Watchdog] == s.pcs[Watchdog]
            && c < |s'.hist| && s'.hist[c].marks == s.hist[c].marks
  {
    assert PcFor(t, s.pcs[t], s.socks, s.hist);
  }

  // Every notice is owed by exactly one write, whatever the interleaving.
  lemma DoNotices(env: Env, s: State, e: Event)
    requires Ok(s) && NoticesOk(s) && Can(env, s, e)
    ensures NoticesOk(Do(env, s, e))
  {
    DoOk(env, s, e);
    var s' := Do(env, s, e);
    OkDomain(s');
    forall c | 0 <= c < |s'.socks| ensures NoticeOk(s', c) {
      if c < |s.socks| {
        assert NoticeOk(s, c);
        StepCalls(env, s, e, Watchdog, c);
        if e.EvSweep? {
          SweepNotices(s, e.sweep, c);
        } else if e.EvSend? && e.t == Watchdog {
          WatchdogSend(env, s, e.act, c);
          SendStatus(env, s, Watchdog, e.act);
          assert SameStatus(s.sess[c], s'.sess[c], s.hist[c], s'.hist[c]);
        } else {
          OthersNotices(env, s, e, c);
        }
      } else {
        FreshNotices(env, s, e, c);
      }
    }
  }

  ghost predicate OwedBelow(s: State) {
    Watchdog in s.pcs && forall c | c in Owed(s.pcs[Watchdog]) :: c < |s.socks|
  }

  lemma WatchdogInRange(s: State)
    requires Ok(s)
    ensures OwedBelow(s)
  {
    var pc := s.pcs[Watchdog];
    assert PcFor(Watchdog, pc, s.socks, s.hist);
  }

  lemma FreshNotices(env: Env, s: State, e: Event, c: nat)
    requires Ok(s) && Can(env, s, e) && |s.socks| <= c < |Do(env, s, e).socks| && Domain(Do(env, s, e))
    ensures Watchdog in Do(env, s, e).pcs && NoticeOk(Do(env, s, e), c)
  {
    WatchdogInRange(s);
    if !e.EvAccept? { Lengths(env, s, e); }
  }
}
