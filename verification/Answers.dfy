/**
 Every request is answered as module Requests says, whatever the threads do meanwhile. Notes are kept beside the
 server's state, of the requests each handler has read and of what there was to see while it served them; every step
 keeps the calls made and the calls to come equal to the answer due.
 */
module Answers {
  import opened Framing
  import opened Protocol
  import opened Requests
  import opened Steps
  import opened Locks
  import opened Owners
  import opened Calls
  import opened Casts
  import opened Dms
  import R = Registry

  // ---------- the notes ----------

  /** A handler's notes: the requests it is through with, and the last one it has read. */
  datatype Book = Book(done: seq<Ask>, now: Option<Ask>)

  const NO_NOTES := Book([], None)

  function All(b: Book): seq<Ask> {
    if b.now.Some? then b.done + [b.now.value] else b.done
  }

  function IdOf(s: State, c: nat): Who
    requires c < |s.socks| && c < |s.sess|
  {
    Who(c, s.socks[c].fd, s.sess[c].name, s.socks[c].ip)
  }

  function Everybody(s: State): (users: set<Who>)
    requires Shaped(s)
  {
    set fd | fd in s.sessions :: IdOf(s, s.sessions[fd])
  }

  function CallOf(j: Job): Call {
    Call(j.to, j.frame)
  }

  function CallsOf(jobs: seq<Job>): (calls: seq<Call>)
    ensures |calls| == |jobs| && forall i | 0 <= i < |jobs| :: calls[i] == CallOf(jobs[i])
  {
    seq(|jobs|, i requires 0 <= i < |jobs| => CallOf(jobs[i]))
  }

  function NewAsk(s: State, c: nat, rq: Request): Ask
    requires c < |s.socks| && c < |s.sess|
  {
    Ask(rq, IdOf(s, c), s.sess[c].made, None, None, None, None, None, [])
  }

  function NoteSection(s: State, r: Ask, sec: Section, rows: seq<(string, Status)>): Ask
    requires Shaped(s)
  {
    if sec.Enrol? || sec.Gather? || sec.Seek? || sec.Inspect? then r.(users := Some(Everybody(s)))
    else if sec.Roll? then r.(rows := Some(rows))
    else r
  }

  function NoteField(s: State, r: Ask, pc: Pc): Ask
    requires pc.RestoreTest? ==> pc.me < |s.sess|
    requires pc.Deliver? ==> pc.to < |s.sess|
    requires pc.Describe? ==> pc.of < |s.sess|
  {
    match pc
    case RestoreTest(me, _) => r.(auto := Some(s.sess[me].status == INVISIBLE && s.sess[me].manual != INVISIBLE))
    case Deliver(_, _, to) => r.(live := Some(s.sess[to].alive))
    case Describe(_, of) => r.(status := Some(s.sess[of].status))
    case _ => r
  }

  // What a handler's own event adds to the note on the request it serves.
  ghost function Note(env: Env, s: State, r: Ask, e: Event): Ask
    requires Ok(s) && Can(env, s, e)
  {
    match e
    case EvBody(t, _, rows) => NoteSection(s, r, s.pcs[t].sec, rows)
    case EvField(t) => assert PcFor(t, s.pcs[t], s.socks, s.hist); NoteField(s, r, s.pcs[t])
    case EvSend(t, act) => if act.TakeLock? then r.(calls := r.calls + [CallOf(s.pcs[t].jobs[0])]) else r
    case _ => r
  }

  // One handler's notes after an event of its own.
  ghost function OwnNotes(env: Env, s: State, b: Book, e: Event): Book
    requires Ok(s) && Can(env, s, e)
  {
    if e.EvRequest? then Book(All(b), Some(NewAsk(s, e.c, e.rq)))
    else if b.now.None? then b
    else b.(now := Some(Note(env, s, b.now.value, e)))
  }

  // Everybody's notes after an event.
  ghost function Notes(env: Env, s: State, books: seq<Book>, e: Event): (books': seq<Book>)
    requires Ok(s) && Can(env, s, e) && |books| == |s.socks|
    ensures |books'| == |books| + (if e.EvAccept? then 1 else 0)
    ensures forall c | 0 <= c < |books| ::
              books'[c] == if Actor(e) == Handler(c) && !e.EvAccept? then OwnNotes(env, s, books[c], e) else books[c]
  {
    if e.EvAccept? then books + [NO_NOTES]
    else if Actor(e).Handler? then books[Actor(e).c := OwnNotes(env, s, books[Actor(e).c], e)]
    else books
  }

  // ---------- one handler: where it is, and the request it serves ----------

  predicate AfterEarly(after: After) {
    after.Then? && !after.sec.Leave?
  }

  // There is more to do for the request than the sends already queued.
  predicate Early(pc: Pc) {
    match pc
    case Waiting(sec) => !sec.Leave?
    case Inside(sec) => !sec.Leave?
    case Sending(_, _, after) => AfterEarly(after)
    case Writing(_, _, _, after) => AfterEarly(after)
    case RestoreTest(_, _) => true
    case RestoreStatus(_, _) => true
    case RestoreManual(_, _) => true
    case SetStatus(_, _) => true
    case SetManual(_, _) => true
    case Deliver(_, _, _) => true
    case Describe(_, _) => true
    case _ => false
  }

  predicate SectionServes(c: nat, sec: Section, r: Ask) {
    match sec
    case Enrol(name) => name != "" && r.rq == Register(Some(name))
    case Fetch(rq) => r.rq == rq && !rq.Register? && !rq.Unknown? && r.auto.None?
    case Gather(me, text) => me == c && r.member && r.rq == MessageGeneral(Some(text))
    case Seek(me, dest, text) => me == c && r.member && r.rq == MessageDm(Some((dest, text)))
    case Roll(me) => me == c && r.member && r.rq == ListUsers(true)
    case Inspect(me, target) => me == c && r.member && r.rq == GetUserInfo(Some(target))
    case Scan => false
    case Leave => true
  }

  predicate MessageServes(c: nat, me: nat, sec: Section, r: Ask) {
    me == c && (sec.Gather? || sec.Seek?) && SectionServes(c, sec, r)
  }

  // A message's critical section comes after the test for an automatic INVISIBLE.
  predicate Tested(sec: Section, r: Ask) {
    sec.Gather? || sec.Seek? ==> r.auto.Some?
  }

  predicate ChangeServes(c: nat, me: nat, v: Status, r: Ask) {
    me == c && r.member && r.rq.ChangeStatus? && r.rq.value.Some? && StatusOf(r.rq.value.value) == Some(v)
  }

  // The handler is where the request takes it.
  predicate PcServes(c: nat, pc: Pc, r: Ask) {
    match pc
    case Waiting(sec) => SectionServes(c, sec, r) && Tested(sec, r)
    case Inside(sec) => SectionServes(c, sec, r) && Tested(sec, r)
    case Sending(_, _, after) => AfterEarly(after) ==> MessageServes(c, c, after.sec, r) && r.auto.Some?
    case Writing(_, _, _, after) => AfterEarly(after) ==> MessageServes(c, c, after.sec, r) && r.auto.Some?
    case RestoreTest(me, sec) => MessageServes(c, me, sec, r) && r.auto.None?
    case RestoreStatus(me, sec) => MessageServes(c, me, sec, r) && Auto(r)
    case RestoreManual(me, sec) => MessageServes(c, me, sec, r) && Auto(r)
    case SetStatus(me, v) => ChangeServes(c, me, v, r)
    case SetManual(me, v) => ChangeServes(c, me, v, r)
    case Deliver(me, _, to) =>
      me == c && IsDm(r) && r.auto.Some? && r.users.Some? && Holds(Users(r), to, r.rq.dm.value.0)
    case Describe(me, of) =>
      me == c && r.member && r.rq.GetUserInfo? && r.rq.target.Some? && r.users.Some? &&
      Holds(Users(r), of, r.rq.target.value)
    case _ => true
  }

  // The calls due before the main ones.
  function Sofar(pc: Pc, r: Ask): seq<Call> {
    if pc.RestoreStatus? || pc.RestoreManual? then [] else Restored(r)
  }

  // The calls made and queued are what is due at this point, or the whole answer.
  ghost predicate AsDue(pc: Pc, r: Ask, calls: seq<Call>) {
    if Early(pc) then calls == Sofar(pc, r) else Answered(r, calls) == true
  }

  // The handler is where the request takes it, and has called what is due. (Two parts are put as equations, so that
  // lemmas hand them on whole.)
  ghost predicate OnCourse(c: nat, pc: Pc, r: Ask) {
    && r.from.conn == c && PcServes(c, pc, r) == true
    && (r.auto.Some? ==> IsCast(r) || IsDm(r)) && (Early(pc) ==> !Live(r))
    && AsDue(pc, r, r.calls + CallsOf(Todo(pc)))
  }

  ghost predicate Finished(c: nat, r: Ask) {
    r.from.conn == c && Answered(r, r.calls)
  }

  // A step that queues nothing and notes nothing.
  predicate PcQuiet(c: nat, pc: Pc, pc': Pc, r: Ask) {
    && Todo(pc') == Todo(pc) && Early(pc') == Early(pc) && Sofar(pc', r) == Sofar(pc, r)
    && (PcServes(c, pc, r) ==> PcServes(c, pc', r))
  }

  lemma OnCourseTake(c: nat, pc: Pc, r: Ask, pc': Pc)
    requires OnCourse(c, pc, r) && pc.Sending? && pc.jobs != []
    requires pc'.Writing? && pc'.jobs == pc.jobs && pc'.after == pc.after
    ensures OnCourse(c, pc', r.(calls := r.calls + [CallOf(pc.jobs[0])]))
  {
    var r' := r.(calls := r.calls + [CallOf(pc.jobs[0])]);
    assert r'.calls + CallsOf(Todo(pc')) == r.calls + CallsOf(Todo(pc));
    if !Early(pc) { SameAnswer(r, r', r.calls + CallsOf(Todo(pc))); }
  }

  // Which calls were made already is no part of what a request is to be answered with.
  lemma SameAnswer(r: Ask, r': Ask, calls: seq<Call>)
    requires r' == r.(calls := r'.calls) && Answered(r, calls)
    ensures Answered(r', calls)
  {}

  // ---------- critical sections ----------

  lemma OneCall(j: Job)
    ensures CallsOf([j]) == [CallOf(j)]
  {}

  lemma Alone(calls: seq<Call>, j: Job)
    requires calls == []
    ensures calls + CallsOf([j]) == [CallOf(j)]
  {
    OneCall(j);
  }

  lemma After(calls: seq<Call>, j: Job)
    ensures calls + CallsOf([j]) == calls + [CallOf(j)]
  {
    OneCall(j);
  }

  // Who a note is about is who it says, for good.
  ghost predicate IsWho(s: State, u: Who) {
    && 0 <= u.conn < |s.socks| && u.conn < |s.sess| && s.sess[u.conn].made
    && u.name == s.sess[u.conn].name && u.fd == s.socks[u.conn].fd && u.ip == s.socks[u.conn].ip
  }

  ghost predicate Truthful(s: State, c: nat, r: Ask) {
    && c < |s.socks| && r.from.conn == c && r.from.fd == s.socks[c].fd && r.from.ip == s.socks[c].ip
    && (r.member ==> IsWho(s, r.from)) && (r.auto.Some? ==> r.member)
    && (forall u | u in Users(r) :: IsWho(s, u))
  }

  lemma EverybodyIs(s: State)
    requires LivesOk(s)
    ensures forall u | u in Everybody(s) :: IsWho(s, u)
  {
    forall u | u in Everybody(s) ensures IsWho(s, u) {
      var fd :| fd in s.sessions && IdOf(s, s.sessions[fd]) == u;
      assert SessionOk(s, fd);
    }
  }

  lemma InEverybody(s: State, fd: int)
    requires Shaped(s) && fd in s.sessions
    ensures IdOf(s, s.sessions[fd]) in Everybody(s)
  {}

  // The set of triples of module Registry, seen from the threads.
  lemma EverybodysTriples(s: State)
    requires LivesOk(s)
    ensures Triples(Everybody(s)) == R.Triples(Regs(s))
  {
    var us := Everybody(s);
    forall x: R.Triple ensures x in Triples(us) <==> x in R.Triples(Regs(s)) {
      if x in Triples(us) {
        var u :| u in us && x == R.Triple(u.fd, u.name, u.ip);
        var fd :| fd in s.sessions && IdOf(s, s.sessions[fd]) == u;
        assert SessionOk(s, fd);
        assert Regs(s).users[fd] == UserOf(s, fd);
      }
      if x in R.Triples(Regs(s)) {
        assert Regs(s).users[x.fd] == UserOf(s, x.fd) && SessionOk(s, x.fd);
        InEverybody(s, x.fd);
      }
    }
  }

  lemma FetchServes(s: State, c: nat, rq: Request, r: Ask)
    requires LivesOk(s) && c < |s.socks| && s.pcs[Handler(c)] == Inside(Fetch(rq))
    requires OnCourse(c, Inside(Fetch(rq)), r) && r.member == s.sess[c].made
    ensures Handler(c) in FetchBody(s, c, rq).pcs && OnCourse(c, FetchBody(s, c, rq).pcs[Handler(c)], r)
  {
    OwnSession(s, c);
    var pc' := FetchBody(s, c, rq).pcs[Handler(c)];
    assert r.calls == [];
    if pc'.Sending? {
      Alone(r.calls, pc'.jobs[0]);
      assert pc'.jobs == [pc'.jobs[0]];
    }
  }

  lemma EnrolCode(s: State, c: nat, name: string)
    requires RegOk(s) && c < |s.socks| && Active(s.pcs[Handler(c)])
    ensures var code := R.SetJoin(Triples(Everybody(s)), s.socks[c].fd, name, s.socks[c].ip).1;
            var s' := EnrolBody(s, c, name);
            && Handler(c) in s'.pcs && s'.pcs[Handler(c)].Sending?
            && s'.pcs[Handler(c)].jobs == [Job(c, Reply(code), Plain)] && s'.pcs[Handler(c)].after == Unlock
  {
    OwnSession(s, c);
    EverybodysTriples(s);
    R.JoinRefines(Regs(s), s.socks[c].fd, name, s.socks[c].ip);
  }

  lemma EnrolTriples(s: State, c: nat, name: string)
    requires RegOk(s) && c < |s.socks| && s.pcs[Handler(c)] == Inside(Enrol(name))
    ensures Shaped(EnrolBody(s, c, name))
    ensures R.Triples(Regs(EnrolBody(s, c, name)))
            == R.SetJoin(R.Triples(Regs(s)), s.socks[c].fd, name, s.socks[c].ip).0
  {
    R.JoinRefines(Regs(s), s.socks[c].fd, name, s.socks[c].ip);
    if R.Join(Regs(s), s.socks[c].fd, name, s.socks[c].ip).1 == OK_REGISTER {
      EnrolRegs(s, c, name);
    } else {
      SameRegs(s, EnrolBody(s, c, name));
    }
  }

  lemma EnrolServes(s: State, c: nat, name: string, r: Ask)
    requires RegOk(s) && c < |s.socks| && s.pcs[Handler(c)] == Inside(Enrol(name)) && Truthful(s, c, r)
    requires OnCourse(c, Inside(Enrol(name)), r)
    ensures Handler(c) in EnrolBody(s, c, name).pcs
    ensures OnCourse(c, EnrolBody(s, c, name).pcs[Handler(c)], r.(users := Some(Everybody(s))))
  {
    EnrolCode(s, c, name);
    var pc' := EnrolBody(s, c, name).pcs[Handler(c)];
    assert r.calls == [];
    Alone(r.calls, pc'.jobs[0]);
  }

  lemma SnapshotCalls(s: State, c: nat, order: seq<nat>, f: Frame, k: nat)
    requires LocksOk(s) && LivesOk(s) && c < |s.socks| && s.pcs[Handler(c)].Inside? && IsSnapshot(s, order)
    ensures ToEverybody(Everybody(s), f, CallsOf(CastJobs(order, f, k)))
  {
    var calls := CallsOf(CastJobs(order, f, k));
    SnapshotIsEverybody(s, c, order);
    forall i | 0 <= i < |calls| ensures calls[i].frame == f && Has(Everybody(s), calls[i].to) {
      assert order[i] in order && order[i] in AllSessions(s);
      var fd :| fd in s.sessions && s.sessions[fd] == order[i];
      InEverybody(s, fd);
    }
    forall u | u in Everybody(s) ensures Call(u.conn, f) in calls {
      var fd :| fd in s.sessions && IdOf(s, s.sessions[fd]) == u;
      assert s.sessions[fd] in order;
      var i :| 0 <= i < |order| && order[i] == s.sessions[fd];
      assert calls[i] == Call(u.conn, f);
    }
  }

  lemma GatherServes(s: State, c: nat, text: string, order: seq<nat>, r: Ask)
    requires LocksOk(s) && LivesOk(s) && c < |s.socks| && s.pcs[Handler(c)] == Inside(Gather(c, text))
    requires IsSnapshot(s, order) && Truthful(s, c, r) && OnCourse(c, Inside(Gather(c, text)), r)
    ensures Handler(c) in GatherBody(s, c, c, text, order).pcs
    ensures OnCourse(c, GatherBody(s, c, c, text, order).pcs[Handler(c)], r.(users := Some(Everybody(s))))
  {
    var f := BroadcastDelivery(text, s.sess[c].name);
    var jobs := CastJobs(order, f, |s.hist[c].casts|);
    SnapshotCalls(s, c, order, f, |s.hist[c].casts|);
    var r' := r.(users := Some(Everybody(s)));
    assert r.calls == Restored(r');
    assert (r.calls + CallsOf(jobs))[|Restored(r')|..] == CallsOf(jobs);
  }

  // The two-step lookup, seen from the threads: it finds exactly who is known by the name.
  lemma HolderIsKnown(s: State, name: string)
    requires RegOk(s)
    ensures Holder(s, name).Some? <==> Known(Everybody(s), name)
    ensures Holder(s, name).Some? ==> IdOf(s, Holder(s, name).value) in Everybody(s)
    ensures Holder(s, name).Some? ==> Holds(Everybody(s), Holder(s, name).value, name)
    ensures Holder(s, name).Some? <==> Present(s, name)
  {
    LookupAgrees(s, name);
    if Holder(s, name).Some? {
      InEverybody(s, s.names[name]);
    }
    if Known(Everybody(s), name) {
      var u :| u in Everybody(s) && u.name == name;
      var fd :| fd in s.sessions && IdOf(s, s.sessions[fd]) == u;
      assert s.sess[s.sessions[fd]].name == name;
    }
  }

  lemma SeekFinds(c: nat, dest: string, text: string, r: Ask, users: set<Who>, k: nat, d: nat)
    requires OnCourse(c, Inside(Seek(c, dest, text)), r) && Holds(users, d, dest)
    ensures OnCourse(c, Deliver(c, k, d), r.(users := Some(users)))
  {}

  lemma SeekMisses(c: nat, dest: string, text: string, r: Ask, users: set<Who>, k: nat)
    requires OnCourse(c, Inside(Seek(c, dest, text)), r) && !Known(users, dest)
    ensures OnCourse(c, Sending([Job(c, Reply(USER_NOT_FOUND), Dm(k))], true, Loop), r.(users := Some(users)))
  {
    After(r.calls, Job(c, Reply(USER_NOT_FOUND), Dm(k)));
  }

  lemma SeekServes(s: State, c: nat, dest: string, text: string, r: Ask)
    requires RegOk(s) && c < |s.socks| && OnCourse(c, Inside(Seek(c, dest, text)), r)
    ensures Handler(c) in SeekBody(s, c, c, dest, text).pcs
    ensures var pc' := SeekBody(s, c, c, dest, text).pcs[Handler(c)];
            && OnCourse(c, pc', r.(users := Some(Everybody(s))))
            && (pc'.Deliver? || (pc'.Sending? && pc'.after == Loop))
  {
    HolderIsKnown(s, dest);
    match Holder(s, dest)
    case Some(d) => SeekFinds(c, dest, text, r, Everybody(s), |s.hist[c].dms|, d);
    case None => SeekMisses(c, dest, text, r, Everybody(s), |s.hist[c].dms|);
  }

  lemma RollServes(s: State, c: nat, rows: seq<(string, Status)>, r: Ask)
    requires c < |s.socks| && OnCourse(c, Inside(Roll(c)), r)
    ensures OnCourse(c, RollBody(s, c, c, rows).pcs[Handler(c)], r.(rows := Some(rows)))
  {
    Alone(r.calls, Job(c, AllUsers(rows), Plain));
  }

  lemma InspectFinds(c: nat, target: string, r: Ask, users: set<Who>, d: nat)
    requires OnCourse(c, Inside(Inspect(c, target)), r) && Holds(users, d, target)
    ensures OnCourse(c, Describe(c, d), r.(users := Some(users)))
  {}

  lemma InspectMisses(c: nat, target: string, r: Ask, users: set<Who>)
    requires OnCourse(c, Inside(Inspect(c, target)), r) && !Known(users, target)
    ensures OnCourse(c, Sending([Job(c, Reply(USER_NOT_FOUND), Plain)], true, Loop), r.(users := Some(users)))
  {
    Alone(r.calls, Job(c, Reply(USER_NOT_FOUND), Plain));
  }

  lemma InspectServes(s: State, c: nat, target: string, r: Ask)
    requires RegOk(s) && c < |s.socks| && OnCourse(c, Inside(Inspect(c, target)), r)
    ensures Handler(c) in InspectBody(s, c, c, target).pcs
    ensures OnCourse(c, InspectBody(s, c, c, target).pcs[Handler(c)], r.(users := Some(Everybody(s))))
  {
    HolderIsKnown(s, target);
    match Holder(s, target)
    case Some(d) => InspectFinds(c, target, r, Everybody(s), d);
    case None => InspectMisses(c, target, r, Everybody(s));
  }

  // ---------- fields ----------

  lemma RestoreGoesOn(s: State, c: nat, sec: Section, r: Ask)
    requires c < |s.socks| == |s.sess| == |s.hist| && OnCourse(c, RestoreManual(c, sec), r)
    ensures OnCourse(c, Restore2(s, Handler(c), c, sec).pcs[Handler(c)], r)
  {
    Alone(r.calls, Job(c, Reply(STATUS_RESTORED), Plain));
  }

  lemma ChangeGoesOn(s: State, c: nat, v: Status, r: Ask)
    requires c < |s.sess| && OnCourse(c, SetManual(c, v), r)
    ensures OnCourse(c, Change2(s, Handler(c), c, v).pcs[Handler(c)], r)
  {
    Alone(r.calls, Job(c, Response(OK_STATUS_CHANGED, Some(v)), Plain));
  }

  lemma DeliverFinds(c: nat, k: nat, d: nat, r: Ask, jobs: seq<Job>)
    requires OnCourse(c, Deliver(c, k, d), r)
    requires jobs == [Job(d, ForDm(r.from.name, r.rq.dm.value.1), Dm(k)), Job(c, Reply(OK_DM_SENT), Dm(k))]
    ensures OnCourse(c, Sending(jobs, true, Loop), r.(live := Some(true)))
  {
    var u :| u in Users(r) && u.conn == d && u.name == r.rq.dm.value.0;
    assert CallsOf(jobs) == [CallOf(jobs[0]), CallOf(jobs[1])];
    assert r.calls + CallsOf(jobs) ==
           Restored(r) + [Call(u.conn, ForDm(r.from.name, r.rq.dm.value.1))] + Only(r, Reply(OK_DM_SENT));
  }

  lemma DeliverMisses(c: nat, k: nat, d: nat, r: Ask)
    requires OnCourse(c, Deliver(c, k, d), r)
    ensures OnCourse(c, Sending([Job(c, Reply(OK_DM_SENT), Dm(k))], true, Loop), r.(live := Some(false)))
  {
    var u :| u in Users(r) && u.conn == d && u.name == r.rq.dm.value.0;
    After(r.calls, Job(c, Reply(OK_DM_SENT), Dm(k)));
    assert Restored(r) + [] + Only(r, Reply(OK_DM_SENT)) == Restored(r) + Only(r, Reply(OK_DM_SENT));
  }

  lemma DeliverServes(s: State, c: nat, k: nat, d: nat, r: Ask)
    requires c < |s.hist| && k < |s.hist[c].dms| && d < |s.sess| && c < |s.sess|
    requires OnCourse(c, Deliver(c, k, d), r) && Truthful(s, c, r)
    requires s.hist[c].dms[k].origin == s.sess[c].name && s.hist[c].dms[k].text == r.rq.dm.value.1
    ensures OnCourse(c, DeliverDm(s, c, c, k, d).pcs[Handler(c)], r.(live := Some(s.sess[d].alive)))
  {
    if s.sess[d].alive {
      DeliverFinds(c, k, d, r, DeliverDm(s, c, c, k, d).pcs[Handler(c)].jobs);
    } else {
      DeliverMisses(c, k, d, r);
    }
  }

  lemma DescribeServes(s: State, c: nat, d: nat, r: Ask)
    requires d < |s.sess| == |s.socks| && OnCourse(c, Describe(c, d), r) && Truthful(s, c, r)
    ensures OnCourse(c, DescribeUser(s, Handler(c), c, d).pcs[Handler(c)], r.(status := Some(s.sess[d].status)))
  {
    var pc' := DescribeUser(s, Handler(c), c, d).pcs[Handler(c)];
    var u :| u in Users(r) && u.conn == d && u.name == r.rq.target.value;
    assert IsWho(s, u);
    Alone(r.calls, pc'.jobs[0]);
  }
}
