/**
 The notes on requests agree with everything else a run leaves behind: with the logs of the sockets, with the records
 of broadcasts and direct messages, with who is who, and with the status fields; and every step keeps it so.
 */
module Ledger {
  import opened Framing
  import opened Protocol
  import opened Requests
  import opened Steps
  import opened Locks
  import opened Owners
  import opened Sessions
  import opened Calls
  import opened Casts
  import opened Dms
  import opened Answers

  // ---------- records of messages ----------

  // The direct messages among the requests, and the general ones.
  function DmAsks(asks: seq<Ask>): seq<Ask> {
    if asks == [] then []
    else DmAsks(asks[..|asks| - 1]) + (if IsDm(asks[|asks| - 1]) then [asks[|asks| - 1]] else [])
  }

  function CastAsks(asks: seq<Ask>): seq<Ask> {
    if asks == [] then []
    else CastAsks(asks[..|asks| - 1]) + (if IsCast(asks[|asks| - 1]) then [asks[|asks| - 1]] else [])
  }

  predicate DmFits(r: Ask, rec: DmRec) {
    && IsDm(r) && r.rq.dm.value == (rec.dest, rec.text) && rec.tried == Live(r)
    && (rec.holder.Some? <==> Known(Users(r), rec.dest))
    && (rec.holder.Some? ==> Holds(Users(r), rec.holder.value, rec.dest))
  }

  ghost predicate CastFits(r: Ask, rec: CastRec) {
    IsCast(r) && r.rq.text.value == rec.text && forall d: nat :: d in rec.registered <==> Has(Users(r), d)
  }

  lemma AsksSnoc(asks: seq<Ask>, r: Ask)
    ensures DmAsks(asks + [r]) == DmAsks(asks) + (if IsDm(r) then [r] else [])
    ensures CastAsks(asks + [r]) == CastAsks(asks) + (if IsCast(r) then [r] else [])
    ensures Chosen(asks + [r]) == ChoiceOf(r, Chosen(asks))
  {
    assert (asks + [r])[..|asks|] == asks;
  }

  // ---------- the requests a handler is through with ----------

  // The first records are theirs.
  ghost predicate DmPast(done: seq<Ask>, dms: seq<DmRec>) {
    |DmAsks(done)| <= |dms| && forall k | 0 <= k < |DmAsks(done)| :: DmFits(DmAsks(done)[k], dms[k])
  }

  ghost predicate CastPast(done: seq<Ask>, casts: seq<CastRec>) {
    |CastAsks(done)| <= |casts| && forall k | 0 <= k < |CastAsks(done)| :: CastFits(CastAsks(done)[k], casts[k])
  }

  ghost predicate AllFinished(c: nat, done: seq<Ask>) {
    forall i | 0 <= i < |done| :: Finished(c, done[i])
  }

  ghost predicate Past(c: nat, done: seq<Ask>, dms: seq<DmRec>, casts: seq<CastRec>) {
    AllFinished(c, done) && DmPast(done, dms) && CastPast(done, casts)
  }

  // Later records leave the first ones alone.
  lemma PastStays(c: nat, done: seq<Ask>, dms: seq<DmRec>, casts: seq<CastRec>, dms': seq<DmRec>, casts': seq<CastRec>)
    requires Past(c, done, dms, casts) && |dms'| >= |DmAsks(done)| && |casts'| >= |CastAsks(done)|
    requires forall k | 0 <= k < |DmAsks(done)| :: dms'[k] == dms[k]
    requires forall k | 0 <= k < |CastAsks(done)| :: casts'[k] == casts[k]
    ensures Past(c, done, dms', casts')
  {}

  // ---------- the one it is serving ----------

  // The lookup of a direct message is still to come.
  predicate BeforeLookup(pc: Pc) {
    Early(pc) && !pc.Deliver?
  }

  predicate DmNow(pc: Pc, r: Ask, dms: seq<DmRec>, n: nat) {
    if IsDm(r) && !BeforeLookup(pc) then |dms| == n + 1 && DmFits(r, dms[n]) else |dms| == n
  }

  ghost predicate CastNow(pc: Pc, r: Ask, casts: seq<CastRec>, n: nat) {
    if IsCast(r) && !Early(pc) then |casts| == n + 1 && CastFits(r, casts[n]) else |casts| == n
  }

  predicate Fetching(pc: Pc) {
    (pc.Waiting? || pc.Inside?) && pc.sec.Fetch?
  }

  // The handler has yet to write the manual status its request asks for.
  predicate Unwritten(pc: Pc) {
    Fetching(pc) || pc.RestoreStatus? || pc.RestoreManual? || pc.SetStatus? || pc.SetManual?
  }

  // `before` is the status chosen by the earlier requests. get_session will find out what the note says.
  predicate FieldsNow(pc: Pc, e: Sess, r: Ask, before: Status) {
    && e.manual == (if Unwritten(pc) then before else ChoiceOf(r, before))
    && (Fetching(pc) ==> r.member == e.made)
  }

  ghost predicate Present(c: nat, pc: Pc, e: Sess, h: Hist, b: Book) {
    var n, k := |DmAsks(b.done)|, |CastAsks(b.done)|;
    match b.now
    case None => Todo(pc) == [] && !Early(pc) && e.manual == Chosen(b.done) && |h.dms| == n && |h.casts| == k
    case Some(r) =>
      OnCourse(c, pc, r) && FieldsNow(pc, e, r, Chosen(b.done)) && DmNow(pc, r, h.dms, n) && CastNow(pc, r, h.casts, k)
  }

  ghost predicate InStep(c: nat, pc: Pc, e: Sess, h: Hist, b: Book) {
    Past(c, b.done, h.dms, h.casts) && Present(c, pc, e, h, b)
  }

  // A connection without a session has chosen nothing.
  lemma {:induction false} NothingChosen(asks: seq<Ask>)
    requires forall i | 0 <= i < |asks| :: !asks[i].member && !Auto(asks[i])
    ensures Chosen(asks) == ACTIVE
  {
    if asks != [] { NothingChosen(asks[..|asks| - 1]); }
  }

  // ---------- who is who ----------

  // An event leaves a connection its address, and its session its name.
  lemma ConnKept(env: Env, s: State, e: Event, c: nat)
    requires Ok(s) && LivesOk(s) && Can(env, s, e) && c < |s.socks|
    ensures var s' := Do(env, s, e);
            && c < |s'.socks| && c < |s'.sess| && s'.socks[c].fd == s.socks[c].fd && s'.socks[c].ip == s.socks[c].ip
            && (s.sess[c].made ==> s'.sess[c].made && s'.sess[c].name == s.sess[c].name)
            && (Actor(e) != Handler(c) ==> s'.sess[c].made == s.sess[c].made)
  {
    if !Touches(s, e) {
      QuietEvent(env, s, e);
      assert SameConn(s.socks[c], Do(env, s, e).socks[c], s.sess[c], Do(env, s, e).sess[c]);
    } else if e.EvBody? {
      assert PcFor(e.t, s.pcs[e.t], s.socks, s.hist);
      OwnSession(s, e.t.c);
    }
  }

  lemma WhoStays(env: Env, s: State, e: Event, u: Who)
    requires Ok(s) && LivesOk(s) && Can(env, s, e) && IsWho(s, u)
    ensures IsWho(Do(env, s, e), u)
  {
    ConnKept(env, s, e, u.conn);
  }

  lemma TruthStays(env: Env, s: State, e: Event, c: nat, r: Ask)
    requires Ok(s) && LivesOk(s) && Can(env, s, e) && Truthful(s, c, r)
    ensures Truthful(Do(env, s, e), c, r)
  {
    ConnKept(env, s, e, c);
    if r.member { WhoStays(env, s, e, r.from); }
    forall u | u in Users(r) ensures IsWho(Do(env, s, e), u) { WhoStays(env, s, e, u); }
  }

  lemma NoteTruthful(env: Env, s: State, e: Event, c: nat, r: Ask)
    requires Ok(s) && LivesOk(s) && Can(env, s, e) && Truthful(s, c, r) && Actor(e) == Handler(c)
    requires PcServes(c, s.pcs[Handler(c)], r)
    ensures Truthful(s, c, Note(env, s, r, e))
  {
    EverybodyIs(s);
  }

  ghost predicate AllTruthful(s: State, c: nat, b: Book) {
    && (forall i | 0 <= i < |b.done| :: Truthful(s, c, b.done[i]))
    && (b.now.Some? ==> Truthful(s, c, b.now.value))
  }

  lemma TruthKept(env: Env, s: State, e: Event, c: nat, b: Book)
    requires Ok(s) && LivesOk(s) && Can(env, s, e) && AllTruthful(s, c, b)
    ensures AllTruthful(Do(env, s, e), c, b)
  {
    forall i | 0 <= i < |b.done| ensures Truthful(Do(env, s, e), c, b.done[i]) { TruthStays(env, s, e, c, b.done[i]); }
    if b.now.Some? { TruthStays(env, s, e, c, b.now.value); }
  }

  lemma OwnTruth(env: Env, s: State, e: Event, c: nat, b: Book)
    requires Ok(s) && LivesOk(s) && Can(env, s, e) && AllTruthful(s, c, b) && Actor(e) == Handler(c)
    requires c < |s.socks| && (b.now.Some? ==> PcServes(c, s.pcs[Handler(c)], b.now.value))
    ensures AllTruthful(Do(env, s, e), c, OwnNotes(env, s, b, e))
  {
    if !e.EvRequest? && b.now.Some? { NoteTruthful(env, s, e, c, b.now.value); }
    TruthKept(env, s, e, c, OwnNotes(env, s, b, e));
  }

  // ---------- the logs ----------

  function FramesIn(stamps: seq<Stamp>): (fs: seq<Frame>)
    ensures |fs| == |stamps| && forall i | 0 <= i < |stamps| :: fs[i] == stamps[i].frame
  {
    seq(|stamps|, i requires 0 <= i < |stamps| => stamps[i].frame)
  }

  lemma FramesInAppend(a: seq<Stamp>, b: seq<Stamp>)
    ensures FramesIn(a + b) == FramesIn(a) + FramesIn(b)
  {}

  function FramesNow(b: Book, d: int): seq<Frame> {
    FramesFor(b.done, d) + (if b.now.Some? then Frames(b.now.value.calls, d) else [])
  }

  lemma FramesOfAll(b: Book, d: int)
    ensures FramesFor(All(b), d) == FramesNow(b, d)
  {
    if b.now.Some? { FramesForSnoc(b.done, b.now.value, d); }
  }

  // On every socket the handler's calls are those noted, request after request.
  ghost predicate Tallied(s: State, c: nat, b: Book) {
    && (forall d | 0 <= d < |s.socks| :: FramesIn(Issued(s.socks[d].log, Handler(c))) == FramesNow(b, d))
    && (forall d | d >= |s.socks| :: FramesNow(b, d) == [])
  }

  lemma NoteCalls(env: Env, s: State, r: Ask, e: Event)
    requires Ok(s) && Can(env, s, e)
    ensures !(e.EvSend? && e.act.TakeLock?) ==> Note(env, s, r, e).calls == r.calls
  {}

  lemma FramesNowCall(b: Book, x: Call, d: int)
    requires b.now.Some?
    ensures FramesNow(b.(now := Some(b.now.value.(calls := b.now.value.calls + [x]))), d)
            == FramesNow(b, d) + (if x.to == d then [x.frame] else [])
  {
    FramesSnoc(b.now.value.calls, x, d);
  }

  lemma TakeFrames(env: Env, s: State, c: nat, b: Book, d: int)
    requires Ok(s) && CanSend(env, s, Handler(c), TakeLock) && c < |s.socks| && b.now.Some?
    ensures var j := s.pcs[Handler(c)].jobs[0];
            FramesNow(OwnNotes(env, s, b, EvSend(Handler(c), TakeLock)), d)
            == FramesNow(b, d) + (if j.to == d then [j.frame] else [])
  {
    FramesNowCall(b, CallOf(s.pcs[Handler(c)].jobs[0]), d);
  }

  lemma QuietFrames(env: Env, s: State, e: Event, b: Book, d: int)
    requires Ok(s) && Can(env, s, e) && !(e.EvSend? && e.act.TakeLock?)
    ensures FramesNow(OwnNotes(env, s, b, e), d) == FramesNow(b, d)
  {
    if e.EvRequest? {
      FramesOfAll(b, d);
    } else if b.now.Some? {
      NoteCalls(env, s, b.now.value, e);
    }
  }

  lemma OwnFrames(env: Env, s: State, e: Event, c: nat, b: Book, d: nat)
    requires Ok(s) && Can(env, s, e) && Actor(e) == Handler(c) && c < |s.socks| && d < |s.socks| && !e.EvAccept?
    requires b.now.None? ==> Todo(s.pcs[Handler(c)]) == []
    ensures FramesNow(OwnNotes(env, s, b, e), d) == FramesNow(b, d) + FramesIn(NewCall(s, e, Handler(c), d))
  {
    if e.EvSend? && e.act.TakeLock? {
      assert e == EvSend(Handler(c), TakeLock);
      TakeFrames(env, s, c, b, d);
    } else {
      QuietFrames(env, s, e, b, d);
    }
  }

  // No call goes to a connection that does not exist.
  lemma OwnBeyond(env: Env, s: State, e: Event, c: nat, b: Book, d: int)
    requires Ok(s) && Can(env, s, e) && Actor(e) == Handler(c) && c < |s.socks| && d >= |s.socks| && !e.EvAccept?
    requires b.now.None? ==> Todo(s.pcs[Handler(c)]) == []
    requires FramesNow(b, d) == []
    ensures FramesNow(OwnNotes(env, s, b, e), d) == []
  {
    if e.EvSend? && e.act.TakeLock? {
      assert e == EvSend(Handler(c), TakeLock) && PcFor(Handler(c), s.pcs[Handler(c)], s.socks, s.hist);
      TakeFrames(env, s, c, b, d);
    } else {
      QuietFrames(env, s, e, b, d);
    }
  }

  lemma OwnTally(env: Env, s: State, e: Event, c: nat, b: Book)
    requires Ok(s) && Can(env, s, e) && Actor(e) == Handler(c) && c < |s.socks| && !e.EvAccept?
    requires Tallied(s, c, b) && (b.now.None? ==> Todo(s.pcs[Handler(c)]) == [])
    ensures Tallied(Do(env, s, e), c, OwnNotes(env, s, b, e))
  {
    Lengths(env, s, e);
    forall d | 0 <= d < |s.socks|
      ensures FramesIn(Issued(Do(env, s, e).socks[d].log, Handler(c))) == FramesNow(OwnNotes(env, s, b, e), d)
    {
      StepCalls(env, s, e, Handler(c), d);
      OwnFrames(env, s, e, c, b, d);
      FramesInAppend(Issued(s.socks[d].log, Handler(c)), NewCall(s, e, Handler(c), d));
    }
    forall d | d >= |s.socks| ensures FramesNow(OwnNotes(env, s, b, e), d) == [] {
      OwnBeyond(env, s, e, c, b, d);
    }
  }

  lemma OtherTally(env: Env, s: State, e: Event, c: nat, b: Book)
    requires Ok(s) && Can(env, s, e) && Actor(e) != Handler(c) && c < |s.socks| && !e.EvAccept? && Tallied(s, c, b)
    ensures Tallied(Do(env, s, e), c, b)
  {
    Lengths(env, s, e);
    forall d | 0 <= d < |s.socks|
      ensures FramesIn(Issued(Do(env, s, e).socks[d].log, Handler(c))) == FramesNow(b, d)
    {
      StepCalls(env, s, e, Handler(c), d);
    }
  }

  lemma AcceptTally(s: State, fd: int, ip: string, c: nat, b: Book)
    requires Ok(s) && c < |s.socks| && Tallied(s, c, b)
    ensures Tallied(Accept(s, fd, ip), c, b)
  {
    var n := |s.socks|;
    assert Issued(Accept(s, fd, ip).socks[n].log, Handler(c)) == [];
  }

  lemma FreshTally(s: State, fd: int, ip: string)
    requires Ok(s) && AuthorsOk(s)
    ensures Tallied(Accept(s, fd, ip), |s.socks|, NO_NOTES)
  {
    var n := |s.socks|;
    var s' := Accept(s, fd, ip);
    forall d | 0 <= d < |s'.socks| ensures Issued(s'.socks[d].log, Handler(n)) == [] {
      if d < n {
        assert AuthorsIn(s.socks[d].log, s.pcs);
        NoCallsYet(s.socks[d].log, Handler(n));
      }
    }
  }

  ghost predicate AskOk(s: State, c: nat, b: Book)
    requires Domain(s) && c < |s.socks|
  {
    InStep(c, s.pcs[Handler(c)], s.sess[c], s.hist[c], b) && AllTruthful(s, c, b) && Tallied(s, c, b)
  }

  // ---------- where the handler is ----------

  lemma OnCourseSame(c: nat, pc: Pc, pc': Pc, r: Ask)
    requires OnCourse(c, pc, r) && PcQuiet(c, pc, pc', r)
    ensures OnCourse(c, pc', r)
  {}

  lemma RequestServes(s: State, c: nat, rq: Request)
    requires c < |s.socks| && c < |s.sess|
    ensures OnCourse(c, Dispatch(c, rq), NewAsk(s, c, rq))
  {
    var r := NewAsk(s, c, rq);
    var pc' := Dispatch(c, rq);
    assert rq.Register? && rq.name.Some? ==> rq == Register(Some(rq.name.value));
    if pc'.Sending? { Alone(r.calls, pc'.jobs[0]); }
  }

  lemma TakeServes(env: Env, s: State, c: nat, r: Ask)
    requires Ok(s) && c < |s.socks| && CanSend(env, s, Handler(c), TakeLock) && OnCourse(c, s.pcs[Handler(c)], r)
    ensures Handler(c) in DoSend(env, s, Handler(c), TakeLock).pcs
    ensures OnCourse(c, DoSend(env, s, Handler(c), TakeLock).pcs[Handler(c)],
                     r.(calls := r.calls + [CallOf(s.pcs[Handler(c)].jobs[0])]))
  {
    assert PcFor(Handler(c), s.pcs[Handler(c)], s.socks, s.hist);
    OnCourseTake(c, s.pcs[Handler(c)], r, DoSend(env, s, Handler(c), TakeLock).pcs[Handler(c)]);
  }

  lemma WrittenServes(c: nat, pc: Pc, r: Ask)
    requires pc.Writing? && pc.jobs != [] && OnCourse(c, pc, r)
    ensures OnCourse(c, Sending(pc.jobs[1..], pc.locked, pc.after), r)
  {
    OnCourseSame(c, pc, Sending(pc.jobs[1..], pc.locked, pc.after), r);
  }

  function AfterPc(after: After): Pc {
    match after
    case Loop => Reading
    case Unlock => Reading
    case Then(sec) => Waiting(sec)
    case Sleep => Sleeping
  }

  lemma AfterServes(c: nat, pc: Pc, r: Ask)
    requires pc.Sending? && pc.jobs == [] && OnCourse(c, pc, r)
    ensures OnCourse(c, AfterPc(pc.after), r)
  {
    OnCourseSame(c, pc, AfterPc(pc.after), r);
  }

  // Where a step of a send other than its start leads.
  function AfterAct(pc: Pc, act: SendAct): Pc
    requires pc.Sending? || pc.Writing?
  {
    match act
    case TakeLock => pc
    case PutBytes(_) => pc
    case Return => if pc.jobs == [] then pc else Sending(pc.jobs[1..], pc.locked, pc.after)
    case Break => if pc.jobs == [] then pc else Sending(pc.jobs[1..], pc.locked, pc.after)
    case NoMore => AfterPc(pc.after)
  }

  lemma SendMoves(env: Env, s: State, c: nat, act: SendAct)
    requires Ok(s) && c < |s.socks| && CanSend(env, s, Handler(c), act) && !act.TakeLock?
    ensures var pc := s.pcs[Handler(c)]; var s' := DoSend(env, s, Handler(c), act);
            && Handler(c) in s'.pcs && (pc.Sending? || pc.Writing?) && s'.pcs[Handler(c)] == AfterAct(pc, act)
  {
    assert PcFor(Handler(c), s.pcs[Handler(c)], s.socks, s.hist);
  }

  lemma SendServes(env: Env, s: State, c: nat, act: SendAct, r: Ask)
    requires Ok(s) && c < |s.socks| && CanSend(env, s, Handler(c), act) && !act.TakeLock?
    requires OnCourse(c, s.pcs[Handler(c)], r)
    ensures Handler(c) in DoSend(env, s, Handler(c), act).pcs
    ensures OnCourse(c, DoSend(env, s, Handler(c), act).pcs[Handler(c)], r)
  {
    SendMoves(env, s, c, act);
    assert PcFor(Handler(c), s.pcs[Handler(c)], s.socks, s.hist);
    match act {
      case PutBytes(_) =>
      case Return => WrittenServes(c, s.pcs[Handler(c)], r);
      case Break => WrittenServes(c, s.pcs[Handler(c)], r);
      case NoMore => AfterServes(c, s.pcs[Handler(c)], r);
    }
  }

  // Coming and going, and lock operations.
  lemma HangUpServes(c: nat, r: Ask)
    requires OnCourse(c, Reading, r)
    ensures OnCourse(c, Waiting(Leave), r)
  {
    OnCourseSame(c, Reading, Waiting(Leave), r);
  }

  lemma AcquireServes(c: nat, sec: Section, r: Ask)
    requires OnCourse(c, Waiting(sec), r)
    ensures OnCourse(c, Inside(sec), r)
  {
    OnCourseSame(c, Waiting(sec), Inside(sec), r);
  }

  lemma EndServes(c: nat, r: Ask)
    ensures OnCourse(c, Inside(Leave), r) ==> OnCourse(c, Erasing, r) && OnCourse(c, Closing, r)
    ensures OnCourse(c, Erasing, r) ==> OnCourse(c, Closing, r)
    ensures OnCourse(c, Closing, r) ==> OnCourse(c, Closed, r)
  {}

  lemma MoveServes(env: Env, s: State, e: Event, c: nat, r: Ask)
    requires Ok(s) && Can(env, s, e) && c < |s.socks| && OnCourse(c, s.pcs[Handler(c)], r)
    requires e == EvHangUp(c) || e == EvAcquire(Handler(c)) || e == EvErase(c) || e == EvClose(c)
    ensures Handler(c) in Do(env, s, e).pcs && OnCourse(c, Do(env, s, e).pcs[Handler(c)], r)
  {
    match e {
      case EvHangUp(_) => HangUpServes(c, r);
      case EvAcquire(_) => AcquireServes(c, s.pcs[Handler(c)].sec, r);
      case EvErase(_) => EndServes(c, r);
      case EvClose(_) => EndServes(c, r);
    }
  }

  lemma LeaveServes(s: State, c: nat, r: Ask)
    requires Shaped(s) && c < |s.socks| && OnCourse(c, Inside(Leave), r)
    ensures Handler(c) in LeaveBody(s, c).pcs && OnCourse(c, LeaveBody(s, c).pcs[Handler(c)], r)
  {
    EndServes(c, r);
  }

  // A critical section that looks at the registry.
  lemma LookServes(s: State, c: nat, r: Ask, order: seq<nat>, rows: seq<(string, Status)>)
    requires LocksOk(s) && RegOk(s) && c < |s.socks| && Truthful(s, c, r) && s.pcs[Handler(c)].Inside?
    requires OnCourse(c, s.pcs[Handler(c)], r) && SectionFor(Handler(c), s.pcs[Handler(c)].sec, |s.socks|)
    requires var sec := s.pcs[Handler(c)].sec;
             sec.Enrol? || sec.Seek? || sec.Inspect? || (sec.Gather? && IsSnapshot(s, order))
    ensures var s' := Body(s, Handler(c), s.pcs[Handler(c)].sec, order, rows);
            Handler(c) in s'.pcs && OnCourse(c, s'.pcs[Handler(c)], r.(users := Some(Everybody(s))))
  {
    assert SectionServes(c, s.pcs[Handler(c)].sec, r);
    match s.pcs[Handler(c)].sec {
      case Enrol(name) => EnrolServes(s, c, name, r);
      case Gather(_, text) => GatherServes(s, c, text, order, r);
      case Seek(_, dest, text) => SeekServes(s, c, dest, text, r);
      case Inspect(_, target) => InspectServes(s, c, target, r);
    }
  }

  lemma BodyServes(s: State, c: nat, r: Ask, order: seq<nat>, rows: seq<(string, Status)>)
    requires LocksOk(s) && RegOk(s) && c < |s.socks| && Truthful(s, c, r) && s.pcs[Handler(c)].Inside?
    requires OnCourse(c, s.pcs[Handler(c)], r) && SectionFor(Handler(c), s.pcs[Handler(c)].sec, |s.socks|)
    requires s.pcs[Handler(c)].sec.Gather? ==> IsSnapshot(s, order)
    requires s.pcs[Handler(c)].sec.Fetch? ==> r.member == s.sess[c].made
    ensures var sec := s.pcs[Handler(c)].sec;
            var s' := Body(s, Handler(c), sec, order, rows);
            Handler(c) in s'.pcs && OnCourse(c, s'.pcs[Handler(c)], NoteSection(s, r, sec, rows))
  {
    var sec := s.pcs[Handler(c)].sec;
    assert SectionServes(c, sec, r);
    if sec.Fetch? {
      FetchServes(s, c, sec.rq, r);
    } else if sec.Roll? {
      RollServes(s, c, rows, r);
    } else if sec.Leave? {
      LeaveServes(s, c, r);
    } else {
      LookServes(s, c, r, order, rows);
    }
  }

  // What the alive check needs to know of the record.
  predicate RecordFits(s: State, c: nat, r: Ask)
    requires Domain(s) && c < |s.socks|
  {
    var pc := s.pcs[Handler(c)];
    pc.Deliver? ==>
      && pc.k < |s.hist[c].dms| && s.hist[c].dms[pc.k].origin == s.sess[c].name
      && r.rq.MessageDm? && r.rq.dm.Some? && s.hist[c].dms[pc.k].text == r.rq.dm.value.1
  }

  lemma TestServes(c: nat, sec: Section, r: Ask, auto: bool)
    requires OnCourse(c, RestoreTest(c, sec), r)
    ensures OnCourse(c, if auto then RestoreStatus(c, sec) else Waiting(sec), r.(auto := Some(auto)))
  {}

  lemma FirstWriteServes(c: nat, r: Ask)
    ensures forall sec | OnCourse(c, RestoreStatus(c, sec), r) :: OnCourse(c, RestoreManual(c, sec), r)
    ensures forall v | OnCourse(c, SetStatus(c, v), r) :: OnCourse(c, SetManual(c, v), r)
  {
    forall sec | OnCourse(c, RestoreStatus(c, sec), r) ensures OnCourse(c, RestoreManual(c, sec), r) {
      OnCourseSame(c, RestoreStatus(c, sec), RestoreManual(c, sec), r);
    }
    forall v | OnCourse(c, SetStatus(c, v), r) ensures OnCourse(c, SetManual(c, v), r) {
      OnCourseSame(c, SetStatus(c, v), SetManual(c, v), r);
    }
  }

  lemma WriteServes(s: State, c: nat, r: Ask)
    requires Ok(s) && c < |s.socks| && OnCourse(c, s.pcs[Handler(c)], r)
    requires var pc := s.pcs[Handler(c)];
             && (pc.RestoreStatus? || pc.RestoreManual? || pc.SetStatus? || pc.SetManual?) && pc.me == c
    ensures Handler(c) in Field(s, Handler(c)).pcs && OnCourse(c, Field(s, Handler(c)).pcs[Handler(c)], r)
  {
    FirstWriteServes(c, r);
    match s.pcs[Handler(c)] {
      case RestoreStatus(_, _) =>
      case RestoreManual(_, sec) => RestoreGoesOn(s, c, sec, r);
      case SetStatus(_, _) =>
      case SetManual(_, v) => ChangeGoesOn(s, c, v, r);
    }
  }

  lemma FieldServes(s: State, c: nat, r: Ask)
    requires Ok(s) && Domain(s) && c < |s.socks| && Truthful(s, c, r) && FieldPc(s.pcs[Handler(c)])
    requires OnCourse(c, s.pcs[Handler(c)], r) && PcFor(Handler(c), s.pcs[Handler(c)], s.socks, s.hist)
    requires RecordFits(s, c, r)
    ensures Handler(c) in Field(s, Handler(c)).pcs
    ensures OnCourse(c, Field(s, Handler(c)).pcs[Handler(c)], NoteField(s, r, s.pcs[Handler(c)]))
  {
    assert PcServes(c, s.pcs[Handler(c)], r);
    match s.pcs[Handler(c)] {
      case RestoreTest(_, sec) =>
        TestServes(c, sec, r, s.sess[c].status == INVISIBLE && s.sess[c].manual != INVISIBLE);
      case Deliver(_, k, d) => DeliverServes(s, c, k, d, r);
      case Describe(_, d) => DescribeServes(s, c, d, r);
      case _ => WriteServes(s, c, r);
    }
  }

  // Every event of the handler goes on with the request.
  lemma OwnServes(env: Env, s: State, e: Event, c: nat, r: Ask)
    requires Ok(s) && LocksOk(s) && RegOk(s) && Can(env, s, e) && c < |s.socks| && Actor(e) == Handler(c)
    requires !e.EvAccept? && !e.EvRequest? && Truthful(s, c, r) && OnCourse(c, s.pcs[Handler(c)], r)
    requires RecordFits(s, c, r) && (Fetching(s.pcs[Handler(c)]) ==> r.member == s.sess[c].made)
    ensures Handler(c) in Do(env, s, e).pcs && OnCourse(c, Do(env, s, e).pcs[Handler(c)], Note(env, s, r, e))
  {
    assert PcFor(Handler(c), s.pcs[Handler(c)], s.socks, s.hist);
    match e {
      case EvBody(_, order, rows) => BodyServes(s, c, r, order, rows);
      case EvField(_) => FieldServes(s, c, r);
      case EvSend(_, act) =>
        if act.TakeLock? { TakeServes(env, s, c, r); } else { SendServes(env, s, c, act, r); }
      case _ => MoveServes(env, s, e, c, r);
    }
  }

  // A step with which the handler of a message gets no further than its lookup, or was there already.
  predicate SamePhase(pc: Pc, pc': Pc) {
    Early(pc') == Early(pc) && pc'.Deliver? == pc.Deliver?
  }

  // Coming and going and lock operations.
  predicate PcMoves(pc: Pc, pc': Pc) {
    || (pc == Reading && pc' == Waiting(Leave))
    || (pc.Waiting? && pc' == Inside(pc.sec))
    || (pc == Erasing && pc' == Closing)
    || (pc == Closing && pc' == Closed)
  }

  lemma MoveIs(env: Env, s: State, e: Event, c: nat)
    requires Ok(s) && Can(env, s, e) && c < |s.socks|
    requires e == EvHangUp(c) || e == EvAcquire(Handler(c)) || e == EvErase(c) || e == EvClose(c)
    ensures var s' := Do(env, s, e);
            && s'.hist == s.hist && s'.sess == s.sess && Handler(c) in s'.pcs
            && PcMoves(s.pcs[Handler(c)], s'.pcs[Handler(c)])
  {}

  // What they leave alone.
  lemma MoveShape(pc: Pc, pc': Pc)
    requires PcMoves(pc, pc')
    ensures SamePhase(pc, pc') && Unwritten(pc') == Unwritten(pc) && Fetching(pc') == Fetching(pc)
    ensures Todo(pc') == Todo(pc)
  {}

  // ---------- the status fields ----------

  lemma EnrolFields(s: State, c: nat, name: string)
    requires LivesOk(s) && c < |s.socks| && s.pcs[Handler(c)] == Inside(Enrol(name))
    ensures var s' := EnrolBody(s, c, name);
            && c < |s'.sess| && s'.hist == s.hist && Handler(c) in s'.pcs && s'.pcs[Handler(c)].Sending?
            && (s'.sess[c].manual == s.sess[c].manual || (!s.sess[c].made && s'.sess[c].manual == ACTIVE))
  {
    OwnSession(s, c);
  }

  lemma FetchFields(s: State, c: nat, rq: Request, r: Ask, before: Status)
    requires LivesOk(s) && c < |s.socks| && s.pcs[Handler(c)] == Inside(Fetch(rq))
    requires PcServes(c, s.pcs[Handler(c)], r) && FieldsNow(s.pcs[Handler(c)], s.sess[c], r, before)
    ensures Handler(c) in FetchBody(s, c, rq).pcs
    ensures FieldsNow(FetchBody(s, c, rq).pcs[Handler(c)], s.sess[c], r, before)
  {
    OwnSession(s, c);
  }

  // The other sections write no status.
  lemma SectionFields(s: State, c: nat, sec: Section, order: seq<nat>, rows: seq<(string, Status)>)
    requires Shaped(s) && c < |s.sess| && SectionFor(Handler(c), sec, |s.socks|) && !sec.Enrol? && !sec.Fetch?
    ensures var s' := Body(s, Handler(c), sec, order, rows);
            && Handler(c) in s'.pcs && c < |s'.sess| && s'.sess[c].manual == s.sess[c].manual
            && !Unwritten(s'.pcs[Handler(c)])
  {
    match sec {
      case Gather(_, _) =>
      case Seek(_, _, _) =>
      case Roll(_) =>
      case Inspect(_, _) =>
      case Leave =>
    }
  }

  lemma AdmittedFields(s: State, c: nat, name: string, r: Ask, before: Status, users: set<Who>)
    requires LivesOk(s) && c < |s.socks| && s.pcs[Handler(c)] == Inside(Enrol(name)) && r.rq.Register? && r.auto.None?
    requires s.sess[c].manual == before && (!s.sess[c].made ==> before == ACTIVE)
    ensures var s' := EnrolBody(s, c, name);
            && Handler(c) in s'.pcs && c < |s'.sess|
            && FieldsNow(s'.pcs[Handler(c)], s'.sess[c], r.(users := Some(users)), before)
  {
    EnrolFields(s, c, name);
  }

  lemma BodyFields(s: State, c: nat, r: Ask, order: seq<nat>, rows: seq<(string, Status)>, before: Status)
    requires LivesOk(s) && c < |s.socks| && s.pcs[Handler(c)].Inside? && PcServes(c, s.pcs[Handler(c)], r)
    requires SectionFor(Handler(c), s.pcs[Handler(c)].sec, |s.socks|) && (r.auto.Some? ==> IsCast(r) || IsDm(r))
    requires FieldsNow(s.pcs[Handler(c)], s.sess[c], r, before) && (!s.sess[c].made ==> before == ACTIVE)
    ensures var sec := s.pcs[Handler(c)].sec;
            var s' := Body(s, Handler(c), sec, order, rows);
            && Handler(c) in s'.pcs && c < |s'.sess|
            && FieldsNow(s'.pcs[Handler(c)], s'.sess[c], NoteSection(s, r, sec, rows), before)
  {
    var sec := s.pcs[Handler(c)].sec;
    if sec.Enrol? {
      AdmittedFields(s, c, sec.name, r, before, Everybody(s));
    } else if sec.Fetch? {
      FetchFields(s, c, sec.rq, r, before);
    } else {
      SectionFields(s, c, sec, order, rows);
    }
  }

  // Of the accesses to fields two write the manual status.
  lemma WriteWrites(s: State, c: nat)
    requires Ok(s) && c < |s.socks|
    requires var pc := s.pcs[Handler(c)];
             (pc.RestoreStatus? || pc.RestoreManual? || pc.SetStatus? || pc.SetManual?) && pc.me == c
    ensures var pc := s.pcs[Handler(c)]; var s' := Field(s, Handler(c));
            && Handler(c) in s'.pcs && c < |s'.sess| && !Fetching(s'.pcs[Handler(c)])
            && s'.sess[c].manual == (if pc.RestoreManual? then ACTIVE else if pc.SetManual? then pc.v
                                     else s.sess[c].manual)
            && (Unwritten(s'.pcs[Handler(c)]) <==> pc.RestoreStatus? || pc.SetStatus?)
  {}

  lemma LookWrites(s: State, c: nat, r: Ask)
    requires Ok(s) && c < |s.socks| && PcServes(c, s.pcs[Handler(c)], r)
    requires PcFor(Handler(c), s.pcs[Handler(c)], s.socks, s.hist)
    requires var pc := s.pcs[Handler(c)]; pc.RestoreTest? || pc.Deliver? || pc.Describe?
    ensures var pc := s.pcs[Handler(c)]; var s' := Field(s, Handler(c));
            && Handler(c) in s'.pcs && s'.sess == s.sess && !Fetching(s'.pcs[Handler(c)])
            && (Unwritten(s'.pcs[Handler(c)]) <==> pc.RestoreTest? && Auto(NoteField(s, r, pc)))
  {}

  lemma FieldFields(s: State, c: nat, r: Ask, before: Status)
    requires Ok(s) && c < |s.socks| && FieldPc(s.pcs[Handler(c)]) && PcServes(c, s.pcs[Handler(c)], r)
    requires PcFor(Handler(c), s.pcs[Handler(c)], s.socks, s.hist) && (r.auto.Some? ==> IsCast(r) || IsDm(r))
    requires FieldsNow(s.pcs[Handler(c)], s.sess[c], r, before)
    ensures var s' := Field(s, Handler(c));
            && Handler(c) in s'.pcs && c < |s'.sess|
            && FieldsNow(s'.pcs[Handler(c)], s'.sess[c], NoteField(s, r, s.pcs[Handler(c)]), before)
  {
    var pc := s.pcs[Handler(c)];
    if pc.RestoreTest? || pc.Deliver? || pc.Describe? {
      LookWrites(s, c, r);
    } else {
      WriteWrites(s, c);
    }
  }

  lemma SendFields(env: Env, s: State, c: nat, act: SendAct)
    requires Ok(s) && CanSend(env, s, Handler(c), act) && c < |s.socks|
    ensures var s' := DoSend(env, s, Handler(c), act);
            && c < |s'.sess| && s'.sess[c].made == s.sess[c].made && s'.sess[c].manual == s.sess[c].manual
            && s'.hist == s.hist
  {
    assert PcFor(Handler(c), s.pcs[Handler(c)], s.socks, s.hist);
  }

  lemma SendKeepsFields(env: Env, s: State, c: nat, act: SendAct, r: Ask, before: Status)
    requires Ok(s) && CanSend(env, s, Handler(c), act) && c < |s.socks|
    requires PcServes(c, s.pcs[Handler(c)], r) && FieldsNow(s.pcs[Handler(c)], s.sess[c], r, before)
    ensures var s' := DoSend(env, s, Handler(c), act);
            Handler(c) in s'.pcs && c < |s'.sess| && FieldsNow(s'.pcs[Handler(c)], s'.sess[c], r, before)
  {
    SendFields(env, s, c, act);
    assert PcFor(Handler(c), s.pcs[Handler(c)], s.socks, s.hist);
    if !act.TakeLock? { SendMoves(env, s, c, act); }
  }

  lemma NotedFields(pc: Pc, e: Sess, r: Ask, calls: seq<Call>, before: Status)
    requires FieldsNow(pc, e, r, before)
    ensures FieldsNow(pc, e, r.(calls := calls), before)
  {}

  lemma MoveFields(env: Env, s: State, e: Event, c: nat, r: Ask, before: Status)
    requires Ok(s) && Can(env, s, e) && c < |s.socks| && FieldsNow(s.pcs[Handler(c)], s.sess[c], r, before)
    requires e == EvHangUp(c) || e == EvAcquire(Handler(c)) || e == EvErase(c) || e == EvClose(c)
    ensures var s' := Do(env, s, e);
            Handler(c) in s'.pcs && c < |s'.sess| && FieldsNow(s'.pcs[Handler(c)], s'.sess[c], r, before)
  {
    MoveIs(env, s, e, c);
    MoveShape(s.pcs[Handler(c)], Do(env, s, e).pcs[Handler(c)]);
  }

  lemma SendNotedFields(env: Env, s: State, c: nat, act: SendAct, r: Ask, before: Status)
    requires Ok(s) && CanSend(env, s, Handler(c), act) && c < |s.socks|
    requires PcServes(c, s.pcs[Handler(c)], r) && FieldsNow(s.pcs[Handler(c)], s.sess[c], r, before)
    ensures var s' := DoSend(env, s, Handler(c), act);
            && Handler(c) in s'.pcs && c < |s'.sess|
            && FieldsNow(s'.pcs[Handler(c)], s'.sess[c], Note(env, s, r, EvSend(Handler(c), act)), before)
  {
    var s' := DoSend(env, s, Handler(c), act);
    SendKeepsFields(env, s, c, act, r, before);
    NotedFields(s'.pcs[Handler(c)], s'.sess[c], r, Note(env, s, r, EvSend(Handler(c), act)).calls, before);
  }

  lemma OwnFields(env: Env, s: State, e: Event, c: nat, r: Ask, before: Status)
    requires Ok(s) && LivesOk(s) && Can(env, s, e) && c < |s.socks| && Actor(e) == Handler(c)
    requires !e.EvAccept? && !e.EvRequest? && PcServes(c, s.pcs[Handler(c)], r)
    requires (r.auto.Some? ==> IsCast(r) || IsDm(r)) && (!s.sess[c].made ==> before == ACTIVE)
    requires FieldsNow(s.pcs[Handler(c)], s.sess[c], r, before)
    ensures var s' := Do(env, s, e);
            && Handler(c) in s'.pcs && c < |s'.sess|
            && FieldsNow(s'.pcs[Handler(c)], s'.sess[c], Note(env, s, r, e), before)
  {
    assert PcFor(Handler(c), s.pcs[Handler(c)], s.socks, s.hist);
    if e.EvBody? {
      BodyFields(s, c, r, e.order, e.rows, before);
    } else if e.EvField? {
      FieldFields(s, c, r, before);
    } else if e.EvSend? {
      SendNotedFields(env, s, c, e.act, r, before);
    } else {
      MoveFields(env, s, e, c, r, before);
    }
  }

  // ---------- the records ----------

  lemma RegisteredAre(s: State)
    requires Shaped(s)
    ensures forall d: nat :: d in AllSessions(s) <==> Has(Everybody(s), d)
  {
    forall d: nat | d in AllSessions(s) ensures Has(Everybody(s), d) {
      var fd :| fd in s.sessions && s.sessions[fd] == d;
      InEverybody(s, fd);
    }
  }

  ghost predicate RecordsNow(pc: Pc, r: Ask, h: Hist, n: nat, k: nat) {
    DmNow(pc, r, h.dms, n) && CastNow(pc, r, h.casts, k)
  }

  lemma RecordsStay(pc: Pc, pc': Pc, r: Ask, r': Ask, h: Hist, h': Hist, n: nat, k: nat)
    requires RecordsNow(pc, r, h, n, k) && h'.dms == h.dms && h'.casts == h.casts
    requires r'.rq == r.rq && r'.member == r.member && r'.users == r.users && r'.live == r.live
    requires IsDm(r) || IsCast(r) ==> SamePhase(pc, pc')
    ensures RecordsNow(pc', r', h', n, k)
  {}

  // The records do not concern a request that is no message.
  lemma RecordsOther(pc: Pc, pc': Pc, r: Ask, r': Ask, h: Hist, n: nat, k: nat)
    requires RecordsNow(pc, r, h, n, k) && !IsDm(r) && !IsCast(r) && r'.rq == r.rq && r'.member == r.member
    ensures RecordsNow(pc', r', h, n, k)
  {}

  lemma GatherRecords(s: State, c: nat, text: string, order: seq<nat>, r: Ask, n: nat, k: nat)
    requires Shaped(s) && c < |s.sess| && PcServes(c, Inside(Gather(c, text)), r)
    requires RecordsNow(Inside(Gather(c, text)), r, s.hist[c], n, k)
    ensures var s' := GatherBody(s, c, c, text, order);
            && Handler(c) in s'.pcs && c < |s'.hist|
            && RecordsNow(s'.pcs[Handler(c)], r.(users := Some(Everybody(s))), s'.hist[c], n, k)
  {
    RegisteredAre(s);
  }

  lemma SeekRecords(s: State, c: nat, dest: string, text: string, r: Ask, n: nat, k: nat)
    requires RegOk(s) && c < |s.socks| && PcServes(c, Inside(Seek(c, dest, text)), r) && !Live(r)
    requires RecordsNow(Inside(Seek(c, dest, text)), r, s.hist[c], n, k)
    ensures var s' := SeekBody(s, c, c, dest, text);
            && Handler(c) in s'.pcs && c < |s'.hist|
            && RecordsNow(s'.pcs[Handler(c)], r.(users := Some(Everybody(s))), s'.hist[c], n, k)
  {
    HolderIsKnown(s, dest);
  }

  lemma FetchPhase(s: State, c: nat, rq: Request, r: Ask)
    requires LivesOk(s) && c < |s.socks| && s.pcs[Handler(c)] == Inside(Fetch(rq))
    requires r.rq == rq && r.member == s.sess[c].made && (IsDm(r) || IsCast(r))
    ensures Handler(c) in FetchBody(s, c, rq).pcs
    ensures SamePhase(Inside(Fetch(rq)), FetchBody(s, c, rq).pcs[Handler(c)])
  {
    OwnSession(s, c);
  }

  // Sections other than a message's own leave its records alone.
  lemma OtherRecords(s: State, c: nat, r: Ask, order: seq<nat>, rows: seq<(string, Status)>, n: nat, k: nat)
    requires LivesOk(s) && c < |s.socks| && s.pcs[Handler(c)].Inside? && PcServes(c, s.pcs[Handler(c)], r)
    requires SectionFor(Handler(c), s.pcs[Handler(c)].sec, |s.socks|)
    requires var sec := s.pcs[Handler(c)].sec; !sec.Gather? && !sec.Seek?
    requires s.pcs[Handler(c)].sec.Fetch? ==> r.member == s.sess[c].made
    requires RecordsNow(s.pcs[Handler(c)], r, s.hist[c], n, k)
    ensures var sec := s.pcs[Handler(c)].sec;
            var s' := Body(s, Handler(c), sec, order, rows);
            && Handler(c) in s'.pcs && s'.hist == s.hist
            && RecordsNow(s'.pcs[Handler(c)], NoteSection(s, r, sec, rows), s.hist[c], n, k)
  {
    var sec := s.pcs[Handler(c)].sec;
    var pc' := Body(s, Handler(c), sec, order, rows).pcs[Handler(c)];
    if sec.Leave? {
      RecordsStay(s.pcs[Handler(c)], pc', r, r, s.hist[c], s.hist[c], n, k);
    } else if sec.Fetch? && (IsDm(r) || IsCast(r)) {
      FetchPhase(s, c, sec.rq, r);
      RecordsStay(s.pcs[Handler(c)], pc', r, r, s.hist[c], s.hist[c], n, k);
    } else {
      RecordsOther(s.pcs[Handler(c)], pc', r, NoteSection(s, r, sec, rows), s.hist[c], n, k);
    }
  }

  lemma BodyRecords(s: State, c: nat, r: Ask, order: seq<nat>, rows: seq<(string, Status)>, n: nat, k: nat)
    requires RegOk(s) && c < |s.socks| && s.pcs[Handler(c)].Inside? && PcServes(c, s.pcs[Handler(c)], r)
    requires SectionFor(Handler(c), s.pcs[Handler(c)].sec, |s.socks|) && (Early(s.pcs[Handler(c)]) ==> !Live(r))
    requires s.pcs[Handler(c)].sec.Fetch? ==> r.member == s.sess[c].made
    requires RecordsNow(s.pcs[Handler(c)], r, s.hist[c], n, k)
    ensures var sec := s.pcs[Handler(c)].sec;
            var s' := Body(s, Handler(c), sec, order, rows);
            && Handler(c) in s'.pcs && c < |s'.hist|
            && RecordsNow(s'.pcs[Handler(c)], NoteSection(s, r, sec, rows), s'.hist[c], n, k)
  {
    match s.pcs[Handler(c)].sec {
      case Gather(_, text) => GatherRecords(s, c, text, order, r, n, k);
      case Seek(_, dest, text) => SeekRecords(s, c, dest, text, r, n, k);
      case _ => OtherRecords(s, c, r, order, rows, n, k);
    }
  }

  lemma DeliverRecords(s: State, c: nat, r: Ask, n: nat, k: nat)
    requires Ok(s) && c < |s.socks| && s.pcs[Handler(c)].Deliver? && PcServes(c, s.pcs[Handler(c)], r)
    requires PcFor(Handler(c), s.pcs[Handler(c)], s.socks, s.hist) && s.pcs[Handler(c)].k == n
    requires RecordsNow(s.pcs[Handler(c)], r, s.hist[c], n, k)
    ensures var s' := Field(s, Handler(c));
            && Handler(c) in s'.pcs && c < |s'.hist|
            && RecordsNow(s'.pcs[Handler(c)], NoteField(s, r, s.pcs[Handler(c)]), s'.hist[c], n, k)
  {}

  lemma LookPhase(s: State, c: nat, r: Ask)
    requires Ok(s) && c < |s.socks| && PcServes(c, s.pcs[Handler(c)], r)
    requires s.pcs[Handler(c)].RestoreTest? || s.pcs[Handler(c)].Describe?
    requires PcFor(Handler(c), s.pcs[Handler(c)], s.socks, s.hist)
    ensures var s' := Field(s, Handler(c));
            && Handler(c) in s'.pcs && s'.hist == s.hist
            && (IsDm(r) || IsCast(r) ==> SamePhase(s.pcs[Handler(c)], s'.pcs[Handler(c)]))
  {}

  lemma WritePhase(s: State, c: nat, r: Ask)
    requires Ok(s) && c < |s.socks| && PcServes(c, s.pcs[Handler(c)], r)
    requires var pc := s.pcs[Handler(c)]; pc.RestoreStatus? || pc.RestoreManual? || pc.SetStatus? || pc.SetManual?
    ensures var s' := Field(s, Handler(c));
            && Handler(c) in s'.pcs && c < |s'.hist|
            && s'.hist[c].dms == s.hist[c].dms && s'.hist[c].casts == s.hist[c].casts
            && (IsDm(r) || IsCast(r) ==> SamePhase(s.pcs[Handler(c)], s'.pcs[Handler(c)]))
  {}

  lemma FieldRecords(s: State, c: nat, r: Ask, n: nat, k: nat)
    requires Ok(s) && c < |s.socks| && FieldPc(s.pcs[Handler(c)]) && PcServes(c, s.pcs[Handler(c)], r)
    requires PcFor(Handler(c), s.pcs[Handler(c)], s.socks, s.hist)
    requires s.pcs[Handler(c)].Deliver? ==> s.pcs[Handler(c)].k == n
    requires RecordsNow(s.pcs[Handler(c)], r, s.hist[c], n, k)
    ensures var s' := Field(s, Handler(c));
            && Handler(c) in s'.pcs && c < |s'.hist|
            && RecordsNow(s'.pcs[Handler(c)], NoteField(s, r, s.pcs[Handler(c)]), s'.hist[c], n, k)
  {
    var s' := Field(s, Handler(c));
    if s.pcs[Handler(c)].Deliver? {
      DeliverRecords(s, c, r, n, k);
    } else {
      if s.pcs[Handler(c)].RestoreTest? || s.pcs[Handler(c)].Describe? {
        LookPhase(s, c, r);
      } else {
        WritePhase(s, c, r);
      }
      var r' := NoteField(s, r, s.pcs[Handler(c)]);
      RecordsStay(s.pcs[Handler(c)], s'.pcs[Handler(c)], r, r', s.hist[c], s'.hist[c], n, k);
    }
  }

  lemma SendRecords(env: Env, s: State, c: nat, act: SendAct, r: Ask, r': Ask, n: nat, k: nat)
    requires Ok(s) && CanSend(env, s, Handler(c), act) && c < |s.socks| && r' == r.(calls := r'.calls)
    requires RecordsNow(s.pcs[Handler(c)], r, s.hist[c], n, k)
    ensures var s' := DoSend(env, s, Handler(c), act);
            Handler(c) in s'.pcs && s'.hist == s.hist && RecordsNow(s'.pcs[Handler(c)], r', s.hist[c], n, k)
  {
    SendFields(env, s, c, act);
    assert PcFor(Handler(c), s.pcs[Handler(c)], s.socks, s.hist);
    if !act.TakeLock? { SendMoves(env, s, c, act); }
    RecordsStay(s.pcs[Handler(c)], DoSend(env, s, Handler(c), act).pcs[Handler(c)], r, r', s.hist[c], s.hist[c], n, k);
  }

  lemma MoveRecords(env: Env, s: State, e: Event, c: nat, r: Ask, n: nat, k: nat)
    requires Ok(s) && Can(env, s, e) && c < |s.socks| && RecordsNow(s.pcs[Handler(c)], r, s.hist[c], n, k)
    requires e == EvHangUp(c) || e == EvAcquire(Handler(c)) || e == EvErase(c) || e == EvClose(c)
    ensures var s' := Do(env, s, e);
            Handler(c) in s'.pcs && s'.hist == s.hist && RecordsNow(s'.pcs[Handler(c)], r, s.hist[c], n, k)
  {
    MoveIs(env, s, e, c);
    MoveShape(s.pcs[Handler(c)], Do(env, s, e).pcs[Handler(c)]);
    RecordsStay(s.pcs[Handler(c)], Do(env, s, e).pcs[Handler(c)], r, r, s.hist[c], s.hist[c], n, k);
  }

  lemma OwnRecords(env: Env, s: State, e: Event, c: nat, r: Ask, n: nat, k: nat)
    requires Ok(s) && RegOk(s) && Can(env, s, e) && c < |s.socks| && Actor(e) == Handler(c)
    requires !e.EvAccept? && !e.EvRequest? && PcServes(c, s.pcs[Handler(c)], r)
    requires (Early(s.pcs[Handler(c)]) ==> !Live(r)) && (Fetching(s.pcs[Handler(c)]) ==> r.member == s.sess[c].made)
    requires s.pcs[Handler(c)].Deliver? ==> s.pcs[Handler(c)].k == n
    requires RecordsNow(s.pcs[Handler(c)], r, s.hist[c], n, k)
    ensures var s' := Do(env, s, e);
            && Handler(c) in s'.pcs && c < |s'.hist|
            && RecordsNow(s'.pcs[Handler(c)], Note(env, s, r, e), s'.hist[c], n, k)
  {
    assert PcFor(Handler(c), s.pcs[Handler(c)], s.socks, s.hist);
    if e.EvBody? {
      BodyRecords(s, c, r, e.order, e.rows, n, k);
    } else if e.EvField? {
      FieldRecords(s, c, r, n, k);
    } else if e.EvSend? {
      SendRecords(env, s, c, e.act, r, Note(env, s, r, e), n, k);
    } else {
      MoveRecords(env, s, e, c, r, n, k);
    }
  }

  // ---------- all of it together ----------

  lemma DeliverMeans(s: State, c: nat, r: Ask, n: nat)
    requires Domain(s) && c < |s.socks| && DmOk(s, c) && s.pcs[Handler(c)].Deliver?
    requires PcServes(c, s.pcs[Handler(c)], r) && DmNow(s.pcs[Handler(c)], r, s.hist[c].dms, n)
    ensures RecordFits(s, c, r) && s.pcs[Handler(c)].k == n
  {
    assert RecOk(s, s.hist[c].dms[s.pcs[Handler(c)].k], c, true);
  }

  lemma AskMeans(s: State, c: nat, b: Book)
    requires Domain(s) && c < |s.socks| && DmOk(s, c) && AskOk(s, c, b) && b.now.Some?
    ensures var r := b.now.value;
            && OnCourse(c, s.pcs[Handler(c)], r) && Truthful(s, c, r) && RecordFits(s, c, r)
            && (Fetching(s.pcs[Handler(c)]) ==> r.member == s.sess[c].made)
            && (s.pcs[Handler(c)].Deliver? ==> s.pcs[Handler(c)].k == |DmAsks(b.done)|)
  {
    if s.pcs[Handler(c)].Deliver? { DeliverMeans(s, c, b.now.value, |DmAsks(b.done)|); }
  }

  // Before it has a session a connection's requests have chosen nothing.
  lemma StrangerChose(s: State, c: nat, b: Book)
    requires AllTruthful(s, c, b) && c < |s.sess| && !s.sess[c].made
    ensures Chosen(b.done) == ACTIVE
  {
    forall i | 0 <= i < |b.done| ensures !b.done[i].member && !Auto(b.done[i]) {
      assert Truthful(s, c, b.done[i]);
    }
    NothingChosen(b.done);
  }

  lemma ServingPresent(env: Env, s: State, e: Event, c: nat, b: Book)
    requires Ok(s) && LocksOk(s) && RegOk(s) && DmsOk(s) && Can(env, s, e) && c < |s.socks| && Actor(e) == Handler(c)
    requires !e.EvAccept? && !e.EvRequest? && AskOk(s, c, b) && b.now.Some?
    ensures var s' := Do(env, s, e);
            && Handler(c) in s'.pcs && c < |s'.sess| && c < |s'.hist|
            && Present(c, s'.pcs[Handler(c)], s'.sess[c], s'.hist[c], OwnNotes(env, s, b, e))
  {
    var r := b.now.value;
    assert DmOk(s, c);
    AskMeans(s, c, b);
    if !s.sess[c].made { StrangerChose(s, c, b); }
    OwnServes(env, s, e, c, r);
    OwnFields(env, s, e, c, r, Chosen(b.done));
    OwnRecords(env, s, e, c, r, |DmAsks(b.done)|, |CastAsks(b.done)|);
  }

  // The first records never change.
  lemma OwnPast(env: Env, s: State, e: Event, c: nat, b: Book)
    requires Ok(s) && DmsOk(s) && Can(env, s, e) && c < |s.socks| && Actor(e) == Handler(c)
    requires !e.EvAccept? && !e.EvRequest? && AskOk(s, c, b) && b.now.Some? && c < |Do(env, s, e).hist|
    ensures Past(c, b.done, Do(env, s, e).hist[c].dms, Do(env, s, e).hist[c].casts)
  {
    assert DmOk(s, c);
    AskMeans(s, c, b);
    OwnAppends(env, s, e, c);
    PastStays(c, b.done, s.hist[c].dms, s.hist[c].casts, Do(env, s, e).hist[c].dms, Do(env, s, e).hist[c].casts);
  }

  // Records are added, and the last one of a direct message is completed.
  lemma OwnAppends(env: Env, s: State, e: Event, c: nat)
    requires Ok(s) && Can(env, s, e) && c < |s.socks| && Actor(e) == Handler(c) && !e.EvAccept?
    ensures var s' := Do(env, s, e);
            && c < |s'.hist| && |s'.hist[c].dms| >= |s.hist[c].dms| && |s'.hist[c].casts| >= |s.hist[c].casts|
            && (forall k | 0 <= k < |s.hist[c].casts| :: s'.hist[c].casts[k] == s.hist[c].casts[k])
            && (forall k | 0 <= k < |s.hist[c].dms| && !(s.pcs[Handler(c)].Deliver? && s.pcs[Handler(c)].k == k) ::
                  s'.hist[c].dms[k] == s.hist[c].dms[k])
  {
    assert PcFor(Handler(c), s.pcs[Handler(c)], s.socks, s.hist);
    if e.EvSend? { SendFields(env, s, c, e.act); }
  }

  // A handler that has read nothing yet sends nothing and changes nothing.
  lemma NothingSent(env: Env, s: State, c: nat, act: SendAct)
    requires Ok(s) && CanSend(env, s, Handler(c), act) && c < |s.socks|
    requires Todo(s.pcs[Handler(c)]) == [] && !Early(s.pcs[Handler(c)])
    ensures var s' := DoSend(env, s, Handler(c), act);
            Handler(c) in s'.pcs && Todo(s'.pcs[Handler(c)]) == [] && !Early(s'.pcs[Handler(c)])
  {
    assert PcFor(Handler(c), s.pcs[Handler(c)], s.socks, s.hist);
    SendMoves(env, s, c, act);
  }

  lemma NothingLeft(s: State, c: nat)
    requires Shaped(s) && c < |s.socks|
    ensures var s' := LeaveBody(s, c);
            && Handler(c) in s'.pcs && Todo(s'.pcs[Handler(c)]) == [] && !Early(s'.pcs[Handler(c)])
            && c < |s'.sess| && s'.sess[c].manual == s.sess[c].manual && s'.hist == s.hist
  {}

  lemma NothingYet(env: Env, s: State, e: Event, c: nat)
    requires Ok(s) && Can(env, s, e) && c < |s.socks| && Actor(e) == Handler(c) && !e.EvAccept? && !e.EvRequest?
    requires Todo(s.pcs[Handler(c)]) == [] && !Early(s.pcs[Handler(c)])
    ensures var s' := Do(env, s, e);
            && Handler(c) in s'.pcs && c < |s'.sess| && c < |s'.hist|
            && Todo(s'.pcs[Handler(c)]) == [] && !Early(s'.pcs[Handler(c)])
            && s'.sess[c].manual == s.sess[c].manual && s'.hist[c] == s.hist[c]
  {
    if e.EvSend? {
      SendFields(env, s, c, e.act);
      NothingSent(env, s, c, e.act);
    } else if e.EvBody? {
      NothingLeft(s, c);
    } else {
      MoveIs(env, s, e, c);
      MoveShape(s.pcs[Handler(c)], Do(env, s, e).pcs[Handler(c)]);
    }
  }

  lemma FinishedGrows(c: nat, done: seq<Ask>, r: Ask)
    requires AllFinished(c, done) && Finished(c, r)
    ensures AllFinished(c, done + [r])
  {
    forall i | 0 <= i < |done + [r]| ensures Finished(c, (done + [r])[i]) {
      if i < |done| { assert Finished(c, done[i]); }
    }
  }

  lemma DmPastGrows(pc: Pc, done: seq<Ask>, r: Ask, dms: seq<DmRec>)
    requires DmPast(done, dms) && DmNow(pc, r, dms, |DmAsks(done)|) && !Early(pc)
    ensures DmPast(done + [r], dms) && |dms| == |DmAsks(done + [r])|
  {
    AsksSnoc(done, r);
  }

  lemma CastPastGrows(pc: Pc, done: seq<Ask>, r: Ask, casts: seq<CastRec>)
    requires CastPast(done, casts) && CastNow(pc, r, casts, |CastAsks(done)|) && !Early(pc)
    ensures CastPast(done + [r], casts) && |casts| == |CastAsks(done + [r])|
  {
    AsksSnoc(done, r);
    forall k | 0 <= k < |CastAsks(done + [r])| ensures CastFits(CastAsks(done + [r])[k], casts[k]) {
      if k < |CastAsks(done)| { assert CastFits(CastAsks(done)[k], casts[k]); }
    }
  }

  lemma AtRest(c: nat, e: Sess, h: Hist, b: Book)
    requires InStep(c, Reading, e, h, b)
    ensures Past(c, All(b), h.dms, h.casts) && e.manual == Chosen(All(b))
    ensures |h.dms| == |DmAsks(All(b))| && |h.casts| == |CastAsks(All(b))|
  {
    if b.now.Some? {
      var r := b.now.value;
      AsksSnoc(b.done, r);
      assert r.calls + CallsOf([]) == r.calls;
      FinishedGrows(c, b.done, r);
      DmPastGrows(Reading, b.done, r, h.dms);
      CastPastGrows(Reading, b.done, r, h.casts);
    }
  }

  lemma RequestKeeps(s: State, c: nat, rq: Request, b: Book)
    requires c < |s.socks| && c < |s.sess| && c < |s.hist| && InStep(c, Reading, s.sess[c], s.hist[c], b)
    ensures InStep(c, Dispatch(c, rq), s.sess[c], s.hist[c], Book(All(b), Some(NewAsk(s, c, rq))))
  {
    AtRest(c, s.sess[c], s.hist[c], b);
    RequestServes(s, c, rq);
  }

  // Every event of the handler keeps its notes in step.
  lemma OwnEvent(env: Env, s: State, e: Event, c: nat, b: Book)
    requires Ok(s) && LocksOk(s) && RegOk(s) && DmsOk(s) && Can(env, s, e) && c < |s.socks| && AskOk(s, c, b)
    requires Actor(e) == Handler(c) && !e.EvAccept?
    ensures var s' := Do(env, s, e);
            && Handler(c) in s'.pcs && c < |s'.sess| && c < |s'.hist|
            && InStep(c, s'.pcs[Handler(c)], s'.sess[c], s'.hist[c], OwnNotes(env, s, b, e))
  {
    if e.EvRequest? {
      RequestKeeps(s, c, e.rq, b);
    } else if b.now.Some? {
      ServingPresent(env, s, e, c, b);
      OwnPast(env, s, e, c, b);
    } else {
      NothingYet(env, s, e, c);
    }
  }

  // ---------- events of others ----------

  lemma BodyManual(s: State, t: Tid, sec: Section, order: seq<nat>, rows: seq<(string, Status)>, c: nat)
    requires Shaped(s) && SectionFor(t, sec, |s.socks|) && (t.Handler? ==> t.c < |s.socks|) && c < |s.sess|
    requires t != Handler(c)
    ensures var s' := Body(s, t, sec, order, rows); c < |s'.sess| && s'.sess[c].manual == s.sess[c].manual
  {}

  lemma FieldManualKept(env: Env, s: State, t: Tid, c: nat)
    requires Ok(s) && t in s.pcs && FieldPc(s.pcs[t]) && PcInv(env, s, t, s.pcs[t]) && c < |s.sess| && t != Handler(c)
    requires PcFor(t, s.pcs[t], s.socks, s.hist)
    ensures c < |Field(s, t).sess| && Field(s, t).sess[c].manual == s.sess[c].manual
  {}

  lemma SendManual(env: Env, s: State, t: Tid, act: SendAct, c: nat)
    requires Ok(s) && CanSend(env, s, t, act) && c < |s.sess|
    ensures c < |DoSend(env, s, t, act).sess| && DoSend(env, s, t, act).sess[c].manual == s.sess[c].manual
  {
    assert PcFor(t, s.pcs[t], s.socks, s.hist);
  }

  lemma SweepManual(s: State, act: SweepAct, c: nat)
    requires Ok(s) && CanSweep(s, act) && c < |s.sess|
    ensures c < |DoSweep(s, act).sess| && DoSweep(s, act).sess[c].manual == s.sess[c].manual
  {
    assert PcFor(Watchdog, s.pcs[Watchdog], s.socks, s.hist);
  }

  // An event of another thread leaves the manual status alone.
  lemma ManualKept(env: Env, s: State, e: Event, c: nat)
    requires Ok(s) && OwnOk(env, s) && Can(env, s, e) && c < |s.socks| && Actor(e) != Handler(c)
    ensures c < |Do(env, s, e).sess| && Do(env, s, e).sess[c].manual == s.sess[c].manual
  {
    match e {
      case EvBody(t, order, rows) =>
        assert PcFor(t, s.pcs[t], s.socks, s.hist);
        BodyManual(s, t, s.pcs[t].sec, order, rows, c);
      case EvField(t) =>
        assert PcFor(t, s.pcs[t], s.socks, s.hist) && PcInv(env, s, t, s.pcs[t]);
        FieldManualKept(env, s, t, c);
      case EvSend(t, act) => SendManual(env, s, t, act, c);
      case EvSweep(act) => SweepManual(s, act, c);
      case _ =>
    }
  }

  lemma OtherEvent(env: Env, s: State, e: Event, c: nat, b: Book)
    requires Ok(s) && LivesOk(s) && OwnOk(env, s) && Can(env, s, e) && c < |s.socks| && AskOk(s, c, b)
    requires Actor(e) != Handler(c)
    ensures var s' := Do(env, s, e);
            && Handler(c) in s'.pcs && c < |s'.sess| && c < |s'.hist|
            && InStep(c, s'.pcs[Handler(c)], s'.sess[c], s'.hist[c], b)
  {
    OthersLeave(env, s, e, c);
    ManualKept(env, s, e, c);
    ConnKept(env, s, e, c);
  }

  // ---------- every step ----------

  ghost predicate AsksOk(s: State, books: seq<Book>) {
    Domain(s) && |books| == |s.socks| && forall c | 0 <= c < |s.socks| :: AskOk(s, c, books[c])
  }

  lemma OwnAsk(env: Env, s: State, e: Event, c: nat, b: Book)
    requires Ok(s) && LocksOk(s) && RegOk(s) && DmsOk(s) && Can(env, s, e) && c < |s.socks|
    requires AskOk(s, c, b) && Domain(Do(env, s, e)) && !e.EvAccept? && Actor(e) == Handler(c)
    ensures c < |Do(env, s, e).socks| && AskOk(Do(env, s, e), c, OwnNotes(env, s, b, e))
  {
    StepDomain(env, s, e);
    OwnEvent(env, s, e, c, b);
    OwnTruth(env, s, e, c, b);
    OwnTally(env, s, e, c, b);
  }

  lemma OtherAsk(env: Env, s: State, e: Event, c: nat, b: Book)
    requires Ok(s) && LivesOk(s) && OwnOk(env, s) && Can(env, s, e) && c < |s.socks|
    requires AskOk(s, c, b) && Domain(Do(env, s, e)) && Actor(e) != Handler(c)
    ensures c < |Do(env, s, e).socks| && AskOk(Do(env, s, e), c, b)
  {
    OtherEvent(env, s, e, c, b);
    TruthKept(env, s, e, c, b);
    if e.EvAccept? {
      AcceptTally(s, e.fd, e.ip, c, b);
    } else {
      Lengths(env, s, e);
      OtherTally(env, s, e, c, b);
    }
  }

  lemma FreshAsk(s: State, fd: int, ip: string)
    requires Ok(s) && AuthorsOk(s) && Domain(Accept(s, fd, ip))
    ensures AskOk(Accept(s, fd, ip), |s.socks|, NO_NOTES)
  {
    FreshTally(s, fd, ip);
  }

  lemma StepDomain(env: Env, s: State, e: Event)
    requires Ok(s) && Can(env, s, e)
    ensures Domain(Do(env, s, e)) && |Do(env, s, e).socks| == |s.socks| + (if e.EvAccept? then 1 else 0)
  {
    DoOk(env, s, e);
    if !e.EvAccept? { Lengths(env, s, e); }
  }

  lemma ConnAsk(env: Env, s: State, books: seq<Book>, e: Event, c: nat)
    requires Ok(s) && LocksOk(s) && RegOk(s) && OwnOk(env, s) && AuthorsOk(s) && DmsOk(s) && Can(env, s, e)
    requires AsksOk(s, books) && Domain(Do(env, s, e)) && c < |Do(env, s, e).socks|
    ensures c < |Notes(env, s, books, e)| && AskOk(Do(env, s, e), c, Notes(env, s, books, e)[c])
  {
    StepDomain(env, s, e);
    var b := Notes(env, s, books, e)[c];
    if c >= |s.socks| {
      FreshAsk(s, e.fd, e.ip);
    } else if Actor(e) == Handler(c) {
      OwnAsk(env, s, e, c, books[c]);
      assert b == OwnNotes(env, s, books[c], e);
    } else {
      OtherAsk(env, s, e, c, books[c]);
      assert b == books[c];
    }
  }

  // Every step keeps all of it.
  lemma DoAsks(env: Env, s: State, books: seq<Book>, e: Event)
    requires Ok(s) && LocksOk(s) && RegOk(s) && OwnOk(env, s) && AuthorsOk(s) && DmsOk(s) && Can(env, s, e)
    requires AsksOk(s, books)
    ensures AsksOk(Do(env, s, e), Notes(env, s, books, e))
  {
    StepDomain(env, s, e);
    forall c | 0 <= c < |Do(env, s, e).socks| ensures AskOk(Do(env, s, e), c, Notes(env, s, books, e)[c]) {
      ConnAsk(env, s, books, e, c);
    }
  }

  // ---------- what the notes say ----------

  // A request the handler is through with has been answered.
  lemma BookAnswers(c: nat, pc: Pc, e: Sess, h: Hist, b: Book, i: nat)
    requires InStep(c, pc, e, h, b) && i < |All(b)| && (i < |b.done| || (Todo(pc) == [] && !Early(pc)))
    ensures All(b)[i].from.conn == c && Answered(All(b)[i], All(b)[i].calls)
  {
    if i < |b.done| {
      assert Finished(c, b.done[i]);
    } else {
      assert OnCourse(c, pc, b.now.value) && b.now.value.calls + CallsOf([]) == b.now.value.calls;
    }
  }

  // The k-th record of a kind is that of the k-th request of that kind.
  lemma BookDm(c: nat, pc: Pc, e: Sess, h: Hist, b: Book, k: nat)
    requires InStep(c, pc, e, h, b) && k < |h.dms|
    ensures k < |DmAsks(All(b))| && DmFits(DmAsks(All(b))[k], h.dms[k])
  {
    if b.now.Some? { AsksSnoc(b.done, b.now.value); }
    if k < |DmAsks(b.done)| { assert DmFits(DmAsks(b.done)[k], h.dms[k]); }
  }

  lemma BookCast(c: nat, pc: Pc, e: Sess, h: Hist, b: Book, k: nat)
    requires InStep(c, pc, e, h, b) && k < |h.casts|
    ensures k < |CastAsks(All(b))| && CastFits(CastAsks(All(b))[k], h.casts[k])
  {
    if b.now.Some? { AsksSnoc(b.done, b.now.value); }
    if k < |CastAsks(b.done)| { assert CastFits(CastAsks(b.done)[k], h.casts[k]); }
  }

  // At rest the manual status is the one chosen.
  lemma BookChoice(c: nat, pc: Pc, e: Sess, h: Hist, b: Book)
    requires InStep(c, pc, e, h, b) && !Unwritten(pc)
    ensures e.manual == Chosen(All(b))
  {
    if b.now.Some? { AsksSnoc(b.done, b.now.value); }
  }
}
