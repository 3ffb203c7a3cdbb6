/**
 Whole runs of the server: every interleaving of any number of handler threads and the watchdog, from the
 start and before stop(). The main results of the step model.
 */
module Runs {
  import opened LengthField
  import opened Framing
  import opened Protocol
  import opened Requests
  import opened Steps
  import opened Locks
  import opened Owners
  import opened Sessions
  import opened Wire
  import opened Replies
  import opened Calls
  import opened Statuses
  import opened Casts
  import opened Dms
  import opened Sweeps
  import opened Answers
  import opened Ledger
  import R = Registry

  // One event of one thread, or a new connection. (Ok holds from INIT on: InitOk, DoOk.)
  ghost predicate Step(env: Env, s: State, s': State) {
    exists e :: Ok(s) && Can(env, s, e) && s' == Do(env, s, e)
  }

  ghost predicate Run(env: Env, states: seq<State>) {
    |states| > 0 && states[0] == INIT && forall i | 0 <= i < |states| - 1 :: Step(env, states[i], states[i + 1])
  }

  // What holds in every state of every run, whatever the clients send.
  ghost predicate Inv(env: Env, s: State) {
    && Ok(s) && LocksOk(s) && RegOk(s) && OwnOk(env, s) && RepliesOk(env, s)
    && StatusesOk(s) && NoticesOk(s) && ScanOk(s) && AuthorsOk(s) && CastsOk(s) && DmsOk(s)
  }

  lemma InitInv(env: Env)
    ensures Inv(env, INIT) && WireOk(env, INIT)
  {
    assert Todo(INIT.pcs[Watchdog]) == [];
  }

  lemma StepInv(env: Env, s: State, e: Event)
    requires Inv(env, s) && Can(env, s, e)
    ensures Inv(env, Do(env, s, e))
  {
    DoOk(env, s, e);
    DoLocks(env, s, e);
    DoReg(env, s, e);
    DoOwn(env, s, e);
    DoReplies(env, s, e);
    DoStatuses(env, s, e);
    DoNotices(env, s, e);
    DoSweeps(env, s, e);
    DoAuthors(env, s, e);
    DoCasts(env, s, e);
    DoDms(env, s, e);
  }

  ghost predicate Good(env: Env, s: State) {
    Inv(env, s) && (Disciplined(env) ==> WireOk(env, s))
  }

  lemma StepGood(env: Env, s: State, s': State)
    requires Good(env, s) && Step(env, s, s')
    ensures Good(env, s')
  {
    var e :| Ok(s) && Can(env, s, e) && s' == Do(env, s, e);
    StepInv(env, s, e);
    if Disciplined(env) { DoWire(env, s, e); }
  }

  lemma InitGood(env: Env)
    ensures Good(env, INIT)
  {
    InitInv(env);
  }

  lemma PrefixRun(env: Env, states: seq<State>, n: nat)
    requires Run(env, states) && 0 < n <= |states|
    ensures Run(env, states[..n])
  {
    forall i | 0 <= i < n - 1 ensures Step(env, states[..n][i], states[..n][i + 1]) {
      assert Step(env, states[i], states[i + 1]);
    }
  }

  // Induction over the run: every state reached is good.
  lemma {:induction false} RunGood(env: Env, states: seq<State>)
    requires Run(env, states)
    ensures Good(env, states[|states| - 1])
    decreases |states|
  {
    var n := |states| - 1;
    if n == 0 {
      InitGood(env);
    } else {
      PrefixRun(env, states, n);
      RunGood(env, states[..n]);
      assert Step(env, states[n - 1], states[n]);
      StepGood(env, states[n - 1], states[n]);
    }
  }

  ghost predicate Reached(env: Env, s: State) {
    exists states :: Run(env, states) && states[|states| - 1] == s
  }

  lemma ReachedInv(env: Env, s: State)
    requires Reached(env, s)
    ensures Inv(env, s) && (Disciplined(env) ==> WireOk(env, s))
  {
    var states :| Run(env, states) && states[|states| - 1] == s;
    RunGood(env, states);
  }

  lemma ReachedWire(env: Env, s: State)
    requires Disciplined(env) && Reached(env, s)
    ensures WireOk(env, s)
  {
    ReachedInv(env, s);
  }

  lemma ReachedCasts(env: Env, s: State)
    requires Reached(env, s)
    ensures CastsOk(s)
  {
    ReachedInv(env, s);
  }

  // ---------- runs with notes on the requests ----------

  datatype Noted = Noted(s: State, books: seq<Book>)

  ghost predicate NotedStep(env: Env, x: Noted, x': Noted) {
    exists e :: Ok(x.s) && |x.books| == |x.s.socks| && Can(env, x.s, e) &&
      x' == Noted(Do(env, x.s, e), Notes(env, x.s, x.books, e))
  }

  ghost predicate NotedRun(env: Env, xs: seq<Noted>) {
    |xs| > 0 && xs[0] == Noted(INIT, []) && forall i | 0 <= i < |xs| - 1 :: NotedStep(env, xs[i], xs[i + 1])
  }

  ghost predicate Heard(env: Env, x: Noted) {
    exists xs :: NotedRun(env, xs) && xs[|xs| - 1] == x
  }

  lemma NotedPrefix(env: Env, xs: seq<Noted>, n: nat)
    requires NotedRun(env, xs) && 0 < n <= |xs|
    ensures NotedRun(env, xs[..n])
  {
    forall i | 0 <= i < n - 1 ensures NotedStep(env, xs[..n][i], xs[..n][i + 1]) {
      assert NotedStep(env, xs[i], xs[i + 1]);
    }
  }

  // Notes change nothing: the states of a noted run are a run.
  lemma NotedIsRun(env: Env, xs: seq<Noted>)
    requires NotedRun(env, xs)
    ensures Reached(env, xs[|xs| - 1].s)
  {
    var states := seq(|xs|, i requires 0 <= i < |xs| => xs[i].s);
    forall i | 0 <= i < |states| - 1 ensures Step(env, states[i], states[i + 1]) {
      assert NotedStep(env, xs[i], xs[i + 1]);
    }
    assert Run(env, states) && states[|states| - 1] == xs[|xs| - 1].s;
  }

  lemma StepNotes(env: Env, x: Noted, x': Noted)
    requires Inv(env, x.s) && AsksOk(x.s, x.books) && NotedStep(env, x, x')
    ensures AsksOk(x'.s, x'.books)
  {
    var e :| Ok(x.s) && |x.books| == |x.s.socks| && Can(env, x.s, e) &&
      x' == Noted(Do(env, x.s, e), Notes(env, x.s, x.books, e));
    DoAsks(env, x.s, x.books, e);
  }

  lemma StepFrom(env: Env, x: Noted, x': Noted)
    requires Reached(env, x.s) && AsksOk(x.s, x.books) && NotedStep(env, x, x')
    ensures AsksOk(x'.s, x'.books)
  {
    ReachedInv(env, x.s);
    StepNotes(env, x, x');
  }

  // Induction over the run: the notes agree with the state in every state reached.
  lemma {:induction false} NotesAgree(env: Env, xs: seq<Noted>, n: nat)
    requires NotedRun(env, xs) && n < |xs|
    ensures AsksOk(xs[n].s, xs[n].books)
  {
    if n > 0 {
      NotesAgree(env, xs, n - 1);
      NotedPrefix(env, xs, n);
      NotedIsRun(env, xs[..n]);
      assert NotedStep(env, xs[n - 1], xs[n - 1 + 1]);
      StepFrom(env, xs[n - 1], xs[n]);
    }
  }

  lemma HeardAgrees(env: Env, x: Noted)
    requires Heard(env, x)
    ensures Reached(env, x.s) && AsksOk(x.s, x.books)
  {
    var xs :| NotedRun(env, xs) && xs[|xs| - 1] == x;
    NotedIsRun(env, xs);
    NotesAgree(env, xs, |xs| - 1);
  }

  lemma MoreNotes(env: Env, x: Noted, x': Noted)
    requires Heard(env, x) && NotedStep(env, x, x')
    ensures Heard(env, x')
  {
    var xs :| NotedRun(env, xs) && xs[|xs| - 1] == x;
    var longer := xs + [x'];
    forall i | 0 <= i < |longer| - 1 ensures NotedStep(env, longer[i], longer[i + 1]) {
      if i < |xs| - 1 { assert NotedStep(env, xs[i], xs[i + 1]); }
    }
    assert NotedRun(env, longer) && longer[|longer| - 1] == x';
  }

  // Every run can be noted.
  lemma {:induction false} RunIsNoted(env: Env, states: seq<State>) returns (books: seq<Book>)
    requires Run(env, states)
    ensures Heard(env, Noted(states[|states| - 1], books))
    decreases |states|
  {
    var n := |states| - 1;
    if n == 0 {
      books := [];
      assert NotedRun(env, [Noted(INIT, [])]) && [Noted(INIT, [])][0] == Noted(states[0], books);
    } else {
      PrefixRun(env, states, n);
      var before := RunIsNoted(env, states[..n]);
      var x := Noted(states[n - 1], before);
      HeardAgrees(env, x);
      assert Step(env, states[n - 1], states[n]);
      var e :| Ok(x.s) && Can(env, x.s, e) && states[n] == Do(env, x.s, e);
      books := Notes(env, x.s, before, e);
      assert NotedStep(env, x, Noted(states[n], books));
      MoreNotes(env, x, Noted(states[n], books));
    }
  }

  lemma ReachedIsHeard(env: Env, s: State)
    requires Reached(env, s)
    ensures exists books :: Heard(env, Noted(s, books))
  {
    var states :| Run(env, states) && states[|states| - 1] == s;
    var books := RunIsNoted(env, states);
  }

  // ---------- every request is answered ----------

  // The handler is through with its request number i.
  predicate Served(x: Noted, c: nat, i: nat) {
    && c < |x.books| && i < |All(x.books[c])|
    && (i < |x.books[c].done| ||
        (Handler(c) in x.s.pcs && Todo(x.s.pcs[Handler(c)]) == [] && !Early(x.s.pcs[Handler(c)])))
  }

  lemma HeardBook(env: Env, x: Noted, c: nat)
    requires Heard(env, x) && c < |x.books|
    ensures Reached(env, x.s) && Domain(x.s) && c < |x.s.socks| && c < |x.s.sess| && c < |x.s.hist|
    ensures Handler(c) in x.s.pcs && InStep(c, x.s.pcs[Handler(c)], x.s.sess[c], x.s.hist[c], x.books[c])
    ensures AllTruthful(x.s, c, x.books[c]) && Tallied(x.s, c, x.books[c])
  {
    HeardAgrees(env, x);
    assert AskOk(x.s, c, x.books[c]);
  }

  // Every request that a handler is through with has been answered as it should be, by calls in that order.
  lemma RunsAnswerRequests(env: Env, x: Noted, c: nat, i: nat)
    requires Heard(env, x) && Served(x, c, i)
    ensures var r := All(x.books[c])[i]; r.from.conn == c && Answered(r, r.calls)
  {
    HeardBook(env, x, c);
    BookAnswers(c, x.s.pcs[Handler(c)], x.s.sess[c], x.s.hist[c], x.books[c], i);
  }

  // The notes name people truly: who asked, and who was registered.
  lemma RunsNoteTruly(env: Env, x: Noted, c: nat, i: nat)
    requires Heard(env, x) && c < |x.books| && i < |All(x.books[c])|
    ensures Truthful(x.s, c, All(x.books[c])[i])
  {
    HeardBook(env, x, c);
  }

  // On every socket, a handler's calls are those noted with its requests, request after request, and no others.
  lemma RunsCallAsNoted(env: Env, x: Noted, c: nat, d: nat)
    requires Heard(env, x) && c < |x.books| && d < |x.s.socks|
    ensures FramesIn(Issued(x.s.socks[d].log, Handler(c))) == FramesFor(All(x.books[c]), d)
  {
    HeardBook(env, x, c);
    FramesOfAll(x.books[c], d);
  }

  // A registration section does to the maps, and has the client told, what registration on the set of triples does.
  lemma RunsRegister(env: Env, s: State, c: nat, name: string)
    requires Reached(env, s) && c < |s.socks| && Handler(c) in s.pcs && s.pcs[Handler(c)] == Inside(Enrol(name))
    ensures Shaped(s) && Shaped(EnrolBody(s, c, name)) && Handler(c) in EnrolBody(s, c, name).pcs
    ensures var (users, code) := R.SetJoin(R.Triples(Regs(s)), s.socks[c].fd, name, s.socks[c].ip);
            && R.Triples(Regs(EnrolBody(s, c, name))) == users
            && Todo(EnrolBody(s, c, name).pcs[Handler(c)]) == [Job(c, Reply(code), Plain)]
  {
    ReachedInv(env, s);
    EnrolCode(s, c, name);
    EverybodysTriples(s);
    EnrolTriples(s, c, name);
  }

  // ---------- the status chosen ----------

  // Whatever the watchdog does meanwhile, the manual status of a session whose handler awaits a request is the one
  // chosen by the requests read, and the status is that one or INVISIBLE.
  lemma RunsKeepChoice(env: Env, x: Noted, c: nat)
    requires Heard(env, x) && c < |x.books| && c < |x.s.sess| && Handler(c) in x.s.pcs
    requires x.s.pcs[Handler(c)] == Reading
    ensures x.s.sess[c].manual == Chosen(All(x.books[c]))
    ensures x.s.sess[c].status == Chosen(All(x.books[c])) || x.s.sess[c].status == INVISIBLE
  {
    HeardBook(env, x, c);
    BookChoice(c, Reading, x.s.sess[c], x.s.hist[c], x.books[c]);
    RunsKeepStatusFields(env, x.s, c);
  }

  // ---------- deadlock freedom ----------

  lemma RunsNeverWaitInACircle(env: Env, s: State, chain: seq<Tid>)
    requires Reached(env, s) && Ok(s) && |chain| >= 2 && WaitChain(s, chain)
    ensures chain[0] != chain[|chain| - 1]
  {
    ReachedInv(env, s);
    NoWaitCycle(s, chain);
  }

  lemma RunsNeverDeadlock(env: Env, s: State, t: Tid, u: Tid) returns (v: Tid, e: Event)
    requires Reached(env, s) && Ok(s) && WaitsFor(s, t, u)
    ensures Moves(env, s, v, e)
  {
    ReachedInv(env, s);
    v, e := NoDeadlock(env, s, t, u);
  }

  // ---------- registry and connections ----------

  lemma RunsKeepRegistry(env: Env, s: State)
    requires Reached(env, s)
    ensures Shaped(s) && R.Inverse(Regs(s)) && |s.sessions| == |s.names| == |s.ips|
    ensures forall fd | fd in s.sessions ::
              var c := s.sessions[fd];
              s.socks[c].fd == fd && s.socks[c].open && Handler(c) in s.pcs && Active(s.pcs[Handler(c)])
  {
    ReachedInv(env, s);
    R.EqualSizes(Regs(s));
    assert |Regs(s).users.Keys| == |s.sessions.Keys|;
    forall fd | fd in s.sessions
      ensures s.socks[s.sessions[fd]].fd == fd && s.socks[s.sessions[fd]].open && Active(s.pcs[Handler(s.sessions[fd])])
    {
      LiveFdIsTaken(s, fd);
      assert SessionOk(s, fd);
    }
  }

  // A connection accepted on an fd number used before has no session.
  lemma RunsNeverInheritSessions(env: Env, s: State, fd: int, ip: string)
    requires Reached(env, s) && Ok(s) && Can(env, s, EvAccept(fd, ip))
    ensures fd !in Do(env, s, EvAccept(fd, ip)).sessions
  {
    ReachedInv(env, s);
    FreshConnectionHasNoSession(s, fd, ip);
  }

  // ---------- the wire ----------

  // The bytes on the wire are whole frames and at most one unfinished one, all of them frames that were
  // handed to send_message for this socket.
  ghost predicate Intact(env: Env, k: Sock) {
    exists fs: seq<Frame> ::
      (forall f | f in fs :: f in FramesOf(k.log)) && k.wire <= EncodeAll(AsMessages(env.ser, fs))
  }

  lemma MessagesSnoc(env: Env, log: seq<Entry>, m: nat)
    requires m < |log|
    ensures var fs := FramesOf(log[..m + 1]);
            EncodeAll(AsMessages(env.ser, fs)) == EncodeAll(Messages(env, log[..m])) + Bytes(env.ser, log[m].frame)
  {
    MessagesLast(env, log[..m + 1]);
    assert log[..m + 1][..m] == log[..m];
  }

  lemma PartIsPrefix(whole: seq<byte>, all: seq<byte>, n: nat)
    requires n <= |all|
    ensures whole + all[..n] <= whole + all
  {}

  lemma OrderedIsIntact(env: Env, k: Sock)
    requires LogOk(env, k)
    ensures Intact(env, k)
  {
    WireShape(env, k);
    var m := Whole(env, k.log);
    var upto := if m < |k.log| then m + 1 else m;
    var fs := FramesOf(k.log[..upto]);
    forall f | f in fs ensures f in FramesOf(k.log) {
      var i :| 0 <= i < |fs| && fs[i] == f;
      assert FramesOf(k.log)[i] == f;
    }
    assert k.wire <= EncodeAll(AsMessages(env.ser, fs)) by {
      if m < |k.log| {
        MessagesSnoc(env, k.log, m);
        PartIsPrefix(EncodeAll(Messages(env, k.log[..m])), Bytes(env.ser, k.log[m].frame), k.log[m].written);
      } else {
        assert AsMessages(env.ser, fs) == Messages(env, k.log[..m]);
      }
    }
  }

  lemma DisciplinedRunsAreIntact(env: Env, s: State, c: nat)
    requires Disciplined(env) && Reached(env, s) && c < |s.socks|
    ensures Intact(env, s.socks[c])
  {
    ReachedInv(env, s);
    assert SockOk(env, s, c);
    OrderedIsIntact(env, s.socks[c]);
  }

  // The reader of a socket gets the frames whose send_message calls are complete, in their order, up to the first
  // over the limit; exactly those frames if and only if all of them fit.
  lemma RunsReadAsSent(env: Env, s: State, c: nat)
    requires Disciplined(env) && Reached(env, s) && c < |s.socks|
    ensures var log := s.socks[c].log;
            var ms := Messages(env, log[..Whole(env, log)]);
            Parse(s.socks[c].wire) == Received(ms) && (Parse(s.socks[c].wire) == ms <==> AllFit(ms))
  {
    ReachedInv(env, s);
    assert SockOk(env, s, c);
    ReaderSeesWholeFrames(env, s.socks[c]);
  }

  // The unfinished frame of a working socket belongs to the holder of the send mutex, or to the connection's
  // own handler when there is no session.
  lemma RunsFragmentHasOwner(env: Env, s: State, c: nat) returns (t: Tid)
    requires Disciplined(env) && Reached(env, s) && c < |s.socks|
    requires !s.socks[c].broken && Whole(env, s.socks[c].log) < |s.socks[c].log|
    ensures t in s.pcs && WritesTo(s.pcs[t], c) && s.pcs[t].at == Whole(env, s.socks[c].log) && c < |s.sess|
    ensures if s.sess[c].made then s.sess[c].lock == Some(t) else t == Handler(c)
  {
    ReachedInv(env, s);
    t := FragmentOwner(env, s, c);
  }

  // ---------- registration first ----------

  lemma RunsWelcomeFirst(env: Env, s: State, c: nat, j: nat)
    requires Reached(env, s) && c < |s.socks| && j < |s.socks[c].log| && s.socks[c].log[j].written > 0
    requires ForMembers(s.socks[c].log[j])
    ensures GreetedBefore(env, s.socks[c].log, j)
  {
    ReachedInv(env, s);
    WelcomeComesFirst(env, s, c, j);
  }

  // A reader gets the 200 before any broadcast, direct message, list, user info or 602, and before anything else
  // that is sent under the session's send mutex.
  lemma RunsReadWelcomeFirst(env: Env, s: State, c: nat, j: nat)
    requires Disciplined(env) && Reached(env, s) && c < |s.socks| && j < |Parse(s.socks[c].wire)|
    ensures j < |s.socks[c].log|
    ensures Parse(s.socks[c].wire)[j] == Arriving(AsMessage(env.ser, s.socks[c].log[j].frame))
    ensures ForMembers(s.socks[c].log[j]) ==>
              Arriving(AsMessage(env.ser, Reply(OK_REGISTER))) in Parse(s.socks[c].wire)[..j]
  {
    ReachedInv(env, s);
    ReaderIsWelcomedFirst(env, s, c, j);
  }

  // ---------- status fields and notices ----------

  lemma RunsKeepStatusFields(env: Env, s: State, c: nat)
    requires Reached(env, s) && c < |s.socks|
    ensures c < |s.sess| && Handler(c) in s.pcs
    ensures Settled(s.pcs[Handler(c)]) ==> s.sess[c].status == s.sess[c].manual || s.sess[c].status == INVISIBLE
    ensures s.pcs[Handler(c)].SetManual? ==> s.sess[c].status == s.pcs[Handler(c)].v || s.sess[c].status == INVISIBLE
    ensures s.pcs[Handler(c)].RestoreManual? ==> s.sess[c].status == ACTIVE || s.sess[c].status == INVISIBLE
  {
    ReachedInv(env, s);
    assert StatusOk(s.sess[c], s.hist[c], s.pcs[Handler(c)]);
  }

  function CountIdle(log: seq<Entry>): nat {
    if log == [] then 0
    else
      var f := log[|log| - 1].frame;
      CountIdle(log[..|log| - 1]) + (if f.Response? && f.code == AUTO_INACTIVE then 1 else 0)
  }

  lemma {:induction false} IdleCallsAreTheWatchdogs(log: seq<Entry>)
    requires forall i | 0 <= i < |log| :: FrameBy(log[i].author, log[i].frame)
    ensures CountIdle(log) == |Issued(log, Watchdog)|
  {
    if log != [] { IdleCallsAreTheWatchdogs(log[..|log| - 1]); }
  }

  // 602 frames started on a socket and still owed to it are the watchdog's INVISIBLE writes to that session,
  // and there are never more 603 restorations than such writes.
  lemma RunsAccountForNotices(env: Env, s: State, c: nat)
    requires Reached(env, s) && c < |s.socks|
    ensures c < |s.hist| && Watchdog in s.pcs
    ensures CountIdle(s.socks[c].log) + Owed(s.pcs[Watchdog])[c] == s.hist[c].marks
    ensures s.hist[c].restores <= s.hist[c].marks
  {
    ReachedInv(env, s);
    assert ReplyOk(env, s.socks[c]) && NoticeOk(s, c) && StatusOk(s.sess[c], s.hist[c], s.pcs[Handler(c)]);
    forall i | 0 <= i < |s.socks[c].log| ensures FrameBy(s.socks[c].log[i].author, s.socks[c].log[i].frame) {
      assert EntryOk(env, s.socks[c], i);
    }
    IdleCallsAreTheWatchdogs(s.socks[c].log);
  }

  // A scan marks exactly the visible sessions it finds idle: whoever it visits is registered and alive.
  lemma RunsMarkTheIdle(env: Env, s: State, c: nat, idle: bool)
    requires Reached(env, s) && Ok(s) && Can(env, s, EvSweep(VisitOne(c, idle)))
    ensures c in AllSessions(s) && c < |s.sess| && s.sess[c].alive
    ensures var s' := Do(env, s, EvSweep(VisitOne(c, idle)));
            && Watchdog in s'.pcs
            && (s'.pcs[Watchdog].Mark? <==> s.sess[c].status != INVISIBLE && idle)
            && (s'.pcs[Watchdog].Mark? ==> s'.pcs[Watchdog].c == c)
  {
    ReachedInv(env, s);
    VisitMarks(env, s, c, idle);
    VisitedAlive(s, c);
  }

  // ---------- what readers have in the end ----------

  lemma AllComplete(env: Env, s: State, d: nat)
    requires WireOk(env, s) && d < |s.socks| && !s.socks[d].broken && forall t | t in s.pcs :: !WritesTo(s.pcs[t], d)
    ensures LogOk(env, s.socks[d]) && forall i | 0 <= i < |s.socks[d].log| :: Complete(env, s.socks[d].log[i])
  {
    assert SockOk(env, s, d);
    forall i | 0 <= i < |s.socks[d].log| ensures Complete(env, s.socks[d].log[i]) { assert !Busy(s, d, i); }
  }

  // With no failure and no send in progress on a socket its reader gets every frame of its log, up to the first
  // over the limit; all of them if and only if all of them fit.
  lemma RunsReadAll(env: Env, s: State, d: nat)
    requires Disciplined(env) && Reached(env, s) && d < |s.socks|
    requires !s.socks[d].broken && forall t | t in s.pcs :: !WritesTo(s.pcs[t], d)
    ensures var ms := Messages(env, s.socks[d].log);
            Parse(s.socks[d].wire) == Received(ms) && (Parse(s.socks[d].wire) == ms <==> AllFit(ms))
  {
    ReachedWire(env, s);
    AllComplete(env, s, d);
    var log := s.socks[d].log;
    ReaderSeesWholeFrames(env, s.socks[d]);
    assert log[..Whole(env, log)] == log;
  }

  // There each frame of the log is read, in its place, exactly when neither it nor a frame before it is over the limit.
  lemma RunsReadEach(env: Env, s: State, d: nat, i: nat)
    requires Disciplined(env) && Reached(env, s) && d < |s.socks| && i < |s.socks[d].log|
    requires !s.socks[d].broken && forall t | t in s.pcs :: !WritesTo(s.pcs[t], d)
    ensures var all := Messages(env, s.socks[d].log); var got := Parse(s.socks[d].wire);
            && (i < |got| <==> forall j | 0 <= j <= i :: Readable(all[j]))
            && (i < |got| ==> got[i] == Arriving(all[i]))
  {
    RunsReadAll(env, s, d);
    ReceivedAt(Messages(env, s.socks[d].log), i);
  }

  // ---------- broadcasts ----------

  // Where the broadcast is in a log.
  predicate IsCastOf(e: Entry, c: nat, k: nat) {
    e.author == Handler(c) && e.tag == Cast(k)
  }

  ghost predicate AtMostOnce(log: seq<Entry>, c: nat, k: nat) {
    forall i, j | 0 <= i < |log| && 0 <= j < |log| && IsCastOf(log[i], c, k) && IsCastOf(log[j], c, k) :: i == j
  }

  // On the log of every session registered at the snapshot a finished broadcast has exactly one place, and on others
  // none. The sender itself is among them.
  lemma CastPlaces(s: State, c: nat, k: nat, d: nat)
    requires CastsOk(s) && c < |s.socks| && k < |s.hist[c].casts| && d < |s.socks|
    requires k + 1 < |s.hist[c].casts| || NoCasts(Todo(s.pcs[Handler(c)]))
    ensures c in s.hist[c].casts[k].registered
    ensures var log := s.socks[d].log;
            && (d in s.hist[c].casts[k].registered <==> exists i | 0 <= i < |log| :: IsCastOf(log[i], c, k))
            && (forall i | 0 <= i < |log| && IsCastOf(log[i], c, k) ::
                  log[i].frame == BroadcastDelivery(s.hist[c].casts[k].text, s.sess[c].name))
            && AtMostOnce(log, c, k)
  {
    var log := s.socks[d].log;
    BroadcastReachesSnapshotOnce(s, c, k, d);
    var calls := Issued(log, Handler(c));
    if d in s.hist[c].casts[k].registered {
      var a :| 0 <= a < |calls| && calls[a].tag == Cast(k);
      var i := IssuedBack(log, Handler(c), a);
      assert IsCastOf(log[i], c, k);
    }
    forall i | 0 <= i < |log| && IsCastOf(log[i], c, k)
      ensures d in s.hist[c].casts[k].registered
      ensures log[i].frame == BroadcastDelivery(s.hist[c].casts[k].text, s.sess[c].name)
    {
      var a := IssuedFind(log, Handler(c), i);
    }
    forall i, j | 0 <= i < j < |log| && IsCastOf(log[i], c, k)
      ensures !IsCastOf(log[j], c, k)
    {
      if IsCastOf(log[j], c, k) { BroadcastsStayInOrder(s, c, d, i, j); }
    }
  }

  // The k-th broadcast is that of the handler's k-th well-formed general message from a member.
  lemma CastAsked(env: Env, x: Noted, c: nat, k: nat)
    requires Heard(env, x) && c < |x.books| && c < |x.s.hist| && k < |x.s.hist[c].casts|
    ensures k < |CastAsks(All(x.books[c]))| && CastFits(CastAsks(All(x.books[c]))[k], x.s.hist[c].casts[k])
  {
    HeardBook(env, x, c);
    BookCast(c, x.s.pcs[Handler(c)], x.s.sess[c], x.s.hist[c], x.books[c], k);
  }

  // A finished broadcast, seen by the readers: with no failure and no send in progress on d's socket, d was sent the
  // text asked for exactly once if it was registered at the snapshot, and not at all otherwise; and d's reader gets
  // it, in its place, exactly when neither it nor a frame before it is over the limit.
  lemma RunsDeliverBroadcasts(env: Env, x: Noted, c: nat, k: nat, d: nat)
    requires Disciplined(env) && Heard(env, x) && c < |x.books| && c < |x.s.socks| && d < |x.s.socks|
    requires Handler(c) in x.s.pcs && c < |x.s.hist| && c < |x.s.sess| && k < |x.s.hist[c].casts|
    requires k + 1 < |x.s.hist[c].casts| || NoCasts(Todo(x.s.pcs[Handler(c)]))
    requires !x.s.socks[d].broken && forall t | t in x.s.pcs :: !WritesTo(x.s.pcs[t], d)
    ensures k < |CastAsks(All(x.books[c]))|
    ensures var r := CastAsks(All(x.books[c]))[k]; IsCast(r) && Has(Users(r), c)
    ensures var r := CastAsks(All(x.books[c]))[k];
            var log := x.s.socks[d].log; var got := Parse(x.s.socks[d].wire);
            var all := Messages(env, log);
            var cast := AsMessage(env.ser, BroadcastDelivery(r.rq.text.value, x.s.sess[c].name));
            && (Has(Users(r), d) <==> exists i | 0 <= i < |log| :: IsCastOf(log[i], c, k))
            && AtMostOnce(log, c, k)
            && (forall i | 0 <= i < |log| && IsCastOf(log[i], c, k) ::
                  && all[i] == cast
                  && (i < |got| <==> forall j | 0 <= j <= i :: Readable(all[j]))
                  && (i < |got| ==> got[i] == Arriving(cast)))
  {
    HeardAgrees(env, x);
    CastAsked(env, x, c, k);
    CastsAreRead(env, x.s, c, k, d);
  }

  lemma CastsAreRead(env: Env, s: State, c: nat, k: nat, d: nat)
    requires Disciplined(env) && Reached(env, s) && c < |s.socks| && d < |s.socks|
    requires Handler(c) in s.pcs && c < |s.hist| && c < |s.sess| && k < |s.hist[c].casts|
    requires k + 1 < |s.hist[c].casts| || NoCasts(Todo(s.pcs[Handler(c)]))
    requires !s.socks[d].broken && forall t | t in s.pcs :: !WritesTo(s.pcs[t], d)
    ensures c in s.hist[c].casts[k].registered
    ensures var log := s.socks[d].log; var got := Parse(s.socks[d].wire);
            var all := Messages(env, log);
            var cast := AsMessage(env.ser, BroadcastDelivery(s.hist[c].casts[k].text, s.sess[c].name));
            && (d in s.hist[c].casts[k].registered <==> exists i | 0 <= i < |log| :: IsCastOf(log[i], c, k))
            && AtMostOnce(log, c, k)
            && (forall i | 0 <= i < |log| && IsCastOf(log[i], c, k) ::
                  && all[i] == cast
                  && (i < |got| <==> forall j | 0 <= j <= i :: Readable(all[j]))
                  && (i < |got| ==> got[i] == Arriving(cast)))
  {
    ReachedCasts(env, s);
    CastPlaces(s, c, k, d);
    var log := s.socks[d].log; var got := Parse(s.socks[d].wire);
    var all := Messages(env, log);
    forall i | 0 <= i < |log| && IsCastOf(log[i], c, k)
      ensures i < |got| <==> forall j | 0 <= j <= i :: Readable(all[j])
      ensures i < |got| ==> got[i] == Arriving(all[i])
    {
      RunsReadEach(env, s, d, i);
    }
  }

  lemma RunsKeepBroadcastOrder(env: Env, s: State, c: nat, d: nat, i: nat, j: nat)
    requires Reached(env, s) && c < |s.socks| && d < |s.socks| && i < |s.socks[d].log| && j < |s.socks[d].log|
    requires var log := s.socks[d].log;
             log[i].author == log[j].author == Handler(c) && log[i].tag.Cast? && log[j].tag.Cast?
    ensures s.socks[d].log[i].tag.k < s.socks[d].log[j].tag.k <==> i < j
  {
    ReachedCasts(env, s);
    if i < j {
      BroadcastsStayInOrder(s, c, d, i, j);
    } else if j < i {
      BroadcastsStayInOrder(s, c, d, j, i);
    }
  }

  // ---------- direct messages ----------

  lemma ReachedDms(env: Env, s: State)
    requires Reached(env, s)
    ensures DmsOk(s)
  {
    ReachedInv(env, s);
  }

  // The k-th direct message is the handler's k-th well-formed one from a member.
  lemma DmAsked(env: Env, x: Noted, c: nat, k: nat)
    requires Heard(env, x) && c < |x.books| && c < |x.s.hist| && k < |x.s.hist[c].dms|
    ensures k < |DmAsks(All(x.books[c]))| && DmFits(DmAsks(All(x.books[c]))[k], x.s.hist[c].dms[k])
  {
    HeardBook(env, x, c);
    BookDm(c, x.s.pcs[Handler(c)], x.s.sess[c], x.s.hist[c], x.books[c], k);
  }

  // A direct message that is over was answered exactly once on its sender's socket: 202 if the name asked for was
  // registered at the lookup, 404 if not.
  lemma RunsAnswerDms(env: Env, x: Noted, c: nat, k: nat)
    requires Heard(env, x) && c < |x.books| && c < |x.s.socks| && c < |x.s.hist| && Handler(c) in x.s.pcs
    requires k < |x.s.hist[c].dms|
    requires k + 1 < |x.s.hist[c].dms| || (NoDms(Todo(x.s.pcs[Handler(c)])) && !x.s.pcs[Handler(c)].Deliver?)
    ensures k < |DmAsks(All(x.books[c]))| && IsDm(DmAsks(All(x.books[c]))[k])
    ensures var r := DmAsks(All(x.books[c]))[k];
            var calls := Issued(x.s.socks[c].log, Handler(c));
            && Stamp(Reply(if Known(Users(r), r.rq.dm.value.0) then OK_DM_SENT else USER_NOT_FOUND), Dm(k)) in calls
            && forall i, j | 0 <= i < j < |calls| && calls[i].tag == Dm(k) && calls[j].tag == Dm(k) ::
                 calls[i].frame.ForDm? || calls[j].frame.ForDm?
  {
    HeardAgrees(env, x);
    ReachedDms(env, x.s);
    DmAsked(env, x, c, k);
    RecordTruth(x.s, c, k);
    AnsweredOnceAndTruly(x.s, c, k);
  }

  lemma RecordTruth(s: State, c: nat, k: nat)
    requires DmsOk(s) && c < |s.socks| && k < |s.hist[c].dms|
    ensures s.hist[c].dms[k].present <==> s.hist[c].dms[k].holder.Some?
  {
    assert DmOk(s, c);
    assert RecOk(s, s.hist[c].dms[k], c, s.pcs[Handler(c)].Deliver? && k == |s.hist[c].dms| - 1);
  }

  // Every FOR_DM has the text asked for and its author's session name, goes to the session that had the name asked
  // for at the lookup, and is the only one of its message.
  lemma RunsForwardDmsOnce(env: Env, x: Noted, c: nat, d: nat, i: nat)
    requires Heard(env, x) && c < |x.books| && c < |x.s.socks| && c < |x.s.hist| && d < |x.s.socks|
    requires i < |Issued(x.s.socks[d].log, Handler(c))|
    requires c < |x.s.sess| && d < |x.s.sess|
    requires Issued(x.s.socks[d].log, Handler(c))[i].tag.Dm? && Issued(x.s.socks[d].log, Handler(c))[i].frame.ForDm?
    ensures var call := Issued(x.s.socks[d].log, Handler(c))[i];
            && call.tag.k < |DmAsks(All(x.books[c]))|
            && var r := DmAsks(All(x.books[c]))[call.tag.k];
               && IsDm(r) && Holds(Users(r), d, r.rq.dm.value.0) && x.s.sess[d].name == r.rq.dm.value.0
               && call.frame == ForDm(x.s.sess[c].name, r.rq.dm.value.1)
    ensures forall e: nat, j: nat | e < |x.s.socks| && j < |Issued(x.s.socks[e].log, Handler(c))| ::
              (Issued(x.s.socks[e].log, Handler(c))[j].tag == Issued(x.s.socks[d].log, Handler(c))[i].tag
               && Issued(x.s.socks[e].log, Handler(c))[j].frame.ForDm?) ==> e == d && j == i
  {
    HeardAgrees(env, x);
    ReachedDms(env, x.s);
    ForwardedOnceToHolder(x.s, c, d, i);
    DmAsked(env, x, c, Issued(x.s.socks[d].log, Handler(c))[i].tag.k);
  }

  // A 202 with no FOR_DM tried: the session that had the name asked for was alive at the lookup and was removed
  // after it.
  lemma RunsSkipOnlyTheGone(env: Env, x: Noted, c: nat, k: nat)
    requires Heard(env, x) && c < |x.books| && c < |x.s.socks| && c < |x.s.hist| && Handler(c) in x.s.pcs
    requires k < |x.s.hist[c].dms| && (k + 1 < |x.s.hist[c].dms| || !x.s.pcs[Handler(c)].Deliver?)
    requires k < |DmAsks(All(x.books[c]))| && !Live(DmAsks(All(x.books[c]))[k]) && IsDm(DmAsks(All(x.books[c]))[k])
    requires Known(Users(DmAsks(All(x.books[c]))[k]), DmAsks(All(x.books[c]))[k].rq.dm.value.0)
    ensures x.s.hist[c].dms[k].holder.Some? && x.s.hist[c].dms[k].holder.value < |x.s.sess|
    ensures var r := DmAsks(All(x.books[c]))[k]; Holds(Users(r), x.s.hist[c].dms[k].holder.value, r.rq.dm.value.0)
    ensures x.s.hist[c].dms[k].live && !x.s.sess[x.s.hist[c].dms[k].holder.value].alive
  {
    HeardAgrees(env, x);
    ReachedDms(env, x.s);
    DmAsked(env, x, c, k);
    RecordTruth(x.s, c, k);
    UntriedHolderIsGone(x.s, c, k);
  }

  // On every socket one sender's direct messages, and on its own the answers to them, are in the order issued.
  lemma RunsKeepDmOrder(env: Env, s: State, c: nat, d: nat, i: nat, j: nat)
    requires Reached(env, s) && c < |s.socks| && d < |s.socks| && i < |s.socks[d].log| && j < |s.socks[d].log|
    requires var log := s.socks[d].log;
             && log[i].author == log[j].author == Handler(c) && log[i].tag.Dm? && log[j].tag.Dm?
             && log[i].frame.ForDm? == log[j].frame.ForDm?
    ensures s.socks[d].log[i].tag.k < s.socks[d].log[j].tag.k <==> i < j
  {
    ReachedDms(env, s);
    if i < j {
      DmsStayInOrder(s, c, d, i, j);
    } else if j < i {
      DmsStayInOrder(s, c, d, j, i);
    }
  }
}
