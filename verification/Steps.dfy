/**
 The multithreaded server of src/server/server.cpp as a step relation. One handler thread per accepted
 connection and one watchdog share the registry (under sessions_mutex_), the per-session send mutexes,
 and session fields some of which are read and written with no lock held. Each event is one indivisible
 step: a lock operation, a critical section that does no I/O, one field access, or one ::send call.
 A connection is identified by its position in the order of acceptance; its file descriptor number may be
 reused once it is closed.
 */
module Steps {
  import opened LengthField
  import opened Framing
  import opened Protocol
  import R = Registry

  datatype Tid = Handler(c: nat) | Watchdog

  /** Bookkeeping: which broadcast or direct message of its sender a frame belongs to. */
  datatype Tag = Plain | Cast(k: nat) | Dm(k: nat)

  /** A frame to be sent to a session (or, when no lock is taken, to the sender's own socket). */
  datatype Job = Job(to: nat, frame: Frame, tag: Tag)

  /** One send_message call: `written` bytes of the frame have been accepted by the socket. */
  datatype Entry = Entry(frame: Frame, author: Tid, tag: Tag, locked: bool, written: nat)

  /** The critical sections of sessions_mutex_. `me` is the handler's session pointer. */
  datatype Section =
    | Enrol(name: string)                          // handle_register
    | Fetch(rq: Request)                           // get_session
    | Gather(me: nat, text: string)                // broadcast targets
    | Seek(me: nat, dest: string, text: string)    // destination of a direct message
    | Roll(me: nat)                                // user list
    | Inspect(me: nat, target: string)             // user info
    | Scan                                         // watchdog
    | Leave                                        // remove_session

  datatype After = Loop | Unlock | Then(sec: Section) | Sleep

  datatype Pc =
    | Reading
    | Waiting(sec: Section)
    | Inside(sec: Section)
    | Sending(jobs: seq<Job>, locked: bool, after: After)
    | Writing(jobs: seq<Job>, at: nat, locked: bool, after: After) // jobs[0] is entry `at` of its socket's log
    | RestoreTest(me: nat, sec: Section)
    | RestoreStatus(me: nat, sec: Section)
    | RestoreManual(me: nat, sec: Section)
    | SetStatus(me: nat, v: Status)
    | SetManual(me: nat, v: Status)
    | Deliver(me: nat, k: nat, to: nat)            // about to read dest_session->alive
    | Describe(me: nat, of: nat)                   // about to read target_session->status
    | Erasing                                      // alive is false, the maps not yet changed
    | Closing
    | Closed
    | Sleeping
    | Sweep(todo: set<nat>, marked: seq<nat>)
    | Mark(c: nat, todo: set<nat>, marked: seq<nat>)

  datatype Sock = Sock(fd: int, ip: string, open: bool, broken: bool, wire: seq<byte>, log: seq<Entry>)

  datatype Sess = Sess(made: bool, name: string, alive: bool, status: Status, manual: Status, lock: Option<Tid>)

  /** A broadcast: its text, its sender's username, the sessions of its snapshot in iteration order, and all the
      sessions registered when it was taken, alive or not. */
  datatype CastRec = CastRec(text: string, origin: string, targets: seq<nat>, registered: set<nat>)

  /** A direct message at its lookup: was the name registered, who held it, was the holder alive; later, was a
      FOR_DM attempted. */
  datatype DmRec = DmRec(dest: string, text: string, origin: string, present: bool, holder: Option<nat>, live: bool,
      tried: bool)

  /** What a connection's handler and the watchdog did, for stating properties. */
  datatype Hist = Hist(casts: seq<CastRec>, dms: seq<DmRec>, marks: nat, restores: nat)

  datatype State = State(
    pcs: map<Tid, Pc>,
    reg: Option<Tid>,               // holder of sessions_mutex_
    sessions: map<int, nat>,        // sessions_: fd -> session, named by its connection
    names: map<string, int>,        // username_to_fd_
    ips: map<string, int>,          // ip_to_fd_
    socks: seq<Sock>,
    sess: seq<Sess>,
    hist: seq<Hist>)

  /** The parameters of a run: serialization, and which requests registered clients send. */
  datatype Env = Env(ser: Serializer, allow: Request -> bool)

  const INIT := State(map[Watchdog := Sleeping], None, map[], map[], map[], [], [], [])

  // ---------- well-formedness ----------

  predicate SeqBelow(cs: seq<nat>, n: nat) {
    forall i | 0 <= i < |cs| :: cs[i] < n
  }

  predicate SetBelow(cs: set<nat>, n: nat) {
    forall c | c in cs :: c < n
  }

  predicate SectionFor(t: Tid, sec: Section, n: nat) {
    match sec
    case Scan => t.Watchdog?
    case Enrol(_) => t.Handler?
    case Fetch(_) => t.Handler?
    case Leave => t.Handler?
    case Gather(me, _) => t.Handler? && me < n
    case Seek(me, _, _) => t.Handler? && me < n
    case Roll(me) => t.Handler? && me < n
    case Inspect(me, _) => t.Handler? && me < n
  }

  predicate AfterFor(t: Tid, after: After, n: nat) {
    match after
    case Loop => t.Handler?
    case Unlock => t.Handler?
    case Then(sec) => SectionFor(t, sec, n)
    case Sleep => t.Watchdog?
  }

  predicate JobsBelow(jobs: seq<Job>, n: nat) {
    forall i | 0 <= i < |jobs| :: jobs[i].to < n
  }

  predicate PcFor(t: Tid, pc: Pc, socks: seq<Sock>, hist: seq<Hist>)
    requires |socks| == |hist|
    requires t.Handler? ==> t.c < |socks|
  {
    var n := |socks|;
    match pc
    case Reading => t.Handler?
    case Waiting(sec) => SectionFor(t, sec, n)
    case Inside(sec) => SectionFor(t, sec, n)
    case Sending(jobs, locked, after) => JobsBelow(jobs, n) && AfterFor(t, after, n)
    case Writing(jobs, at, locked, after) =>
      jobs != [] && JobsBelow(jobs, n) && at < |socks[jobs[0].to].log| && AfterFor(t, after, n)
    case RestoreTest(me, sec) => t.Handler? && me < n && SectionFor(t, sec, n)
    case RestoreStatus(me, sec) => t.Handler? && me < n && SectionFor(t, sec, n)
    case RestoreManual(me, sec) => t.Handler? && me < n && SectionFor(t, sec, n)
    case SetStatus(me, _) => t.Handler? && me < n
    case SetManual(me, _) => t.Handler? && me < n
    case Deliver(me, k, to) => t.Handler? && me < n && to < n && k < |hist[t.c].dms|
    case Describe(me, of) => t.Handler? && me < n && of < n
    case Erasing => t.Handler?
    case Closing => t.Handler?
    case Closed => t.Handler?
    case Sleeping => t.Watchdog?
    case Sweep(todo, marked) => t.Watchdog? && SetBelow(todo, n) && SeqBelow(marked, n)
    case Mark(c, todo, marked) => t.Watchdog? && c < n && SetBelow(todo, n) && SeqBelow(marked, n)
  }

  ghost predicate Ok(s: State) {
    && |s.socks| == |s.sess| == |s.hist|
    && (forall t :: t in s.pcs <==> t.Watchdog? || t.c < |s.socks|)
    && (forall fd | fd in s.sessions :: s.sessions[fd] < |s.socks|)
    && (forall t | t in s.pcs :: PcFor(t, s.pcs[t], s.socks, s.hist))
  }

  // ---------- steps ----------

  function SetPc(s: State, t: Tid, pc: Pc): State {
    s.(pcs := s.pcs[t := pc])
  }

  // A new connection; its fd number is not in use.
  ghost predicate CanAccept(s: State, fd: int) {
    forall c | 0 <= c < |s.socks| && s.socks[c].open :: s.socks[c].fd != fd
  }

  function Accept(s: State, fd: int, ip: string): State {
    s.(pcs := s.pcs[Handler(|s.socks|) := Reading],
       socks := s.socks + [Sock(fd, ip, true, false, [], [])],
       sess := s.sess + [Sess(false, "", false, ACTIVE, ACTIVE, None)],
       hist := s.hist + [Hist([], [], 0, 0)])
  }

  // Requests answered on the bare socket, with no send mutex, without looking for a session.
  predicate Bare(rq: Request) {
    rq.Unknown? || rq == Register(None) || rq == Register(Some(""))
  }

  // recv_message returned a request: the switch of handle_client, up to the first lock operation.
  function Dispatch(c: nat, rq: Request): Pc {
    if Bare(rq) then Sending([Job(c, Reply(BAD_REQUEST), Plain)], false, Loop)
    else if rq.Register? then Waiting(Enrol(rq.name.value))
    else Waiting(Fetch(rq))
  }

  // What a handler does once get_session returned `found`.
  function AfterFetch(c: nat, found: Option<nat>, rq: Request): Pc {
    match found
    case None =>
      if rq.Quit? then Waiting(Leave) else Sending([Job(c, Reply(NOT_REGISTERED), Plain)], false, Loop)
    case Some(d) =>
      var malformed := Sending([Job(d, Reply(BAD_REQUEST), Plain)], true, Loop);
      match rq
      case MessageGeneral(Some(text)) => RestoreTest(d, Gather(d, text))
      case MessageDm(Some(dm)) => RestoreTest(d, Seek(d, dm.0, dm.1))
      case ChangeStatus(Some(v)) => (match StatusOf(v) case Some(st) => SetStatus(d, st) case None => malformed)
      case ListUsers(true) => Waiting(Roll(d))
      case GetUserInfo(Some(target)) => Waiting(Inspect(d, target))
      case Quit(true) => Sending([Job(d, Reply(OK_QUIT), Plain)], true, Then(Leave))
      case Quit(false) => Waiting(Leave)
      case _ => malformed
  }

  // Lock sessions_mutex_.
  function Acquire(s: State, t: Tid): State
    requires t in s.pcs && s.pcs[t].Waiting?
  {
    s.(reg := Some(t), pcs := s.pcs[t := Inside(s.pcs[t].sec)])
  }

  function Close(s: State, c: nat): State
    requires c < |s.socks|
  {
    SetPc(s, Handler(c), Closed).(socks := s.socks[c := s.socks[c].(open := false)])
  }

  // The registry as module Registry sees it.
  function Regs(s: State): (m: R.Maps)
    requires Shaped(s)
    ensures m.users.Keys == s.sessions.Keys && m.names == s.names && m.ips == s.ips
    ensures forall fd | fd in s.sessions :: m.users[fd] == UserOf(s, fd)
  {
    R.Maps(map fd | fd in s.sessions :: UserOf(s, fd), s.names, s.ips)
  }

  function UserOf(s: State, fd: int): R.User
    requires Shaped(s) && fd in s.sessions
  {
    R.User(s.sess[s.sessions[fd]].name, s.socks[s.sessions[fd]].ip)
  }

  predicate Shaped(s: State) {
    |s.socks| == |s.sess| == |s.hist| && forall fd | fd in s.sessions :: s.sessions[fd] < |s.socks|
  }

  function Unlocked(s: State, t: Tid, pc: Pc): State {
    s.(reg := None, pcs := s.pcs[t := pc])
  }

  // handle_register, lines 308-343, up to the reply, which is sent with sessions_mutex_ held.
  function EnrolBody(s: State, c: nat, name: string): State
    requires Shaped(s) && c < |s.socks|
  {
    var fd := s.socks[c].fd;
    var (m, code) := R.Join(Regs(s), fd, name, s.socks[c].ip);
    if code == BAD_REQUEST then
      var to := if fd in s.sessions then s.sessions[fd] else c;
      SetPc(s, Handler(c), Sending([Job(to, Reply(BAD_REQUEST), Plain)], true, Unlock))
    else if code != OK_REGISTER then
      SetPc(s, Handler(c), Sending([Job(c, Reply(code), Plain)], false, Unlock))
    else
      s.(sessions := s.sessions[fd := c], names := m.names, ips := m.ips,
         sess := s.sess[c := s.sess[c].(made := true, name := name, alive := true, status := ACTIVE, manual := ACTIVE)],
         pcs := s.pcs[Handler(c) := Sending([Job(c, Reply(OK_REGISTER), Plain)], true, Unlock)])
  }

  function FetchBody(s: State, c: nat, rq: Request): State
    requires c < |s.socks|
  {
    var fd := s.socks[c].fd;
    Unlocked(s, Handler(c), AfterFetch(c, if fd in s.sessions then Some(s.sessions[fd]) else None, rq))
  }

  function CastJobs(targets: seq<nat>, frame: Frame, k: nat): (jobs: seq<Job>)
    ensures |jobs| == |targets|
    ensures forall i | 0 <= i < |jobs| :: jobs[i] == Job(targets[i], frame, Cast(k))
  {
    seq(|targets|, i requires 0 <= i < |targets| => Job(targets[i], frame, Cast(k)))
  }

  // The snapshot: every live session, in the iteration order of the hash map.
  ghost predicate IsSnapshot(s: State, order: seq<nat>)
    requires Shaped(s)
  {
    && (forall c: nat :: c in order <==>
        c < |s.sess| && s.sess[c].alive && exists fd | fd in s.sessions :: s.sessions[fd] == c)
    && (forall i, j | 0 <= i < j < |order| :: order[i] != order[j])
  }

  function AllSessions(s: State): (cs: set<nat>)
    ensures forall c :: c in cs <==> exists fd | fd in s.sessions :: s.sessions[fd] == c
  {
    set fd | fd in s.sessions :: s.sessions[fd]
  }

  function GatherBody(s: State, c: nat, me: nat, text: string, order: seq<nat>): State
    requires c < |s.hist| && me < |s.sess|
  {
    var k := |s.hist[c].casts|;
    var jobs := CastJobs(order, BroadcastDelivery(text, s.sess[me].name), k);
    var rec := CastRec(text, s.sess[me].name, order, AllSessions(s));
    Unlocked(s, Handler(c), Sending(jobs, true, Loop))
      .(hist := s.hist[c := s.hist[c].(casts := s.hist[c].casts + [rec])])
  }

  // Was the name registered, by a linear scan.
  ghost predicate Present(s: State, name: string)
    requires Shaped(s)
  {
    exists fd | fd in s.sessions :: s.sess[s.sessions[fd]].name == name
  }

  // The two-step lookup by name.
  function Holder(s: State, name: string): (found: Option<nat>)
    requires Shaped(s)
    ensures found.Some? ==> found.value < |s.socks|
  {
    match R.Lookup(s.sessions, s.names, name)
    case Some(fd) => Some(s.sessions[fd])
    case None => None
  }

  ghost function SeekBody(s: State, c: nat, me: nat, dest: string, text: string): State
    requires Shaped(s) && c < |s.hist| && me < |s.sess|
  {
    var k := |s.hist[c].dms|;
    var found := Holder(s, dest);
    var next := match found
      case Some(d) => Deliver(me, k, d)
      case None => Sending([Job(me, Reply(USER_NOT_FOUND), Dm(k))], true, Loop);
    var live := found.Some? && s.sess[found.value].alive;
    var rec := DmRec(dest, text, s.sess[me].name, Present(s, dest), found, live, false);
    Unlocked(s, Handler(c), next).(hist := s.hist[c := s.hist[c].(dms := s.hist[c].dms + [rec])])
  }

  function RollBody(s: State, c: nat, me: nat, rows: seq<(string, Status)>): State {
    Unlocked(s, Handler(c), Sending([Job(me, AllUsers(rows), Plain)], true, Loop))
  }

  function InspectBody(s: State, c: nat, me: nat, target: string): State
    requires Shaped(s)
  {
    match Holder(s, target)
    case Some(d) => Unlocked(s, Handler(c), Describe(me, d))
    case None => Unlocked(s, Handler(c), Sending([Job(me, Reply(USER_NOT_FOUND), Plain)], true, Loop))
  }

  // remove_session: clear alive, or leave at once when there is no session.
  function LeaveBody(s: State, c: nat): State
    requires Shaped(s) && c < |s.socks|
  {
    var fd := s.socks[c].fd;
    if fd in s.sessions then
      var d := s.sessions[fd];
      SetPc(s, Handler(c), Erasing).(sess := s.sess[d := s.sess[d].(alive := false)])
    else Unlocked(s, Handler(c), Closing)
  }

  function EraseBody(s: State, c: nat): State
    requires Shaped(s) && c < |s.socks|
  {
    var m := R.Leave(Regs(s), s.socks[c].fd);
    Unlocked(s, Handler(c), Closing).(sessions := s.sessions - {s.socks[c].fd}, names := m.names, ips := m.ips)
  }

  function ScanBody(s: State): State {
    SetPc(s, Watchdog, Sweep(AllSessions(s), []))
  }

  ghost function Body(s: State, t: Tid, sec: Section, order: seq<nat>, rows: seq<(string, Status)>): State
    requires Shaped(s) && SectionFor(t, sec, |s.socks|) && (t.Handler? ==> t.c < |s.socks|)
  {
    match sec
    case Enrol(name) => EnrolBody(s, t.c, name)
    case Fetch(rq) => FetchBody(s, t.c, rq)
    case Gather(me, text) => GatherBody(s, t.c, me, text, order)
    case Seek(me, dest, text) => SeekBody(s, t.c, me, dest, text)
    case Roll(me) => RollBody(s, t.c, me, rows)
    case Inspect(me, target) => InspectBody(s, t.c, me, target)
    case Scan => ScanBody(s)
    case Leave => LeaveBody(s, t.c)
  }

  // Lock the send mutex of the first job's session and enter send_message.
  function Take(s: State, t: Tid, jobs: seq<Job>, locked: bool, after: After): State
    requires jobs != [] && jobs[0].to < |s.socks| == |s.sess|
  {
    var d := jobs[0].to;
    var sock := s.socks[d];
    var e := Entry(jobs[0].frame, t, jobs[0].tag, locked, 0);
    s.(pcs := s.pcs[t := Writing(jobs, |sock.log|, locked, after)],
       socks := s.socks[d := sock.(log := sock.log + [e])],
       sess := if locked then s.sess[d := s.sess[d].(lock := Some(t))] else s.sess)
  }

  // How many bytes one ::send call may be asked to take: the rest of the header, or of the payload.
  function Limit(size: nat, written: nat): int {
    if written < HEADER_SIZE then HEADER_SIZE - written else size - written
  }

  // ::send took n bytes of the frame being written.
  function Put(env: Env, s: State, d: nat, at: nat, n: nat): State
    requires d < |s.socks| && at < |s.socks[d].log|
    requires s.socks[d].log[at].written + n <= |Bytes(env.ser, s.socks[d].log[at].frame)|
  {
    var sock := s.socks[d];
    var e := sock.log[at];
    var chunk := Bytes(env.ser, e.frame)[e.written..e.written + n];
    s.(socks := s.socks[d := sock.(wire := sock.wire + chunk, log := sock.log[at := e.(written := e.written + n)])])
  }

  // send_message returned; release the send mutex. A failed ::send breaks the socket for good.
  function Finish(s: State, t: Tid, jobs: seq<Job>, locked: bool, after: After, failed: bool): State
    requires jobs != [] && jobs[0].to < |s.socks| == |s.sess|
  {
    var d := jobs[0].to;
    s.(pcs := s.pcs[t := Sending(jobs[1..], locked, after)],
       socks := if failed then s.socks[d := s.socks[d].(broken := true)] else s.socks,
       sess := if locked then s.sess[d := s.sess[d].(lock := None)] else s.sess)
  }

  // No jobs left.
  function Resume(s: State, t: Tid, after: After): State {
    match after
    case Loop => SetPc(s, t, Reading)
    case Unlock => Unlocked(s, t, Reading)
    case Then(sec) => SetPc(s, t, Waiting(sec))
    case Sleep => SetPc(s, t, Sleeping)
  }

  // maybe_restore_activity
  function Test(s: State, t: Tid, me: nat, sec: Section): State
    requires me < |s.sess|
  {
    SetPc(s, t,
          if s.sess[me].status == INVISIBLE && s.sess[me].manual != INVISIBLE then RestoreStatus(me, sec)
          else Waiting(sec))
  }

  function WriteStatus(s: State, d: nat, v: Status): State
    requires d < |s.sess|
  {
    s.(sess := s.sess[d := s.sess[d].(status := v)])
  }

  function WriteManual(s: State, d: nat, v: Status): State
    requires d < |s.sess|
  {
    s.(sess := s.sess[d := s.sess[d].(manual := v)])
  }

  function Restore1(s: State, t: Tid, me: nat, sec: Section): State
    requires me < |s.sess| == |s.hist|
  {
    SetPc(WriteStatus(s, me, ACTIVE), t, RestoreManual(me, sec))
      .(hist := s.hist[me := s.hist[me].(restores := s.hist[me].restores + 1)])
  }

  function Restore2(s: State, t: Tid, me: nat, sec: Section): State
    requires me < |s.sess|
  {
    SetPc(WriteManual(s, me, ACTIVE), t, Sending([Job(me, Reply(STATUS_RESTORED), Plain)], true, Then(sec)))
  }

  function Change1(s: State, t: Tid, me: nat, v: Status): State
    requires me < |s.sess|
  {
    SetPc(WriteStatus(s, me, v), t, SetManual(me, v))
  }

  function Change2(s: State, t: Tid, me: nat, v: Status): State
    requires me < |s.sess|
  {
    SetPc(WriteManual(s, me, v), t, Sending([Job(me, Response(OK_STATUS_CHANGED, Some(v)), Plain)], true, Loop))
  }

  // The alive check of a direct message, then the sends.
  function DeliverDm(s: State, c: nat, me: nat, k: nat, d: nat): State
    requires c < |s.hist| && k < |s.hist[c].dms| && d < |s.sess| && me < |s.sess|
  {
    var rec := s.hist[c].dms[k];
    var live := s.sess[d].alive;
    var answer := Job(me, Reply(OK_DM_SENT), Dm(k));
    var jobs := if live then [Job(d, ForDm(rec.origin, rec.text), Dm(k)), answer] else [answer];
    SetPc(s, Handler(c), Sending(jobs, true, Loop))
      .(hist := s.hist[c := s.hist[c].(dms := s.hist[c].dms[k := rec.(tried := live)])])
  }

  function DescribeUser(s: State, t: Tid, me: nat, d: nat): State
    requires d < |s.sess| == |s.socks|
  {
    SetPc(s, t, Sending([Job(me, UserInfo(s.socks[d].ip, s.sess[d].name, s.sess[d].status), Plain)], true, Loop))
  }

  // One turn of the scan loop: skip the session, or go on to mark it. `idle` is the outcome of the clock test.
  function Visit(s: State, c: nat, idle: bool, todo: set<nat>, marked: seq<nat>): State
    requires c < |s.sess|
  {
    SetPc(s, Watchdog,
          if s.sess[c].alive && s.sess[c].status != INVISIBLE && idle then Mark(c, todo - {c}, marked)
          else Sweep(todo - {c}, marked))
  }

  function MarkIdle(s: State, c: nat, todo: set<nat>, marked: seq<nat>): State
    requires c < |s.sess| == |s.hist|
  {
    SetPc(WriteStatus(s, c, INVISIBLE), Watchdog, Sweep(todo, marked + [c]))
      .(hist := s.hist[c := s.hist[c].(marks := s.hist[c].marks + 1)])
  }

  function NoticeJobs(marked: seq<nat>): (jobs: seq<Job>)
    ensures |jobs| == |marked|
    ensures forall i | 0 <= i < |jobs| :: jobs[i] == Job(marked[i], Reply(AUTO_INACTIVE), Plain)
  {
    seq(|marked|, i requires 0 <= i < |marked| => Job(marked[i], Reply(AUTO_INACTIVE), Plain))
  }

  function EndSweep(s: State, marked: seq<nat>): State {
    Unlocked(s, Watchdog, Sending(NoticeJobs(marked), true, Sleep))
  }

  // ---------- the relation ----------

  /** Steps of a send_message call and of the list of sends it belongs to. */
  datatype SendAct = TakeLock | PutBytes(n: nat) | Return | Break | NoMore

  /** Steps of the watchdog's scan. */
  datatype SweepAct = VisitOne(conn: nat, idle: bool) | MarkOne | EndScan

  datatype Event =
    | EvAccept(fd: int, ip: string)
    | EvRequest(c: nat, rq: Request)
    | EvHangUp(c: nat)                 // recv_message is false: end of stream, an error, or a length over the limit
    | EvWake
    | EvAcquire(t: Tid)
    | EvBody(t: Tid, order: seq<nat>, rows: seq<(string, Status)>)
    | EvErase(c: nat)
    | EvClose(c: nat)
    | EvSend(t: Tid, act: SendAct)
    | EvField(t: Tid)                  // one step on session fields outside any lock
    | EvSweep(sweep: SweepAct)

  function Current(s: State, pc: Pc): Entry
    requires pc.Writing? && pc.jobs != [] && pc.jobs[0].to < |s.socks| && pc.at < |s.socks[pc.jobs[0].to].log|
  {
    s.socks[pc.jobs[0].to].log[pc.at]
  }

  function Size(env: Env, f: Frame): nat {
    |Bytes(env.ser, f)|
  }

  predicate FieldPc(pc: Pc) {
    || pc.RestoreTest? || pc.RestoreStatus? || pc.RestoreManual? || pc.SetStatus? || pc.SetManual?
    || pc.Deliver? || pc.Describe?
  }

  ghost predicate CanSend(env: Env, s: State, t: Tid, act: SendAct)
    requires Ok(s)
  {
    t in s.pcs &&
    var pc := s.pcs[t];
    match act
    case TakeLock => pc.Sending? && pc.jobs != [] && (pc.locked ==> s.sess[pc.jobs[0].to].lock.None?)
    case PutBytes(n) =>
      pc.Writing? && s.socks[pc.jobs[0].to].open && !s.socks[pc.jobs[0].to].broken &&
      var e := Current(s, pc); 0 < n <= Limit(Size(env, e.frame), e.written)
    case Return => pc.Writing? && var e := Current(s, pc); e.written >= Size(env, e.frame)
    case Break => pc.Writing? && var e := Current(s, pc); e.written < Size(env, e.frame)
    case NoMore => pc.Sending? && pc.jobs == []
  }

  ghost predicate CanSweep(s: State, act: SweepAct)
    requires Ok(s)
  {
    var pc := s.pcs[Watchdog];
    match act
    case VisitOne(c, _) => pc.Sweep? && c in pc.todo
    case MarkOne => pc.Mark?
    case EndScan => pc.Sweep? && pc.todo == {}
  }

  ghost predicate Can(env: Env, s: State, e: Event)
    requires Ok(s)
  {
    match e
    case EvAccept(fd, _) => CanAccept(s, fd)
    case EvRequest(c, rq) => c < |s.socks| && s.pcs[Handler(c)].Reading? && (s.sess[c].made ==> env.allow(rq))
    case EvHangUp(c) => c < |s.socks| && s.pcs[Handler(c)].Reading?
    case EvWake => s.pcs[Watchdog].Sleeping?
    case EvAcquire(t) => t in s.pcs && s.pcs[t].Waiting? && s.reg.None?
    case EvBody(t, order, _) => t in s.pcs && s.pcs[t].Inside? && (s.pcs[t].sec.Gather? ==> IsSnapshot(s, order))
    case EvErase(c) => c < |s.socks| && s.pcs[Handler(c)].Erasing?
    case EvClose(c) => c < |s.socks| && s.pcs[Handler(c)].Closing?
    case EvSend(t, act) => CanSend(env, s, t, act)
    case EvField(t) => t in s.pcs && FieldPc(s.pcs[t])
    case EvSweep(act) => CanSweep(s, act)
  }

  ghost function Field(s: State, t: Tid): State
    requires Ok(s) && t in s.pcs && FieldPc(s.pcs[t])
  {
    match s.pcs[t]
    case RestoreTest(me, sec) => Test(s, t, me, sec)
    case RestoreStatus(me, sec) => Restore1(s, t, me, sec)
    case RestoreManual(me, sec) => Restore2(s, t, me, sec)
    case SetStatus(me, v) => Change1(s, t, me, v)
    case SetManual(me, v) => Change2(s, t, me, v)
    case Deliver(me, k, d) => DeliverDm(s, t.c, me, k, d)
    case Describe(me, d) => DescribeUser(s, t, me, d)
  }

  ghost function DoSend(env: Env, s: State, t: Tid, act: SendAct): State
    requires Ok(s) && CanSend(env, s, t, act)
  {
    var pc := s.pcs[t];
    match act
    case TakeLock => Take(s, t, pc.jobs, pc.locked, pc.after)
    case PutBytes(n) => Put(env, s, pc.jobs[0].to, pc.at, n)
    case Return => Finish(s, t, pc.jobs, pc.locked, pc.after, false)
    case Break => Finish(s, t, pc.jobs, pc.locked, pc.after, true)
    case NoMore => Resume(s, t, pc.after)
  }

  ghost function DoSweep(s: State, act: SweepAct): State
    requires Ok(s) && CanSweep(s, act)
  {
    var pc := s.pcs[Watchdog];
    match act
    case VisitOne(c, idle) => Visit(s, c, idle, pc.todo, pc.marked)
    case MarkOne => MarkIdle(s, pc.c, pc.todo, pc.marked)
    case EndScan => EndSweep(s, pc.marked)
  }

  ghost function Do(env: Env, s: State, e: Event): State
    requires Ok(s) && Can(env, s, e)
  {
    match e
    case EvAccept(fd, ip) => Accept(s, fd, ip)
    case EvRequest(c, rq) => SetPc(s, Handler(c), Dispatch(c, rq))
    case EvHangUp(c) => SetPc(s, Handler(c), Waiting(Leave))
    case EvWake => SetPc(s, Watchdog, Waiting(Scan))
    case EvAcquire(t) => Acquire(s, t)
    case EvBody(t, order, rows) => Body(s, t, s.pcs[t].sec, order, rows)
    case EvErase(c) => EraseBody(s, c)
    case EvClose(c) => Close(s, c)
    case EvSend(t, act) => DoSend(env, s, t, act)
    case EvField(t) => Field(s, t)
    case EvSweep(act) => DoSweep(s, act)
  }

  lemma InitOk()
    ensures Ok(INIT)
  {}

  // Nothing a program counter points to goes away.
  ghost predicate Grows(s: State, s': State) {
    && |s.socks| == |s'.socks| && |s.hist| == |s'.hist|
    && (forall c | 0 <= c < |s.socks| :: |s.socks[c].log| <= |s'.socks[c].log|)
    && (forall c | 0 <= c < |s.hist| :: |s.hist[c].dms| <= |s'.hist[c].dms|)
  }

  lemma MoveOk(s: State, s': State, t: Tid, pc: Pc)
    requires Ok(s) && t in s.pcs && Shaped(s') && Grows(s, s')
    requires s'.pcs == s.pcs[t := pc] && PcFor(t, pc, s'.socks, s'.hist)
    ensures Ok(s')
  {
    forall u | u in s'.pcs ensures PcFor(u, s'.pcs[u], s'.socks, s'.hist) {
      if u != t { assert PcFor(u, s.pcs[u], s.socks, s.hist); }
    }
  }

  lemma AcceptOk(s: State, fd: int, ip: string)
    requires Ok(s)
    ensures Ok(Accept(s, fd, ip))
  {
    var s' := Accept(s, fd, ip);
    forall u | u in s'.pcs ensures PcFor(u, s'.pcs[u], s'.socks, s'.hist) {
      if u in s.pcs { assert PcFor(u, s.pcs[u], s.socks, s.hist); }
    }
  }

  lemma EnrolGrows(s: State, c: nat, name: string)
    requires Ok(s) && c < |s.socks|
    ensures Shaped(EnrolBody(s, c, name)) && Grows(s, EnrolBody(s, c, name))
    ensures EnrolBody(s, c, name).socks == s.socks && EnrolBody(s, c, name).hist == s.hist
  {}

  lemma EnrolOk(s: State, c: nat, name: string)
    requires Ok(s) && c < |s.socks|
    ensures Ok(EnrolBody(s, c, name))
  {
    var s' := EnrolBody(s, c, name);
    EnrolGrows(s, c, name);
    MoveOk(s, s', Handler(c), s'.pcs[Handler(c)]);
  }

  lemma FetchOk(s: State, c: nat, rq: Request)
    requires Ok(s) && c < |s.socks|
    ensures Ok(FetchBody(s, c, rq))
  {
    var s' := FetchBody(s, c, rq);
    MoveOk(s, s', Handler(c), s'.pcs[Handler(c)]);
  }

  lemma GatherOk(s: State, c: nat, me: nat, text: string, order: seq<nat>)
    requires Ok(s) && c < |s.socks| && me < |s.socks| && IsSnapshot(s, order)
    ensures Ok(GatherBody(s, c, me, text, order))
  {
    var s' := GatherBody(s, c, me, text, order);
    assert forall i | 0 <= i < |order| :: order[i] in order;
    MoveOk(s, s', Handler(c), s'.pcs[Handler(c)]);
  }

  lemma SeekOk(s: State, c: nat, me: nat, dest: string, text: string)
    requires Ok(s) && c < |s.socks| && me < |s.socks|
    ensures Ok(SeekBody(s, c, me, dest, text))
  {
    var s' := SeekBody(s, c, me, dest, text);
    MoveOk(s, s', Handler(c), s'.pcs[Handler(c)]);
  }

  lemma LeaveOk(s: State, c: nat)
    requires Ok(s) && c < |s.socks|
    ensures Ok(LeaveBody(s, c)) && Ok(EraseBody(s, c))
  {
    MoveOk(s, LeaveBody(s, c), Handler(c), LeaveBody(s, c).pcs[Handler(c)]);
    MoveOk(s, EraseBody(s, c), Handler(c), Closing);
  }

  lemma SimpleMoveOk(s: State, s': State, t: Tid, pc: Pc)
    requires Ok(s) && t in s.pcs && PcFor(t, pc, s.socks, s.hist)
    requires s' == SetPc(s, t, pc).(reg := s'.reg)
    ensures Ok(s')
  {
    MoveOk(s, s', t, pc);
  }

  lemma BodyOk(s: State, t: Tid, sec: Section, order: seq<nat>, rows: seq<(string, Status)>)
    requires Ok(s) && t in s.pcs && SectionFor(t, sec, |s.socks|) && (sec.Gather? ==> IsSnapshot(s, order))
    ensures Ok(Body(s, t, sec, order, rows))
  {
    match sec {
      case Enrol(name) => EnrolOk(s, t.c, name);
      case Fetch(rq) => FetchOk(s, t.c, rq);
      case Gather(me, text) => GatherOk(s, t.c, me, text, order);
      case Seek(me, dest, text) => SeekOk(s, t.c, me, dest, text);
      case Roll(me) => SimpleMoveOk(s, RollBody(s, t.c, me, rows), t, RollBody(s, t.c, me, rows).pcs[t]);
      case Inspect(me, target) =>
        SimpleMoveOk(s, InspectBody(s, t.c, me, target), t, InspectBody(s, t.c, me, target).pcs[t]);
      case Scan => SimpleMoveOk(s, ScanBody(s), t, ScanBody(s).pcs[t]);
      case Leave => LeaveOk(s, t.c);
    }
  }

  lemma RestoreOk(s: State, t: Tid, me: nat, sec: Section)
    requires Ok(s) && t in s.pcs && t.Handler? && me < |s.sess| && SectionFor(t, sec, |s.socks|)
    ensures Ok(Restore1(s, t, me, sec)) && Ok(Restore2(s, t, me, sec))
  {
    MoveOk(s, Restore1(s, t, me, sec), t, RestoreManual(me, sec));
    var s2 := Restore2(s, t, me, sec);
    MoveOk(s, s2, t, s2.pcs[t]);
  }

  lemma ChangeOk(s: State, t: Tid, me: nat, v: Status)
    requires Ok(s) && t in s.pcs && t.Handler? && me < |s.sess|
    ensures Ok(Change1(s, t, me, v)) && Ok(Change2(s, t, me, v))
  {
    MoveOk(s, Change1(s, t, me, v), t, SetManual(me, v));
    var s2 := Change2(s, t, me, v);
    MoveOk(s, s2, t, s2.pcs[t]);
  }

  lemma DeliverOk(s: State, c: nat, me: nat, k: nat, d: nat)
    requires Ok(s) && c < |s.hist| && k < |s.hist[c].dms| && d < |s.sess| && me < |s.sess|
    ensures Ok(DeliverDm(s, c, me, k, d))
  {
    var s' := DeliverDm(s, c, me, k, d);
    MoveOk(s, s', Handler(c), s'.pcs[Handler(c)]);
  }

  lemma FieldOk(s: State, t: Tid)
    requires Ok(s) && t in s.pcs && FieldPc(s.pcs[t])
    ensures Ok(Field(s, t))
  {
    assert PcFor(t, s.pcs[t], s.socks, s.hist);
    match s.pcs[t] {
      case RestoreTest(me, sec) => SimpleMoveOk(s, Test(s, t, me, sec), t, Test(s, t, me, sec).pcs[t]);
      case RestoreStatus(me, sec) => RestoreOk(s, t, me, sec);
      case RestoreManual(me, sec) => RestoreOk(s, t, me, sec);
      case SetStatus(me, v) => ChangeOk(s, t, me, v);
      case SetManual(me, v) => ChangeOk(s, t, me, v);
      case Deliver(me, k, d) => DeliverOk(s, t.c, me, k, d);
      case Describe(me, d) => SimpleMoveOk(s, DescribeUser(s, t, me, d), t, DescribeUser(s, t, me, d).pcs[t]);
    }
  }

  lemma TakeOk(s: State, t: Tid)
    requires Ok(s) && t in s.pcs && s.pcs[t].Sending? && s.pcs[t].jobs != []
    ensures Ok(Take(s, t, s.pcs[t].jobs, s.pcs[t].locked, s.pcs[t].after))
  {
    assert PcFor(t, s.pcs[t], s.socks, s.hist);
    var s' := Take(s, t, s.pcs[t].jobs, s.pcs[t].locked, s.pcs[t].after);
    MoveOk(s, s', t, s'.pcs[t]);
  }

  lemma FinishOk(s: State, t: Tid, failed: bool)
    requires Ok(s) && t in s.pcs && s.pcs[t].Writing?
    ensures Ok(Finish(s, t, s.pcs[t].jobs, s.pcs[t].locked, s.pcs[t].after, failed))
  {
    assert PcFor(t, s.pcs[t], s.socks, s.hist);
    var s' := Finish(s, t, s.pcs[t].jobs, s.pcs[t].locked, s.pcs[t].after, failed);
    MoveOk(s, s', t, s'.pcs[t]);
  }

  lemma PutOk(env: Env, s: State, t: Tid, n: nat)
    requires Ok(s) && CanSend(env, s, t, PutBytes(n))
    ensures Ok(Put(env, s, s.pcs[t].jobs[0].to, s.pcs[t].at, n))
  {
    var s' := Put(env, s, s.pcs[t].jobs[0].to, s.pcs[t].at, n);
    MoveOk(s, s', t, s.pcs[t]);
  }

  lemma ResumeOk(s: State, t: Tid)
    requires Ok(s) && t in s.pcs && s.pcs[t].Sending?
    ensures Ok(Resume(s, t, s.pcs[t].after))
  {
    assert PcFor(t, s.pcs[t], s.socks, s.hist);
    SimpleMoveOk(s, Resume(s, t, s.pcs[t].after), t, Resume(s, t, s.pcs[t].after).pcs[t]);
  }

  lemma SendOk(env: Env, s: State, t: Tid, act: SendAct)
    requires Ok(s) && CanSend(env, s, t, act)
    ensures Ok(DoSend(env, s, t, act))
  {
    match act {
      case TakeLock => TakeOk(s, t);
      case PutBytes(n) => PutOk(env, s, t, n);
      case Return => FinishOk(s, t, false);
      case Break => FinishOk(s, t, true);
      case NoMore => ResumeOk(s, t);
    }
  }

  lemma SweepOk(s: State, act: SweepAct)
    requires Ok(s) && CanSweep(s, act)
    ensures Ok(DoSweep(s, act))
  {
    var s' := DoSweep(s, act);
    assert PcFor(Watchdog, s.pcs[Watchdog], s.socks, s.hist);
    MoveOk(s, s', Watchdog, s'.pcs[Watchdog]);
  }

  // Every step keeps the state well-formed.
  lemma DoOk(env: Env, s: State, e: Event)
    requires Ok(s) && Can(env, s, e)
    ensures Ok(Do(env, s, e))
  {
    match e {
      case EvAccept(fd, ip) => AcceptOk(s, fd, ip);
      case EvRequest(c, rq) => SimpleMoveOk(s, SetPc(s, Handler(c), Dispatch(c, rq)), Handler(c), Dispatch(c, rq));
      case EvHangUp(c) => SimpleMoveOk(s, SetPc(s, Handler(c), Waiting(Leave)), Handler(c), Waiting(Leave));
      case EvWake => SimpleMoveOk(s, SetPc(s, Watchdog, Waiting(Scan)), Watchdog, Waiting(Scan));
      case EvAcquire(t) =>
        assert PcFor(t, s.pcs[t], s.socks, s.hist);
        SimpleMoveOk(s, Acquire(s, t), t, Inside(s.pcs[t].sec));
      case EvBody(t, order, rows) =>
        assert PcFor(t, s.pcs[t], s.socks, s.hist);
        BodyOk(s, t, s.pcs[t].sec, order, rows);
      case EvErase(c) => LeaveOk(s, c);
      case EvClose(c) => MoveOk(s, Close(s, c), Handler(c), Closed);
      case EvSend(t, act) => SendOk(env, s, t, act);
      case EvField(t) => FieldOk(s, t);
      case EvSweep(act) => SweepOk(s, act);
    }
  }
}
