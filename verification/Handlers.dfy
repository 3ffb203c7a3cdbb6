/**
 The request handlers and the watchdog scan of src/server/server.cpp, each as one atomic function of the
 server's state: the specification the class in ChatServer.dfy is proved against.
 */
module Handlers {
  import opened Framing
  import opened Protocol
  import R = Registry

  /** A session as the other parts of the server see it. Times are clock ticks, in nanoseconds. */
  datatype Account = Account(name: string, ip: string, status: Status, manual: Status, last: int)

  datatype Server = Server(sessions: map<int, Account>, names: map<string, int>, ips: map<string, int>)

  /** A frame handed to send_message for a connection. */
  datatype Out = Out(fd: int, frame: Frame)

  const START := Server(map[], map[], map[])

  const SECOND := 1_000_000_000

  function UserOf(a: Account): R.User {
    R.User(a.name, a.ip)
  }

  function Regs(sv: Server): (m: R.Maps)
    ensures m.users.Keys == sv.sessions.Keys && m.names == sv.names && m.ips == sv.ips
    ensures forall fd | fd in sv.sessions :: m.users[fd] == UserOf(sv.sessions[fd])
  {
    R.Maps(map fd | fd in sv.sessions :: UserOf(sv.sessions[fd]), sv.names, sv.ips)
  }

  ghost predicate Valid(sv: Server) {
    R.Inverse(Regs(sv))
  }

  function Update(sv: Server, fd: int, a: Account): Server {
    sv.(sessions := sv.sessions[fd := a])
  }

  // ---------- user list ----------

  // The comparison of two usernames.
  predicate Less(a: string, b: string) {
    if b == "" then false
    else if a == "" then true
    else a[0] < b[0] || (a[0] == b[0] && Less(a[1..], b[1..]))
  }

  type Row = (string, Status)

  // a comes before b in a dictionary: it is a proper beginning of b, or has the smaller character where they first
  // differ.
  ghost predicate Before(a: string, b: string) {
    a < b || exists k: nat :: DifferAt(a, b, k)
  }

  predicate DifferAt(a: string, b: string, k: nat) {
    k < |a| && k < |b| && a[..k] == b[..k] && a[k] < b[k]
  }

  // The AllUsers reply: names strictly increasing, each with the status of its session, nobody missing.
  ghost predicate IsUserList(rows: seq<Row>, sessions: map<int, Account>) {
    && (forall i, j | 0 <= i < j < |rows| :: Before(rows[i].0, rows[j].0))
    && (forall i | 0 <= i < |rows| :: exists fd | fd in sessions :: rows[i] == (sessions[fd].name, sessions[fd].status))
    && (forall fd | fd in sessions :: (sessions[fd].name, sessions[fd].status) in rows)
  }

  // ---------- handlers ----------

  // The critical section of handle_register.
  function JoinReply(sv: Server, fd: int, ip: string, name: string, now: int): (Server, seq<Out>) {
    var code := R.Verdict(sv.sessions, sv.names, sv.ips, fd, name, ip);
    (if code == OK_REGISTER
     then Server(sv.sessions[fd := Account(name, ip, ACTIVE, ACTIVE, now)], sv.names[name := fd], sv.ips[ip := fd])
     else sv,
     [Out(fd, Reply(code))])
  }

  function Touch(a: Account, now: int): Account {
    a.(last := now)
  }

  predicate NeedsRestore(a: Account) {
    a.status == INVISIBLE && a.manual != INVISIBLE
  }

  // maybe_restore_activity
  function Restore(a: Account, now: int): Account {
    if NeedsRestore(a) then a.(status := ACTIVE, manual := ACTIVE, last := now) else Touch(a, now)
  }

  function RestoreOuts(a: Account, fd: int): seq<Out> {
    if NeedsRestore(a) then [Out(fd, Reply(STATUS_RESTORED))] else []
  }

  function ToAll(order: seq<int>, f: Frame): (outs: seq<Out>)
    ensures |outs| == |order| && forall i | 0 <= i < |order| :: outs[i] == Out(order[i], f)
  {
    seq(|order|, i requires 0 <= i < |order| => Out(order[i], f))
  }

  function Find(sv: Server, name: string): Option<int> {
    R.Lookup(sv.sessions, sv.names, name)
  }

  // remove_session
  function Leave(sv: Server, fd: int): Server {
    if fd !in sv.sessions then sv
    else Server(sv.sessions - {fd}, sv.names - {sv.sessions[fd].name}, sv.ips - {sv.sessions[fd].ip})
  }

  function General(sv: Server, fd: int, text: string, now: int, order: seq<int>): (Server, seq<Out>)
    requires fd in sv.sessions
  {
    var a := sv.sessions[fd];
    (Update(sv, fd, Restore(a, now)), RestoreOuts(a, fd) + ToAll(order, BroadcastDelivery(text, a.name)))
  }

  function Direct(sv: Server, fd: int, dest: string, text: string, now: int): (Server, seq<Out>)
    requires fd in sv.sessions
  {
    var a := sv.sessions[fd];
    (Update(sv, fd, Restore(a, now)),
     RestoreOuts(a, fd) +
     (match Find(sv, dest)
      case Some(d) => [Out(d, ForDm(a.name, text)), Out(fd, Reply(OK_DM_SENT))]
      case None => [Out(fd, Reply(USER_NOT_FOUND))]))
  }

  function Change(sv: Server, fd: int, v: Status, now: int): (Server, seq<Out>)
    requires fd in sv.sessions
  {
    (Update(sv, fd, sv.sessions[fd].(status := v, manual := v, last := now)),
     [Out(fd, Response(OK_STATUS_CHANGED, Some(v)))])
  }

  function List(sv: Server, fd: int, now: int, rows: seq<Row>): (Server, seq<Out>)
    requires fd in sv.sessions
  {
    (Update(sv, fd, Touch(sv.sessions[fd], now)), [Out(fd, AllUsers(rows))])
  }

  function Info(sv: Server, fd: int, target: string, now: int): (Server, seq<Out>)
    requires fd in sv.sessions
  {
    var sv' := Update(sv, fd, Touch(sv.sessions[fd], now));
    match Find(sv', target)
    case Some(d) =>
      var b := sv'.sessions[d];
      (sv', [Out(fd, UserInfo(b.ip, b.name, b.status))])
    case None => (sv', [Out(fd, Reply(USER_NOT_FOUND))])
  }

  // The handlers that begin with get_session.
  function Member(sv: Server, fd: int, rq: Request, now: int, order: seq<int>, rows: seq<Row>): (Server, seq<Out>) {
    if fd !in sv.sessions then (sv, [Out(fd, Reply(NOT_REGISTERED))])
    else
      match rq
      case MessageGeneral(Some(text)) => General(sv, fd, text, now, order)
      case MessageDm(Some(dm)) => Direct(sv, fd, dm.0, dm.1, now)
      case ChangeStatus(Some(v)) =>
        (match StatusOf(v) case Some(st) => Change(sv, fd, st, now) case None => (sv, [Out(fd, Reply(BAD_REQUEST))]))
      case ListUsers(true) => List(sv, fd, now, rows)
      case GetUserInfo(Some(target)) => Info(sv, fd, target, now)
      case _ => (sv, [Out(fd, Reply(BAD_REQUEST))])
  }

  // One pass of the switch in handle_client. `order` is the iteration order of a broadcast snapshot, `rows`
  // the sorted user list.
  function Handle(sv: Server, fd: int, ip: string, rq: Request, now: int, order: seq<int>, rows: seq<Row>)
    : (Server, seq<Out>)
  {
    match rq
    case Unknown(_) => (sv, [Out(fd, Reply(BAD_REQUEST))])
    case Register(Some(name)) => if name == "" then (sv, [Out(fd, Reply(BAD_REQUEST))])
        else JoinReply(sv, fd, ip, name, now)
    case Register(None) => (sv, [Out(fd, Reply(BAD_REQUEST))])
    case Quit(parsed) => (Leave(sv, fd), if parsed && fd in sv.sessions then [Out(fd, Reply(OK_QUIT))] else [])
    case _ => Member(sv, fd, rq, now, order, rows)
  }

  // ---------- the watchdog ----------

  // duration_cast<seconds>: truncation toward zero.
  function WholeSeconds(ticks: int): int {
    if ticks >= 0 then ticks / SECOND else -((-ticks) / SECOND)
  }

  predicate Idle(a: Account, now: int, timeout: int) {
    a.status != INVISIBLE && WholeSeconds(now - a.last) >= timeout
  }

  function Scanned(a: Account, now: int, timeout: int): Account {
    if Idle(a, now, timeout) then a.(status := INVISIBLE) else a
  }

  function Scan(sv: Server, now: int, timeout: int): Server {
    sv.(sessions := map fd | fd in sv.sessions :: Scanned(sv.sessions[fd], now, timeout))
  }

  // The sessions of one scan, in iteration order.
  ghost predicate IsMarked(sv: Server, now: int, timeout: int, order: seq<int>) {
    && (forall fd :: fd in order <==> fd in sv.sessions && Idle(sv.sessions[fd], now, timeout))
    && (forall i, j | 0 <= i < j < |order| :: order[i] != order[j])
  }

  // The sessions of a snapshot, in iteration order.
  ghost predicate IsOrder(sv: Server, order: seq<int>) {
    && (forall fd :: fd in order <==> fd in sv.sessions)
    && (forall i, j | 0 <= i < j < |order| :: order[i] != order[j])
  }

  // ---------- events ----------

  datatype Event =
    | Arrive(fd: int, ip: string, rq: Request, now: int, order: seq<int>, rows: seq<Row>)
    | HangUp(fd: int)
    | Tick(sampled: int, order: seq<int>)

  // Where a snapshot or a user list is made, it is one of the current sessions.
  ghost predicate Legal(sv: Server, timeout: int, e: Event) {
    match e
    case Arrive(fd, _, rq, _, order, rows) =>
      && (fd in sv.sessions && rq.MessageGeneral? && rq.text.Some? ==> IsOrder(sv, order))
      && (fd in sv.sessions && rq == ListUsers(true) ==> IsUserList(rows, sv.sessions))
    case HangUp(_) => true
    case Tick(now, order) => IsMarked(sv, now, timeout, order)
  }

  function Apply(sv: Server, timeout: int, e: Event): (Server, seq<Out>) {
    match e
    case Arrive(fd, ip, rq, now, order, rows) => Handle(sv, fd, ip, rq, now, order, rows)
    case HangUp(fd) => (Leave(sv, fd), [])
    case Tick(now, order) => (Scan(sv, now, timeout), ToAll(order, Reply(AUTO_INACTIVE)))
  }

  // ---------- the registry stays consistent ----------

  lemma SameUsers(sv: Server, sv': Server)
    requires sv'.sessions.Keys == sv.sessions.Keys && sv'.names == sv.names && sv'.ips == sv.ips
    requires forall fd | fd in sv.sessions :: UserOf(sv'.sessions[fd]) == UserOf(sv.sessions[fd])
    ensures Regs(sv') == Regs(sv)
  {
    forall fd | fd in sv.sessions
      ensures Regs(sv').users[fd] == Regs(sv).users[fd]
    {
      assert fd in sv'.sessions;
    }
    assert Regs(sv').users == Regs(sv).users;
  }

  // The handlers work on the three maps as module Registry does.
  lemma JoinRegs(sv: Server, fd: int, ip: string, name: string, now: int)
    ensures var r := R.Join(Regs(sv), fd, name, ip);
            && Regs(JoinReply(sv, fd, ip, name, now).0) == r.0
            && JoinReply(sv, fd, ip, name, now).1 == [Out(fd, Reply(r.1))]
  {
    assert Regs(JoinReply(sv, fd, ip, name, now).0).users == R.Join(Regs(sv), fd, name, ip).0.users;
  }

  lemma LeaveRegs(sv: Server, fd: int)
    ensures Regs(Leave(sv, fd)) == R.Leave(Regs(sv), fd)
  {
    assert Regs(Leave(sv, fd)).users == R.Leave(Regs(sv), fd).users;
  }

  lemma OtherEvents(sv: Server, timeout: int, e: Event)
    requires !e.HangUp? && (e.Arrive? ==> !e.rq.Quit? && (e.rq.Register? ==> e.rq.name in {None, Some("")}))
    ensures var sv' := Apply(sv, timeout, e).0;
            && sv'.sessions.Keys == sv.sessions.Keys && sv'.names == sv.names && sv'.ips == sv.ips
            && forall fd | fd in sv.sessions :: UserOf(sv'.sessions[fd]) == UserOf(sv.sessions[fd])
  {}

  lemma ApplyKeepsValid(sv: Server, timeout: int, e: Event)
    requires Valid(sv)
    ensures Valid(Apply(sv, timeout, e).0)
  {
    var sv' := Apply(sv, timeout, e).0;
    if e.HangUp? || (e.Arrive? && e.rq.Quit?) {
      LeaveRegs(sv, e.fd);
      R.LeaveKeepsInverse(Regs(sv), e.fd);
    } else if e.Arrive? && e.rq.Register? && e.rq.name.Some? && e.rq.name.value != "" {
      JoinRegs(sv, e.fd, e.ip, e.rq.name.value, e.now);
      R.JoinKeepsInverse(Regs(sv), e.fd, e.rq.name.value, e.ip);
    } else {
      OtherEvents(sv, timeout, e);
      SameUsers(sv, sv');
    }
  }
}
