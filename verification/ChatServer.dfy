/**
 The server class of src/server/server.cpp with one handler or scan running at a time: its methods against the
 functions of module Handlers, and its whole life against the runs of module History.
 */
module ChatServers {
  import opened Framing
  import opened Protocol
  import opened Handlers
  import opened UserList
  import H = History

  class SessionInfo {
    const username: string
    const ip: string
    const socketFd: int
    var status: Status
    var manualStatus: Status // last manually set status
    var lastActivity: int
    var alive: bool

    constructor (user: string, addr: string, fd: int, now: int)
      ensures username == user && ip == addr && socketFd == fd && alive
      ensures View() == Account(user, addr, ACTIVE, ACTIVE, now)
    {
      username, ip, socketFd := user, addr, fd;
      status, manualStatus, lastActivity, alive := ACTIVE, ACTIVE, now, true;
    }

    function View(): Account reads this {
      Account(username, ip, status, manualStatus, lastActivity)
    }
  }

  method Any<T(==)>(keys: set<T>) returns (k: T)
    requires keys != {}
    ensures k in keys
  {
    k :| k in keys;
  }

  // A hash map is walked in an order of its own.
  method Walk(keys: set<int>) returns (order: seq<int>)
    ensures forall fd :: fd in order <==> fd in keys
    ensures forall i | 0 <= i < |order| :: order[i] in keys
    ensures forall i, j | 0 <= i < j < |order| :: order[i] != order[j]
  {
    order := [];
    var left := keys;
    while |left| > 0
      invariant left <= keys
      invariant forall fd :: fd in order <==> fd in keys - left
      invariant forall i | 0 <= i < |order| :: order[i] in keys
      invariant forall i, j | 0 <= i < j < |order| :: order[i] != order[j]
    {
      var fd := Any(left);
      assert fd !in order;
      order, left := order + [fd], left - {fd};
    }
  }

  // Adding one session adds one account.
  lemma AddOne(sv: Server, sv': Server, fd: int, a: Account)
    requires sv'.sessions.Keys == sv.sessions.Keys + {fd} && sv'.sessions[fd] == a
    requires forall g | g in sv.sessions && g != fd :: sv'.sessions[g] == sv.sessions[g]
    ensures sv'.sessions == sv.sessions[fd := a]
  {
    assert forall g | g in sv'.sessions.Keys :: sv'.sessions[g] == sv.sessions[fd := a][g];
  }

  // A change to one session changes one account.
  lemma ChangeOne(sv: Server, sv': Server, fd: int, a: Account)
    requires fd in sv.sessions
    requires sv'.sessions.Keys == sv.sessions.Keys && sv'.names == sv.names && sv'.ips == sv.ips
    requires sv'.sessions[fd] == a && forall g | g in sv.sessions && g != fd :: sv'.sessions[g] == sv.sessions[g]
    ensures sv' == Update(sv, fd, a)
  {
    assert sv'.sessions.Keys == sv.sessions[fd := a].Keys;
    assert forall g | g in sv'.sessions.Keys :: sv'.sessions[g] == sv.sessions[fd := a][g];
    assert sv'.sessions == sv.sessions[fd := a];
  }

  class ChatServer {
    const idleTimeout: int
    var sessions: map<int, SessionInfo>
    var usernameToFd: map<string, int>
    var ipToFd: map<string, int>
    var sent: seq<Out>              // every frame handed to a socket
    ghost var repr: set<SessionInfo>
    ghost var history: seq<H.Timed> // every handler call, hang-up and scan so far

    // Every registered session is the one of its socket, and alive.
    ghost predicate Tied()
      reads this`sessions, this`repr, repr
    {
      forall fd | fd in sessions :: sessions[fd] in repr && sessions[fd].socketFd == fd && sessions[fd].alive
    }

    lemma TiedAt(fd: int)
      requires Tied() && fd in sessions
      ensures sessions[fd] in repr && sessions[fd].socketFd == fd && sessions[fd].alive
    {}

    ghost function Abs(): (sv: Server)
      reads this`sessions, this`usernameToFd, this`ipToFd, this`repr, repr
      requires Tied()
      ensures sv.sessions.Keys == sessions.Keys && sv.names == usernameToFd && sv.ips == ipToFd
      ensures forall fd | fd in sessions :: sv.sessions[fd] == sessions[fd].View()
    {
      Server(map fd | fd in sessions :: sessions[fd].View(), usernameToFd, ipToFd)
    }

    // The state and the frames sent are those of the events so far.
    ghost predicate Ok() reads this, repr {
      Tied() && Follows(idleTimeout, history, Abs(), sent)
    }

    constructor (idleTimeoutSec: int)
      ensures Ok() && idleTimeout == idleTimeoutSec && sessions == map[] && history == [] && repr == {}
    {
      idleTimeout := idleTimeoutSec;
      sessions, usernameToFd, ipToFd, sent, repr, history := map[], map[], map[], [], {}, [];
    }

    // ---------- sending and looking up ----------

    method SendBare(fd: int, f: Frame)
      modifies this`sent
      ensures sent == old(sent) + [Out(fd, f)]
    {
      sent := sent + [Out(fd, f)];
    }

    method SendLocked(session: SessionInfo, f: Frame)
      modifies this`sent
      ensures sent == old(sent) + [Out(session.socketFd, f)]
    {
      sent := sent + [Out(session.socketFd, f)];
    }

    // These sessions are those of these connections, in the same order.
    static ghost predicate Matched(targets: seq<SessionInfo>, order: seq<int>) {
      |targets| == |order| && forall j | 0 <= j < |order| :: targets[j].socketFd == order[j]
    }

    // One frame to each of a list of sessions, one after the other.
    method SendEach(targets: seq<SessionInfo>, ghost order: seq<int>, f: Frame)
      requires Matched(targets, order)
      modifies this`sent
      ensures sent == old(sent) + ToAll(order, f)
    {
      for i := 0 to |targets|
        invariant sent == old(sent) + ToAll(order[..i], f)
      {
        SendLocked(targets[i], f);
        assert ToAll(order[..i + 1], f) == ToAll(order[..i], f) + [Out(order[i], f)];
      }
      assert order[..|targets|] == order;
    }

    method GetSession(fd: int) returns (session: SessionInfo?)
      ensures if fd in sessions then session == sessions[fd] else session == null
    {
      session := if fd in sessions then sessions[fd] else null;
    }

    // The two-step lookup: by username, then by socket.
    method Lookup(name: string) returns (found: SessionInfo?)
      requires Tied()
      ensures match Find(Abs(), name)
              case Some(d) => d in sessions && found == sessions[d]
              case None => found == null
    {
      found := null;
      if name in usernameToFd && usernameToFd[name] in sessions {
        found := sessions[usernameToFd[name]];
      }
    }

    // ---------- joining and leaving ----------

    method RemoveSession(fd: int)
      requires Tied()
      modifies this`sessions, this`usernameToFd, this`ipToFd, repr
      ensures Tied() && Abs() == Leave(old(Abs()), fd)
      ensures fd in old(sessions) ==> !old(sessions)[fd].alive
      ensures sessions == old(sessions) - {fd}
    {
      ghost var was := Abs();
      if fd in sessions {
        var session := sessions[fd];
        session.alive := false;
        usernameToFd := usernameToFd - {session.username};
        ipToFd := ipToFd - {session.ip};
        sessions := sessions - {fd};
        assert forall g | g in sessions :: sessions[g].View() == was.sessions[g];
        assert Abs().sessions == was.sessions - {fd};
      } else {
        assert sessions - {fd} == sessions;
      }
    }

    method HandleRegister(fd: int, ip: string, name: Option<string>, now: int)
      requires Tied()
      modifies this`sessions, this`usernameToFd, this`ipToFd, this`sent, this`repr
      ensures fresh(repr - old(repr))
      ensures var r := Handle(old(Abs()), fd, ip, Register(name), now, [], []);
              Tied() && Abs() == r.0 && sent == old(sent) + r.1
    {
      if name.None? || name.value == "" {
        SendBare(fd, Reply(BAD_REQUEST));
        return;
      }
      ghost var was := Abs();
      Enroll(fd, ip, name.value, now);
    }

    // The critical section of handle_register.
    method Enroll(fd: int, ip: string, username: string, now: int)
      requires Tied()
      modifies this`sessions, this`usernameToFd, this`ipToFd, this`sent, this`repr
      ensures fresh(repr - old(repr))
      ensures Tied() && Abs() == JoinReply(old(Abs()), fd, ip, username, now).0
      ensures sent == old(sent) + JoinReply(old(Abs()), fd, ip, username, now).1
    {
      if fd in sessions {
        SendLocked(sessions[fd], Reply(BAD_REQUEST));
      } else if username in usernameToFd {
        SendBare(fd, Reply(USERNAME_TAKEN));
      } else if ip in ipToFd {
        SendBare(fd, Reply(IP_TAKEN));
      } else {
        CreateSession(fd, ip, username, now);
        SendLocked(sessions[fd], Reply(OK_REGISTER));
      }
    }

    method CreateSession(fd: int, ip: string, username: string, now: int)
      requires Tied() && fd !in sessions
      modifies this`sessions, this`usernameToFd, this`ipToFd, this`repr
      ensures fresh(repr - old(repr)) && Tied() && fd in sessions
      ensures Abs() == Server(old(Abs()).sessions[fd := Account(username, ip, ACTIVE, ACTIVE, now)],
                              old(usernameToFd)[username := fd], old(ipToFd)[ip := fd])
    {
      ghost var was := Abs();
      var session := new SessionInfo(username, ip, fd, now);
      repr := repr + {session};
      sessions := sessions[fd := session];
      usernameToFd := usernameToFd[username := fd];
      ipToFd := ipToFd[ip := fd];
      AddOne(was, Abs(), fd, session.View());
    }

    // ---------- activity ----------

    ghost predicate Registered(session: SessionInfo)
      reads this`sessions
    {
      session.socketFd in sessions && sessions[session.socketFd] == session
    }

    method TouchActivity(session: SessionInfo, now: int)
      requires Tied() && Registered(session)
      modifies session`lastActivity
      ensures Tied()
      ensures Abs() == Update(old(Abs()), session.socketFd, Touch(old(Abs()).sessions[session.socketFd], now))
    {
      ghost var was := Abs();
      session.lastActivity := now;
      ChangeOne(was, Abs(), session.socketFd, session.View());
    }

    method MaybeRestoreActivity(session: SessionInfo, now: int)
      requires Tied() && Registered(session)
      modifies session`status, session`manualStatus, session`lastActivity, this`sent
      ensures Tied()
      ensures Abs() == Update(old(Abs()), session.socketFd, Restore(old(Abs()).sessions[session.socketFd], now))
      ensures sent == old(sent) + RestoreOuts(old(Abs()).sessions[session.socketFd], session.socketFd)
    {
      ghost var was := Abs();
      if session.status == INVISIBLE && session.manualStatus != INVISIBLE {
        session.status := ACTIVE;
        session.manualStatus := ACTIVE;
        SendLocked(session, Reply(STATUS_RESTORED));
      }
      session.lastActivity := now;
      ChangeOne(was, Abs(), session.socketFd, session.View());
    }

    // ---------- message handlers ----------

    // The walk over sessions_ that collects the targets of a broadcast.
    method Snapshot() returns (targets: seq<SessionInfo>, ghost order: seq<int>)
      requires Tied()
      ensures IsOrder(Abs(), order) && Matched(targets, order)
    {
      var keys := Walk(sessions.Keys);
      targets, order := [], keys;
      for i := 0 to |keys|
        invariant |targets| == i
        invariant forall j | 0 <= j < i :: targets[j].socketFd == keys[j]
      {
        TiedAt(keys[i]);
        var session := sessions[keys[i]];
        if session.alive {
          targets := targets + [session];
        }
      }
    }

    method HandleMessageGeneral(fd: int, text: Option<string>, now: int) returns (ghost order: seq<int>)
      requires Tied()
      modifies this`sent, repr
      ensures fd in old(sessions) && text.Some? ==> IsOrder(old(Abs()), order)
      ensures var r := Member(old(Abs()), fd, MessageGeneral(text), now, order, []);
              Tied() && Abs() == r.0 && sent == old(sent) + r.1
      ensures sessions == old(sessions)
    {
      order := [];
      var session := GetSession(fd);
      if session == null {
        SendBare(fd, Reply(NOT_REGISTERED));
      } else if text.None? {
        SendLocked(session, Reply(BAD_REQUEST));
      } else {
        order := Broadcast(session, text.value, now);
      }
    }

    method Broadcast(session: SessionInfo, text: string, now: int) returns (ghost order: seq<int>)
      requires Tied() && Registered(session)
      modifies this`sent, session`status, session`manualStatus, session`lastActivity
      ensures IsOrder(old(Abs()), order)
      ensures Tied() && Abs() == General(old(Abs()), session.socketFd, text, now, order).0
      ensures sent == old(sent) + General(old(Abs()), session.socketFd, text, now, order).1
    {
      ghost var was := Abs();
      assert was.sessions[session.socketFd].name == session.username;
      MaybeRestoreActivity(session, now);
      order := SendToAll(BroadcastDelivery(text, session.username), was);
    }

    method SendToAll(f: Frame, ghost was: Server) returns (ghost order: seq<int>)
      requires Tied() && was.sessions.Keys == Abs().sessions.Keys
      modifies this`sent
      ensures IsOrder(was, order) && sent == old(sent) + ToAll(order, f)
    {
      ghost var current := Abs();
      var targets;
      targets, order := Snapshot();
      SameOrder(was, current, order);
      SendEach(targets, order, f);
    }

    method HandleMessageDm(fd: int, dm: Option<(string, string)>, now: int)
      requires Tied()
      modifies this`sent, repr
      ensures var r := Member(old(Abs()), fd, MessageDm(dm), now, [], []);
              Tied() && Abs() == r.0 && sent == old(sent) + r.1
      ensures sessions == old(sessions)
    {
      var session := GetSession(fd);
      if session == null {
        SendBare(fd, Reply(NOT_REGISTERED));
      } else if dm.None? {
        SendLocked(session, Reply(BAD_REQUEST));
      } else {
        Deliver(session, dm.value, now);
      }
    }

    method Deliver(session: SessionInfo, dm: (string, string), now: int)
      requires Tied() && Registered(session)
      modifies this`sent, session`status, session`manualStatus, session`lastActivity
      ensures Tied() && Abs() == Direct(old(Abs()), session.socketFd, dm.0, dm.1, now).0
      ensures sent == old(sent) + Direct(old(Abs()), session.socketFd, dm.0, dm.1, now).1
    {
      ghost var was := Abs();
      assert was.sessions[session.socketFd].name == session.username;
      MaybeRestoreActivity(session, now);
      assert Find(Abs(), dm.0) == Find(was, dm.0);
      Forward(session, dm.0, dm.1);
    }

    method Forward(session: SessionInfo, destUser: string, text: string)
      requires Tied()
      modifies this`sent
      ensures sent == old(sent) + match Find(Abs(), destUser)
                                  case Some(d) =>
                                    [Out(d, ForDm(session.username, text)), Out(session.socketFd, Reply(OK_DM_SENT))]
                                  case None => [Out(session.socketFd, Reply(USER_NOT_FOUND))]
    {
      var dest := Lookup(destUser);
      if dest == null {
        SendLocked(session, Reply(USER_NOT_FOUND));
      } else {
        if dest.alive {
          SendLocked(dest, ForDm(session.username, text));
        }
        SendLocked(session, Reply(OK_DM_SENT));
      }
    }

    method HandleChangeStatus(fd: int, value: Option<int>, now: int)
      requires Tied()
      modifies this`sent, repr
      ensures var r := Member(old(Abs()), fd, ChangeStatus(value), now, [], []);
              Tied() && Abs() == r.0 && sent == old(sent) + r.1
      ensures sessions == old(sessions)
    {
      var session := GetSession(fd);
      if session == null {
        SendBare(fd, Reply(NOT_REGISTERED));
      } else if value.None? || StatusOf(value.value).None? {
        SendLocked(session, Reply(BAD_REQUEST));
      } else {
        SetStatus(session, StatusOf(value.value).value, now);
      }
    }

    method SetStatus(session: SessionInfo, newStatus: Status, now: int)
      requires Tied() && Registered(session)
      modifies this`sent, session`status, session`manualStatus, session`lastActivity
      ensures Tied() && Abs() == Change(old(Abs()), session.socketFd, newStatus, now).0
      ensures sent == old(sent) + Change(old(Abs()), session.socketFd, newStatus, now).1
    {
      ghost var was := Abs();
      session.status := newStatus;
      session.manualStatus := newStatus;
      session.lastActivity := now;
      ChangeOne(was, Abs(), session.socketFd, session.View());
      SendLocked(session, Response(OK_STATUS_CHANGED, Some(newStatus)));
    }

    // The walk over sessions_ that collects the rows of the user list.
    method CollectRows() returns (rows: seq<Row>, ghost order: seq<int>)
      requires Tied()
      ensures IsOrder(Abs(), order) && rows == Collected(Abs(), order)
    {
      var keys := Walk(sessions.Keys);
      rows, order := [], keys;
      for i := 0 to |keys|
        invariant |rows| == i
        invariant forall j | 0 <= j < i :: keys[j] in sessions && rows[j] == RowOf(sessions[keys[j]].View())
      {
        var session := sessions[keys[i]];
        rows := rows + [(session.username, session.status)];
      }
    }

    // The rows in order; the touch just before changes nothing they show.
    method SortedRows(ghost was: Server, ghost fd: int, ghost now: int) returns (sorted: seq<Row>)
      requires Tied() && fd in was.sessions && Abs() == Update(was, fd, Touch(was.sessions[fd], now))
      ensures IsSortedWalk(was, sorted)
    {
      ghost var touched := Abs();
      var users, order := CollectRows();
      sorted := Sort(users);
      TouchedWalk(was, touched, fd, now, order, sorted);
    }

    method HandleListUsers(fd: int, parsed: bool, now: int) returns (ghost rows: seq<Row>)
      requires Tied()
      modifies this`sent, repr
      ensures fd in old(sessions) && parsed ==> IsSortedWalk(old(Abs()), rows)
      ensures var r := Member(old(Abs()), fd, ListUsers(parsed), now, [], rows);
              Tied() && Abs() == r.0 && sent == old(sent) + r.1
      ensures sessions == old(sessions)
    {
      rows := [];
      var session := GetSession(fd);
      if session == null {
        SendBare(fd, Reply(NOT_REGISTERED));
      } else if !parsed {
        SendLocked(session, Reply(BAD_REQUEST));
      } else {
        rows := ListAll(session, now);
      }
    }

    method ListAll(session: SessionInfo, now: int) returns (sorted: seq<Row>)
      requires Tied() && Registered(session)
      modifies this`sent, session`lastActivity
      ensures IsSortedWalk(old(Abs()), sorted)
      ensures Tied() && Abs() == List(old(Abs()), session.socketFd, now, sorted).0
      ensures sent == old(sent) + List(old(Abs()), session.socketFd, now, sorted).1
    {
      ghost var was := Abs();
      TouchActivity(session, now);
      sorted := SendRows(session, was, now);
    }

    method SendRows(session: SessionInfo, ghost was: Server, ghost now: int) returns (sorted: seq<Row>)
      requires Tied() && session.socketFd in was.sessions
      requires Abs() == Update(was, session.socketFd, Touch(was.sessions[session.socketFd], now))
      modifies this`sent
      ensures IsSortedWalk(was, sorted) && sent == old(sent) + [Out(session.socketFd, AllUsers(sorted))]
    {
      sorted := SortedRows(was, session.socketFd, now);
      SendLocked(session, AllUsers(sorted));
    }

    method HandleGetUserInfo(fd: int, target: Option<string>, now: int)
      requires Tied()
      modifies this`sent, repr
      ensures var r := Member(old(Abs()), fd, GetUserInfo(target), now, [], []);
              Tied() && Abs() == r.0 && sent == old(sent) + r.1
      ensures sessions == old(sessions)
    {
      var session := GetSession(fd);
      if session == null {
        SendBare(fd, Reply(NOT_REGISTERED));
      } else if target.None? {
        SendLocked(session, Reply(BAD_REQUEST));
      } else {
        Describe(session, target.value, now);
      }
    }

    method Describe(session: SessionInfo, target: string, now: int)
      requires Tied() && Registered(session)
      modifies this`sent, session`lastActivity
      ensures Tied() && Abs() == Member(old(Abs()), session.socketFd, GetUserInfo(Some(target)), now, [], []).0
      ensures sent == old(sent) + Member(old(Abs()), session.socketFd, GetUserInfo(Some(target)), now, [], []).1
    {
      TouchActivity(session, now);
      ReplyInfo(session, target);
    }

    method ReplyInfo(session: SessionInfo, target: string)
      requires Tied()
      modifies this`sent
      ensures sent == old(sent) + [Out(session.socketFd,
                                       match Find(Abs(), target)
                                       case Some(d) =>
                                         var b := Abs().sessions[d];
                                         UserInfo(b.ip, b.name, b.status)
                                       case None => Reply(USER_NOT_FOUND))]
    {
      var found := Lookup(target);
      if found == null {
        SendLocked(session, Reply(USER_NOT_FOUND));
      } else {
        SendLocked(session, UserInfo(found.ip, found.username, found.status));
      }
    }

    method HandleQuit(fd: int, parsed: bool)
      requires Tied()
      modifies this`sent
      ensures sent == old(sent) + if parsed && fd in sessions then [Out(fd, Reply(OK_QUIT))] else []
    {
      var session := GetSession(fd);
      if !parsed { return; }
      if session != null {
        SendLocked(session, Reply(OK_QUIT));
      }
    }

    // ---------- the switch of the read loop, and the watchdog ----------

    // Any request does to the server what Handle says, for the walks of the map that were made.
    method Dispatch(fd: int, ip: string, rq: Request, now: int) returns (ghost e: Event)
      requires Tied()
      modifies this`sessions, this`usernameToFd, this`ipToFd, this`sent, this`repr, repr
      ensures fresh(repr - old(repr))
      ensures e.Arrive? && e.fd == fd && e.ip == ip && e.rq == rq && e.now == now && Walked(old(Abs()), idleTimeout, e)
      ensures var r := Apply(old(Abs()), idleTimeout, e);
              Tied() && Abs() == r.0 && sent == old(sent) + r.1
    {
      ghost var order, rows := [], [];
      match rq {
        case Register(name) => HandleRegister(fd, ip, name, now);
        case Quit(parsed) =>
          HandleQuit(fd, parsed);
          RemoveSession(fd);
        case Unknown(_) => SendBare(fd, Reply(BAD_REQUEST));
        case _ => order, rows := HandleMember(fd, rq, now);
      }
      e := Arrive(fd, ip, rq, now, order, rows);
    }

    // The requests that need a session.
    method HandleMember(fd: int, rq: Request, now: int) returns (ghost order: seq<int>, ghost rows: seq<Row>)
      requires Tied() && !rq.Register? && !rq.Quit? && !rq.Unknown?
      modifies this`sent, repr
      ensures fd in old(sessions) && rq.MessageGeneral? && rq.text.Some? ==> IsOrder(old(Abs()), order)
      ensures fd in old(sessions) && rq == ListUsers(true) ==> IsSortedWalk(old(Abs()), rows)
      ensures var r := Member(old(Abs()), fd, rq, now, order, rows);
              Tied() && Abs() == r.0 && sent == old(sent) + r.1
    {
      order, rows := [], [];
      match rq {
        case MessageGeneral(text) => order := HandleMessageGeneral(fd, text, now);
        case MessageDm(dm) => HandleMessageDm(fd, dm, now);
        case ChangeStatus(value) => HandleChangeStatus(fd, value, now);
        case ListUsers(parsed) => rows := HandleListUsers(fd, parsed, now);
        case GetUserInfo(target) => HandleGetUserInfo(fd, target, now);
      }
    }

    method Scan(now: int) returns (ghost order: seq<int>)
      requires Tied()
      modifies this`sent, repr
      ensures IsMarked(old(Abs()), now, idleTimeout, order)
      ensures Tied() && Abs() == Handlers.Scan(old(Abs()), now, idleTimeout)
      ensures sent == old(sent) + ToAll(order, Reply(AUTO_INACTIVE))
    {
      var notify;
      notify, order := MarkIdle(now);
      SendEach(notify, order, Reply(AUTO_INACTIVE));
    }

    // The scan itself, under the lock.
    method MarkIdle(now: int) returns (notify: seq<SessionInfo>, ghost order: seq<int>)
      requires Tied()
      modifies repr
      ensures Tied() && Abs() == Handlers.Scan(old(Abs()), now, idleTimeout)
      ensures IsMarked(old(Abs()), now, idleTimeout, order)
      ensures Matched(notify, order)
    {
      ghost var was := Abs();
      var keys := Walk(sessions.Keys);
      notify, order := [], [];
      for i := 0 to |keys|
        invariant Tied() && ScannedUpTo(was, Abs(), now, idleTimeout, keys, i, order) && Matched(notify, order)
      {
        notify, order := MarkNext(was, now, keys, i, notify, order);
      }
      ScannedAll(was, Abs(), now, idleTimeout, keys, order);
    }

    // One turn of the scan.
    method MarkNext(ghost was: Server, now: int, keys: seq<int>, i: nat, notify: seq<SessionInfo>,
                    ghost order: seq<int>)
      returns (notify': seq<SessionInfo>, ghost order': seq<int>)
      requires Tied() && i < |keys| && ScannedUpTo(was, Abs(), now, idleTimeout, keys, i, order)
      requires Matched(notify, order)
      modifies repr
      ensures Tied() && ScannedUpTo(was, Abs(), now, idleTimeout, keys, i + 1, order') && Matched(notify', order')
    {
      ghost var before := Abs();
      assert keys[i] in was.sessions.Keys;
      TiedAt(keys[i]);
      var session := sessions[keys[i]];
      var marked := Mark(session, now);
      notify', order' := notify, order;
      if marked {
        notify', order' := notify + [session], order + [keys[i]];
      }
      ScanOne(was, before, Abs(), now, idleTimeout, keys, i, order, order');
    }

    method Mark(session: SessionInfo, now: int) returns (marked: bool)
      requires Tied() && Registered(session)
      modifies session`status
      ensures marked <==> Idle(old(Abs()).sessions[session.socketFd], now, idleTimeout)
      ensures Tied()
      ensures Abs() == Update(old(Abs()), session.socketFd,
                              Scanned(old(Abs()).sessions[session.socketFd], now, idleTimeout))
    {
      ghost var was := Abs();
      marked := false;
      if session.alive && session.status != INVISIBLE {
        var elapsed := WholeSeconds(now - session.lastActivity);
        if elapsed >= idleTimeout {
          session.status := INVISIBLE;
          marked := true;
        }
      }
      ChangeOne(was, Abs(), session.socketFd, session.View());
    }

    // ---------- whole lives ----------

    method Receive(fd: int, ip: string, rq: Request, now: int)
      requires Ok()
      modifies this, repr
      ensures fresh(repr - old(repr)) && Ok() && |history| == |old(history)| + 1 && old(history) <= history
      ensures var t := history[|old(history)|];
              t.at == now && t.e.Arrive? && t.e.fd == fd && t.e.ip == ip && t.e.rq == rq && t.e.now == now
    {
      ghost var was, before := Abs(), sent;
      ghost var e := Dispatch(fd, ip, rq, now);
      FollowStep(idleTimeout, history, was, before, H.Timed(now, e));
      history := history + [H.Timed(now, e)];
    }

    method HangUp(fd: int, now: int)
      requires Ok()
      modifies this, repr
      ensures Ok() && history == old(history) + [H.Timed(now, Event.HangUp(fd))] && fd !in sessions && repr == old(repr)
    {
      FollowStep(idleTimeout, history, Abs(), sent, H.Timed(now, Event.HangUp(fd)));
      RemoveSession(fd);
      history := history + [H.Timed(now, Event.HangUp(fd))];
      assert sent + [] == sent;
    }

    // A connection's read loop with nobody else running: requests are handled in the order they come, nothing
    // after a Quit is, and however it ends the connection's session is gone.
    method HandleClient(fd: int, ip: string, inbox: seq<Request>, clock: nat -> int) returns (n: nat)
      requires Ok()
      modifies this, repr
      ensures Ok() && fd !in sessions
      ensures n <= |inbox| && (forall i | 0 <= i < n - 1 :: !inbox[i].Quit?)
      ensures (n < |inbox| ==> n > 0 && inbox[n - 1].Quit?)
      ensures |history| == |old(history)| + n + if n > 0 && inbox[n - 1].Quit? then 0 else 1
      ensures old(history) <= history && Handled(history[|old(history)|..], fd, inbox[..n])
    {
      ghost var before := history;
      var quit;
      n, quit := ReadLoop(fd, ip, inbox, clock);
      if !quit {
        HangUpAfter(before, fd, inbox, clock(n));
        assert inbox[..n] == inbox;
      }
    }

    method ReadLoop(fd: int, ip: string, inbox: seq<Request>, clock: nat -> int) returns (n: nat, quit: bool)
      requires Ok()
      modifies this, repr
      ensures Ok() && fresh(repr - old(repr)) && Served(old(history), fd, inbox, n)
      ensures if quit then n > 0 && inbox[n - 1].Quit? && fd !in sessions else n == |inbox|
      ensures NoQuit(inbox, if quit then n - 1 else n)
    {
      n, quit := 0, false;
      ghost var before := history;
      while n < |inbox|
        invariant Ok() && fresh(repr - old(repr)) && Served(before, fd, inbox, n) && NoQuit(inbox, n)
      {
        ReceiveNext(before, fd, ip, inbox, n, clock(n));
        n := n + 1;
        if inbox[n - 1].Quit? { return n, true; }
      }
    }

    // Since `before`, the first n requests of a connection were handled and nothing else happened.
    ghost predicate Served(before: seq<H.Timed>, fd: int, inbox: seq<Request>, n: nat)
      reads this`history
    {
      n <= |inbox| && |history| == |before| + n && before <= history && Handled(history[|before|..], fd, inbox[..n])
    }

    method ReceiveNext(ghost before: seq<H.Timed>, fd: int, ip: string, inbox: seq<Request>, n: nat, now: int)
      requires Ok() && n < |inbox| && Served(before, fd, inbox, n) && NoQuit(inbox, n)
      modifies this, repr
      ensures Ok() && fresh(repr - old(repr)) && Served(before, fd, inbox, n + 1)
      ensures if inbox[n].Quit? then fd !in sessions else NoQuit(inbox, n + 1)
    {
      ghost var past := history;
      Receive(fd, ip, inbox[n], now);
      HandledMore(past[|before|..], history[|past|], fd, inbox[..n], inbox[n]);
      assert history[|before|..] == past[|before|..] + [history[|past|]];
      assert inbox[..n + 1] == inbox[..n] + [inbox[n]];
      if inbox[n].Quit? {
        QuitLeaves(idleTimeout, history, fd);
      }
    }

    method HangUpAfter(ghost before: seq<H.Timed>, fd: int, inbox: seq<Request>, now: int)
      requires Ok() && Served(before, fd, inbox, |inbox|)
      modifies this, repr
      ensures Ok() && fd !in sessions && |history| == |before| + |inbox| + 1
      ensures before <= history && Handled(history[|before|..], fd, inbox)
    {
      ghost var past := history;
      HangUp(fd, now);
      assert history[|before|..] == past[|before|..] + [history[|past|]];
      assert inbox[..|inbox|] == inbox;
    }

    method Watch(sampled: int, now: int)
      requires Ok()
      modifies this, repr
      ensures Ok() && |history| == |old(history)| + 1 && old(history) <= history && repr == old(repr)
      ensures var t := history[|old(history)|]; t.at == now && t.e.Tick? && t.e.sampled == sampled
    {
      ghost var was, before := Abs(), sent;
      ghost var order := Scan(sampled);
      FollowStep(idleTimeout, history, was, before, H.Timed(now, Tick(sampled, order)));
      history := history + [H.Timed(now, Tick(sampled, order))];
    }

    // At any moment of a server's life every session has the status its client was last told.
    lemma ClientWasTold(fd: int)
      requires Ok() && fd in sessions
      ensures H.LastStatus(sent, fd) == Some(sessions[fd].status)
    {
      H.StatusIsLastNotice(idleTimeout, history, fd);
    }
  }

  ghost predicate NoQuit(inbox: seq<Request>, n: nat) {
    n <= |inbox| && forall i | 0 <= i < n :: !inbox[i].Quit?
  }

  // The events begin with these requests of one connection.
  ghost predicate Handled(es: seq<H.Timed>, fd: int, rqs: seq<Request>) {
    |rqs| <= |es| && forall i | 0 <= i < |rqs| :: es[i].e.Arrive? && es[i].e.fd == fd && es[i].e.rq == rqs[i]
  }

  lemma HandledMore(es: seq<H.Timed>, t: H.Timed, fd: int, rqs: seq<Request>, rq: Request)
    requires Handled(es, fd, rqs) && |es| == |rqs|
    requires t.e.Arrive? && t.e.fd == fd && t.e.rq == rq
    ensures Handled(es + [t], fd, rqs + [rq])
  {}

  lemma QuitLeaves(timeout: int, es: seq<H.Timed>, fd: int)
    requires es != [] && es[|es| - 1].e.Arrive? && es[|es| - 1].e.rq.Quit? && es[|es| - 1].e.fd == fd
    ensures fd !in H.After(timeout, es).sessions
  {}

  // The walks an event made were walks of the sessions it found.
  ghost predicate Walked(sv: Server, timeout: int, e: Event) {
    match e
    case Arrive(fd, _, rq, _, order, rows) =>
      && (fd in sv.sessions && rq.MessageGeneral? && rq.text.Some? ==> IsOrder(sv, order))
      && (fd in sv.sessions && rq == ListUsers(true) ==> IsSortedWalk(sv, rows))
    case HangUp(_) => true
    case Tick(now, order) => IsMarked(sv, now, timeout, order)
  }

  lemma WalkedIsLegal(sv: Server, timeout: int, e: Event)
    requires Valid(sv) && Walked(sv, timeout, e)
    ensures Legal(sv, timeout, e)
  {
    if e.Arrive? && e.fd in sv.sessions && e.rq == ListUsers(true) {
      SortedWalkIsUserList(sv, e.rows);
    }
  }

  // A state and the frames sent so far are those a run leads to.
  ghost predicate Follows(timeout: int, es: seq<H.Timed>, sv: Server, sent: seq<Out>) {
    H.IsRun(timeout, es) && sv == H.After(timeout, es) && sent == H.Sent(timeout, es)
  }

  lemma FollowStep(timeout: int, es: seq<H.Timed>, sv: Server, sent: seq<Out>, t: H.Timed)
    requires Follows(timeout, es, sv, sent) && Walked(sv, timeout, t.e)
    ensures var r := Apply(sv, timeout, t.e); Follows(timeout, es + [t], r.0, sent + r.1)
  {
    H.RunValid(timeout, es);
    WalkedIsLegal(sv, timeout, t.e);
    H.RunMore(timeout, es, t);
  }

  // A scan that has visited the first i of the keys and marked those in `order`.
  ghost predicate ScannedUpTo(sv: Server, sv': Server, now: int, timeout: int, keys: seq<int>, i: nat,
                              order: seq<int>) {
    && i <= |keys| && (forall fd :: fd in keys <==> fd in sv.sessions)
    && (forall j | 0 <= j < |keys| :: keys[j] in sv.sessions)
    && (forall j, k | 0 <= j < k < |keys| :: keys[j] != keys[k])
    && sv'.sessions.Keys == sv.sessions.Keys && sv'.names == sv.names && sv'.ips == sv.ips
    && (forall j | 0 <= j < |keys| ::
          sv'.sessions[keys[j]] == if j < i then Scanned(sv.sessions[keys[j]], now, timeout) else sv.sessions[keys[j]])
    && (forall fd :: fd in order <==> fd in keys[..i] && Idle(sv.sessions[fd], now, timeout))
    && (forall j, k | 0 <= j < k < |order| :: order[j] != order[k])
  }

  lemma ScanOne(sv: Server, before: Server, now': Server, now: int, timeout: int,
                keys: seq<int>, i: nat, marks: seq<int>, marks': seq<int>)
    requires i < |keys| && ScannedUpTo(sv, before, now, timeout, keys, i, marks)
    requires now' == Update(before, keys[i], Scanned(before.sessions[keys[i]], now, timeout))
    requires marks' == marks + if Idle(before.sessions[keys[i]], now, timeout) then [keys[i]] else []
    ensures ScannedUpTo(sv, now', now, timeout, keys, i + 1, marks')
  {
    assert keys[..i + 1] == keys[..i] + [keys[i]];
    assert keys[i] !in keys[..i] && keys[i] !in marks;
  }

  lemma ScannedAll(sv: Server, sv': Server, now: int, timeout: int, keys: seq<int>, order: seq<int>)
    requires ScannedUpTo(sv, sv', now, timeout, keys, |keys|, order)
    ensures sv' == Handlers.Scan(sv, now, timeout) && IsMarked(sv, now, timeout, order)
  {
    assert keys[..|keys|] == keys;
    forall fd | fd in sv.sessions
      ensures sv'.sessions[fd] == Scanned(sv.sessions[fd], now, timeout)
    {
      assert fd in keys;
      var j :| 0 <= j < |keys| && keys[j] == fd;
    }
    assert sv'.sessions == Handlers.Scan(sv, now, timeout).sessions;
  }

  lemma SameOrder(sv: Server, sv': Server, order: seq<int>)
    requires sv.sessions.Keys == sv'.sessions.Keys && IsOrder(sv', order)
    ensures IsOrder(sv, order)
  {
    forall fd
      ensures fd in order <==> fd in sv.sessions
    {
      assert fd in sv.sessions.Keys <==> fd in sv'.sessions.Keys;
    }
  }

  // Touching a session changes nothing a user list shows.
  lemma TouchedWalk(sv: Server, touched: Server, fd: int, now: int, order: seq<int>, sorted: seq<Row>)
    requires fd in sv.sessions && touched == Update(sv, fd, Touch(sv.sessions[fd], now))
    requires IsOrder(touched, order) && multiset(sorted) == multiset(Collected(touched, order)) && Ascending(sorted)
    ensures IsSortedWalk(sv, sorted)
  {
    assert IsOrder(sv, order);
    assert Collected(touched, order) == Collected(sv, order);
  }
}
