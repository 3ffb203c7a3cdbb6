/**
 What a request is answered with: said of the request, of who sent it and of what there was to see while it was
 served, and of nothing else. The threads of module Steps and the handlers of module Handlers are both held to it.
 */
module Requests {
  import opened Framing
  import opened Protocol
  import R = Registry

  /** A registered user, with the connection its session belongs to. */
  datatype Who = Who(conn: int, fd: int, name: string, ip: string)

  /** A send_message call: the connection whose socket it is for, and the frame. */
  datatype Call = Call(to: int, frame: Frame)

  /** A request that was read, and from whom; `member`: that connection had a session. Then what was seen, if it was
      looked at: `auto`, whether there was an automatic INVISIBLE to end; `users`, everybody registered in the
      request's critical section; `live`, whether the session found was alive; `status`, of the user described;
      `rows`, the list collected. Last, the calls made on its account so far. */
  datatype Ask = Ask(rq: Request, from: Who, member: bool, auto: Option<bool>, users: Option<set<Who>>,
      live: Option<bool>, status: Option<Status>, rows: Option<seq<(string, Status)>>, calls: seq<Call>)

  function Users(r: Ask): set<Who> {
    if r.users.Some? then r.users.value else {}
  }

  predicate Auto(r: Ask) {
    r.auto == Some(true)
  }

  predicate Live(r: Ask) {
    r.live == Some(true)
  }

  function Triples(users: set<Who>): set<R.Triple> {
    set u | u in users :: R.Triple(u.fd, u.name, u.ip)
  }

  predicate Known(users: set<Who>, name: string) {
    exists u :: u in users && u.name == name
  }

  predicate Holds(users: set<Who>, conn: int, name: string) {
    exists u :: u in users && u.conn == conn && u.name == name
  }

  predicate Has(users: set<Who>, conn: int) {
    exists u :: u in users && u.conn == conn
  }

  // One frame, to the one who asked.
  function Only(r: Ask, f: Frame): seq<Call> {
    [Call(r.from.conn, f)]
  }

  // A message is preceded by a 603 to its sender when there is something to restore.
  function Restored(r: Ask): seq<Call> {
    if Auto(r) then Only(r, Reply(STATUS_RESTORED)) else []
  }

  // The frame to every registered user, once each, and to nobody else.
  ghost predicate ToEverybody(users: set<Who>, f: Frame, calls: seq<Call>) {
    && (forall i | 0 <= i < |calls| :: calls[i].frame == f && Has(users, calls[i].to))
    && (forall u | u in users :: Call(u.conn, f) in calls)
    && (forall i, j | 0 <= i < j < |calls| :: calls[i].to != calls[j].to)
  }

  // The message to the one found, if alive, and the 202.
  function DmCalls(r: Ask, u: Who, text: string): seq<Call> {
    Restored(r) + (if Live(r) then [Call(u.conn, ForDm(r.from.name, text))] else []) + Only(r, Reply(OK_DM_SENT))
  }

  ghost predicate DmAnswered(r: Ask, dest: string, text: string, calls: seq<Call>) {
    if Known(Users(r), dest) then
      r.live.Some? && exists u :: u in Users(r) && u.name == dest && calls == DmCalls(r, u, text)
    else calls == Restored(r) + Only(r, Reply(USER_NOT_FOUND))
  }

  ghost predicate InfoAnswered(r: Ask, target: string, calls: seq<Call>) {
    if Known(Users(r), target) then
      && r.status.Some?
      && exists u :: u in Users(r) && u.name == target && calls == Only(r, UserInfo(u.ip, target, r.status.value))
    else calls == Only(r, Reply(USER_NOT_FOUND))
  }

  ghost predicate MemberAnswered(r: Ask, calls: seq<Call>) {
    match r.rq
    case MessageGeneral(Some(text)) =>
      && r.auto.Some? && r.users.Some? && Restored(r) <= calls
      && ToEverybody(Users(r), BroadcastDelivery(text, r.from.name), calls[|Restored(r)|..])
    case MessageDm(Some(dm)) => r.auto.Some? && r.users.Some? && DmAnswered(r, dm.0, dm.1, calls)
    case ChangeStatus(Some(value)) =>
      calls == Only(r, if value == 0 then Response(OK_STATUS_CHANGED, Some(ACTIVE))
                       else if value == 1 then Response(OK_STATUS_CHANGED, Some(DO_NOT_DISTURB))
                       else if value == 2 then Response(OK_STATUS_CHANGED, Some(INVISIBLE))
                       else Reply(BAD_REQUEST))
    case ListUsers(true) => r.rows.Some? && calls == Only(r, AllUsers(r.rows.value))
    case GetUserInfo(Some(target)) => r.users.Some? && InfoAnswered(r, target, calls)
    case Quit(parsed) => calls == if parsed then Only(r, Reply(OK_QUIT)) else []
    case _ => calls == Only(r, Reply(BAD_REQUEST))
  }

  // The calls a request is answered with, in order.
  ghost predicate Answered(r: Ask, calls: seq<Call>) {
    match r.rq
    case Unknown(_) => calls == Only(r, Reply(BAD_REQUEST))
    case Register(name) =>
      if name.None? || name.value == "" then calls == Only(r, Reply(BAD_REQUEST))
      else
        r.users.Some? && calls == Only(r, Reply(R.SetJoin(Triples(Users(r)), r.from.fd, name.value, r.from.ip).1))
    case _ =>
      if r.member then MemberAnswered(r, calls)
      else calls == if r.rq.Quit? then [] else Only(r, Reply(NOT_REGISTERED))
  }

  // The requests that a member's messages are.
  predicate IsCast(r: Ask) {
    r.member && r.rq.MessageGeneral? && r.rq.text.Some?
  }

  predicate IsDm(r: Ask) {
    r.member && r.rq.MessageDm? && r.rq.dm.Some?
  }

  // The status the user has chosen, or got back, once this request is served.
  function ChoiceOf(r: Ask, before: Status): Status {
    if Auto(r) then ACTIVE
    else if r.member && r.rq.ChangeStatus? && r.rq.value == Some(0) then ACTIVE
    else if r.member && r.rq.ChangeStatus? && r.rq.value == Some(1) then DO_NOT_DISTURB
    else if r.member && r.rq.ChangeStatus? && r.rq.value == Some(2) then INVISIBLE
    else before
  }

  function Chosen(asks: seq<Ask>): Status {
    if asks == [] then ACTIVE else ChoiceOf(asks[|asks| - 1], Chosen(asks[..|asks| - 1]))
  }

  // ---------- what was called on one socket ----------

  function Frames(calls: seq<Call>, d: int): seq<Frame> {
    if calls == [] then []
    else
      var x := calls[|calls| - 1];
      Frames(calls[..|calls| - 1], d) + (if x.to == d then [x.frame] else [])
  }

  // Request after request.
  function FramesFor(asks: seq<Ask>, d: int): seq<Frame> {
    if asks == [] then [] else FramesFor(asks[..|asks| - 1], d) + Frames(asks[|asks| - 1].calls, d)
  }

  lemma FramesSnoc(calls: seq<Call>, x: Call, d: int)
    ensures Frames(calls + [x], d) == Frames(calls, d) + (if x.to == d then [x.frame] else [])
  {
    assert (calls + [x])[..|calls|] == calls;
  }

  lemma FramesForSnoc(asks: seq<Ask>, r: Ask, d: int)
    ensures FramesFor(asks + [r], d) == FramesFor(asks, d) + Frames(r.calls, d)
  {
    assert (asks + [r])[..|asks|] == asks;
  }
}
