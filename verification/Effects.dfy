/**
 What one handler call means to the people involved, said without the handlers' own words: who hears what, and
 who is left alone.
 */
module Effects {
  import opened Framing
  import opened Protocol
  import opened Requests
  import opened Handlers
  import H = History
  import R = Registry

  // The session registered under a name, by a linear scan.
  ghost predicate Holds(sv: Server, d: int, name: string) {
    d in sv.sessions && sv.sessions[d].name == name
  }

  lemma HolderIsFound(sv: Server, d: int, name: string)
    requires Valid(sv) && Holds(sv, d, name)
    ensures Find(sv, name) == Some(d)
  {
    assert Regs(sv).users[d] == UserOf(sv.sessions[d]);
  }

  lemma FoundIsHolder(sv: Server, name: string)
    requires Valid(sv) && Find(sv, name).Some?
    ensures Holds(sv, Find(sv, name).value, name)
  {
    var d := Find(sv, name).value;
    assert Regs(sv).users[d] == UserOf(sv.sessions[d]);
  }

  // ---------- other people's sessions ----------

  // A request changes nobody's session but its sender's, and it brings in or removes nobody else.
  lemma OthersUntouched(sv: Server, fd: int, ip: string, rq: Request, now: int, order: seq<int>, rows: seq<Row>, g: int)
    requires g != fd
    ensures var sv' := Handle(sv, fd, ip, rq, now, order, rows).0;
            (g in sv'.sessions <==> g in sv.sessions) && (g in sv.sessions ==> sv'.sessions[g] == sv.sessions[g])
  {}

  // ---------- every request is answered ----------

  function WhoIs(sv: Server, fd: int): Who
    requires fd in sv.sessions
  {
    Who(fd, fd, sv.sessions[fd].name, sv.sessions[fd].ip)
  }

  function Everyone(sv: Server): set<Who> {
    set fd | fd in sv.sessions :: WhoIs(sv, fd)
  }

  // A request as module Requests has it. `seen` is the status of whoever is asked about.
  function AskOf(sv: Server, fd: int, ip: string, rq: Request, rows: seq<Row>, seen: Status): Ask {
    var member := fd in sv.sessions;
    var auto := member && sv.sessions[fd].status == INVISIBLE && sv.sessions[fd].manual != INVISIBLE;
    Ask(rq, Who(fd, fd, if member then sv.sessions[fd].name else "", ip), member, Some(auto), Some(Everyone(sv)),
        Some(true), Some(seen), Some(rows), [])
  }

  function AsCalls(outs: seq<Out>): (calls: seq<Call>)
    ensures |calls| == |outs| && forall i | 0 <= i < |outs| :: calls[i] == Call(outs[i].fd, outs[i].frame)
  {
    seq(|outs|, i requires 0 <= i < |outs| => Call(outs[i].fd, outs[i].frame))
  }

  lemma AsCallsAppend(a: seq<Out>, b: seq<Out>)
    ensures AsCalls(a + b) == AsCalls(a) + AsCalls(b)
  {}

  lemma EveryonesTriples(sv: Server)
    ensures Triples(Everyone(sv)) == R.Triples(Regs(sv))
  {
    forall x: R.Triple ensures x in Triples(Everyone(sv)) <==> x in R.Triples(Regs(sv)) {
      if x in R.Triples(Regs(sv)) {
        assert Regs(sv).users[x.fd] == UserOf(sv.sessions[x.fd]) && WhoIs(sv, x.fd) in Everyone(sv);
      }
    }
  }

  lemma RegisterAnswered(sv: Server, fd: int, ip: string, name: string, now: int, rows: seq<Row>, seen: Status)
    requires Valid(sv) && name != ""
    ensures Answered(AskOf(sv, fd, ip, Register(Some(name)), rows, seen), AsCalls(JoinReply(sv, fd, ip, name, now).1))
  {
    JoinRegs(sv, fd, ip, name, now);
    R.JoinRefines(Regs(sv), fd, name, ip);
    EveryonesTriples(sv);
  }

  lemma ToAllAnswered(sv: Server, order: seq<int>, f: Frame)
    requires IsOrder(sv, order)
    ensures ToEverybody(Everyone(sv), f, AsCalls(ToAll(order, f)))
  {
    var calls := AsCalls(ToAll(order, f));
    forall i | 0 <= i < |calls| ensures calls[i].frame == f && Has(Everyone(sv), calls[i].to) {
      assert order[i] in order && WhoIs(sv, order[i]) in Everyone(sv);
    }
    forall u | u in Everyone(sv) ensures Call(u.conn, f) in calls {
      var i :| 0 <= i < |order| && order[i] == u.conn;
      assert calls[i] == Call(u.conn, f);
    }
  }

  lemma GeneralAnswered(sv: Server, fd: int, ip: string, text: string, now: int, order: seq<int>, rows: seq<Row>,
                        seen: Status)
    requires fd in sv.sessions && IsOrder(sv, order)
    ensures Answered(AskOf(sv, fd, ip, MessageGeneral(Some(text)), rows, seen),
                     AsCalls(General(sv, fd, text, now, order).1))
  {
    var f := BroadcastDelivery(text, sv.sessions[fd].name);
    var r := AskOf(sv, fd, ip, MessageGeneral(Some(text)), rows, seen);
    ToAllAnswered(sv, order, f);
    AsCallsAppend(RestoreOuts(sv.sessions[fd], fd), ToAll(order, f));
    assert AsCalls(RestoreOuts(sv.sessions[fd], fd)) == Restored(r);
    assert AsCalls(General(sv, fd, text, now, order).1)[|Restored(r)|..] == AsCalls(ToAll(order, f));
  }

  lemma KnownIsFound(sv: Server, name: string)
    requires Valid(sv)
    ensures Known(Everyone(sv), name) <==> Find(sv, name).Some?
    ensures Find(sv, name).Some? ==>
              var d := Find(sv, name).value;
              d in sv.sessions && sv.sessions[d].name == name && WhoIs(sv, d) in Everyone(sv)
  {
    if u :| u in Everyone(sv) && u.name == name {
      HolderIsFound(sv, u.conn, name);
    }
    if Find(sv, name).Some? {
      FoundIsHolder(sv, name);
      assert WhoIs(sv, Find(sv, name).value) in Everyone(sv);
    }
  }

  lemma DirectAnswered(sv: Server, fd: int, ip: string, dest: string, text: string, now: int, rows: seq<Row>,
                       seen: Status)
    requires Valid(sv) && fd in sv.sessions
    ensures Answered(AskOf(sv, fd, ip, MessageDm(Some((dest, text))), rows, seen),
                     AsCalls(Direct(sv, fd, dest, text, now).1))
  {
    KnownIsFound(sv, dest);
    var r := AskOf(sv, fd, ip, MessageDm(Some((dest, text))), rows, seen);
    assert AsCalls(RestoreOuts(sv.sessions[fd], fd)) == Restored(r);
    match Find(sv, dest)
    case Some(d) =>
      var two := [Out(d, ForDm(sv.sessions[fd].name, text)), Out(fd, Reply(OK_DM_SENT))];
      AsCallsAppend(RestoreOuts(sv.sessions[fd], fd), two);
      assert AsCalls(two) == [Call(d, two[0].frame)] + Only(r, Reply(OK_DM_SENT));
      assert AsCalls(Direct(sv, fd, dest, text, now).1) == DmCalls(r, WhoIs(sv, d), text);
    case None =>
      AsCallsAppend(RestoreOuts(sv.sessions[fd], fd), [Out(fd, Reply(USER_NOT_FOUND))]);
      assert AsCalls([Out(fd, Reply(USER_NOT_FOUND))]) == Only(r, Reply(USER_NOT_FOUND));
  }

  lemma InfoAnsweredTruly(sv: Server, fd: int, ip: string, target: string, now: int, rows: seq<Row>, seen: Status)
    requires Valid(sv) && fd in sv.sessions && forall d | Holds(sv, d, target) :: sv.sessions[d].status == seen
    ensures Answered(AskOf(sv, fd, ip, GetUserInfo(Some(target)), rows, seen), AsCalls(Info(sv, fd, target, now).1))
  {
    KnownIsFound(sv, target);
    var sv' := Update(sv, fd, Touch(sv.sessions[fd], now));
    assert Find(sv', target) == Find(sv, target);
    if Find(sv, target).Some? {
      var d := Find(sv, target).value;
      assert Holds(sv, d, target) && WhoIs(sv, d) in Everyone(sv);
      assert sv'.sessions[d].ip == sv.sessions[d].ip && sv'.sessions[d].status == sv.sessions[d].status;
    }
  }

  // Whatever is asked, by whomever: the frames that go out are the answer.
  lemma HandleAnswers(sv: Server, fd: int, ip: string, rq: Request, now: int, order: seq<int>, rows: seq<Row>,
                      seen: Status)
    requires Valid(sv)
    requires fd in sv.sessions && rq.MessageGeneral? && rq.text.Some? ==> IsOrder(sv, order)
    requires rq.GetUserInfo? && rq.target.Some? ==>
               forall d | Holds(sv, d, rq.target.value) :: sv.sessions[d].status == seen
    ensures Answered(AskOf(sv, fd, ip, rq, rows, seen), AsCalls(Handle(sv, fd, ip, rq, now, order, rows).1))
  {
    match rq
    case Register(Some(name)) => if name != "" { RegisterAnswered(sv, fd, ip, name, now, rows, seen); }
    case MessageGeneral(Some(text)) =>
      if fd in sv.sessions { GeneralAnswered(sv, fd, ip, text, now, order, rows, seen); }
    case MessageDm(Some(dm)) => if fd in sv.sessions { DirectAnswered(sv, fd, ip, dm.0, dm.1, now, rows, seen); }
    case GetUserInfo(Some(target)) =>
      if fd in sv.sessions { InfoAnsweredTruly(sv, fd, ip, target, now, rows, seen); }
    case _ =>
  }

  // Who is registered afterwards: a well-formed Register is registration on the set of triples, any Quit is removal,
  // and nothing else adds or removes anybody.
  lemma MembersAfter(sv: Server, fd: int, ip: string, rq: Request, now: int, order: seq<int>, rows: seq<Row>)
    requires Valid(sv)
    ensures R.Triples(Regs(Handle(sv, fd, ip, rq, now, order, rows).0)) ==
            if rq.Register? && rq.name.Some? && rq.name.value != ""
            then R.SetJoin(R.Triples(Regs(sv)), fd, rq.name.value, ip).0
            else if rq.Quit? then R.SetLeave(R.Triples(Regs(sv)), fd)
            else R.Triples(Regs(sv))
  {
    var sv' := Handle(sv, fd, ip, rq, now, order, rows).0;
    if rq.Register? && rq.name.Some? && rq.name.value != "" {
      JoinRegs(sv, fd, ip, rq.name.value, now);
      R.JoinRefines(Regs(sv), fd, rq.name.value, ip);
    } else if rq.Quit? {
      LeaveRegs(sv, fd);
      R.LeaveRefines(Regs(sv), fd);
    } else {
      assert rq.Register? ==> rq.name in {None, Some("")};
      OtherEvents(sv, 0, Arrive(fd, ip, rq, now, order, rows));
      SameUsers(sv, sv');
    }
  }

  // ---------- what that means ----------

  // How many frames of a list are this one for this connection.
  function Count(outs: seq<Out>, o: Out): nat {
    multiset(outs)[o]
  }

  lemma {:induction false} ToAllCount(order: seq<int>, f: Frame, g: int)
    requires forall i, j | 0 <= i < j < |order| :: order[i] != order[j]
    ensures Count(ToAll(order, f), Out(g, f)) == if g in order then 1 else 0
    decreases |order|
  {
    if order != [] {
      var init, last := order[..|order| - 1], order[|order| - 1];
      assert ToAll(order, f) == ToAll(init, f) + [Out(last, f)];
      assert order == init + [last];
      ToAllCount(init, f, g);
    }
  }

  // A posted text reaches every registered session exactly once, its sender too, under the sender's name, and no
  // other broadcast goes out.
  lemma GeneralReachesAll(sv: Server, fd: int, ip: string, text: string, now: int, order: seq<int>, rows: seq<Row>,
                          o: Out)
    requires fd in sv.sessions && IsOrder(sv, order) && o.frame.BroadcastDelivery?
    ensures Count(Handle(sv, fd, ip, MessageGeneral(Some(text)), now, order, rows).1, o) ==
            if o.fd in sv.sessions && o.frame == BroadcastDelivery(text, sv.sessions[fd].name) then 1 else 0
  {
    var f := BroadcastDelivery(text, sv.sessions[fd].name);
    var first := RestoreOuts(sv.sessions[fd], fd);
    assert multiset(first + ToAll(order, f)) == multiset(first) + multiset(ToAll(order, f));
    if o.frame == f { ToAllCount(order, f, o.fd); }
  }

  function Forwarded(fd: int, d: int, f: Frame): seq<Out> {
    [Out(d, f), Out(fd, Reply(OK_DM_SENT))]
  }

  // A direct message is answered 202 if somebody has the name, and then that one session gets it, under the sender's
  // name; else it is answered 404, and nobody gets it.
  lemma DirectIsForwarded(sv: Server, fd: int, ip: string, dest: string, text: string, now: int, order: seq<int>,
                          rows: seq<Row>, outs: seq<Out>)
    requires Valid(sv) && fd in sv.sessions
    ensures var all := Handle(sv, fd, ip, MessageDm(Some((dest, text))), now, order, rows).1;
            var first := if sv.sessions[fd].status == INVISIBLE && sv.sessions[fd].manual != INVISIBLE
                         then [Out(fd, Reply(STATUS_RESTORED))] else [];
            all == first + outs <==>
            if exists d :: Holds(sv, d, dest)
            then exists d :: Holds(sv, d, dest) && outs == Forwarded(fd, d, ForDm(sv.sessions[fd].name, text))
            else outs == [Out(fd, Reply(USER_NOT_FOUND))]
  {
    var all := Handle(sv, fd, ip, MessageDm(Some((dest, text))), now, order, rows).1;
    var first := RestoreOuts(sv.sessions[fd], fd);
    assert all == first + outs <==> all[|first|..] == outs;
    if d :| Holds(sv, d, dest) {
      HolderIsFound(sv, d, dest);
      forall e | Holds(sv, e, dest) ensures e == d { HolderIsFound(sv, e, dest); }
    } else if Find(sv, dest).Some? {
      FoundIsHolder(sv, dest);
    }
  }

  // User info is about the one asked for: name, address and status of its session, or a 404 if there is none.
  lemma InfoIsTrue(sv: Server, fd: int, ip: string, target: string, now: int, order: seq<int>, rows: seq<Row>, f: Frame)
    requires Valid(sv) && fd in sv.sessions
    ensures Handle(sv, fd, ip, GetUserInfo(Some(target)), now, order, rows).1 == [Out(fd, f)] <==>
            if exists d :: Holds(sv, d, target)
            then exists d :: Holds(sv, d, target) && f == UserInfo(sv.sessions[d].ip, target, sv.sessions[d].status)
            else f == Reply(USER_NOT_FOUND)
  {
    var sv' := Update(sv, fd, Touch(sv.sessions[fd], now));
    assert Find(sv', target) == Find(sv, target);
    if d :| Holds(sv, d, target) {
      HolderIsFound(sv, d, target);
      forall e | Holds(sv, e, target)
        ensures e == d
      {
        HolderIsFound(sv, e, target);
      }
      assert sv'.sessions[d].ip == sv.sessions[d].ip && sv'.sessions[d].status == sv.sessions[d].status;
      assert Info(sv, fd, target, now).1 == [Out(fd, UserInfo(sv.sessions[d].ip, target, sv.sessions[d].status))];
    } else if Find(sv, target).Some? {
      FoundIsHolder(sv, target);
    }
  }

  // ---------- over runs ----------

  predicate IsOwn(e: Event, g: int) {
    (e.Arrive? || e.HangUp?) && e.fd == g
  }

  lemma EventLeavesAlone(sv: Server, timeout: int, e: Event, g: int)
    requires !IsOwn(e, g)
    ensures var sv' := Apply(sv, timeout, e).0;
            && (g in sv'.sessions <==> g in sv.sessions)
            && (g in sv.sessions ==>
                  || sv'.sessions[g] == sv.sessions[g]
                  || (e.Tick? && sv'.sessions[g] == sv.sessions[g].(status := INVISIBLE)))
  {
    match e
    case Arrive(fd, ip, rq, now, order, rows) => OthersUntouched(sv, fd, ip, rq, now, order, rows, g);
    case _ =>
  }

  // Through any events that are not its own a connection keeps its session, or goes on having none; all that can
  // change in it is the status, to INVISIBLE, and only by a scan.
  lemma {:induction false} LeftAlone(timeout: int, es: seq<H.Timed>, more: seq<H.Timed>, g: int)
    requires forall i | 0 <= i < |more| :: !IsOwn(more[i].e, g)
    ensures var sv, sv' := H.After(timeout, es), H.After(timeout, es + more);
            && (g in sv'.sessions <==> g in sv.sessions)
            && (g in sv.sessions ==>
                  || sv'.sessions[g] == sv.sessions[g]
                  || (&& sv'.sessions[g] == sv.sessions[g].(status := INVISIBLE)
                      && exists i | 0 <= i < |more| :: more[i].e.Tick?))
    decreases |more|
  {
    if more == [] {
      assert es + more == es;
    } else {
      var init, last := more[..|more| - 1], more[|more| - 1];
      assert (es + more)[..|es + more| - 1] == es + init;
      LeftAlone(timeout, es, init, g);
      EventLeavesAlone(H.After(timeout, es + init), timeout, last.e, g);
      assert forall i | 0 <= i < |init| :: init[i] == more[i];
    }
  }
}
