/**
 Two promises of docs/IMPLEMENTATION.md about activity that the code does not keep, each with a run of the server
 that breaks it and with the exact condition.
 */
module Promises {
  import opened Framing
  import opened Protocol
  import opened Handlers
  import opened Client
  import opened History

  const ANA := 3
  const JOINS := Timed(0, Arrive(ANA, "ip", Register(Some("ana")), 0, [], []))

  function Lists(at: int, status: Status): Timed {
    Timed(at, Arrive(ANA, "ip", ListUsers(true), at, [], [("ana", status)]))
  }

  function Alone(status: Status, manual: Status, last: int): Server {
    Server(map[ANA := Account("ana", "ip", status, manual, last)], map["ana" := ANA], map["ip" := ANA])
  }

  lemma AloneOk(status: Status, manual: Status, last: int, now: int)
    ensures var sv := Alone(status, manual, last);
            && IsUserList([("ana", status)], sv.sessions)
            && IsMarked(sv, now, 1, if Idle(sv.sessions[ANA], now, 1) then [ANA] else [])
            && Scan(sv, now, 1) == Alone(Scanned(sv.sessions[ANA], now, 1).status, manual, last)
  {
    var sv := Alone(status, manual, last);
    assert ANA in sv.sessions && sv.sessions[ANA].name == "ana";
    assert Scan(sv, now, 1).sessions == Alone(Scanned(sv.sessions[ANA], now, 1).status, manual, last).sessions;
  }

  lemma AnaJoins()
    ensures IsRun(1, [JOINS]) && After(1, [JOINS]) == Alone(ACTIVE, ACTIVE, 0)
    ensures Sent(1, [JOINS]) == [Out(ANA, Reply(OK_REGISTER))]
  {
    RunMore(1, [], JOINS);
    assert [] + [JOINS] == [JOINS];
    assert After(1, [JOINS]).sessions == Alone(ACTIVE, ACTIVE, 0).sessions;
  }

  lemma AnaLists(es: seq<Timed>, status: Status, manual: Status, last: int, at: int)
    requires IsRun(1, es) && After(1, es) == Alone(status, manual, last)
    ensures IsRun(1, es + [Lists(at, status)]) && After(1, es + [Lists(at, status)]) == Alone(status, manual, at)
  {
    AloneOk(status, manual, last, 0);
    RunMore(1, es, Lists(at, status));
    assert After(1, es + [Lists(at, status)]).sessions == Alone(status, manual, at).sessions;
  }

  lemma AnaScanned(es: seq<Timed>, status: Status, manual: Status, last: int, at: int, order: seq<int>)
    requires IsRun(1, es) && After(1, es) == Alone(status, manual, last)
    requires order == if Idle(Account("ana", "ip", status, manual, last), at, 1) then [ANA] else []
    ensures var more := es + [Timed(at, Tick(at, order))];
            IsRun(1, more) && After(1, more) == Alone(if order == [] then status else INVISIBLE, manual, last)
  {
    AloneOk(status, manual, last, at);
    RunMore(1, es, Timed(at, Tick(at, order)));
  }

  // A clocked run whose last event is an action of a user made INVISIBLE automatically, who stays so.
  ghost predicate Unrestored(es: seq<Timed>, t: Timed, fd: int) {
    && IsRun(1, es + [t]) && Clocked(0, es + [t]) && IsActivity(After(1, es), t.e, fd)
    && fd in After(1, es).sessions && NeedsRestore(After(1, es).sessions[fd])
    && fd in After(1, es + [t]).sessions && After(1, es + [t]).sessions[fd].status == INVISIBLE
  }

  // Lines 54-59: any action of the user restores the status. A client registers, a scan one second later finds it
  // idle, it asks for the user list, which lines 38-43 count as an action; it stays INVISIBLE.
  lemma NotEveryActionRestores()
    ensures exists es, t, fd :: Unrestored(es, t, fd)
  {
    var es, t := [JOINS] + [Timed(SECOND, Tick(SECOND, [ANA]))], Lists(2 * SECOND, INVISIBLE);
    AnaJoins();
    AnaScanned([JOINS], ACTIVE, ACTIVE, 0, SECOND, [ANA]);
    AnaLists(es, INVISIBLE, ACTIVE, 0, 2 * SECOND);
    assert Clocked(0, es + [t]);
    assert Unrestored(es, t, ANA);
  }

  // A ListUsers the client may have sent on its own: its connection was sent a notice that makes it ask.
  ghost predicate Automatic(timeout: int, es: seq<Timed>, i: nat)
    requires i < |es|
  {
    es[i].e.Arrive? && es[i].e.rq == ListUsers(true) &&
    exists o | o in Sent(timeout, es[..i]) :: o.fd == es[i].e.fd && React(o.frame) == Some(ListUsers(true))
  }

  // Which requests make a client ask for the list on its own: a message that ends an automatic INVISIBLE and a change
  // to one of the three statuses, and only the client that sent it.
  lemma RefreshesExactly(sv: Server, fd: int, ip: string, rq: Request, now: int, order: seq<int>, rows: seq<Row>,
                         g: int)
    ensures (exists o | o in Handle(sv, fd, ip, rq, now, order, rows).1 ::
               o.fd == g && React(o.frame) == Some(ListUsers(true))) <==>
            g == fd && fd in sv.sessions &&
            ((sv.sessions[fd].status == INVISIBLE && sv.sessions[fd].manual != INVISIBLE &&
              ((rq.MessageGeneral? && rq.text.Some?) || (rq.MessageDm? && rq.dm.Some?))) ||
             rq in {ChangeStatus(Some(0)), ChangeStatus(Some(1)), ChangeStatus(Some(2))})
  {
    var outs := Handle(sv, fd, ip, rq, now, order, rows).1;
    if outs != [] { assert outs[0] in outs; }
    forall o | o in outs ensures React(o.frame).Some? ==> o == outs[0] {
      var i :| 0 <= i < |outs| && outs[i] == o;
    }
  }

  // The latest activity that is no automatic refresh (`own` are those), and the latest automatic refresh.
  function LatestAction(timeout: int, es: seq<Timed>, own: set<nat>, fd: int): int {
    if es == [] then 0
    else
      var n := |es| - 1;
      if n !in own && IsActivity(After(timeout, es[..n]), es[n].e, fd) then es[n].e.now
      else LatestAction(timeout, es[..n], own, fd)
  }

  function LastRefresh(timeout: int, es: seq<Timed>, own: set<nat>, fd: int): Option<int> {
    if es == [] then None
    else
      var n := |es| - 1;
      if n in own && IsActivity(After(timeout, es[..n]), es[n].e, fd) then Some(es[n].e.now)
      else LastRefresh(timeout, es[..n], own, fd)
  }

  lemma {:induction false} RefreshInPast(timeout: int, start: int, es: seq<Timed>, own: set<nat>, fd: int, u: int)
    requires Clocked(start, es) && forall i | 0 <= i < |es| :: es[i].at <= u
    ensures var r := LastRefresh(timeout, es, own, fd); r.Some? ==> r.value <= u
    decreases |es|
  {
    if es != [] {
      assert Reads(es[|es| - 1]);
      RefreshInPast(timeout, start, es[..|es| - 1], own, fd, u);
    }
  }

  // The latest activity is the later of the two.
  lemma {:induction false} ActionOrRefresh(timeout: int, start: int, es: seq<Timed>, own: set<nat>, fd: int)
    requires Clocked(start, es)
    ensures var a, r, l := LatestAction(timeout, es, own, fd), LastRefresh(timeout, es, own, fd),
        LatestActivity(timeout, es, fd);
            r == Some(l) || (l == a && (r.Some? ==> r.value <= a))
    decreases |es|
  {
    if es != [] {
      var n := |es| - 1;
      assert Reads(es[n]);
      RefreshInPast(timeout, start, es[..n], own, fd, es[n].at);
      ActionOrRefresh(timeout, start, es[..n], own, fd);
    }
  }

  // Lines 45-46: automatic refreshes are no activity. A scan spares a session whose user has been idle for the
  // limit exactly when an automatic refresh came in less than the limit ago.
  lemma RefreshesPostponeMarking(timeout: int, start: int, es: seq<Timed>, tick: Timed, own: set<nat>, fd: int)
    requires timeout >= 1 && tick.e.Tick? && IsRun(timeout, es + [tick]) && Clocked(start, es)
    requires fd in After(timeout, es).sessions && LastStatus(Sent(timeout, es), fd) != Some(INVISIBLE)
    requires tick.e.sampled - LatestAction(timeout, es, own, fd) >= timeout * SECOND
    ensures fd !in tick.e.order <==>
            var r := LastRefresh(timeout, es, own, fd); r.Some? && tick.e.sampled - r.value < timeout * SECOND
  {
    MarkedExactly(timeout, es, tick, fd);
    ActionOrRefresh(timeout, start, es, own, fd);
  }

  // A clocked run with automatic refreshes `own` whose last scan spares a user idle for the limit of one second.
  ghost predicate Spared(es: seq<Timed>, tick: Timed, own: set<nat>, fd: int) {
    && tick.e.Tick? && IsRun(1, es + [tick]) && Clocked(0, es + [tick])
    && (forall i | i in own :: i < |es| && Automatic(1, es, i))
    && fd in After(1, es).sessions && LastStatus(Sent(1, es), fd) != Some(INVISIBLE)
    && tick.e.sampled - LatestAction(1, es, own, fd) >= SECOND && fd !in tick.e.order
  }

  const CHOOSES := Timed(0, Arrive(ANA, "ip", ChangeStatus(Some(1)), 0, [], []))
  const REFRESHES := Lists(SECOND / 2, DO_NOT_DISTURB)
  const REFRESHED := [JOINS] + [CHOOSES] + [REFRESHES]
  const SCANNED := Timed(SECOND, Tick(SECOND, []))
  const ANSWER := Out(ANA, Response(OK_STATUS_CHANGED, Some(DO_NOT_DISTURB)))

  lemma AnaChooses()
    ensures IsRun(1, [JOINS] + [CHOOSES]) && After(1, [JOINS] + [CHOOSES]) == Alone(DO_NOT_DISTURB, DO_NOT_DISTURB, 0)
    ensures ANSWER in Sent(1, [JOINS] + [CHOOSES])
  {
    AnaJoins();
    RunMore(1, [JOINS], CHOOSES);
    assert After(1, [JOINS] + [CHOOSES]).sessions == Alone(DO_NOT_DISTURB, DO_NOT_DISTURB, 0).sessions;
    assert Sent(1, [JOINS] + [CHOOSES]) == [Out(ANA, Reply(OK_REGISTER))] + [ANSWER];
  }

  lemma RefreshIsAutomatic()
    ensures Automatic(1, REFRESHED, 2)
  {
    var es := REFRESHED;
    AnaChooses();
    assert es[..2] == [JOINS] + [CHOOSES];
    assert ANSWER in Sent(1, es[..2]) && React(ANSWER.frame) == Some(ListUsers(true));
  }

  lemma NoActionSinceChoice()
    ensures LatestAction(1, REFRESHED, {2}, ANA) == 0
  {
    var es := REFRESHED;
    AnaJoins();
    assert es[..2] == [JOINS] + [CHOOSES];
    assert ([JOINS] + [CHOOSES])[..1] == [JOINS];
    assert LatestAction(1, es[..2], {2}, ANA) == 0;
  }

  lemma RefreshedRun()
    ensures IsRun(1, REFRESHED + [SCANNED]) && Clocked(0, REFRESHED + [SCANNED])
    ensures ANA in After(1, REFRESHED).sessions && LastStatus(Sent(1, REFRESHED), ANA) != Some(INVISIBLE)
  {
    AnaChooses();
    AnaLists([JOINS] + [CHOOSES], DO_NOT_DISTURB, DO_NOT_DISTURB, 0, SECOND / 2);
    AnaScanned(REFRESHED, DO_NOT_DISTURB, DO_NOT_DISTURB, SECOND / 2, SECOND, []);
    StatusIsLastNotice(1, REFRESHED, ANA);
  }

  // It happens: after a 201 the client refreshes its list, and the next scan spares its idle user.
  lemma AutomaticRefreshesCount()
    ensures exists es, tick, own, fd :: Spared(es, tick, own, fd)
  {
    RefreshedRun();
    RefreshIsAutomatic();
    NoActionSinceChoice();
    assert Spared(REFRESHED, SCANNED, {2}, ANA);
  }
}
