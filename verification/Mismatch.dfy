/**
 Two runs after which a client shows a status other than the one the server has for it: a choice overwritten by
 an automatic notice, and a second choice made before the first is answered.
 */
module Mismatch {
  import opened Framing
  import opened Protocol
  import opened Handlers
  import opened Client
  import opened Mirror

  const ME := 3
  const LIMIT := 1

  function One(a: Account): Server {
    Server(map[ME := a], map[a.name := ME], map[a.ip := ME])
  }

  function Ana(status: Status, manual: Status, last: int): Account {
    Account("ana", "ip", status, manual, last)
  }

  function Start(): Link {
    Link(One(Ana(ACTIVE, ACTIVE, 0)), [], [], 0, FIRST_VIEW, [])
  }

  function Busy(st: Status): Event {
    Arrive(ME, "ip", ChangeStatus(Some(1)), SECOND, [ME], [("ana", st)])
  }

  lemma OneOk(a: Account, now: int)
    ensures Valid(One(a)) && IsOrder(One(a), [ME]) && IsUserList([(a.name, a.status)], One(a).sessions)
    ensures Idle(a, now, LIMIT) ==> IsMarked(One(a), now, LIMIT, [ME])
  {
    assert ME in One(a).sessions && One(a).sessions[ME] == a;
  }

  lemma StartOpens()
    ensures Opens(Start(), ME)
  {
    OneOk(Ana(ACTIVE, ACTIVE, 0), 0);
  }

  lemma Push(s: Link, a: Act, rest: seq<Act>, end: Link)
    requires Can(LIMIT, ME, s, a) && Patient(s, a) && IsPatientRun(LIMIT, ME, Do(LIMIT, ME, s, a), rest, end)
    ensures IsPatientRun(LIMIT, ME, s, [a] + rest, end)
  {
    assert ([a] + rest)[1..] == rest;
  }

  lemma PushAny(s: Link, a: Act, rest: seq<Act>, end: Link)
    requires Can(LIMIT, ME, s, a) && IsRun(LIMIT, ME, Do(LIMIT, ME, s, a), rest, end)
    ensures IsRun(LIMIT, ME, s, [a] + rest, end)
  {
    assert ([a] + rest)[1..] == rest;
  }

  lemma OneFrame(f: Frame)
    ensures ToMe([Out(ME, f)], ME) == [f]
  {
    assert ToMe([Out(ME, f)][..0], ME) == [];
  }

  lemma TickScans()
    ensures Scan(One(Ana(ACTIVE, ACTIVE, 0)), SECOND, LIMIT) == One(Ana(INVISIBLE, ACTIVE, 0))
    ensures IsMarked(One(Ana(ACTIVE, ACTIVE, 0)), SECOND, LIMIT, [ME])
  {
    OneOk(Ana(ACTIVE, ACTIVE, 0), SECOND);
    assert Idle(Ana(ACTIVE, ACTIVE, 0), SECOND, LIMIT);
    assert Scan(One(Ana(ACTIVE, ACTIVE, 0)), SECOND, LIMIT).sessions == map[ME := Ana(INVISIBLE, ACTIVE, 0)];
  }

  lemma TickStep(s: Link)
    requires s.sv == One(Ana(ACTIVE, ACTIVE, 0))
    ensures Can(LIMIT, ME, s, Happens(Tick(SECOND, [ME])))
    ensures Do(LIMIT, ME, s, Happens(Tick(SECOND, [ME]))) ==
            s.(sv := One(Ana(INVISIBLE, ACTIVE, 0)), log := s.log + [Reply(AUTO_INACTIVE)])
  {
    OneFrame(Reply(AUTO_INACTIVE));
    TickScans();
    assert ToAll([ME], Reply(AUTO_INACTIVE)) == [Out(ME, Reply(AUTO_INACTIVE))];
  }

  lemma BusyStep(s: Link, st: Status)
    requires s.sv == One(Ana(st, ACTIVE, 0)) && s.up == [ChangeStatus(Some(1))]
    ensures Can(LIMIT, ME, s, Happens(Busy(st)))
    ensures Do(LIMIT, ME, s, Happens(Busy(st))) ==
            s.(sv := One(Ana(DO_NOT_DISTURB, DO_NOT_DISTURB, SECOND)), up := [],
               log := s.log + [Response(OK_STATUS_CHANGED, Some(DO_NOT_DISTURB))])
  {
    OneOk(Ana(st, ACTIVE, 0), 0);
    OneFrame(Response(OK_STATUS_CHANGED, Some(DO_NOT_DISTURB)));
    var sv := Apply(s.sv, LIMIT, Busy(st)).0;
    assert sv.sessions == map[ME := Ana(DO_NOT_DISTURB, DO_NOT_DISTURB, SECOND)];
  }

  lemma PickStep(s: Link, v: Status)
    requires v != s.view.combo
    ensures Do(LIMIT, ME, s, Pick(v)) ==
            s.(view := View(s.view.current, v), picks := s.picks + [Choosing(s.delivered, v)],
               up := s.up + if v == s.view.current then [] else [ChangeStatus(Some(ValueOf(v)))])
  {}

  lemma DeliverStep(s: Link)
    requires s.delivered < |s.log| && s.log[s.delivered].Response?
    ensures Can(LIMIT, ME, s, Deliver)
    ensures Do(LIMIT, ME, s, Deliver) ==
            s.(delivered := s.delivered + 1, view := Receive(s.view, s.log[s.delivered].code),
               up := s.up + Listed(React(s.log[s.delivered])))
  {}

  const NOTICE := Reply(AUTO_INACTIVE)
  const ANSWER := Response(OK_STATUS_CHANGED, Some(DO_NOT_DISTURB))
  const ASKED := ChangeStatus(Some(1))
  const BUSY_ANA := One(Ana(DO_NOT_DISTURB, DO_NOT_DISTURB, SECOND))

  const BUSY_PICKED := [Choosing(0, DO_NOT_DISTURB)]
  const BACK_PICKED := [Choosing(0, DO_NOT_DISTURB), Choosing(0, ACTIVE)]

  // The states after each act of the first run, and of the second.
  function First(k: nat): Link
    requires k <= 5
  {
    if k == 0 then Start()
    else if k == 1 then Link(Start().sv, [ASKED], [], 0, View(ACTIVE, DO_NOT_DISTURB), BUSY_PICKED)
    else if k == 2 then Link(One(Ana(INVISIBLE, ACTIVE, 0)), [ASKED], [NOTICE], 0, View(ACTIVE, DO_NOT_DISTURB),
        BUSY_PICKED)
    else if k == 3 then Link(BUSY_ANA, [], [NOTICE, ANSWER], 0, View(ACTIVE, DO_NOT_DISTURB), BUSY_PICKED)
    else if k == 4 then Link(BUSY_ANA, [], [NOTICE, ANSWER], 1, View(INVISIBLE, INVISIBLE), BUSY_PICKED)
    else Link(BUSY_ANA, [ListUsers(true)], [NOTICE, ANSWER], 2, View(INVISIBLE, INVISIBLE), BUSY_PICKED)
  }

  function FirstAct(k: nat): Act
    requires k < 5
  {
    if k == 0 then Pick(DO_NOT_DISTURB)
    else if k == 1 then Happens(Tick(SECOND, [ME]))
    else if k == 2 then Happens(Busy(INVISIBLE))
    else Deliver
  }

  function Second(k: nat): Link
    requires k <= 4
  {
    if k == 0 then Start()
    else if k == 1 then Link(Start().sv, [ASKED], [], 0, View(ACTIVE, DO_NOT_DISTURB), BUSY_PICKED)
    else if k == 2 then Link(Start().sv, [ASKED], [], 0, View(ACTIVE, ACTIVE), BACK_PICKED)
    else if k == 3 then Link(BUSY_ANA, [], [ANSWER], 0, View(ACTIVE, ACTIVE), BACK_PICKED)
    else Link(BUSY_ANA, [ListUsers(true)], [ANSWER], 1, View(ACTIVE, ACTIVE), BACK_PICKED)
  }

  function SecondAct(k: nat): Act
    requires k < 4
  {
    if k == 0 then Pick(DO_NOT_DISTURB)
    else if k == 1 then Pick(ACTIVE)
    else if k == 2 then Happens(Busy(ACTIVE))
    else Deliver
  }

  lemma FirstStep(k: nat)
    requires k < 5
    ensures Can(LIMIT, ME, First(k), FirstAct(k)) && Patient(First(k), FirstAct(k))
    ensures Do(LIMIT, ME, First(k), FirstAct(k)) == First(k + 1)
  {
    var s := First(k);
    if k == 0 {
      PickStep(s, DO_NOT_DISTURB);
    } else if k == 1 {
      TickStep(s);
    } else if k == 2 {
      BusyStep(s, INVISIBLE);
    } else {
      DeliverStep(s);
    }
  }

  lemma SecondStep(k: nat)
    requires k < 4
    ensures Can(LIMIT, ME, Second(k), SecondAct(k)) && Do(LIMIT, ME, Second(k), SecondAct(k)) == Second(k + 1)
  {
    var s := Second(k);
    if k == 0 {
      PickStep(s, DO_NOT_DISTURB);
    } else if k == 1 {
      PickStep(s, ACTIVE);
    } else if k == 2 {
      BusyStep(s, ACTIVE);
    } else {
      DeliverStep(s);
    }
  }

  lemma {:induction false} FirstRun(k: nat) returns (acts: seq<Act>)
    requires k <= 5
    ensures IsPatientRun(LIMIT, ME, First(k), acts, First(5))
    decreases 5 - k
  {
    acts := [];
    if k < 5 {
      var rest := FirstRun(k + 1);
      FirstStep(k);
      Push(First(k), FirstAct(k), rest, First(5));
      acts := [FirstAct(k)] + rest;
    }
  }

  lemma {:induction false} SecondRun(k: nat) returns (acts: seq<Act>)
    requires k <= 4
    ensures IsRun(LIMIT, ME, Second(k), acts, Second(4))
    decreases 4 - k
  {
    acts := [];
    if k < 4 {
      var rest := SecondRun(k + 1);
      SecondStep(k);
      PushAny(Second(k), SecondAct(k), rest, Second(4));
      acts := [SecondAct(k)] + rest;
    }
  }

  // The user picks DO_NOT_DISTURB; the watchdog's 602 is on the wire before the answer; the answer then makes the
  // client take INVISIBLE from the box, while the server has DO_NOT_DISTURB.
  lemma NoticeOverwritesChoice()
    ensures exists acts, end ::
              && Opens(Start(), ME) && IsPatientRun(LIMIT, ME, Start(), acts, end)
              && NoAsk(end.up) && end.delivered == |end.log|
              && end.view == View(INVISIBLE, INVISIBLE)
              && ME in end.sv.sessions && end.sv.sessions[ME].status == DO_NOT_DISTURB
  {
    StartOpens();
    var acts := FirstRun(0);
    assert NoAsk(First(5).up) && ME in First(5).sv.sessions;
  }

  // A second pick before the answer: picking the old status again sends nothing, and the answer to the first
  // choice then confirms the wrong one, with no automatic notice involved.
  lemma HastyChoice()
    ensures exists acts, end ::
              && Opens(Start(), ME) && IsRun(LIMIT, ME, Start(), acts, end)
              && NoAsk(end.up) && end.delivered == |end.log| && LastSet(end.log) == None
              && end.view == View(ACTIVE, ACTIVE)
              && ME in end.sv.sessions && end.sv.sessions[ME].status == DO_NOT_DISTURB
  {
    StartOpens();
    var acts := SecondRun(0);
    assert [ANSWER][..0] == [];
    assert NoAsk(Second(4).up) && LastSet([ANSWER]) == None && ME in Second(4).sv.sessions;
  }
}
