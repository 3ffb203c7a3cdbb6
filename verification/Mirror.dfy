/**
 Does a client show the status the server has for it? One client and its connection, both directions first in,
 first out, with the whole server and all its other clients around it. The user may pick a status at any time,
 also before earlier picks are answered.
 */
module Mirror {
  import opened Framing
  import opened Protocol
  import opened Handlers
  import opened Client
  import H = History

  /** A pick that changed the box, made when `after` frames had been delivered to the window. */
  datatype Choosing = Choosing(after: nat, status: Status)

  /** `up`: requests on their way to the server. `log`: every frame the server sent this client since it
      registered, `delivered` of them delivered. */
  datatype Link = Link(sv: Server, up: seq<Request>, log: seq<Frame>, delivered: nat, view: View, picks: seq<Choosing>)

  datatype Act =
    | Happens(e: Event)   // any event at the server
    | Deliver             // the next frame reaches the window
    | Pick(v: Status)     // the user picks a status
    | Ask(rq: Request)    // the user sends anything else

  function ToMe(outs: seq<Out>, me: int): seq<Frame> {
    if outs == [] then []
    else
      var last := outs[|outs| - 1];
      ToMe(outs[..|outs| - 1], me) + if last.fd == me then [last.frame] else []
  }

  // The window opens right after the client read its 200.
  ghost predicate Opens(s: Link, me: int) {
    && Valid(s.sv) && me in s.sv.sessions && s.sv.sessions[me].status == ACTIVE
    && s.up == [] && s.log == [] && s.delivered == 0 && s.view == FIRST_VIEW && s.picks == []
  }

  predicate Plain(rq: Request) {
    rq.MessageGeneral? || rq.MessageDm? || rq.ListUsers? || rq.GetUserInfo?
  }

  // Requests of this client are handled in the order sent. It stays registered.
  ghost predicate Can(timeout: int, me: int, s: Link, a: Act) {
    match a
    case Happens(e) =>
      && Legal(s.sv, timeout, e) && me in Apply(s.sv, timeout, e).0.sessions
      && (e.Arrive? && e.fd == me ==> s.up != [] && e.rq == s.up[0])
    case Deliver => s.delivered < |s.log|
    case Pick(_) => true
    case Ask(rq) => Plain(rq)
  }

  function Do(timeout: int, me: int, s: Link, a: Act): Link
    requires a.Deliver? ==> s.delivered < |s.log|
    requires a.Happens? && a.e.Arrive? && a.e.fd == me ==> s.up != []
  {
    match a
    case Happens(e) =>
      var r := Apply(s.sv, timeout, e);
      s.(sv := r.0, log := s.log + ToMe(r.1, me), up := if e.Arrive? && e.fd == me then s.up[1..] else s.up)
    case Deliver =>
      var f := s.log[s.delivered];
      s.(delivered := s.delivered + 1, view := ReceiveFrame(s.view, f), up := s.up + Listed(React(f)))
    case Pick(v) =>
      var r := Choose(s.view, v);
      s.(view := r.0, up := s.up + Listed(r.1),
         picks := if v == s.view.combo then s.picks else s.picks + [Choosing(s.delivered, v)])
    case Ask(rq) => s.(up := s.up + [rq])
  }

  ghost predicate IsRun(timeout: int, me: int, s: Link, acts: seq<Act>, end: Link)
    decreases |acts|
  {
    if acts == [] then s == end
    else Can(timeout, me, s, acts[0]) && IsRun(timeout, me, Do(timeout, me, s, acts[0]), acts[1..], end)
  }

  // ---------- the box and the window, from the frames and the picks alone ----------

  predicate IsAnswer(f: Frame) {
    f.Response? && f.code == OK_STATUS_CHANGED
  }

  // The status an automatic notice puts into the box.
  function Sets(f: Frame): Option<Status> {
    if f.Response? && f.code == STATUS_RESTORED then Some(ACTIVE)
    else if f.Response? && f.code == AUTO_INACTIVE then Some(INVISIBLE)
    else None
  }

  // The picks made when at most n frames had been delivered.
  function Upto(picks: seq<Choosing>, n: nat): (p: seq<Choosing>)
    ensures p != [] ==> p[|p| - 1].after <= n
  {
    if picks == [] || picks[|picks| - 1].after <= n then picks else Upto(picks[..|picks| - 1], n)
  }

  // What the box shows after these frames and picks: what the latest pick or automatic notice put there.
  function Box(log: seq<Frame>, picks: seq<Choosing>): Status
    decreases |log|
  {
    if picks != [] && picks[|picks| - 1].after >= |log| then picks[|picks| - 1].status
    else if log == [] then FIRST_VIEW.combo
    else if Sets(log[|log| - 1]).Some? then Sets(log[|log| - 1]).value
    else Box(log[..|log| - 1], picks)
  }

  // The last frame that names a status is an answer, naming v, and the box did not show v when it came.
  predicate Wrong(log: seq<Frame>, picks: seq<Choosing>) {
    log != [] &&
    var before, last := log[..|log| - 1], log[|log| - 1];
    match H.Names(last)
    case Some(v) => IsAnswer(last) && Box(before, Upto(picks, |before|)) != v
    case None => Wrong(before, picks)
  }

  // What the window's status is after these frames and picks.
  function Shown(log: seq<Frame>, picks: seq<Choosing>): Status
    decreases |log|
  {
    if log == [] then FIRST_VIEW.current
    else
      var before, last := log[..|log| - 1], log[|log| - 1];
      if IsAnswer(last) then Box(before, Upto(picks, |before|))
      else if Sets(last).Some? then Sets(last).value
      else Shown(before, picks)
  }

  // The window after frames still on their way.
  function Ahead(w: View, fs: seq<Frame>): View
    decreases |fs|
  {
    if fs == [] then w else Ahead(ReceiveFrame(w, fs[0]), fs[1..])
  }

  ghost function Predicted(s: Link): View
    requires s.delivered <= |s.log|
  {
    Ahead(s.view, s.log[s.delivered..])
  }

  function LastName(fs: seq<Frame>): Option<Status> {
    if fs == [] then None
    else if H.Names(fs[|fs| - 1]).Some? then H.Names(fs[|fs| - 1])
    else LastName(fs[..|fs| - 1])
  }

  // A registered client is sent no second 200, and notices other than answers carry no status text.
  predicate NoStrayNotice(fs: seq<Frame>) {
    forall i | 0 <= i < |fs| :: fs[i].Response? ==>
      && fs[i].code != OK_REGISTER
      && (IsAnswer(fs[i]) ==> fs[i].about.Some?)
      && (Sets(fs[i]).Some? ==> fs[i].about == None)
  }

  predicate MadeBy(picks: seq<Choosing>, n: nat) {
    forall i | 0 <= i < |picks| :: picks[i].after <= n
  }

  lemma AllUpto(picks: seq<Choosing>, n: nat)
    requires MadeBy(picks, n)
    ensures Upto(picks, n) == picks
  {}

  // The window that saw exactly `log` becomes, after one more frame, the window that saw that frame too.
  lemma OneMoreFrame(log: seq<Frame>, f: Frame, picks: seq<Choosing>)
    requires MadeBy(picks, |log|)
    ensures ReceiveFrame(View(Shown(log, picks), Box(log, picks)), f) ==
        View(Shown(log + [f], picks), Box(log + [f], picks))
  {
    assert (log + [f])[..|log|] == log;
    AllUpto(picks, |log|);
  }

  lemma {:induction false} AheadShown(log: seq<Frame>, picks: seq<Choosing>, d: nat)
    requires d <= |log| && MadeBy(picks, d)
    ensures Ahead(View(Shown(log[..d], picks), Box(log[..d], picks)), log[d..]) ==
        View(Shown(log, picks), Box(log, picks))
    decreases |log| - d
  {
    if d == |log| {
      assert log[..d] == log;
    } else {
      OneMoreFrame(log[..d], log[d], picks);
      assert log[..d + 1] == log[..d] + [log[d]];
      assert log[d..][1..] == log[d + 1..];
      AheadShown(log, picks, d + 1);
    }
  }

  // A pick made now changes nothing the frames delivered so far did.
  lemma {:induction false} ShownPicked(log: seq<Frame>, picks: seq<Choosing>, p: Choosing)
    requires p.after >= |log|
    ensures Shown(log, picks + [p]) == Shown(log, picks)
    decreases |log|
  {
    if log != [] {
      var before := log[..|log| - 1];
      assert (picks + [p])[..|picks|] == picks;
      ShownPicked(before, picks, p);
    }
  }

  // The window's status is the last one named, unless an answer found another status in the box.
  lemma {:induction false} ShownOrWrong(log: seq<Frame>, picks: seq<Choosing>)
    requires NoStrayNotice(log)
    ensures Shown(log, picks) == (if LastName(log).Some? then LastName(log).value else FIRST_VIEW.current) <==>
        !Wrong(log, picks)
    decreases |log|
  {
    if log != [] {
      var before, last := log[..|log| - 1], log[|log| - 1];
      assert last.Response? ==> last.code != OK_REGISTER;
      ShownOrWrong(before, picks);
    }
  }

  lemma {:induction false} LastNameAppend(a: seq<Frame>, b: seq<Frame>)
    ensures LastName(a + b) == if LastName(b).Some? then LastName(b) else LastName(a)
    decreases |b|
  {
    if b == [] {
      assert a + b == a;
    } else {
      assert (a + b)[..|a + b| - 1] == a + b[..|b| - 1];
      LastNameAppend(a, b[..|b| - 1]);
    }
  }

  // ---------- what the server sends ----------

  lemma {:induction false} ToMeNames(outs: seq<Out>, me: int)
    ensures LastName(ToMe(outs, me)) == H.LastStatus(outs, me)
    decreases |outs|
  {
    if outs != [] {
      ToMeNames(outs[..|outs| - 1], me);
      var init := ToMe(outs[..|outs| - 1], me);
      if outs[|outs| - 1].fd == me {
        assert ToMe(outs, me)[..|init|] == init;
      } else {
        assert ToMe(outs, me) == init;
      }
    }
  }

  lemma {:induction false} ToMeFrames(outs: seq<Out>, me: int)
    ensures forall i | 0 <= i < |ToMe(outs, me)| :: Out(me, ToMe(outs, me)[i]) in outs
    decreases |outs|
  {
    if outs != [] {
      ToMeFrames(outs[..|outs| - 1], me);
    }
  }

  // The server answers a status request of this client with one 201, and sends it no other.
  predicate AnswersMe(e: Event, me: int) {
    e.Arrive? && e.fd == me && e.rq.ChangeStatus?
  }

  predicate NoAnswer(fs: seq<Frame>) {
    forall i | 0 <= i < |fs| :: !IsAnswer(fs[i])
  }

  ghost predicate FairTo(outs: seq<Out>, me: int, answers: bool) {
    && (forall o | o in outs && o.fd == me :: NoStrayNotice([o.frame]))
    && (!answers ==> forall o | o in outs && o.fd == me :: !IsAnswer(o.frame))
  }

  lemma MyRequestFair(sv: Server, me: int, rq: Request, now: int, order: seq<int>, rows: seq<Row>)
    requires me in sv.sessions
    ensures FairTo(Handle(sv, me, "", rq, now, order, rows).1, me, rq.ChangeStatus?)
  {}

  lemma OtherRequestFair(sv: Server, me: int, fd: int, ip: string, rq: Request, now: int, order: seq<int>,
                         rows: seq<Row>)
    requires me in sv.sessions && fd != me
    ensures FairTo(Handle(sv, fd, ip, rq, now, order, rows).1, me, false)
  {}

  lemma OutsToMe(sv: Server, timeout: int, e: Event, me: int)
    requires me in sv.sessions
    ensures FairTo(Apply(sv, timeout, e).1, me, AnswersMe(e, me))
  {
    match e
    case Arrive(fd, ip, rq, now, order, rows) =>
      if fd == me {
        MyRequestFair(sv, me, rq, now, order, rows);
      } else {
        OtherRequestFair(sv, me, fd, ip, rq, now, order, rows);
      }
    case _ =>
  }

  lemma ServerFrames(sv: Server, timeout: int, e: Event, me: int)
    requires me in sv.sessions
    ensures var fs := ToMe(Apply(sv, timeout, e).1, me);
            NoStrayNotice(fs) && (!AnswersMe(e, me) ==> NoAnswer(fs))
  {
    var outs := Apply(sv, timeout, e).1;
    var fs := ToMe(outs, me);
    ToMeFrames(outs, me);
    OutsToMe(sv, timeout, e, me);
    forall i | 0 <= i < |fs|
      ensures NoStrayNotice([fs[i]]) && (!AnswersMe(e, me) ==> !IsAnswer(fs[i]))
    {
      assert Out(me, fs[i]) in outs;
    }
    forall i | 0 <= i < |fs|
      ensures [fs[i]][0] == fs[i]
    {}
  }

  lemma EventStatus(sv: Server, timeout: int, e: Event, me: int)
    requires me in sv.sessions && Legal(sv, timeout, e) && me in Apply(sv, timeout, e).0.sessions
    ensures var name := LastName(ToMe(Apply(sv, timeout, e).1, me));
            Apply(sv, timeout, e).0.sessions[me].status == if name.Some? then name.value else sv.sessions[me].status
  {
    H.StepTold(sv, timeout, e, me);
    ToMeNames(Apply(sv, timeout, e).1, me);
  }

  lemma AnswerFrames(sv: Server, timeout: int, e: Event, me: int, v: Status)
    requires me in sv.sessions && AnswersMe(e, me) && Chosen(e.rq) == Some(v)
    ensures ToMe(Apply(sv, timeout, e).1, me) == [Response(OK_STATUS_CHANGED, Some(v))]
  {
    var outs := Apply(sv, timeout, e).1;
    assert outs == [Out(me, Response(OK_STATUS_CHANGED, Some(v)))];
    assert ToMe(outs[..0], me) == [];
  }

  // ---------- the invariant ----------

  function Chosen(rq: Request): Option<Status> {
    match rq
    case ChangeStatus(Some(n)) => StatusOf(n)
    case _ => None
  }

  predicate NoAsk(up: seq<Request>) {
    forall i | 0 <= i < |up| :: !up[i].ChangeStatus?
  }

  // The window is what the frames delivered and the picks made of it; the server's status is the last one it
  // named; and while box and status of the window differ, an answer is due.
  ghost predicate Mirrors(s: Link, me: int) {
    && s.delivered <= |s.log| && MadeBy(s.picks, s.delivered) && NoStrayNotice(s.log)
    && (forall i | 0 <= i < |s.up| :: Plain(s.up[i]) || Chosen(s.up[i]).Some?)
    && s.view == View(Shown(s.log[..s.delivered], s.picks), Box(s.log[..s.delivered], s.picks))
    && me in s.sv.sessions
    && s.sv.sessions[me].status == (if LastName(s.log).Some? then LastName(s.log).value else FIRST_VIEW.current)
    && (s.view.combo == s.view.current || !NoAsk(s.up) || !NoAnswer(s.log[s.delivered..]))
  }

  lemma DeliverKeeps(timeout: int, me: int, s: Link)
    requires Mirrors(s, me) && Can(timeout, me, s, Deliver)
    ensures Mirrors(Do(timeout, me, s, Deliver), me)
  {
    var d := s.delivered;
    var s' := Do(timeout, me, s, Deliver);
    OneMoreFrame(s.log[..d], s.log[d], s.picks);
    assert s.log[..d + 1] == s.log[..d] + [s.log[d]];
    if s'.view.combo != s'.view.current {
      assert s.log[d..] == [s.log[d]] + s.log[d + 1..];
      DueAfterDelivery(s.up, s.log[d], s.log[d + 1..]);
    }
  }

  // Requests added behind, or an unrelated frame taken away, leave a due answer due.
  lemma StillDue(up: seq<Request>, more: seq<Request>)
    requires !NoAsk(up)
    ensures !NoAsk(up + more)
  {
    var i :| 0 <= i < |up| && up[i].ChangeStatus?;
    assert (up + more)[i] == up[i];
  }

  // Delivering a frame that is no answer leaves a due answer due.
  lemma DueAfterDelivery(up: seq<Request>, f: Frame, rest: seq<Frame>)
    requires !NoAsk(up) || !NoAnswer([f] + rest)
    requires !IsAnswer(f)
    ensures !NoAsk(up + Listed(React(f))) || !NoAnswer(rest)
  {
    if !NoAsk(up) {
      StillDue(up, Listed(React(f)));
    } else {
      var i :| 0 <= i < |[f] + rest| && IsAnswer(([f] + rest)[i]);
      assert rest[i - 1] == ([f] + rest)[i];
    }
  }

  lemma AskKeeps(timeout: int, me: int, s: Link, rq: Request)
    requires Mirrors(s, me) && Can(timeout, me, s, Ask(rq))
    ensures Mirrors(Do(timeout, me, s, Ask(rq)), me)
  {
    if !NoAsk(s.up) {
      StillDue(s.up, [rq]);
    }
  }

  lemma PickKeeps(timeout: int, me: int, s: Link, v: Status)
    requires Mirrors(s, me)
    ensures Mirrors(Do(timeout, me, s, Pick(v)), me)
  {
    var s' := Do(timeout, me, s, Pick(v));
    var r := Choose(s.view, v).1;
    if v != s.view.combo {
      ShownPicked(s.log[..s.delivered], s.picks, Choosing(s.delivered, v));
      if r.Some? {
        assert s'.up[|s.up|] == r.value;
      }
    } else {
      assert s'.up == s.up;
    }
  }

  lemma EventFrames(timeout: int, me: int, s: Link, e: Event)
    requires Mirrors(s, me) && Can(timeout, me, s, Happens(e))
    ensures var s' := Do(timeout, me, s, Happens(e));
            && NoStrayNotice(s'.log) && me in s'.sv.sessions
            && s'.sv.sessions[me].status == (if LastName(s'.log).Some? then LastName(s'.log).value
                else FIRST_VIEW.current)
  {
    var fs := ToMe(Apply(s.sv, timeout, e).1, me);
    ServerFrames(s.sv, timeout, e, me);
    EventStatus(s.sv, timeout, e, me);
    LastNameAppend(s.log, fs);
  }

  // A status request is answered, or is still on its way.
  lemma EventDue(timeout: int, me: int, s: Link, e: Event)
    requires Mirrors(s, me) && Can(timeout, me, s, Happens(e))
    requires !NoAsk(s.up) || !NoAnswer(s.log[s.delivered..])
    ensures var s' := Do(timeout, me, s, Happens(e)); !NoAsk(s'.up) || !NoAnswer(s'.log[s.delivered..])
  {
    var s' := Do(timeout, me, s, Happens(e));
    var fs := ToMe(Apply(s.sv, timeout, e).1, me);
    var coming := s.log[s.delivered..];
    assert s'.log[s.delivered..] == coming + fs;
    if AnswersMe(e, me) {
      AnswerFrames(s.sv, timeout, e, me, Chosen(e.rq).value);
      assert IsAnswer((coming + fs)[|coming|]);
    } else if !NoAnswer(coming) {
      var i :| 0 <= i < |coming| && IsAnswer(coming[i]);
      assert (coming + fs)[i] == coming[i];
    } else {
      var i :| 0 <= i < |s.up| && s.up[i].ChangeStatus?;
      assert if s'.up == s.up then s'.up[i].ChangeStatus? else s'.up[i - 1].ChangeStatus?;
    }
  }

  lemma EventKeeps(timeout: int, me: int, s: Link, e: Event)
    requires Mirrors(s, me) && Can(timeout, me, s, Happens(e))
    ensures Mirrors(Do(timeout, me, s, Happens(e)), me)
  {
    var s' := Do(timeout, me, s, Happens(e));
    EventFrames(timeout, me, s, e);
    if s.view.combo != s.view.current {
      EventDue(timeout, me, s, e);
    }
    assert s'.log[..s.delivered] == s.log[..s.delivered];
  }

  lemma ActKeeps(timeout: int, me: int, s: Link, a: Act)
    requires Mirrors(s, me) && Can(timeout, me, s, a)
    ensures Mirrors(Do(timeout, me, s, a), me)
  {
    match a
    case Happens(e) => EventKeeps(timeout, me, s, e);
    case Deliver => DeliverKeeps(timeout, me, s);
    case Pick(v) => PickKeeps(timeout, me, s, v);
    case Ask(rq) => AskKeeps(timeout, me, s, rq);
  }

  lemma {:induction false} RunKeeps(timeout: int, me: int, s: Link, acts: seq<Act>, end: Link)
    requires Mirrors(s, me) && IsRun(timeout, me, s, acts, end)
    ensures Mirrors(end, me)
    decreases |acts|
  {
    if acts != [] {
      ActKeeps(timeout, me, s, acts[0]);
      RunKeeps(timeout, me, Do(timeout, me, s, acts[0]), acts[1..], end);
    }
  }

  // At every moment of every run, applying the frames still on their way to the window gives the server's status,
  // unless the last frame that names a status is an answer that finds another one in the box; and then it does not.
  lemma ShowsServerStatusExactly(timeout: int, me: int, s: Link, acts: seq<Act>, end: Link)
    requires Opens(s, me) && IsRun(timeout, me, s, acts, end)
    ensures end.delivered <= |end.log| && me in end.sv.sessions
    ensures Predicted(end).current == end.sv.sessions[me].status <==> !Wrong(end.log, end.picks)
  {
    RunKeeps(timeout, me, s, acts, end);
    AheadShown(end.log, end.picks, end.delivered);
    ShownOrWrong(end.log, end.picks);
  }

  // At rest box and status of the window always agree; they agree with the server under the same condition.
  lemma AgreesAtRest(timeout: int, me: int, s: Link, acts: seq<Act>, end: Link)
    requires Opens(s, me) && IsRun(timeout, me, s, acts, end)
    requires NoAsk(end.up) && end.delivered == |end.log|
    ensures end.view.combo == end.view.current && me in end.sv.sessions
    ensures end.view.current == end.sv.sessions[me].status <==> !Wrong(end.log, end.picks)
  {
    RunKeeps(timeout, me, s, acts, end);
    assert end.log[..end.delivered] == end.log;
    ShownOrWrong(end.log, end.picks);
  }

  // ---------- a user who waits ----------

  // The user waits for the answer to a status request before picking again.
  ghost predicate Patient(s: Link, a: Act) {
    a.Pick? ==> NoAsk(s.up) && s.delivered <= |s.log| && NoAnswer(s.log[s.delivered..])
  }

  ghost predicate IsPatientRun(timeout: int, me: int, s: Link, acts: seq<Act>, end: Link)
    decreases |acts|
  {
    if acts == [] then s == end
    else Can(timeout, me, s, acts[0]) && Patient(s, acts[0]) &&
         IsPatientRun(timeout, me, Do(timeout, me, s, acts[0]), acts[1..], end)
  }

  // Every answer, given or due, is to the last pick made before it.
  ghost predicate Paired(s: Link) {
    && (forall k | 0 <= k < |s.log| && IsAnswer(s.log[k]) ::
          var p := Upto(s.picks, k); p != [] && s.log[k].about == Some(p[|p| - 1].status))
    && (forall i | 0 <= i < |s.up| && s.up[i].ChangeStatus? ::
          s.picks != [] && Chosen(s.up[i]) == Some(s.picks[|s.picks| - 1].status))
  }

  lemma {:induction false} UptoPicked(picks: seq<Choosing>, p: Choosing, n: nat)
    requires p.after > n
    ensures Upto(picks + [p], n) == Upto(picks, n)
  {
    assert (picks + [p])[..|picks|] == picks;
  }

  lemma PairedPick(timeout: int, me: int, s: Link, v: Status)
    requires Mirrors(s, me) && Paired(s) && Patient(s, Pick(v))
    ensures Paired(Do(timeout, me, s, Pick(v)))
  {
    var s' := Do(timeout, me, s, Pick(v));
    assert forall k | s.delivered <= k < |s.log| :: s.log[k] == s.log[s.delivered..][k - s.delivered];
    forall k | 0 <= k < |s.log| && IsAnswer(s.log[k])
      ensures Upto(s'.picks, k) == Upto(s.picks, k)
    {
      if s'.picks != s.picks {
        UptoPicked(s.picks, Choosing(s.delivered, v), k);
      }
    }
  }

  // Frames that are no answers, and requests taken from the front, leave the rest paired.
  lemma PairedMore(s: Link, s': Link, fs: seq<Frame>)
    requires Paired(s) && NoAnswer(fs) && s'.picks == s.picks && s'.log == s.log + fs
    requires forall i | 0 <= i < |s'.up| :: s'.up[i] in s.up
    ensures Paired(s')
  {
    assert forall k | |s.log| <= k < |s'.log| :: s'.log[k] == fs[k - |s.log|];
    assert forall k | 0 <= k < |s'.log| && IsAnswer(s'.log[k]) :: k < |s.log| && s'.log[k] == s.log[k];
  }

  lemma PairedAnswer(s: Link, s': Link, v: Status)
    requires Paired(s) && s.delivered <= |s.log| && MadeBy(s.picks, s.delivered)
    requires s.up != [] && s.up[0].ChangeStatus? && Chosen(s.up[0]) == Some(v)
    requires s'.picks == s.picks && s'.up == s.up[1..] && s'.log == s.log + [Response(OK_STATUS_CHANGED, Some(v))]
    ensures Paired(s')
  {
    AllUpto(s.picks, |s.log|);
    forall k | 0 <= k < |s'.log| && IsAnswer(s'.log[k])
      ensures var p := Upto(s'.picks, k); p != [] && s'.log[k].about == Some(p[|p| - 1].status)
    {
      if k < |s.log| {
        assert s'.log[k] == s.log[k];
      }
    }
  }

  lemma PairedEvent(timeout: int, me: int, s: Link, e: Event)
    requires Mirrors(s, me) && Paired(s) && Can(timeout, me, s, Happens(e))
    ensures Paired(Do(timeout, me, s, Happens(e)))
  {
    var s' := Do(timeout, me, s, Happens(e));
    ServerFrames(s.sv, timeout, e, me);
    if AnswersMe(e, me) {
      AnswerFrames(s.sv, timeout, e, me, Chosen(e.rq).value);
      PairedAnswer(s, s', Chosen(e.rq).value);
    } else {
      PairedMore(s, s', ToMe(Apply(s.sv, timeout, e).1, me));
    }
  }

  lemma {:induction false} PatientRunPaired(timeout: int, me: int, s: Link, acts: seq<Act>, end: Link)
    requires Mirrors(s, me) && Paired(s) && IsPatientRun(timeout, me, s, acts, end)
    ensures Paired(end) && IsRun(timeout, me, s, acts, end)
    decreases |acts|
  {
    if acts != [] {
      ActKeeps(timeout, me, s, acts[0]);
      match acts[0] {
        case Happens(e) => PairedEvent(timeout, me, s, e);
        case Pick(v) => PairedPick(timeout, me, s, v);
        case _ =>
      }
      PatientRunPaired(timeout, me, Do(timeout, me, s, acts[0]), acts[1..], end);
    }
  }

  // The last status an automatic notice among these frames named.
  function LastSet(fs: seq<Frame>): Option<Status> {
    if fs == [] then None
    else if Sets(fs[|fs| - 1]).Some? then Sets(fs[|fs| - 1])
    else LastSet(fs[..|fs| - 1])
  }

  // Between the last pick and its answer, the last frame that names a status, an automatic notice named another.
  predicate Overwritten(log: seq<Frame>, picks: seq<Choosing>) {
    log != [] &&
    var before, last := log[..|log| - 1], log[|log| - 1];
    match H.Names(last)
    case Some(v) =>
      IsAnswer(last) &&
      var p := Upto(picks, |before|);
      p != [] && var o := LastSet(before[p[|p| - 1].after..]); o.Some? && o != Some(v)
    case None => Overwritten(before, picks)
  }

  // After a pick the box shows it until a notice sets something else.
  lemma {:induction false} BoxSincePick(log: seq<Frame>, picks: seq<Choosing>)
    requires picks != [] && picks[|picks| - 1].after <= |log|
    ensures var o := LastSet(log[picks[|picks| - 1].after..]);
            Box(log, picks) == if o.Some? then o.value else picks[|picks| - 1].status
    decreases |log|
  {
    var a := picks[|picks| - 1].after;
    if a < |log| {
      assert log[a..][..|log| - a - 1] == log[..|log| - 1][a..];
      BoxSincePick(log[..|log| - 1], picks);
    }
  }

  lemma {:induction false} WrongIsOverwritten(log: seq<Frame>, picks: seq<Choosing>)
    requires NoStrayNotice(log)
    requires forall k | 0 <= k < |log| && IsAnswer(log[k]) ::
               var p := Upto(picks, k); p != [] && log[k].about == Some(p[|p| - 1].status)
    ensures Wrong(log, picks) <==> Overwritten(log, picks)
    decreases |log|
  {
    if log != [] {
      var before, last := log[..|log| - 1], log[|log| - 1];
      if IsAnswer(last) {
        BoxSincePick(before, Upto(picks, |before|));
      } else {
        WrongIsOverwritten(before, picks);
      }
    }
  }

  // For a user who waits, the window goes wrong exactly by an automatic notice between a pick and its answer.
  lemma PatientUserSees(timeout: int, me: int, s: Link, acts: seq<Act>, end: Link)
    requires Opens(s, me) && IsPatientRun(timeout, me, s, acts, end)
    ensures end.delivered <= |end.log| && me in end.sv.sessions
    ensures Predicted(end).current == end.sv.sessions[me].status <==> !Overwritten(end.log, end.picks)
  {
    PatientRunPaired(timeout, me, s, acts, end);
    ShowsServerStatusExactly(timeout, me, s, acts, end);
    RunKeeps(timeout, me, s, acts, end);
    WrongIsOverwritten(end.log, end.picks);
  }
}
