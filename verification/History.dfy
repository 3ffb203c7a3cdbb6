/**
 Whole runs of the server with every handler and every scan as one atomic event: the status of a session is
 the last status its client was told of, its timestamp is its latest activity, and inactivity is noticed in time.
 */
module History {
  import opened Framing
  import opened Protocol
  import opened Handlers

  /** An event and the clock reading when it took effect. */
  datatype Timed = Timed(at: int, e: Event)

  function After(timeout: int, es: seq<Timed>): Server {
    if es == [] then START else Apply(After(timeout, es[..|es| - 1]), timeout, es[|es| - 1].e).0
  }

  // Every frame handed to a socket, oldest first.
  function Sent(timeout: int, es: seq<Timed>): seq<Out> {
    if es == [] then []
    else
      var init, last := es[..|es| - 1], es[|es| - 1];
      Sent(timeout, init) + Apply(After(timeout, init), timeout, last.e).1
  }

  ghost predicate IsRun(timeout: int, es: seq<Timed>) {
    es != [] ==>
      var init, last := es[..|es| - 1], es[|es| - 1];
      IsRun(timeout, init) && Legal(After(timeout, init), timeout, last.e)
  }

  lemma RunMore(timeout: int, es: seq<Timed>, t: Timed)
    requires IsRun(timeout, es) && Legal(After(timeout, es), timeout, t.e)
    ensures IsRun(timeout, es + [t])
    ensures After(timeout, es + [t]) == Apply(After(timeout, es), timeout, t.e).0
    ensures Sent(timeout, es + [t]) == Sent(timeout, es) + Apply(After(timeout, es), timeout, t.e).1
  {
    assert (es + [t])[..|es + [t]| - 1] == es;
  }

  lemma {:induction false} RunValid(timeout: int, es: seq<Timed>)
    requires IsRun(timeout, es)
    ensures Valid(After(timeout, es))
  {
    if es != [] {
      RunValid(timeout, es[..|es| - 1]);
      ApplyKeepsValid(After(timeout, es[..|es| - 1]), timeout, es[|es| - 1].e);
    }
  }

  // ---------- what a client was last told ----------

  // The status a frame tells its receiver to be in.
  function Names(f: Frame): Option<Status> {
    if f == Reply(OK_REGISTER) || f == Reply(STATUS_RESTORED) then Some(ACTIVE)
    else if f == Reply(AUTO_INACTIVE) then Some(INVISIBLE)
    else if f.Response? && f.code == OK_STATUS_CHANGED then f.about
    else None
  }

  function LastStatus(outs: seq<Out>, fd: int): Option<Status> {
    if outs == [] then None
    else
      var last := outs[|outs| - 1];
      if last.fd == fd && Names(last.frame).Some? then Names(last.frame) else LastStatus(outs[..|outs| - 1], fd)
  }

  lemma {:induction false} LastStatusAppend(a: seq<Out>, b: seq<Out>, fd: int)
    ensures LastStatus(a + b, fd) == if LastStatus(b, fd).Some? then LastStatus(b, fd) else LastStatus(a, fd)
    decreases |b|
  {
    if b == [] {
      assert a + b == a;
    } else {
      assert (a + b)[..|a + b| - 1] == a + b[..|b| - 1];
      LastStatusAppend(a, b[..|b| - 1], fd);
    }
  }

  lemma {:induction false} LastStatusToAll(order: seq<int>, f: Frame, fd: int)
    ensures LastStatus(ToAll(order, f), fd) == if fd in order then Names(f) else None
    decreases |order|
  {
    if order != [] {
      var init, last := order[..|order| - 1], order[|order| - 1];
      assert ToAll(order, f)[..|order| - 1] == ToAll(init, f);
      assert order == init + [last];
      LastStatusToAll(init, f, fd);
    }
  }

  // A step's notices account for its effect on a session's status.
  ghost predicate Told(sv: Server, sv': Server, outs: seq<Out>, fd: int) {
    fd in sv'.sessions ==>
      match LastStatus(outs, fd)
      case Some(v) => sv'.sessions[fd].status == v
      case None => fd in sv.sessions && sv'.sessions[fd].status == sv.sessions[fd].status
  }

  lemma LastStatusOne(o: Out, fd: int)
    ensures LastStatus([o], fd) == if o.fd == fd then Names(o.frame) else None
  {}

  // A request's notices account for both status fields.
  ghost predicate ToldBoth(sv: Server, sv': Server, outs: seq<Out>, fd: int) {
    fd in sv'.sessions ==>
      var b := sv'.sessions[fd];
      match LastStatus(outs, fd)
      case Some(v) => b.status == v && b.manual == v
      case None => fd in sv.sessions && b.status == sv.sessions[fd].status && b.manual == sv.sessions[fd].manual
  }

  lemma RestoreTold(sv: Server, fd: int, now: int, rest: seq<Out>, g: int)
    requires fd in sv.sessions && LastStatus(rest, g) == None
    ensures ToldBoth(sv, Update(sv, fd, Restore(sv.sessions[fd], now)), RestoreOuts(sv.sessions[fd], fd) + rest, g)
  {
    LastStatusAppend(RestoreOuts(sv.sessions[fd], fd), rest, g);
    LastStatusOne(Out(fd, Reply(STATUS_RESTORED)), g);
  }

  lemma RegisteredTold(sv: Server, fd: int, rq: Request, now: int, order: seq<int>, rows: seq<Row>, g: int)
    requires fd in sv.sessions && !rq.Register? && !rq.Quit? && !rq.Unknown?
    ensures var r := Handle(sv, fd, "", rq, now, order, rows); ToldBoth(sv, r.0, r.1, g)
  {
    var a := sv.sessions[fd];
    match rq
    case MessageGeneral(Some(text)) =>
      LastStatusToAll(order, BroadcastDelivery(text, a.name), g);
      RestoreTold(sv, fd, now, ToAll(order, BroadcastDelivery(text, a.name)), g);
    case MessageDm(Some(dm)) =>
      var rest := match Find(sv, dm.0)
        case Some(d) => [Out(d, ForDm(a.name, dm.1)), Out(fd, Reply(OK_DM_SENT))]
        case None => [Out(fd, Reply(USER_NOT_FOUND))];
      if rest[..|rest| - 1] != [] {
        LastStatusOne(rest[0], g);
        assert rest[..|rest| - 1] == [rest[0]];
      }
      assert LastStatus(rest, g) == None;
      RestoreTold(sv, fd, now, rest, g);
    case _ =>
  }

  lemma RequestTold(sv: Server, fd: int, ip: string, rq: Request, now: int, order: seq<int>, rows: seq<Row>, g: int)
    ensures var r := Handle(sv, fd, ip, rq, now, order, rows); ToldBoth(sv, r.0, r.1, g)
  {
    if fd in sv.sessions && !rq.Register? && !rq.Quit? && !rq.Unknown? {
      RegisteredTold(sv, fd, rq, now, order, rows, g);
    }
  }

  lemma StepTold(sv: Server, timeout: int, e: Event, g: int)
    requires Legal(sv, timeout, e)
    ensures var r := Apply(sv, timeout, e); Told(sv, r.0, r.1, g)
  {
    match e
    case Tick(now, order) => LastStatusToAll(order, Reply(AUTO_INACTIVE), g);
    case HangUp(_) =>
    case Arrive(fd, ip, rq, now, order, rows) => RequestTold(sv, fd, ip, rq, now, order, rows, g);
  }

  // The status of a session is a fold of the notices sent to its connection.
  lemma {:induction false} StatusIsLastNotice(timeout: int, es: seq<Timed>, fd: int)
    requires IsRun(timeout, es) && fd in After(timeout, es).sessions
    ensures LastStatus(Sent(timeout, es), fd) == Some(After(timeout, es).sessions[fd].status)
    decreases |es|
  {
    var init, last := es[..|es| - 1], es[|es| - 1];
    var sv := After(timeout, init);
    StepTold(sv, timeout, last.e, fd);
    LastStatusAppend(Sent(timeout, init), Apply(sv, timeout, last.e).1, fd);
    if fd in sv.sessions {
      StatusIsLastNotice(timeout, init, fd);
    }
  }

  // ---------- the last deliberate status ----------

  // The status a frame confirms as the user's own choice: everything but the automatic 602.
  function Choice(f: Frame): Option<Status> {
    if f == Reply(AUTO_INACTIVE) then None else Names(f)
  }

  function LastChoice(outs: seq<Out>, fd: int): Option<Status> {
    if outs == [] then None
    else
      var last := outs[|outs| - 1];
      if last.fd == fd && Choice(last.frame).Some? then Choice(last.frame) else LastChoice(outs[..|outs| - 1], fd)
  }

  lemma {:induction false} LastChoiceAppend(a: seq<Out>, b: seq<Out>, fd: int)
    ensures LastChoice(a + b, fd) == if LastChoice(b, fd).Some? then LastChoice(b, fd) else LastChoice(a, fd)
    decreases |b|
  {
    if b == [] {
      assert a + b == a;
    } else {
      assert (a + b)[..|a + b| - 1] == a + b[..|b| - 1];
      LastChoiceAppend(a, b[..|b| - 1], fd);
    }
  }

  // Without an automatic notice among them, frames confirm what they name.
  lemma {:induction false} ChoiceIsStatus(outs: seq<Out>, fd: int)
    requires forall i | 0 <= i < |outs| :: outs[i].frame != Reply(AUTO_INACTIVE)
    ensures LastChoice(outs, fd) == LastStatus(outs, fd)
    decreases |outs|
  {
    if outs != [] {
      ChoiceIsStatus(outs[..|outs| - 1], fd);
    }
  }

  lemma {:induction false} NoticesAreNoChoice(order: seq<int>, fd: int)
    ensures LastChoice(ToAll(order, Reply(AUTO_INACTIVE)), fd) == None
    decreases |order|
  {
    if order != [] {
      var outs := ToAll(order, Reply(AUTO_INACTIVE));
      assert outs[..|outs| - 1] == ToAll(order[..|order| - 1], Reply(AUTO_INACTIVE));
      NoticesAreNoChoice(order[..|order| - 1], fd);
    }
  }

  // No request makes the server send an automatic notice.
  lemma RequestsAreAnswered(sv: Server, fd: int, ip: string, rq: Request, now: int, order: seq<int>, rows: seq<Row>)
    ensures forall o | o in Handle(sv, fd, ip, rq, now, order, rows).1 :: o.frame != Reply(AUTO_INACTIVE)
  {}

  ghost predicate ToldChoice(sv: Server, sv': Server, outs: seq<Out>, fd: int) {
    fd in sv'.sessions ==>
      match LastChoice(outs, fd)
      case Some(v) => sv'.sessions[fd].manual == v
      case None => fd in sv.sessions && sv'.sessions[fd].manual == sv.sessions[fd].manual
  }

  predicate TwoFields(a: Account) {
    a.status == a.manual || a.status == INVISIBLE
  }

  lemma StepChoice(sv: Server, timeout: int, e: Event, fd: int)
    requires Legal(sv, timeout, e) && fd in Apply(sv, timeout, e).0.sessions
    requires fd in sv.sessions ==> TwoFields(sv.sessions[fd])
    ensures ToldChoice(sv, Apply(sv, timeout, e).0, Apply(sv, timeout, e).1, fd)
    ensures TwoFields(Apply(sv, timeout, e).0.sessions[fd])
  {
    match e
    case Arrive(c, ip, rq, now, order, rows) =>
      RequestTold(sv, c, ip, rq, now, order, rows, fd);
      RequestsAreAnswered(sv, c, ip, rq, now, order, rows);
      ChoiceIsStatus(Apply(sv, timeout, e).1, fd);
    case HangUp(_) =>
    case Tick(now, order) => NoticesAreNoChoice(order, fd);
  }

  // Over any run a session's manual status is the last status its user chose or got back, whatever the watchdog
  // did since; its status is that one or INVISIBLE.
  lemma {:induction false} ManualIsLastChoice(timeout: int, es: seq<Timed>, fd: int)
    requires IsRun(timeout, es) && fd in After(timeout, es).sessions
    ensures var a := After(timeout, es).sessions[fd];
            LastChoice(Sent(timeout, es), fd) == Some(a.manual) && TwoFields(a)
    decreases |es|
  {
    var init, last := es[..|es| - 1], es[|es| - 1];
    var sv := After(timeout, init);
    if fd in sv.sessions {
      ManualIsLastChoice(timeout, init, fd);
    }
    StepChoice(sv, timeout, last.e, fd);
    LastChoiceAppend(Sent(timeout, init), Apply(sv, timeout, last.e).1, fd);
  }

  // ---------- what counts as activity ----------

  // The requests that count as activity of the connection, given what is registered.
  predicate IsActivity(sv: Server, e: Event, fd: int) {
    e.Arrive? && e.fd == fd &&
    match e.rq
    case Register(Some(name)) => name != "" && fd !in sv.sessions && name !in sv.names && e.ip !in sv.ips
    case ChangeStatus(Some(v)) => fd in sv.sessions && StatusOf(v).Some?
    case MessageGeneral(Some(_)) => fd in sv.sessions
    case MessageDm(Some(_)) => fd in sv.sessions
    case ListUsers(true) => fd in sv.sessions
    case GetUserInfo(Some(_)) => fd in sv.sessions
    case _ => false
  }

  function LatestActivity(timeout: int, es: seq<Timed>, fd: int): int {
    if es == [] then 0
    else
      var init, last := es[..|es| - 1], es[|es| - 1];
      if IsActivity(After(timeout, init), last.e, fd) then last.e.now else LatestActivity(timeout, init, fd)
  }

  ghost predicate Stamped(sv: Server, sv': Server, active: bool, now: int, fd: int) {
    fd in sv'.sessions ==>
      if active then sv'.sessions[fd].last == now
      else fd in sv.sessions && sv'.sessions[fd].last == sv.sessions[fd].last
  }

  lemma ArriveStamped(sv: Server, timeout: int, e: Event, fd: int)
    requires e.Arrive?
    ensures Stamped(sv, Apply(sv, timeout, e).0, IsActivity(sv, e, fd), e.now, fd)
  {}

  lemma ActivityStep(sv: Server, timeout: int, e: Event, fd: int)
    ensures Stamped(sv, Apply(sv, timeout, e).0, IsActivity(sv, e, fd), if e.Arrive? then e.now else 0, fd)
  {
    if e.Arrive? {
      ArriveStamped(sv, timeout, e, fd);
    }
  }

  lemma {:induction false} LastIsLatestActivity(timeout: int, es: seq<Timed>, fd: int)
    requires fd in After(timeout, es).sessions
    ensures After(timeout, es).sessions[fd].last == LatestActivity(timeout, es, fd)
    decreases |es|
  {
    var init, last := es[..|es| - 1], es[|es| - 1];
    ActivityStep(After(timeout, init), timeout, last.e, fd);
    if !IsActivity(After(timeout, init), last.e, fd) {
      LastIsLatestActivity(timeout, init, fd);
    }
  }

  // ---------- what undoes an automatic INVISIBLE ----------

  predicate Restores(e: Event, fd: int) {
    e.Arrive? && e.fd == fd &&
    match e.rq
    case MessageGeneral(Some(_)) => true
    case MessageDm(Some(_)) => true
    case _ => false
  }

  ghost predicate Visible(sv: Server, fd: int) {
    fd in sv.sessions && sv.sessions[fd].status != INVISIBLE
  }

  lemma MessageRestores(sv: Server, timeout: int, e: Event, fd: int)
    requires fd in sv.sessions && NeedsRestore(sv.sessions[fd]) && Restores(e, fd)
    ensures Visible(Apply(sv, timeout, e).0, fd) && Out(fd, Reply(STATUS_RESTORED)) in Apply(sv, timeout, e).1
  {
    assert Apply(sv, timeout, e).1[0] == Out(fd, Reply(STATUS_RESTORED));
  }

  lemma OthersRestoreNothing(sv: Server, timeout: int, e: Event, fd: int)
    requires fd in sv.sessions && sv.sessions[fd].status == INVISIBLE && !(e.Arrive? && e.fd == fd)
    ensures !Visible(Apply(sv, timeout, e).0, fd)
  {}

  lemma OthersSendNoRestoration(sv: Server, timeout: int, e: Event, fd: int)
    requires fd in sv.sessions && !(e.Arrive? && e.fd == fd)
    ensures Out(fd, Reply(STATUS_RESTORED)) !in Apply(sv, timeout, e).1
  {}

  lemma OtherRequestsRestoreNothing(sv: Server, timeout: int, e: Event, fd: int)
    requires fd in sv.sessions && sv.sessions[fd].status == INVISIBLE && e.Arrive? && e.fd == fd && !Restores(e, fd)
    ensures Out(fd, Reply(STATUS_RESTORED)) !in Apply(sv, timeout, e).1
    ensures Visible(Apply(sv, timeout, e).0, fd) <==> e.rq in {ChangeStatus(Some(0)), ChangeStatus(Some(1))}
  {}

  // A session the watchdog made INVISIBLE becomes visible again by a message, with a 603, or by an explicit
  // choice of a visible status, and by nothing else.
  lemma RestoredExactly(sv: Server, timeout: int, e: Event, fd: int)
    requires fd in sv.sessions && NeedsRestore(sv.sessions[fd])
    ensures Visible(Apply(sv, timeout, e).0, fd) <==>
            Restores(e, fd) || (e.Arrive? && e.fd == fd && e.rq in {ChangeStatus(Some(0)), ChangeStatus(Some(1))})
    ensures Out(fd, Reply(STATUS_RESTORED)) in Apply(sv, timeout, e).1 <==> Restores(e, fd)
  {
    if Restores(e, fd) {
      MessageRestores(sv, timeout, e, fd);
    } else if e.Arrive? && e.fd == fd {
      OtherRequestsRestoreNothing(sv, timeout, e, fd);
    } else {
      OthersRestoreNothing(sv, timeout, e, fd);
      OthersSendNoRestoration(sv, timeout, e, fd);
    }
  }

  // ---------- timing ----------

  // The clock never runs backwards; a handler reads it when it takes effect, a scan at some earlier moment.
  ghost predicate Clocked(start: int, es: seq<Timed>) {
    && (forall i | 0 <= i < |es| :: start <= es[i].at && Reads(es[i]))
    && (forall i, j | 0 <= i < j < |es| :: es[i].at <= es[j].at)
  }

  predicate Reads(t: Timed) {
    match t.e
    case Arrive(_, _, _, now, _, _) => now == t.at
    case HangUp(_) => true
    case Tick(sampled, _) => sampled <= t.at
  }

  // The clock reading of the last finished scan; the watchdog's start before the first one.
  function LastSample(start: int, es: seq<Timed>): int {
    if es == [] then start
    else if es[|es| - 1].e.Tick? then es[|es| - 1].e.sampled
    else LastSample(start, es[..|es| - 1])
  }

  lemma {:induction false} SampleInPast(start: int, es: seq<Timed>, u: int)
    requires Clocked(start, es) && start <= u && forall i | 0 <= i < |es| :: es[i].at <= u
    ensures LastSample(start, es) <= u
    decreases |es|
  {
    if es != [] && !es[|es| - 1].e.Tick? {
      SampleInPast(start, es[..|es| - 1], u);
    } else if es != [] {
      assert Reads(es[|es| - 1]);
    }
  }

  // Truncation toward zero does not blur a limit of one second or more, whichever of the two readings is later.
  lemma WholeSecondsReach(ticks: int, timeout: int)
    requires timeout >= 1
    ensures WholeSeconds(ticks) >= timeout <==> ticks >= timeout * SECOND
  {}

  // A scan marks exactly the sessions whose client was not last told INVISIBLE and whose latest activity is at
  // least the limit before the sample: never sooner, also when the activity is later than the sample.
  lemma MarkedExactly(timeout: int, es: seq<Timed>, tick: Timed, fd: int)
    requires timeout >= 1 && tick.e.Tick? && IsRun(timeout, es + [tick])
    ensures fd in tick.e.order <==>
            && fd in After(timeout, es).sessions
            && LastStatus(Sent(timeout, es), fd) != Some(INVISIBLE)
            && tick.e.sampled - LatestActivity(timeout, es, fd) >= timeout * SECOND
  {
    assert (es + [tick])[..|es + [tick]| - 1] == es;
    if fd in After(timeout, es).sessions {
      StatusIsLastNotice(timeout, es, fd);
      LastIsLatestActivity(timeout, es, fd);
      WholeSecondsReach(tick.e.sampled - After(timeout, es).sessions[fd].last, timeout);
    }
  }

  // Sessions a finished scan left visible were active within the limit before its sample.
  ghost predicate Fresh(a: Account, sample: int, timeout: int) {
    a.status == INVISIBLE || sample - a.last < timeout * SECOND
  }

  lemma FreshStep(sv: Server, timeout: int, t: Timed, sample: int, fd: int)
    requires timeout >= 1 && Reads(t) && sample <= t.at && fd in Apply(sv, timeout, t.e).0.sessions
    requires fd in sv.sessions ==> Fresh(sv.sessions[fd], sample, timeout)
    ensures Fresh(Apply(sv, timeout, t.e).0.sessions[fd], if t.e.Tick? then t.e.sampled else sample, timeout)
  {
    if t.e.Tick? {
      WholeSecondsReach(t.e.sampled - sv.sessions[fd].last, timeout);
    }
  }

  lemma {:induction false} FreshInRun(timeout: int, start: int, es: seq<Timed>, fd: int)
    requires timeout >= 1 && IsRun(timeout, es) && Clocked(start, es) && fd in After(timeout, es).sessions
    ensures Fresh(After(timeout, es).sessions[fd], LastSample(start, es), timeout)
    decreases |es|
  {
    var init, last := es[..|es| - 1], es[|es| - 1];
    SampleInPast(start, init, last.at);
    if fd in After(timeout, init).sessions {
      FreshInRun(timeout, start, init, fd);
    }
    assert Reads(last);
    FreshStep(After(timeout, init), timeout, last, LastSample(start, init), fd);
  }

  // As long as the last finished scan read the clock at most `period` ago, a client that has not been told it
  // is INVISIBLE was active less than the limit plus `period` ago.
  lemma NoticedInTime(timeout: int, start: int, es: seq<Timed>, u: int, period: int, fd: int)
    requires timeout >= 1 && IsRun(timeout, es) && Clocked(start, es)
    requires fd in After(timeout, es).sessions && u - LastSample(start, es) <= period
    ensures LastStatus(Sent(timeout, es), fd) == Some(INVISIBLE) ||
            u - LatestActivity(timeout, es, fd) < timeout * SECOND + period
  {
    FreshInRun(timeout, start, es, fd);
    StatusIsLastNotice(timeout, es, fd);
    LastIsLatestActivity(timeout, es, fd);
  }
}
