/**
 Broadcasts. Every session of a broadcast's snapshot gets exactly one send_message call for it, and one
 sender's broadcasts reach each session in the order they were handled.
 */
module Casts {
  import opened Protocol
  import opened Steps
  import opened Locks
  import opened Owners
  import opened Sessions
  import opened Wire
  import opened Calls

  // ---------- one sender, seen from its own records ----------

  function FrameOf(r: CastRec): Frame {
    BroadcastDelivery(r.text, r.origin)
  }

  predicate NoCasts(todo: seq<Job>) {
    forall i | 0 <= i < |todo| :: !todo[i].tag.Cast?
  }

  predicate Sent(log: seq<Stamp>, k: nat) {
    exists i | 0 <= i < |log| :: log[i].tag == Cast(k)
  }

  predicate Queued(todo: seq<Job>, d: nat) {
    exists i | 0 <= i < |todo| :: todo[i].tag.Cast? && todo[i].to == d
  }

  // A queued broadcast belongs to the sender's latest one.
  predicate QueuedOk(j: Job, casts: seq<CastRec>) {
    j.tag.Cast? ==>
      && |casts| > 0 && j.tag.k == |casts| - 1 && j.frame == FrameOf(casts[|casts| - 1])
      && j.to in casts[|casts| - 1].targets
  }

  predicate SentOk(x: Stamp, d: nat, casts: seq<CastRec>) {
    x.tag.Cast? ==> x.tag.k < |casts| && x.frame == FrameOf(casts[x.tag.k]) && d in casts[x.tag.k].targets
  }

  ghost predicate TodoOk(todo: seq<Job>, casts: seq<CastRec>) {
    && (forall i | 0 <= i < |todo| :: QueuedOk(todo[i], casts))
    && (forall i, j | 0 <= i < j < |todo| && todo[i].tag.Cast? && todo[j].tag.Cast? :: todo[i].to != todo[j].to)
  }

  ghost predicate LogCasts(log: seq<Stamp>, d: nat, casts: seq<CastRec>) {
    && (forall i | 0 <= i < |log| :: SentOk(log[i], d, casts))
    && (forall i, j | 0 <= i < j < |log| && log[i].tag.Cast? && log[j].tag.Cast? :: log[i].tag.k < log[j].tag.k)
  }

  // Started or still queued, and never both.
  predicate Due(todo: seq<Job>, casts: seq<CastRec>, log: seq<Stamp>, k: nat, d: nat) {
    Sent(log, k) != (k == |casts| - 1 && Queued(todo, d))
  }

  ghost predicate CastView(todo: seq<Job>, casts: seq<CastRec>, logs: seq<seq<Stamp>>) {
    && TodoOk(todo, casts)
    && (forall d | 0 <= d < |logs| :: LogCasts(logs[d], d, casts))
    && (forall k | 0 <= k < |casts| ::
          forall d: nat | d in casts[k].targets :: d < |logs| && Due(todo, casts, logs[d], k, d))
  }

  // Sends without broadcasts come and go freely.
  lemma CastOther(todo: seq<Job>, todo': seq<Job>, casts: seq<CastRec>, logs: seq<seq<Stamp>>)
    requires CastView(todo, casts, logs) && NoCasts(todo) && NoCasts(todo')
    ensures CastView(todo', casts, logs)
  {
    forall k | 0 <= k < |casts|
      ensures forall d: nat | d in casts[k].targets :: d < |logs| && Due(todo', casts, logs[d], k, d)
    {
      forall d: nat | d in casts[k].targets ensures d < |logs| && Due(todo', casts, logs[d], k, d) {
        assert d < |logs| && Due(todo, casts, logs[d], k, d);
      }
    }
  }

  // A new snapshot queues one send per session.
  lemma CastStart(todo: seq<Job>, casts: seq<CastRec>, logs: seq<seq<Stamp>>, rec: CastRec)
    requires CastView(todo, casts, logs) && NoCasts(todo)
    requires forall i, j | 0 <= i < j < |rec.targets| :: rec.targets[i] != rec.targets[j]
    requires forall i | 0 <= i < |rec.targets| :: rec.targets[i] < |logs|
    ensures CastView(CastJobs(rec.targets, FrameOf(rec), |casts|), casts + [rec], logs)
  {
    var todo', casts' := CastJobs(rec.targets, FrameOf(rec), |casts|), casts + [rec];
    forall i | 0 <= i < |todo'| ensures QueuedOk(todo'[i], casts') {
      assert rec.targets[i] in rec.targets;
    }
    forall d | 0 <= d < |logs| ensures LogCasts(logs[d], d, casts') {
      assert LogCasts(logs[d], d, casts);
      forall i | 0 <= i < |logs[d]| ensures SentOk(logs[d][i], d, casts') {
        assert SentOk(logs[d][i], d, casts);
      }
    }
    forall k | 0 <= k < |casts'|
      ensures forall d: nat | d in casts'[k].targets :: d < |logs| && Due(todo', casts', logs[d], k, d)
    {
      forall d: nat | d in casts'[k].targets ensures d < |logs| && Due(todo', casts', logs[d], k, d) {
        if k < |casts| {
          assert d < |logs| && Due(todo, casts, logs[d], k, d);
        } else {
          var i :| 0 <= i < |rec.targets| && rec.targets[i] == d;
          assert todo'[i].tag.Cast? && todo'[i].to == d;
          NotYetSent(logs[d], d, casts);
        }
      }
    }
  }

  lemma NotYetSent(log: seq<Stamp>, d: nat, casts: seq<CastRec>)
    requires LogCasts(log, d, casts)
    ensures !Sent(log, |casts|)
  {}

  // Starting the first queued send moves it from the queue to its session's calls.
  lemma CastTake(todo: seq<Job>, casts: seq<CastRec>, logs: seq<seq<Stamp>>)
    requires CastView(todo, casts, logs) && todo != [] && todo[0].to < |logs|
    ensures var j := todo[0];
            CastView(todo[1..], casts, logs[j.to := logs[j.to] + [Stamp(j.frame, j.tag)]])
  {
    var j := todo[0];
    var rest := todo[1..];
    var log' := logs[j.to] + [Stamp(j.frame, j.tag)];
    var logs' := logs[j.to := log'];
    assert QueuedOk(j, casts);
    assert TodoOk(rest, casts) by {
      forall i | 0 <= i < |rest| ensures QueuedOk(rest[i], casts) { assert QueuedOk(todo[i + 1], casts); }
      forall a, b | 0 <= a < b < |rest| && rest[a].tag.Cast? && rest[b].tag.Cast? ensures rest[a].to != rest[b].to {
        assert todo[a + 1].to != todo[b + 1].to;
      }
    }
    TakeLogOk(todo, casts, logs[j.to]);
    forall d | 0 <= d < |logs'| ensures LogCasts(logs'[d], d, casts) {
      assert LogCasts(logs[d], d, casts);
    }
    forall k | 0 <= k < |casts|
      ensures forall d: nat | d in casts[k].targets :: d < |logs'| && Due(rest, casts, logs'[d], k, d)
    {
      forall d: nat | d in casts[k].targets ensures d < |logs'| && Due(rest, casts, logs'[d], k, d) {
        assert d < |logs| && Due(todo, casts, logs[d], k, d);
        TakeDue(todo, casts, logs[d], k, d);
      }
    }
  }

  lemma TakeLogOk(todo: seq<Job>, casts: seq<CastRec>, log: seq<Stamp>)
    requires todo != [] && TodoOk(todo, casts) && LogCasts(log, todo[0].to, casts)
    requires todo[0].tag.Cast? ==> Due(todo, casts, log, |casts| - 1, todo[0].to)
    ensures LogCasts(log + [Stamp(todo[0].frame, todo[0].tag)], todo[0].to, casts)
  {
    var j := todo[0];
    assert QueuedOk(j, casts);
    var log' := log + [Stamp(j.frame, j.tag)];
    forall i | 0 <= i < |log'| ensures SentOk(log'[i], j.to, casts) {
      if i < |log| { assert SentOk(log[i], j.to, casts); }
    }
    if j.tag.Cast? {
      assert Queued(todo, j.to);
      forall i | 0 <= i < |log| && log[i].tag.Cast? ensures log[i].tag.k < j.tag.k {
        assert SentOk(log[i], j.to, casts);
      }
    }
  }

  lemma TakeDue(todo: seq<Job>, casts: seq<CastRec>, log: seq<Stamp>, k: nat, d: nat)
    requires todo != [] && TodoOk(todo, casts) && k < |casts| && Due(todo, casts, log, k, d)
    ensures var j := todo[0];
            Due(todo[1..], casts, if d == j.to then log + [Stamp(j.frame, j.tag)] else log, k, d)
  {
    var j := todo[0];
    var rest := todo[1..];
    assert QueuedOk(j, casts);
    assert Queued(rest, d) ==> Queued(todo, d) by {
      if Queued(rest, d) {
        var i :| 0 <= i < |rest| && rest[i].tag.Cast? && rest[i].to == d;
        assert todo[i + 1] == rest[i];
      }
    }
    assert Queued(todo, d) ==> Queued(rest, d) || (j.tag.Cast? && j.to == d) by {
      if Queued(todo, d) {
        var i :| 0 <= i < |todo| && todo[i].tag.Cast? && todo[i].to == d;
        if i > 0 { assert rest[i - 1] == todo[i]; }
      }
    }
    if d == j.to {
      var log' := log + [Stamp(j.frame, j.tag)];
      assert log'[|log|].tag == j.tag;
      assert Sent(log', k) <==> Sent(log, k) || j.tag == Cast(k) by {
        if Sent(log, k) {
          var i :| 0 <= i < |log| && log[i].tag == Cast(k);
          assert log'[i].tag == Cast(k);
        }
      }
      if j.tag.Cast? {
        assert todo[0].tag.Cast? && todo[0].to == d;
        assert Queued(todo, d);
        assert !Queued(rest, d);
      }
    }
  }

  // A new connection has no calls.
  lemma CastWiden(todo: seq<Job>, casts: seq<CastRec>, logs: seq<seq<Stamp>>)
    requires CastView(todo, casts, logs)
    ensures CastView(todo, casts, logs + [[]])
  {
    var logs' := logs + [[]];
    forall d | 0 <= d < |logs'| ensures LogCasts(logs'[d], d, casts) {
      if d < |logs| { assert LogCasts(logs[d], d, casts); }
    }
    forall k | 0 <= k < |casts|
      ensures forall d: nat | d in casts[k].targets :: d < |logs'| && Due(todo, casts, logs'[d], k, d)
    {
      forall d: nat | d in casts[k].targets ensures d < |logs'| && Due(todo, casts, logs'[d], k, d) {
        assert d < |logs| && Due(todo, casts, logs[d], k, d);
      }
    }
  }

  // ---------- in the server ----------

  function LogsOf(s: State, t: Tid): (logs: seq<seq<Stamp>>)
    ensures |logs| == |s.socks|
    ensures forall d | 0 <= d < |logs| :: logs[d] == Issued(s.socks[d].log, t)
  {
    seq(|s.socks|, d requires 0 <= d < |s.socks| => Issued(s.socks[d].log, t))
  }

  // The sender's name is on its broadcasts, the sender is in its own snapshots, and so is every registered session.
  ghost predicate SignedBy(r: CastRec, e: Sess, c: nat) {
    e.made && r.origin == e.name && c in r.targets && forall d: nat :: d in r.targets <==> d in r.registered
  }

  ghost predicate Signed(casts: seq<CastRec>, e: Sess, c: nat) {
    forall k | 0 <= k < |casts| :: SignedBy(casts[k], e, c)
  }

  ghost predicate CastOk(s: State, c: nat)
    requires Domain(s) && c < |s.socks|
  {
    CastView(Todo(s.pcs[Handler(c)]), s.hist[c].casts, LogsOf(s, Handler(c))) && Signed(s.hist[c].casts, s.sess[c], c)
  }

  ghost predicate CastsOk(s: State) {
    Domain(s) && forall c | 0 <= c < |s.socks| :: CastOk(s, c)
  }

  // An event of another thread leaves a handler and its records alone.
  ghost predicate Untouched(s: State, s': State, c: nat)
    requires c < |s.hist|
  {
    && Handler(c) in s.pcs && Handler(c) in s'.pcs && s'.pcs[Handler(c)] == s.pcs[Handler(c)]
    && c < |s'.hist| && s'.hist[c].casts == s.hist[c].casts && s'.hist[c].dms == s.hist[c].dms
  }

  lemma SweepLeaves(s: State, act: SweepAct, c: nat)
    requires Ok(s) && CanSweep(s, act) && c < |s.socks|
    ensures Untouched(s, DoSweep(s, act), c)
  {
    assert PcFor(Watchdog, s.pcs[Watchdog], s.socks, s.hist);
  }

  lemma MoveLeaves(env: Env, s: State, e: Event, c: nat)
    requires Ok(s) && Can(env, s, e) && c < |s.socks| && (Actor(e) != Handler(c) || e.EvAccept?)
    requires !e.EvBody? && !e.EvSend? && !e.EvField? && !e.EvSweep?
    ensures Untouched(s, Do(env, s, e), c)
  {}

  lemma OthersLeave(env: Env, s: State, e: Event, c: nat)
    requires Ok(s) && Can(env, s, e) && c < |s.socks| && (Actor(e) != Handler(c) || e.EvAccept?)
    ensures Untouched(s, Do(env, s, e), c)
  {
    match e {
      case EvBody(t, order, rows) =>
        assert PcFor(t, s.pcs[t], s.socks, s.hist);
        SectionLeaves(s, t, s.pcs[t].sec, order, rows, c);
      case EvSend(t, act) => SendLeaves(env, s, t, act, c);
      case EvField(t) => FieldLeaves(s, t, c);
      case EvSweep(act) => SweepLeaves(s, act, c);
      case _ => MoveLeaves(env, s, e, c);
    }
  }

  lemma SectionLeaves(s: State, t: Tid, sec: Section, order: seq<nat>, rows: seq<(string, Status)>, c: nat)
    requires Domain(s) && t in s.pcs && s.pcs[t].Inside? && SectionFor(t, sec, |s.socks|)
    requires (t.Handler? ==> t.c < |s.socks|)
    requires c < |s.socks| && t != Handler(c)
    ensures Untouched(s, Body(s, t, sec, order, rows), c)
  {
    match sec {
      case Enrol(_) =>
      case Fetch(_) =>
      case Gather(_, _) =>
      case Seek(_, _, _) =>
      case Roll(_) =>
      case Inspect(_, _) =>
      case Scan =>
      case Leave =>
    }
  }

  lemma SendLeaves(env: Env, s: State, t: Tid, act: SendAct, c: nat)
    requires Ok(s) && CanSend(env, s, t, act) && c < |s.socks| && t != Handler(c)
    ensures Untouched(s, DoSend(env, s, t, act), c)
  {
    assert PcFor(t, s.pcs[t], s.socks, s.hist);
  }

  lemma FieldLeaves(s: State, t: Tid, c: nat)
    requires Ok(s) && t in s.pcs && FieldPc(s.pcs[t]) && c < |s.socks| && t != Handler(c)
    ensures Untouched(s, Field(s, t), c)
  {
    assert PcFor(t, s.pcs[t], s.socks, s.hist);
  }

  // An event of the handler itself, other than a snapshot or the start of a send.
  ghost predicate NoNewCast(s: State, s': State, c: nat)
    requires c < |s.hist|
  {
    && Handler(c) in s.pcs && Handler(c) in s'.pcs && c < |s'.hist| && s'.hist[c].casts == s.hist[c].casts
    && (Todo(s'.pcs[Handler(c)]) == Todo(s.pcs[Handler(c)])
        || (NoCasts(Todo(s.pcs[Handler(c)])) && NoCasts(Todo(s'.pcs[Handler(c)]))))
  }

  lemma SectionCasts(s: State, c: nat, sec: Section, order: seq<nat>, rows: seq<(string, Status)>)
    requires Domain(s) && c < |s.socks| && s.pcs[Handler(c)].Inside? && SectionFor(Handler(c), sec, |s.socks|)
    requires !sec.Gather?
    ensures NoNewCast(s, Body(s, Handler(c), sec, order, rows), c)
  {
    match sec {
      case Enrol(_) =>
      case Fetch(_) =>
      case Seek(_, _, _) =>
      case Roll(_) =>
      case Inspect(_, _) =>
      case Scan =>
      case Leave =>
    }
  }

  lemma FieldCasts(s: State, c: nat)
    requires Ok(s) && c < |s.socks| && FieldPc(s.pcs[Handler(c)])
    ensures NoNewCast(s, Field(s, Handler(c)), c)
  {
    assert PcFor(Handler(c), s.pcs[Handler(c)], s.socks, s.hist);
  }

  lemma SendCasts(env: Env, s: State, c: nat, act: SendAct)
    requires Ok(s) && c < |s.socks| && CanSend(env, s, Handler(c), act) && !act.TakeLock?
    ensures NoNewCast(s, DoSend(env, s, Handler(c), act), c)
  {
    assert PcFor(Handler(c), s.pcs[Handler(c)], s.socks, s.hist);
  }

  lemma OwnCasts(env: Env, s: State, e: Event, c: nat)
    requires Ok(s) && Can(env, s, e) && c < |s.socks| && Actor(e) == Handler(c)
    requires !(e.EvSend? && e.act.TakeLock?) && !(e.EvBody? && s.pcs[e.t].sec.Gather?)
    ensures NoNewCast(s, Do(env, s, e), c)
  {
    match e {
      case EvBody(t, order, rows) =>
        assert PcFor(t, s.pcs[t], s.socks, s.hist);
        SectionCasts(s, c, s.pcs[t].sec, order, rows);
      case EvSend(t, act) => SendCasts(env, s, c, act);
      case EvField(t) => FieldCasts(s, c);
      case _ =>
    }
  }

  // A session keeps its name for good.
  lemma NameStays(env: Env, s: State, e: Event, c: nat)
    requires Ok(s) && LivesOk(s) && Can(env, s, e) && c < |s.socks| && s.sess[c].made
    ensures c < |Do(env, s, e).sess| && Do(env, s, e).sess[c].made && Do(env, s, e).sess[c].name == s.sess[c].name
    ensures !s.sess[c].alive ==> !Do(env, s, e).sess[c].alive
  {
    if !Touches(s, e) {
      QuietEvent(env, s, e);
      assert SameConn(s.socks[c], Do(env, s, e).socks[c], s.sess[c], Do(env, s, e).sess[c]);
    } else if e.EvBody? {
      assert PcFor(e.t, s.pcs[e.t], s.socks, s.hist);
      OwnSession(s, e.t.c);
    }
  }

  lemma SignedStays(casts: seq<CastRec>, e: Sess, e': Sess, c: nat)
    requires Signed(casts, e, c) && (e.made ==> e'.made && e'.name == e.name)
    ensures Signed(casts, e', c)
  {
    forall k | 0 <= k < |casts| ensures SignedBy(casts[k], e', c) {
      assert SignedBy(casts[k], e, c);
    }
  }

  lemma IdentityStays(env: Env, s: State, e: Event, c: nat)
    requires Ok(s) && LivesOk(s) && Can(env, s, e) && c < |s.socks| && c < |Do(env, s, e).sess|
    ensures s.sess[c].made ==> Do(env, s, e).sess[c].made && Do(env, s, e).sess[c].name == s.sess[c].name
  {
    if s.sess[c].made { NameStays(env, s, e, c); }
  }

  // How an event extends the calls of a thread on every socket.
  lemma StepLogs(env: Env, s: State, e: Event, t: Tid)
    requires Ok(s) && Can(env, s, e)
    ensures |Do(env, s, e).socks| == |s.socks| + (if e.EvAccept? then 1 else 0)
    ensures forall d | 0 <= d < |s.socks| :: LogsOf(Do(env, s, e), t)[d] == LogsOf(s, t)[d] + NewCall(s, e, t, d)
  {
    if !e.EvAccept? { Lengths(env, s, e); }
    forall d | 0 <= d < |s.socks| ensures LogsOf(Do(env, s, e), t)[d] == LogsOf(s, t)[d] + NewCall(s, e, t, d) {
      StepCalls(env, s, e, t, d);
    }
  }

  lemma SameLogs(env: Env, s: State, e: Event, t: Tid)
    requires Ok(s) && Can(env, s, e) && !e.EvAccept?
    requires Actor(e) != t || !(e.EvSend? && e.act.TakeLock?)
    ensures LogsOf(Do(env, s, e), t) == LogsOf(s, t)
  {
    StepLogs(env, s, e, t);
    forall d | 0 <= d < |s.socks| ensures LogsOf(Do(env, s, e), t)[d] == LogsOf(s, t)[d] {
      assert NewCall(s, e, t, d) == [];
    }
  }

  // A handler's view after an event that neither starts one of its sends nor takes its snapshot.
  lemma ViewStays(s: State, s': State, c: nat)
    requires Domain(s) && Domain(s') && c < |s.socks| == |s'.socks| && CastOk(s, c)
    requires LogsOf(s', Handler(c)) == LogsOf(s, Handler(c)) && NoNewCast(s, s', c)
    requires s.sess[c].made ==> s'.sess[c].made && s'.sess[c].name == s.sess[c].name
    ensures CastOk(s', c)
  {
    var t := Handler(c);
    if Todo(s'.pcs[t]) != Todo(s.pcs[t]) {
      CastOther(Todo(s.pcs[t]), Todo(s'.pcs[t]), s.hist[c].casts, LogsOf(s, t));
    }
    SignedStays(s.hist[c].casts, s.sess[c], s'.sess[c], c);
  }

  lemma OtherThreadCast(env: Env, s: State, e: Event, c: nat)
    requires Ok(s) && LivesOk(s) && Can(env, s, e) && c < |s.socks| && CastOk(s, c) && Domain(Do(env, s, e))
    requires Actor(e) != Handler(c) && !e.EvAccept?
    ensures c < |Do(env, s, e).socks| && CastOk(Do(env, s, e), c)
  {
    Lengths(env, s, e);
    SameLogs(env, s, e, Handler(c));
    OthersLeave(env, s, e, c);
    IdentityStays(env, s, e, c);
    ViewStays(s, Do(env, s, e), c);
  }

  lemma AcceptCast(s: State, fd: int, ip: string, c: nat)
    requires Ok(s) && c < |s.socks| && CastOk(s, c) && Domain(Accept(s, fd, ip))
    ensures CastOk(Accept(s, fd, ip), c)
  {
    var s' := Accept(s, fd, ip);
    assert LogsOf(s', Handler(c)) == LogsOf(s, Handler(c)) + [[]];
    CastWiden(Todo(s.pcs[Handler(c)]), s.hist[c].casts, LogsOf(s, Handler(c)));
  }

  lemma QuietCast(env: Env, s: State, e: Event, c: nat)
    requires Ok(s) && LivesOk(s) && Can(env, s, e) && c < |s.socks| && CastOk(s, c) && Domain(Do(env, s, e))
    requires Actor(e) == Handler(c) && !e.EvAccept?
    requires !(e.EvSend? && e.act.TakeLock?) && !(e.EvBody? && s.pcs[e.t].sec.Gather?)
    ensures c < |Do(env, s, e).socks| && CastOk(Do(env, s, e), c)
  {
    Lengths(env, s, e);
    SameLogs(env, s, e, Handler(c));
    OwnCasts(env, s, e, c);
    IdentityStays(env, s, e, c);
    ViewStays(s, Do(env, s, e), c);
  }

  lemma TakeShape(env: Env, s: State, c: nat)
    requires Ok(s) && c < |s.socks| && CanSend(env, s, Handler(c), TakeLock)
    ensures var s' := DoSend(env, s, Handler(c), TakeLock);
            && Handler(c) in s'.pcs && c < |s'.hist| && s'.hist[c] == s.hist[c]
            && Todo(s.pcs[Handler(c)]) == s.pcs[Handler(c)].jobs
            && Todo(s'.pcs[Handler(c)]) == s.pcs[Handler(c)].jobs[1..]
            && s.pcs[Handler(c)].jobs[0].to < |s.socks|
  {
    assert PcFor(Handler(c), s.pcs[Handler(c)], s.socks, s.hist);
  }

  lemma TakeCast(env: Env, s: State, c: nat)
    requires Ok(s) && LivesOk(s) && c < |s.socks| && CastOk(s, c) && Can(env, s, EvSend(Handler(c), TakeLock))
    requires Domain(Do(env, s, EvSend(Handler(c), TakeLock)))
    ensures var s' := Do(env, s, EvSend(Handler(c), TakeLock)); c < |s'.socks| && CastOk(s', c)
  {
    var t := Handler(c);
    var e := EvSend(t, TakeLock);
    var s' := Do(env, s, e);
    StepLogs(env, s, e, t);
    TakeShape(env, s, c);
    var j := s.pcs[t].jobs[0];
    CastTake(s.pcs[t].jobs, s.hist[c].casts, LogsOf(s, t));
    assert LogsOf(s', t) == LogsOf(s, t)[j.to := LogsOf(s, t)[j.to] + [Stamp(j.frame, j.tag)]];
    IdentityStays(env, s, e, c);
    SignedStays(s.hist[c].casts, s.sess[c], s'.sess[c], c);
  }

  // While a thread is in a critical section of its own nobody is half removed: every registered session is alive.
  lemma RegisteredAlive(s: State, c: nat)
    requires LocksOk(s) && LivesOk(s) && c < |s.socks| && s.pcs[Handler(c)].Inside?
    ensures forall fd | fd in s.sessions :: s.sess[s.sessions[fd]].alive
  {
    assert HoldsReg(s.pcs[Handler(c)]);
    forall fd | fd in s.sessions ensures s.sess[s.sessions[fd]].alive {
      var d := s.sessions[fd];
      assert SessionOk(s, fd) && ConnOk(s, d);
      assert HoldsReg(s.pcs[Handler(d)]) <==> c == d;
    }
  }

  // So a snapshot leaves no registered session out.
  lemma SnapshotIsEverybody(s: State, c: nat, order: seq<nat>)
    requires LocksOk(s) && LivesOk(s) && c < |s.socks| && s.pcs[Handler(c)].Inside? && IsSnapshot(s, order)
    ensures forall d: nat :: d in order <==> d in AllSessions(s)
  {
    RegisteredAlive(s, c);
  }

  lemma GatherCast(env: Env, s: State, c: nat, order: seq<nat>, rows: seq<(string, Status)>)
    requires Ok(s) && LocksOk(s) && LivesOk(s) && OwnOk(env, s) && c < |s.socks| && CastOk(s, c)
    requires Can(env, s, EvBody(Handler(c), order, rows)) && s.pcs[Handler(c)].sec.Gather?
    ensures var s' := Do(env, s, EvBody(Handler(c), order, rows)); Domain(s') && c < |s'.socks| && CastOk(s', c)
  {
    var t := Handler(c);
    assert PcFor(t, s.pcs[t], s.socks, s.hist) && PcInv(env, s, t, s.pcs[t]);
    var s' := Do(env, s, EvBody(t, order, rows));
    var rec := CastRec(s.pcs[t].sec.text, s.sess[c].name, order, AllSessions(s));
    assert s'.hist[c].casts == s.hist[c].casts + [rec];
    forall i | 0 <= i < |order| ensures order[i] < |s.socks| { assert order[i] in order; }
    CastStart([], s.hist[c].casts, LogsOf(s, t), rec);
    assert LogsOf(s', t) == LogsOf(s, t);
    SelfInSnapshot(s, c, order);
    SnapshotIsEverybody(s, c, order);
  }

  lemma SelfInSnapshot(s: State, c: nat, order: seq<nat>)
    requires LivesOk(s) && c < |s.socks| && s.sess[c].made && s.pcs[Handler(c)].Inside? && IsSnapshot(s, order)
    ensures c in order
  {
    assert ConnOk(s, c);
    assert s.sessions[s.socks[c].fd] == c;
  }

  // Nobody acts in the name of a connection that does not exist.
  lemma {:induction false} NoCallsYet(log: seq<Entry>, t: Tid)
    requires forall i | 0 <= i < |log| :: log[i].author != t
    ensures Issued(log, t) == []
  {
    if log != [] { NoCallsYet(log[..|log| - 1], t); }
  }

  ghost predicate AuthorsIn(log: seq<Entry>, pcs: map<Tid, Pc>) {
    forall i | 0 <= i < |log| :: log[i].author in pcs
  }

  ghost predicate AuthorsOk(s: State) {
    forall d | 0 <= d < |s.socks| :: AuthorsIn(s.socks[d].log, s.pcs)
  }

  lemma DoAuthors(env: Env, s: State, e: Event)
    requires Ok(s) && AuthorsOk(s) && Can(env, s, e)
    ensures AuthorsOk(Do(env, s, e))
  {
    DoOk(env, s, e);
    var s' := Do(env, s, e);
    if !e.EvAccept? { Lengths(env, s, e); }
    assert s.pcs.Keys <= s'.pcs.Keys;
    forall d | 0 <= d < |s'.socks| ensures AuthorsIn(s'.socks[d].log, s'.pcs) {
      if d < |s.socks| {
        assert AuthorsIn(s.socks[d].log, s.pcs);
        if e.EvSend? && e.act.TakeLock? {
          assert PcFor(e.t, s.pcs[e.t], s.socks, s.hist);
        } else if e.EvSend? {
          SendLater(env, s, e.t, e.act, d);
        } else {
          OtherWrites(env, s, e);
          assert SameTraffic(s.socks[d], s'.socks[d]);
        }
      }
    }
  }

  lemma FreshCast(s: State, fd: int, ip: string)
    requires Ok(s) && AuthorsOk(s) && Domain(Accept(s, fd, ip))
    ensures CastOk(Accept(s, fd, ip), |s.socks|)
  {
    var n := |s.socks|;
    var s' := Accept(s, fd, ip);
    forall d | 0 <= d < |s'.socks| ensures LogsOf(s', Handler(n))[d] == [] {
      if d < n {
        assert AuthorsIn(s.socks[d].log, s.pcs);
        NoCallsYet(s.socks[d].log, Handler(n));
      }
    }
  }

  lemma OwnCast(env: Env, s: State, e: Event, c: nat)
    requires Ok(s) && LocksOk(s) && LivesOk(s) && OwnOk(env, s) && Can(env, s, e) && c < |s.socks| && CastOk(s, c)
    requires Domain(Do(env, s, e)) && Actor(e) == Handler(c) && !e.EvAccept?
    ensures c < |Do(env, s, e).socks| && CastOk(Do(env, s, e), c)
  {
    if e.EvSend? && e.act.TakeLock? {
      assert e == EvSend(Handler(c), TakeLock);
      TakeCast(env, s, c);
    } else if e.EvBody? && s.pcs[e.t].sec.Gather? {
      GatherCast(env, s, c, e.order, e.rows);
    } else {
      QuietCast(env, s, e, c);
    }
  }

  // Every step keeps the bookkeeping of every sender's broadcasts.
  lemma DoCasts(env: Env, s: State, e: Event)
    requires Ok(s) && LocksOk(s) && LivesOk(s) && OwnOk(env, s) && AuthorsOk(s) && CastsOk(s) && Can(env, s, e)
    ensures CastsOk(Do(env, s, e))
  {
    DoOk(env, s, e);
    var s' := Do(env, s, e);
    if !e.EvAccept? { Lengths(env, s, e); }
    forall c | 0 <= c < |s'.socks| ensures CastOk(s', c) {
      if c >= |s.socks| {
        FreshCast(s, e.fd, e.ip);
      } else if e.EvAccept? {
        AcceptCast(s, e.fd, e.ip, c);
      } else if Actor(e) != Handler(c) {
        OtherThreadCast(env, s, e, c);
      } else {
        OwnCast(env, s, e, c);
      }
    }
  }

  // ---------- what a sender's broadcasts amount to ----------

  // Once a broadcast has no send left to start, every session registered at its snapshot has had exactly one call
  // for it, with the sender's name and text; other sessions have had none.
  lemma BroadcastReachesSnapshotOnce(s: State, c: nat, k: nat, d: nat)
    requires CastsOk(s) && c < |s.socks| && k < |s.hist[c].casts| && d < |s.socks|
    requires k + 1 < |s.hist[c].casts| || NoCasts(Todo(s.pcs[Handler(c)]))
    ensures var calls := Issued(s.socks[d].log, Handler(c));
            && (d in s.hist[c].casts[k].registered <==> Sent(calls, k))
            && (forall i | 0 <= i < |calls| && calls[i].tag == Cast(k) ::
                  calls[i].frame == BroadcastDelivery(s.hist[c].casts[k].text, s.sess[c].name))
            && (forall i, j |
                  0 <= i < |calls| && 0 <= j < |calls| && calls[i].tag == Cast(k) && calls[j].tag == Cast(k) :: i == j)
    ensures c in s.hist[c].casts[k].registered
  {
    assert CastOk(s, c) && SignedBy(s.hist[c].casts[k], s.sess[c], c);
    var calls := LogsOf(s, Handler(c))[d];
    assert LogCasts(calls, d, s.hist[c].casts);
    forall i | 0 <= i < |calls| && calls[i].tag == Cast(k)
      ensures d in s.hist[c].casts[k].targets && calls[i].frame == FrameOf(s.hist[c].casts[k])
    {
      assert SentOk(calls[i], d, s.hist[c].casts);
    }
  }

  // Two broadcasts of one sender are never swapped on any socket: in the log the later one comes later.
  lemma BroadcastsStayInOrder(s: State, c: nat, d: nat, i: nat, j: nat)
    requires CastsOk(s) && c < |s.socks| && d < |s.socks| && i < j < |s.socks[d].log|
    requires var log := s.socks[d].log;
             log[i].author == Handler(c) && log[j].author == Handler(c) && log[i].tag.Cast? && log[j].tag.Cast?
    ensures s.socks[d].log[i].tag.k < s.socks[d].log[j].tag.k
  {
    assert CastOk(s, c) && LogCasts(LogsOf(s, Handler(c))[d], d, s.hist[c].casts);
    var a, b := IssuedOrder(s.socks[d].log, Handler(c), i, j);
  }
}
