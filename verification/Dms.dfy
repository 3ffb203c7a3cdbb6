/**
 Direct messages. Each one is answered once, 202 exactly when the destination name was registered at the
 lookup; the message itself is sent at most once, to the session that held the name then.
 */
module Dms {
  import opened Framing
  import opened Protocol
  import opened Steps
  import opened Locks
  import opened Owners
  import opened Sessions
  import opened Calls
  import opened Casts

  // ---------- one sender, seen from its own records ----------

  predicate NoDms(todo: seq<Job>) {
    forall i | 0 <= i < |todo| :: !todo[i].tag.Dm?
  }

  // A frame sent to d on account of a direct message: the message to the holder, or the answer to the sender.
  predicate FitsRecord(frame: Frame, d: nat, r: DmRec, c: nat) {
    if frame.ForDm? then r.tried && r.holder == Some(d) && frame == ForDm(r.origin, r.text)
    else d == c && frame == (if r.holder.Some? then Reply(OK_DM_SENT) else Reply(USER_NOT_FOUND))
  }

  predicate QueuedFits(j: Job, dms: seq<DmRec>, c: nat) {
    j.tag.Dm? ==> |dms| > 0 && j.tag.k == |dms| - 1 && FitsRecord(j.frame, j.to, dms[|dms| - 1], c)
  }

  predicate SentFits(x: Stamp, d: nat, dms: seq<DmRec>, c: nat) {
    x.tag.Dm? ==> x.tag.k < |dms| && FitsRecord(x.frame, d, dms[x.tag.k], c)
  }

  predicate HasSent(log: seq<Stamp>, k: nat, forward: bool) {
    exists i | 0 <= i < |log| :: log[i].tag == Dm(k) && log[i].frame.ForDm? == forward
  }

  predicate HasQueued(todo: seq<Job>, forward: bool) {
    exists i | 0 <= i < |todo| :: todo[i].tag.Dm? && todo[i].frame.ForDm? == forward
  }

  ghost predicate DmTodo(todo: seq<Job>, dms: seq<DmRec>, c: nat) {
    && (forall i | 0 <= i < |todo| :: QueuedFits(todo[i], dms, c))
    && (forall i, j | 0 <= i < j < |todo| && todo[i].tag.Dm? && todo[j].tag.Dm? ::
          todo[i].frame.ForDm? != todo[j].frame.ForDm?)
  }

  ghost predicate DmLog(log: seq<Stamp>, d: nat, dms: seq<DmRec>, c: nat) {
    && (forall i | 0 <= i < |log| :: SentFits(log[i], d, dms, c))
    && (forall i, j |
          0 <= i < j < |log| && log[i].tag.Dm? && log[j].tag.Dm? && log[i].frame.ForDm? == log[j].frame.ForDm? ::
          log[i].tag.k < log[j].tag.k)
  }

  // The answer to message k: sent, or still to come. `waiting`: the alive check of the last one is due.
  predicate AnswerDue(todo: seq<Job>, waiting: bool, dms: seq<DmRec>, log: seq<Stamp>, k: nat) {
    HasSent(log, k, false) != (k == |dms| - 1 && (waiting || HasQueued(todo, false)))
  }

  predicate ForwardDue(todo: seq<Job>, dms: seq<DmRec>, log: seq<Stamp>, k: nat) {
    HasSent(log, k, true) != (k == |dms| - 1 && HasQueued(todo, true))
  }

  ghost predicate DmView(todo: seq<Job>, waiting: bool, dms: seq<DmRec>, logs: seq<seq<Stamp>>, c: nat) {
    && c < |logs| && DmTodo(todo, dms, c) && (waiting ==> NoDms(todo) && |dms| > 0 && !dms[|dms| - 1].tried)
    && (forall d | 0 <= d < |logs| :: DmLog(logs[d], d, dms, c))
    && (forall k | 0 <= k < |dms| :: AnswerDue(todo, waiting, dms, logs[c], k))
    && (forall k | 0 <= k < |dms| && dms[k].tried ::
          dms[k].holder.Some? && dms[k].holder.value < |logs| && ForwardDue(todo, dms, logs[dms[k].holder.value], k))
  }

  lemma DmOther(todo: seq<Job>, todo': seq<Job>, dms: seq<DmRec>, logs: seq<seq<Stamp>>, c: nat)
    requires DmView(todo, false, dms, logs, c) && NoDms(todo) && NoDms(todo')
    ensures DmView(todo', false, dms, logs, c)
  {
    forall k | 0 <= k < |dms| ensures AnswerDue(todo', false, dms, logs[c], k) {
      assert AnswerDue(todo, false, dms, logs[c], k);
    }
    forall k | 0 <= k < |dms| && dms[k].tried ensures ForwardDue(todo', dms, logs[dms[k].holder.value], k) {
      assert ForwardDue(todo, dms, logs[dms[k].holder.value], k);
    }
  }

  // Records only grow, and what was sent still fits them.
  lemma LogStays(log: seq<Stamp>, d: nat, dms: seq<DmRec>, rec: DmRec, c: nat)
    requires DmLog(log, d, dms, c)
    ensures DmLog(log, d, dms + [rec], c) && !HasSent(log, |dms|, true) && !HasSent(log, |dms|, false)
  {
    forall i | 0 <= i < |log| ensures SentFits(log[i], d, dms + [rec], c) && log[i].tag != Dm(|dms|) {
      assert SentFits(log[i], d, dms, c);
    }
  }

  // The lookup: nobody holds the name, and 404 is queued; or somebody does, and the alive check is due.
  lemma DmStart(todo: seq<Job>, dms: seq<DmRec>, logs: seq<seq<Stamp>>, c: nat, rec: DmRec)
    requires DmView(todo, false, dms, logs, c) && NoDms(todo) && !rec.tried
    ensures rec.holder.Some? ==> DmView([], true, dms + [rec], logs, c)
    ensures rec.holder.None? ==> DmView([Job(c, Reply(USER_NOT_FOUND), Dm(|dms|))], false, dms + [rec], logs, c)
  {
    var dms' := dms + [rec];
    var todo' := if rec.holder.Some? then [] else [Job(c, Reply(USER_NOT_FOUND), Dm(|dms|))];
    forall d | 0 <= d < |logs| ensures DmLog(logs[d], d, dms', c) { LogStays(logs[d], d, dms, rec, c); }
    LogStays(logs[c], c, dms, rec, c);
    if rec.holder.None? {
      assert todo'[0].tag.Dm? && todo'[0].frame.ForDm? == false;
      assert HasQueued(todo', false);
    }
    forall k | 0 <= k < |dms'| ensures AnswerDue(todo', rec.holder.Some?, dms', logs[c], k) {
      if k < |dms| { assert AnswerDue(todo, false, dms, logs[c], k); }
    }
    forall k | 0 <= k < |dms'| && dms'[k].tried
      ensures dms'[k].holder.Some? && dms'[k].holder.value < |logs|
      ensures ForwardDue(todo', dms', logs[dms'[k].holder.value], k)
    {
      assert dms'[k] == dms[k];
      assert ForwardDue(todo, dms, logs[dms[k].holder.value], k);
    }
  }

  lemma DecideLog(log: seq<Stamp>, d: nat, dms: seq<DmRec>, c: nat, live: bool)
    requires DmLog(log, d, dms, c) && |dms| > 0 && !dms[|dms| - 1].tried && !HasSent(log, |dms| - 1, false)
    ensures DmLog(log, d, dms[|dms| - 1 := dms[|dms| - 1].(tried := live)], c) && !HasSent(log, |dms| - 1, true)
  {
    var dms' := dms[|dms| - 1 := dms[|dms| - 1].(tried := live)];
    forall i | 0 <= i < |log|
      ensures SentFits(log[i], d, dms', c) && !(log[i].tag == Dm(|dms| - 1) && log[i].frame.ForDm?)
    {
      assert SentFits(log[i], d, dms, c);
    }
  }

  // An answer sits only on the sender's own socket.
  lemma NoAnswerElsewhere(log: seq<Stamp>, d: nat, dms: seq<DmRec>, c: nat, k: nat)
    requires DmLog(log, d, dms, c) && d != c
    ensures !HasSent(log, k, false)
  {
    forall i | 0 <= i < |log| ensures !(log[i].tag == Dm(k) && !log[i].frame.ForDm?) {
      assert SentFits(log[i], d, dms, c);
    }
  }

  // The alive check: forward and answer, or answer alone.
  lemma DmDecide(todo: seq<Job>, dms: seq<DmRec>, logs: seq<seq<Stamp>>, c: nat, live: bool)
    requires DmView(todo, true, dms, logs, c) && dms[|dms| - 1].holder.Some? && dms[|dms| - 1].holder.value < |logs|
    ensures var k := |dms| - 1;
            var r := dms[k];
            var answer := Job(c, Reply(OK_DM_SENT), Dm(k));
            DmView(if live then [Job(r.holder.value, ForDm(r.origin, r.text), Dm(k)), answer] else [answer], false,
                   dms[k := r.(tried := live)], logs, c)
  {
    var k := |dms| - 1;
    var r := dms[k];
    var answer := Job(c, Reply(OK_DM_SENT), Dm(k));
    var todo' := if live then [Job(r.holder.value, ForDm(r.origin, r.text), Dm(k)), answer] else [answer];
    var dms' := dms[k := r.(tried := live)];
    assert AnswerDue(todo, true, dms, logs[c], k);
    forall d | 0 <= d < |logs| ensures DmLog(logs[d], d, dms', c) && !HasSent(logs[d], k, true) {
      if d != c { NoAnswerElsewhere(logs[d], d, dms, c, k); }
      DecideLog(logs[d], d, dms, c, live);
    }
    assert todo'[|todo'| - 1] == answer && HasQueued(todo', false);
    if live { assert todo'[0].tag.Dm? && todo'[0].frame.ForDm?; assert HasQueued(todo', true); }
    forall i | 0 <= i < |dms'| ensures AnswerDue(todo', false, dms', logs[c], i) {
      assert AnswerDue(todo, true, dms, logs[c], i);
    }
    forall i | 0 <= i < |dms'| && dms'[i].tried
      ensures dms'[i].holder.Some? && dms'[i].holder.value < |logs|
      ensures ForwardDue(todo', dms', logs[dms'[i].holder.value], i)
    {
      if i < k { assert dms'[i] == dms[i] && ForwardDue(todo, dms, logs[dms[i].holder.value], i); }
    }
  }

  lemma QueueShrinks(todo: seq<Job>, dms: seq<DmRec>, c: nat, forward: bool)
    requires todo != [] && DmTodo(todo, dms, c)
    ensures DmTodo(todo[1..], dms, c)
    ensures var j := todo[0];
            if j.tag.Dm? && j.frame.ForDm? == forward then HasQueued(todo, forward) && !HasQueued(todo[1..], forward)
            else HasQueued(todo[1..], forward) == HasQueued(todo, forward)
  {
    var rest := todo[1..];
    forall i | 0 <= i < |rest| ensures QueuedFits(rest[i], dms, c) { assert QueuedFits(todo[i + 1], dms, c); }
    forall a, b | 0 <= a < b < |rest| && rest[a].tag.Dm? && rest[b].tag.Dm?
      ensures rest[a].frame.ForDm? != rest[b].frame.ForDm? {
      assert todo[a + 1].frame.ForDm? != todo[b + 1].frame.ForDm?;
    }
    if HasQueued(todo, forward) {
      var i :| 0 <= i < |todo| && todo[i].tag.Dm? && todo[i].frame.ForDm? == forward;
      if i > 0 { assert rest[i - 1] == todo[i]; }
    }
    if HasQueued(rest, forward) {
      var i :| 0 <= i < |rest| && rest[i].tag.Dm? && rest[i].frame.ForDm? == forward;
      assert todo[i + 1] == rest[i];
    }
  }

  lemma SentGrows(log: seq<Stamp>, x: Stamp, k: nat, forward: bool)
    ensures HasSent(log + [x], k, forward) <==>
        HasSent(log, k, forward) || (x.tag == Dm(k) && x.frame.ForDm? == forward)
  {
    var log' := log + [x];
    assert log'[|log|] == x;
    if HasSent(log, k, forward) {
      var i :| 0 <= i < |log| && log[i].tag == Dm(k) && log[i].frame.ForDm? == forward;
      assert log'[i] == log[i];
    }
  }

  lemma TakeDmLog(todo: seq<Job>, waiting: bool, dms: seq<DmRec>, logs: seq<seq<Stamp>>, c: nat)
    requires DmView(todo, waiting, dms, logs, c) && todo != [] && todo[0].to < |logs|
    ensures var j := todo[0]; DmLog(logs[j.to] + [Stamp(j.frame, j.tag)], j.to, dms, c)
  {
    var j := todo[0];
    var log := logs[j.to];
    var log' := log + [Stamp(j.frame, j.tag)];
    assert QueuedFits(j, dms, c) && DmLog(log, j.to, dms, c);
    forall i | 0 <= i < |log'| ensures SentFits(log'[i], j.to, dms, c) {
      if i < |log| { assert SentFits(log[i], j.to, dms, c); }
    }
    if j.tag.Dm? {
      var k := |dms| - 1;
      assert HasQueued(todo, j.frame.ForDm?);
      assert AnswerDue(todo, waiting, dms, logs[c], k);
      assert dms[k].tried ==> ForwardDue(todo, dms, logs[dms[k].holder.value], k);
      assert !HasSent(log, k, j.frame.ForDm?);
      forall i | 0 <= i < |log| && log[i].tag.Dm? && log[i].frame.ForDm? == j.frame.ForDm? ensures log[i].tag.k < k {
        assert SentFits(log[i], j.to, dms, c);
      }
    }
  }

  // Starting the first queued send moves it from the queue to its socket's calls.
  lemma DmTake(todo: seq<Job>, dms: seq<DmRec>, logs: seq<seq<Stamp>>, c: nat)
    requires DmView(todo, false, dms, logs, c) && todo != [] && todo[0].to < |logs|
    ensures var j := todo[0];
            DmView(todo[1..], false, dms, logs[j.to := logs[j.to] + [Stamp(j.frame, j.tag)]], c)
  {
    var j := todo[0];
    var x := Stamp(j.frame, j.tag);
    var logs' := logs[j.to := logs[j.to] + [x]];
    QueueShrinks(todo, dms, c, true);
    QueueShrinks(todo, dms, c, false);
    assert QueuedFits(j, dms, c);
    TakeDmLog(todo, false, dms, logs, c);
    forall d | 0 <= d < |logs'| ensures DmLog(logs'[d], d, dms, c) {
      assert DmLog(logs[d], d, dms, c);
    }
    forall k | 0 <= k < |dms| ensures AnswerDue(todo[1..], false, dms, logs'[c], k) {
      assert AnswerDue(todo, false, dms, logs[c], k);
      SentGrows(logs[c], x, k, false);
    }
    forall k | 0 <= k < |dms| && dms[k].tried ensures ForwardDue(todo[1..], dms, logs'[dms[k].holder.value], k) {
      assert ForwardDue(todo, dms, logs[dms[k].holder.value], k);
      SentGrows(logs[dms[k].holder.value], x, k, true);
    }
  }

  lemma DmWiden(todo: seq<Job>, waiting: bool, dms: seq<DmRec>, logs: seq<seq<Stamp>>, c: nat)
    requires DmView(todo, waiting, dms, logs, c)
    ensures DmView(todo, waiting, dms, logs + [[]], c)
  {
    var logs' := logs + [[]];
    forall d | 0 <= d < |logs'| ensures DmLog(logs'[d], d, dms, c) {
      if d < |logs| { assert DmLog(logs[d], d, dms, c); }
    }
    forall k | 0 <= k < |dms| && dms[k].tried ensures ForwardDue(todo, dms, logs'[dms[k].holder.value], k) {
      assert ForwardDue(todo, dms, logs[dms[k].holder.value], k);
    }
  }

  // ---------- in the server ----------

  // A record tells the truth: who signed it, whether the name was registered, who held it and was alive then, and
  // that a holder that was not tried is gone.
  predicate RecOk(s: State, r: DmRec, c: nat, undecided: bool)
    requires Shaped(s) && c < |s.sess|
  {
    && s.sess[c].made && r.origin == s.sess[c].name
    && (r.present <==> r.holder.Some?)
    && (r.holder.Some? ==>
          var d := r.holder.value;
          && d < |s.sess| && s.sess[d].made && s.sess[d].name == r.dest && r.live
          && (r.tried || undecided || !s.sess[d].alive))
  }

  predicate RecsOk(s: State, dms: seq<DmRec>, c: nat, waiting: bool)
    requires Shaped(s) && c < |s.sess|
  {
    forall k | 0 <= k < |dms| :: RecOk(s, dms[k], c, waiting && k == |dms| - 1)
  }

  predicate DeliverOk(pc: Pc, dms: seq<DmRec>, c: nat) {
    pc.Deliver? ==> |dms| > 0 && pc.k == |dms| - 1 && dms[|dms| - 1].holder == Some(pc.to) && pc.me == c
  }

  ghost predicate DmOk(s: State, c: nat)
    requires Domain(s) && c < |s.socks|
  {
    var pc, dms := s.pcs[Handler(c)], s.hist[c].dms;
    && DmView(Todo(pc), pc.Deliver?, dms, LogsOf(s, Handler(c)), c)
    && DeliverOk(pc, dms, c) && RecsOk(s, dms, c, pc.Deliver?)
  }

  ghost predicate DmsOk(s: State) {
    Domain(s) && forall c | 0 <= c < |s.socks| :: DmOk(s, c)
  }

  // The two-step lookup finds a session exactly when a linear scan would, and it is one with that name.
  lemma LookupAgrees(s: State, name: string)
    requires RegOk(s)
    ensures Holder(s, name).Some? <==> Present(s, name)
    ensures name in s.names ==> Holder(s, name).Some?
    ensures Holder(s, name).Some? ==> var d := Holder(s, name).value; s.sess[d].made && s.sess[d].name == name
  {
    var m := Regs(s);
    R.FindRefines(m, name);
    forall fd | fd in s.sessions
      ensures fd in R.SetFind(R.Triples(m), name) <==> s.sess[s.sessions[fd]].name == name
    {
      assert SessionOk(s, fd) && m.users[fd] == UserOf(s, fd);
      assert R.Triple(fd, m.users[fd].name, m.users[fd].ip) in R.Triples(m);
    }
    if Holder(s, name).Some? {
      assert SessionOk(s, s.names[name]);
    }
  }

  // So the session a lookup finds is alive at that moment.
  lemma FoundAlive(s: State, c: nat, name: string)
    requires LocksOk(s) && RegOk(s) && c < |s.socks| && s.pcs[Handler(c)].Inside? && Holder(s, name).Some?
    ensures s.sess[Holder(s, name).value].alive
  {
    RegisteredAlive(s, c);
  }

  ghost predicate Identities(s: State, s': State) {
    && |s.sess| <= |s'.sess|
    && forall d | 0 <= d < |s.sess| && s.sess[d].made ::
         s'.sess[d].made && s'.sess[d].name == s.sess[d].name && (!s.sess[d].alive ==> !s'.sess[d].alive)
  }

  lemma IdentitiesStay(env: Env, s: State, e: Event)
    requires Ok(s) && LivesOk(s) && Can(env, s, e)
    ensures Identities(s, Do(env, s, e))
  {
    DoOk(env, s, e);
    if !e.EvAccept? { Lengths(env, s, e); }
    forall d | 0 <= d < |s.sess| && s.sess[d].made
      ensures Do(env, s, e).sess[d].made && Do(env, s, e).sess[d].name == s.sess[d].name
      ensures !s.sess[d].alive ==> !Do(env, s, e).sess[d].alive
    {
      NameStays(env, s, e, d);
    }
  }

  lemma RecsStay(s: State, s': State, dms: seq<DmRec>, c: nat, waiting: bool)
    requires Shaped(s) && Shaped(s') && c < |s.sess| && Identities(s, s') && RecsOk(s, dms, c, waiting)
    ensures RecsOk(s', dms, c, waiting)
  {
    forall k | 0 <= k < |dms| ensures RecOk(s', dms[k], c, waiting && k == |dms| - 1) {
      assert RecOk(s, dms[k], c, waiting && k == |dms| - 1);
    }
  }

  // An event of the handler that is neither a lookup, nor an alive check, nor the start of a send.
  ghost predicate NoNewDm(s: State, s': State, c: nat)
    requires c < |s.hist|
  {
    && Handler(c) in s.pcs && Handler(c) in s'.pcs && c < |s'.hist| && s'.hist[c].dms == s.hist[c].dms
    && s'.pcs[Handler(c)].Deliver? == s.pcs[Handler(c)].Deliver?
    && (s'.pcs[Handler(c)] == s.pcs[Handler(c)]
        || (!s.pcs[Handler(c)].Deliver? && Todo(s'.pcs[Handler(c)]) == Todo(s.pcs[Handler(c)]))
        || (!s.pcs[Handler(c)].Deliver? && NoDms(Todo(s.pcs[Handler(c)])) && NoDms(Todo(s'.pcs[Handler(c)]))))
  }

  lemma SectionDms(s: State, c: nat, sec: Section, order: seq<nat>, rows: seq<(string, Status)>)
    requires Domain(s) && c < |s.socks| && s.pcs[Handler(c)].Inside? && SectionFor(Handler(c), sec, |s.socks|)
    requires !sec.Seek?
    ensures NoNewDm(s, Body(s, Handler(c), sec, order, rows), c)
  {
    match sec {
      case Enrol(_) =>
      case Fetch(_) =>
      case Gather(_, _) =>
      case Roll(_) =>
      case Inspect(_, _) =>
      case Scan =>
      case Leave =>
    }
  }

  lemma FieldDms(s: State, c: nat)
    requires Ok(s) && c < |s.socks| && FieldPc(s.pcs[Handler(c)]) && !s.pcs[Handler(c)].Deliver?
    ensures NoNewDm(s, Field(s, Handler(c)), c)
  {
    assert PcFor(Handler(c), s.pcs[Handler(c)], s.socks, s.hist);
  }

  lemma SendDms(env: Env, s: State, c: nat, act: SendAct)
    requires Ok(s) && c < |s.socks| && CanSend(env, s, Handler(c), act) && !act.TakeLock?
    ensures NoNewDm(s, DoSend(env, s, Handler(c), act), c)
  {
    assert PcFor(Handler(c), s.pcs[Handler(c)], s.socks, s.hist);
  }

  predicate DmEvent(s: State, e: Event)
    requires e.EvBody? ==> e.t in s.pcs && s.pcs[e.t].Inside?
    requires e.EvField? ==> e.t in s.pcs
  {
    (e.EvSend? && e.act.TakeLock?) || (e.EvBody? && s.pcs[e.t].sec.Seek?) || (e.EvField? && s.pcs[e.t].Deliver?)
  }

  lemma OwnDms(env: Env, s: State, e: Event, c: nat)
    requires Ok(s) && Can(env, s, e) && c < |s.socks| && Actor(e) == Handler(c) && !DmEvent(s, e)
    ensures NoNewDm(s, Do(env, s, e), c)
  {
    match e {
      case EvBody(t, order, rows) =>
        assert PcFor(t, s.pcs[t], s.socks, s.hist);
        SectionDms(s, c, s.pcs[t].sec, order, rows);
      case EvSend(t, act) => SendDms(env, s, c, act);
      case EvField(t) => FieldDms(s, c);
      case _ =>
    }
  }

  lemma DmViewStays(s: State, s': State, c: nat)
    requires Domain(s) && Domain(s') && c < |s.socks| == |s'.socks| && DmOk(s, c)
    requires LogsOf(s', Handler(c)) == LogsOf(s, Handler(c)) && NoNewDm(s, s', c) && Identities(s, s')
    ensures DmOk(s', c)
  {
    var t := Handler(c);
    if !s.pcs[t].Deliver? && Todo(s'.pcs[t]) != Todo(s.pcs[t]) {
      DmOther(Todo(s.pcs[t]), Todo(s'.pcs[t]), s.hist[c].dms, LogsOf(s, t), c);
    }
    RecsStay(s, s', s.hist[c].dms, c, s.pcs[t].Deliver?);
  }

  lemma OtherThreadDm(env: Env, s: State, e: Event, c: nat)
    requires Ok(s) && LivesOk(s) && Can(env, s, e) && c < |s.socks| && DmOk(s, c) && Domain(Do(env, s, e))
    requires Actor(e) != Handler(c) && !e.EvAccept?
    ensures c < |Do(env, s, e).socks| && DmOk(Do(env, s, e), c)
  {
    Lengths(env, s, e);
    SameLogs(env, s, e, Handler(c));
    OthersLeave(env, s, e, c);
    IdentitiesStay(env, s, e);
    DmViewStays(s, Do(env, s, e), c);
  }

  lemma QuietDm(env: Env, s: State, e: Event, c: nat)
    requires Ok(s) && LivesOk(s) && Can(env, s, e) && c < |s.socks| && DmOk(s, c) && Domain(Do(env, s, e))
    requires Actor(e) == Handler(c) && !e.EvAccept? && !DmEvent(s, e)
    ensures c < |Do(env, s, e).socks| && DmOk(Do(env, s, e), c)
  {
    Lengths(env, s, e);
    SameLogs(env, s, e, Handler(c));
    OwnDms(env, s, e, c);
    IdentitiesStay(env, s, e);
    DmViewStays(s, Do(env, s, e), c);
  }

  lemma AcceptDm(s: State, fd: int, ip: string, c: nat)
    requires Ok(s) && c < |s.socks| && DmOk(s, c) && Domain(Accept(s, fd, ip))
    ensures DmOk(Accept(s, fd, ip), c)
  {
    var s' := Accept(s, fd, ip);
    var pc := s.pcs[Handler(c)];
    assert LogsOf(s', Handler(c)) == LogsOf(s, Handler(c)) + [[]];
    DmWiden(Todo(pc), pc.Deliver?, s.hist[c].dms, LogsOf(s, Handler(c)), c);
    RecsStay(s, s', s.hist[c].dms, c, pc.Deliver?);
  }

  lemma TakeDm(env: Env, s: State, c: nat)
    requires Ok(s) && LivesOk(s) && c < |s.socks| && DmOk(s, c) && Can(env, s, EvSend(Handler(c), TakeLock))
    requires Domain(Do(env, s, EvSend(Handler(c), TakeLock)))
    ensures var s' := Do(env, s, EvSend(Handler(c), TakeLock)); c < |s'.socks| && DmOk(s', c)
  {
    var t := Handler(c);
    var e := EvSend(t, TakeLock);
    var s' := Do(env, s, e);
    StepLogs(env, s, e, t);
    TakeShape(env, s, c);
    var j := s.pcs[t].jobs[0];
    DmTake(s.pcs[t].jobs, s.hist[c].dms, LogsOf(s, t), c);
    assert LogsOf(s', t) == LogsOf(s, t)[j.to := LogsOf(s, t)[j.to] + [Stamp(j.frame, j.tag)]];
    IdentitiesStay(env, s, e);
    RecsStay(s, s', s.hist[c].dms, c, false);
  }

  lemma SeekDm(s: State, c: nat)
    requires Domain(s) && c < |s.socks| && DmOk(s, c) && s.pcs[Handler(c)].Inside? && s.pcs[Handler(c)].sec.Seek?
    requires s.sess[c].made
    requires var dest := s.pcs[Handler(c)].sec.dest;
             && (Holder(s, dest).Some? <==> Present(s, dest))
             && (Holder(s, dest).Some? ==>
                   var d := Holder(s, dest).value; s.sess[d].made && s.sess[d].name == dest && s.sess[d].alive)
    ensures var sec := s.pcs[Handler(c)].sec; var s' := SeekBody(s, c, c, sec.dest, sec.text); Domain(s') && DmOk(s', c)
  {
    var t := Handler(c);
    var sec := s.pcs[t].sec;
    var s' := SeekBody(s, c, c, sec.dest, sec.text);
    var found := Holder(s, sec.dest);
    var rec := DmRec(sec.dest, sec.text, s.sess[c].name, Present(s, sec.dest), found, found.Some?, false);
    DmStart([], s.hist[c].dms, LogsOf(s, t), c, rec);
    assert LogsOf(s', t) == LogsOf(s, t);
    assert s'.hist[c].dms == s.hist[c].dms + [rec];
    forall k | 0 <= k < |s'.hist[c].dms|
      ensures RecOk(s', s'.hist[c].dms[k], c, rec.holder.Some? && k == |s.hist[c].dms|) {
      if k < |s.hist[c].dms| { assert RecOk(s, s.hist[c].dms[k], c, false); }
    }
  }

  lemma SeekOwnDm(s: State, c: nat)
    requires LocksOk(s) && RegOk(s) && c < |s.socks| && DmOk(s, c) && s.pcs[Handler(c)].Inside?
    requires s.pcs[Handler(c)].sec.Seek?
    requires s.sess[c].made
    ensures var sec := s.pcs[Handler(c)].sec; var s' := SeekBody(s, c, c, sec.dest, sec.text); Domain(s') && DmOk(s', c)
  {
    var dest := s.pcs[Handler(c)].sec.dest;
    LookupAgrees(s, dest);
    if Holder(s, dest).Some? { FoundAlive(s, c, dest); }
    SeekDm(s, c);
  }

  lemma DecideDm(env: Env, s: State, c: nat)
    requires Ok(s) && c < |s.socks| && DmOk(s, c) && s.pcs[Handler(c)].Deliver?
    ensures var pc := s.pcs[Handler(c)];
            && pc.me < |s.sess| && pc.to < |s.sess| && pc.k < |s.hist[c].dms|
            && var s' := DeliverDm(s, c, pc.me, pc.k, pc.to); Domain(s') && DmOk(s', c)
  {
    var t := Handler(c);
    var pc := s.pcs[t];
    assert PcFor(t, pc, s.socks, s.hist);
    var dms := s.hist[c].dms;
    var live := s.sess[pc.to].alive;
    var s' := DeliverDm(s, c, pc.me, pc.k, pc.to);
    DmDecide(Todo(pc), dms, LogsOf(s, t), c, live);
    assert LogsOf(s', t) == LogsOf(s, t);
    forall k | 0 <= k < |s'.hist[c].dms| ensures RecOk(s', s'.hist[c].dms[k], c, false) {
      assert RecOk(s, dms[k], c, k == |dms| - 1);
    }
  }

  lemma BodyDm(env: Env, s: State, c: nat)
    requires LocksOk(s) && RegOk(s) && OwnOk(env, s) && c < |s.socks| && DmOk(s, c)
    requires s.pcs[Handler(c)].Inside? && s.pcs[Handler(c)].sec.Seek?
    ensures var sec := s.pcs[Handler(c)].sec;
            && sec.me == c
            && var s' := SeekBody(s, c, c, sec.dest, sec.text); Domain(s') && DmOk(s', c)
  {
    assert PcInv(env, s, Handler(c), s.pcs[Handler(c)]);
    SeekOwnDm(s, c);
  }

  lemma BodyDmStep(env: Env, s: State, e: Event, c: nat)
    requires Ok(s) && LocksOk(s) && RegOk(s) && OwnOk(env, s) && Can(env, s, e) && c < |s.socks| && DmOk(s, c)
    requires e.EvBody? && e.t == Handler(c) && s.pcs[e.t].sec.Seek?
    ensures var s' := Do(env, s, e); Domain(s') && c < |s'.socks| && DmOk(s', c)
  {
    BodyDm(env, s, c);
  }

  lemma FieldDmStep(env: Env, s: State, e: Event, c: nat)
    requires Ok(s) && OwnOk(env, s) && Can(env, s, e) && c < |s.socks| && DmOk(s, c)
    requires e.EvField? && e.t == Handler(c) && s.pcs[e.t].Deliver?
    ensures var s' := Do(env, s, e); Domain(s') && c < |s'.socks| && DmOk(s', c)
  {
    DecideDm(env, s, c);
  }

  lemma OwnDmStep(env: Env, s: State, e: Event, c: nat)
    requires Ok(s) && LocksOk(s) && RegOk(s) && OwnOk(env, s) && Can(env, s, e) && c < |s.socks| && DmOk(s, c)
    requires Domain(Do(env, s, e)) && Actor(e) == Handler(c) && DmEvent(s, e)
    ensures c < |Do(env, s, e).socks| && DmOk(Do(env, s, e), c)
  {
    if e.EvSend? {
      assert e == EvSend(Handler(c), TakeLock);
      TakeDm(env, s, c);
    } else if e.EvBody? {
      BodyDmStep(env, s, e, c);
    } else {
      FieldDmStep(env, s, e, c);
    }
  }

  lemma FreshDm(s: State, fd: int, ip: string)
    requires Ok(s) && AuthorsOk(s) && Domain(Accept(s, fd, ip))
    ensures DmOk(Accept(s, fd, ip), |s.socks|)
  {
    var n := |s.socks|;
    var s' := Accept(s, fd, ip);
    forall d | 0 <= d < |s'.socks| ensures LogsOf(s', Handler(n))[d] == [] {
      if d < n {
        assert AuthorsIn(s.socks[d].log, s.pcs);
        NoCallsYet(s.socks[d].log, Handler(n));
      }
    }
  }

  // Every step keeps the bookkeeping of every sender's direct messages.
  lemma DoDms(env: Env, s: State, e: Event)
    requires Ok(s) && LocksOk(s) && RegOk(s) && OwnOk(env, s) && AuthorsOk(s) && DmsOk(s) && Can(env, s, e)
    ensures DmsOk(Do(env, s, e))
  {
    DoOk(env, s, e);
    var s' := Do(env, s, e);
    if !e.EvAccept? { Lengths(env, s, e); }
    forall c | 0 <= c < |s'.socks| ensures DmOk(s', c) {
      if c >= |s.socks| {
        FreshDm(s, e.fd, e.ip);
      } else if e.EvAccept? {
        AcceptDm(s, e.fd, e.ip, c);
      } else if Actor(e) != Handler(c) {
        OtherThreadDm(env, s, e, c);
      } else if !DmEvent(s, e) {
        QuietDm(env, s, e, c);
      } else {
        OwnDmStep(env, s, e, c);
      }
    }
  }

  // ---------- what a direct message amounts to ----------

  // Once nothing of message k is left to do, it has been answered exactly once on the sender's socket: 202 if
  // the name was registered at the lookup, 404 if not.
  lemma AnsweredOnceAndTruly(s: State, c: nat, k: nat)
    requires DmsOk(s) && c < |s.socks| && k < |s.hist[c].dms|
    requires k + 1 < |s.hist[c].dms| || (NoDms(Todo(s.pcs[Handler(c)])) && !s.pcs[Handler(c)].Deliver?)
    ensures var calls := Issued(s.socks[c].log, Handler(c));
            && Stamp(if s.hist[c].dms[k].present then Reply(OK_DM_SENT) else Reply(USER_NOT_FOUND), Dm(k)) in calls
            && forall i, j | 0 <= i < j < |calls| && calls[i].tag == Dm(k) && calls[j].tag == Dm(k) ::
                 calls[i].frame.ForDm? || calls[j].frame.ForDm?
  {
    var dms := s.hist[c].dms;
    var calls := LogsOf(s, Handler(c))[c];
    assert DmOk(s, c) && DmLog(calls, c, dms, c) && RecOk(s, dms[k], c, s.pcs[Handler(c)].Deliver? && k == |dms| - 1);
    assert AnswerDue(Todo(s.pcs[Handler(c)]), s.pcs[Handler(c)].Deliver?, dms, calls, k);
    assert HasSent(calls, k, false);
    var i :| 0 <= i < |calls| && calls[i].tag == Dm(k) && calls[i].frame.ForDm? == false;
    assert SentFits(calls[i], c, dms, c);
  }

  // A FOR_DM on any socket is message k of its author, sent there because that session held the destination
  // name at the lookup; it names the author's own session, and there is no second one anywhere.
  lemma ForwardedOnceToHolder(s: State, c: nat, d: nat, i: nat)
    requires DmsOk(s) && c < |s.socks| && d < |s.socks| && i < |Issued(s.socks[d].log, Handler(c))|
    requires Issued(s.socks[d].log, Handler(c))[i].tag.Dm? && Issued(s.socks[d].log, Handler(c))[i].frame.ForDm?
    ensures var x := Issued(s.socks[d].log, Handler(c))[i];
            && x.tag.k < |s.hist[c].dms|
            && var r := s.hist[c].dms[x.tag.k];
               && r.present && r.holder == Some(d) && s.sess[d].name == r.dest
               && x.frame == ForDm(s.sess[c].name, r.text)
    ensures forall e: nat, j: nat | e < |s.socks| && j < |Issued(s.socks[e].log, Handler(c))| ::
              (Issued(s.socks[e].log, Handler(c))[j].tag == Issued(s.socks[d].log, Handler(c))[i].tag
               && Issued(s.socks[e].log, Handler(c))[j].frame.ForDm?) ==> e == d && j == i
  {
    var dms := s.hist[c].dms;
    var logs := LogsOf(s, Handler(c));
    var x := logs[d][i];
    assert DmOk(s, c) && DmLog(logs[d], d, dms, c) && SentFits(x, d, dms, c);
    var k := x.tag.k;
    assert RecOk(s, dms[k], c, s.pcs[Handler(c)].Deliver? && k == |dms| - 1);
    forall e: nat, j: nat | e < |s.socks| && j < |logs[e]| && logs[e][j].tag == x.tag && logs[e][j].frame.ForDm?
      ensures e == d && j == i
    {
      assert DmLog(logs[e], e, dms, c) && SentFits(logs[e][j], e, dms, c);
    }
  }

  // If the name was registered and yet no FOR_DM was ever tried, its holder has been removed since the lookup, when
  // it was alive.
  lemma UntriedHolderIsGone(s: State, c: nat, k: nat)
    requires DmsOk(s) && c < |s.socks| && k < |s.hist[c].dms|
    requires k + 1 < |s.hist[c].dms| || !s.pcs[Handler(c)].Deliver?
    requires s.hist[c].dms[k].present && !s.hist[c].dms[k].tried
    ensures s.hist[c].dms[k].holder.Some? && s.hist[c].dms[k].holder.value < |s.sess|
    ensures s.hist[c].dms[k].live && !s.sess[s.hist[c].dms[k].holder.value].alive
  {
    var dms := s.hist[c].dms;
    assert DmOk(s, c) && RecOk(s, dms[k], c, s.pcs[Handler(c)].Deliver? && k == |dms| - 1);
  }

  // Two direct messages of one sender to the same session are never swapped on its socket.
  lemma DmsStayInOrder(s: State, c: nat, d: nat, i: nat, j: nat)
    requires DmsOk(s) && c < |s.socks| && d < |s.socks| && i < j < |s.socks[d].log|
    requires var log := s.socks[d].log;
             && log[i].author == Handler(c) && log[j].author == Handler(c) && log[i].tag.Dm? && log[j].tag.Dm?
             && log[i].frame.ForDm? == log[j].frame.ForDm?
    ensures s.socks[d].log[i].tag.k < s.socks[d].log[j].tag.k
  {
    assert DmOk(s, c) && DmLog(LogsOf(s, Handler(c))[d], d, s.hist[c].dms, c);
    var a, b := IssuedOrder(s.socks[d].log, Handler(c), i, j);
  }
}
