/**
 What is on the wire. In a disciplined run every socket carries whole frames, one after another, and at
 most one unfinished frame at the end; and nothing that needs a session precedes the 200 reply.
 */
module Wire {
  import opened LengthField
  import opened Framing
  import opened Protocol
  import opened Steps
  import opened Locks
  import opened Sessions

  // The bytes the send_message calls of a log have put out, call after call.
  function Written(env: Env, log: seq<Entry>): seq<byte> {
    if log == [] then []
    else
      var e := log[|log| - 1];
      var all := Bytes(env.ser, e.frame);
      Written(env, log[..|log| - 1]) + (if e.written <= |all| then all[..e.written] else all)
  }

  // No call puts out a byte unless all earlier ones are complete.
  predicate Neat(env: Env, log: seq<Entry>) {
    forall i, j | 0 <= i < j < |log| && log[j].written > 0 :: Complete(env, log[i])
  }

  predicate WritesTo(pc: Pc, c: nat) {
    pc.Writing? && pc.jobs != [] && pc.jobs[0].to == c
  }

  // A thread is in the middle of this send_message call.
  ghost predicate Busy(s: State, c: nat, i: nat) {
    exists t | t in s.pcs :: WritesTo(s.pcs[t], c) && s.pcs[t].at == i
  }

  ghost predicate LogOk(env: Env, k: Sock) {
    && k.wire == Written(env, k.log)
    && WithinSize(env, k.log) && Neat(env, k.log)
  }

  ghost predicate SockOk(env: Env, s: State, c: nat)
    requires c < |s.socks|
  {
    var k := s.socks[c];
    LogOk(env, k) && (!k.broken ==> forall i | 0 <= i < |k.log| :: Complete(env, k.log[i]) || Busy(s, c, i))
  }

  // Whoever is writing writes the last entry.
  predicate AtTail(s: State, pc: Pc) {
    pc.Writing? && pc.jobs != [] ==> pc.jobs[0].to < |s.socks| && pc.at + 1 == |s.socks[pc.jobs[0].to].log|
  }

  ghost predicate WireOk(env: Env, s: State) {
    && (forall c | 0 <= c < |s.socks| :: SockOk(env, s, c))
    && (forall t | t in s.pcs :: AtTail(s, s.pcs[t]))
  }

  // ---------- steps that write nothing ----------

  predicate SameTraffic(k: Sock, k': Sock) {
    k'.wire == k.wire && k'.log == k.log && k'.broken == k.broken
  }

  ghost predicate WireSame(s: State, s': State) {
    && |s.socks| <= |s'.socks|
    && (forall c | 0 <= c < |s.socks| :: SameTraffic(s.socks[c], s'.socks[c]))
    && (forall c | |s.socks| <= c < |s'.socks| :: s'.socks[c].wire == [] && s'.socks[c].log == [])
    && (forall t | t in s.pcs && s.pcs[t].Writing? :: t in s'.pcs && s'.pcs[t] == s.pcs[t])
    && (forall t | t in s'.pcs && s'.pcs[t].Writing? :: t in s.pcs && s'.pcs[t] == s.pcs[t])
  }

  lemma WireFrame(env: Env, s: State, s': State)
    requires WireOk(env, s) && WireSame(s, s')
    ensures WireOk(env, s')
  {
    forall c | 0 <= c < |s'.socks| ensures SockOk(env, s', c) {
      if c < |s.socks| {
        assert SockOk(env, s, c) && SameTraffic(s.socks[c], s'.socks[c]);
        forall i | 0 <= i < |s.socks[c].log| && Busy(s, c, i) ensures Busy(s', c, i) {
          var t :| t in s.pcs && WritesTo(s.pcs[t], c) && s.pcs[t].at == i;
          assert s'.pcs[t] == s.pcs[t];
        }
      }
    }
    forall t | t in s'.pcs ensures AtTail(s', s'.pcs[t]) {
      if s'.pcs[t].Writing? && s'.pcs[t].jobs != [] {
        assert AtTail(s, s.pcs[t]);
        assert SameTraffic(s.socks[s.pcs[t].jobs[0].to], s'.socks[s.pcs[t].jobs[0].to]);
      }
    }
  }

  // One thread moves between program counters outside send_message, and no socket changes.
  predicate NoTraffic(s: State, s': State, t: Tid) {
    && t in s.pcs && t in s'.pcs && s'.pcs == s.pcs[t := s'.pcs[t]] && s'.socks == s.socks
    && !s.pcs[t].Writing? && !s'.pcs[t].Writing?
  }

  lemma NoTrafficWrites(s: State, s': State, t: Tid)
    requires NoTraffic(s, s', t)
    ensures WireSame(s, s')
  {}

  lemma SectionWrites(s: State, t: Tid, sec: Section, order: seq<nat>, rows: seq<(string, Status)>)
    requires Shaped(s) && t in s.pcs && s.pcs[t].Inside? && SectionFor(t, sec, |s.socks|)
    requires (t.Handler? ==> t.c < |s.socks|)
    ensures NoTraffic(s, Body(s, t, sec, order, rows), t)
  {
    match sec {
      case Enrol(_) =>
      case Fetch(_) =>
      case Gather(_, _) =>
      case Seek(_, _, _) =>
      case Roll(_) =>
      case Inspect(_, _) =>
      case Scan =>
      case Leave =>
    }
  }

  lemma FieldWrites(s: State, t: Tid)
    requires Ok(s) && t in s.pcs && FieldPc(s.pcs[t])
    ensures WireSame(s, Field(s, t))
  {
    assert PcFor(t, s.pcs[t], s.socks, s.hist);
  }

  lemma SweepWrites(s: State, act: SweepAct)
    requires Ok(s) && CanSweep(s, act)
    ensures WireSame(s, DoSweep(s, act))
  {
    assert PcFor(Watchdog, s.pcs[Watchdog], s.socks, s.hist);
  }

  lemma OtherWrites(env: Env, s: State, e: Event)
    requires Ok(s) && Can(env, s, e) && !e.EvSend?
    ensures WireSame(s, Do(env, s, e))
  {
    match e {
      case EvBody(t, order, rows) =>
        assert PcFor(t, s.pcs[t], s.socks, s.hist);
        SectionWrites(s, t, s.pcs[t].sec, order, rows);
        NoTrafficWrites(s, Do(env, s, e), t);
      case EvField(t) => FieldWrites(s, t);
      case EvSweep(act) => SweepWrites(s, act);
      case _ =>
    }
  }

  // ---------- steps of a send ----------

  // Before a thread starts a send_message call, nobody is writing to that socket.
  lemma NobodyWrites(env: Env, s: State, t: Tid, u: Tid)
    requires Disciplined(env) && LocksOk(s) && OwnOk(env, s) && t in s.pcs && u in s.pcs
    requires s.pcs[t].Sending? && s.pcs[t].jobs != [] && s.pcs[t].jobs[0].to < |s.socks|
    requires s.pcs[t].locked ==> s.sess[s.pcs[t].jobs[0].to].lock == None
    ensures !WritesTo(s.pcs[u], s.pcs[t].jobs[0].to)
  {
    var d := s.pcs[t].jobs[0].to;
    if WritesTo(s.pcs[u], d) {
      assert PcInv(env, s, t, s.pcs[t]) && PcInv(env, s, u, s.pcs[u]) && HasItsLock(s, u, s.pcs[u]);
      LockedMade(env, s, t, s.pcs[t]);
      LockedMade(env, s, u, s.pcs[u]);
    }
  }

  lemma LockedMade(env: Env, s: State, t: Tid, pc: Pc)
    requires Disciplined(env) && Shaped(s) && (pc.Sending? || pc.Writing?)
    requires pc.jobs != [] && JobsInv(env, s, t, pc) && pc.jobs[0].to < |s.sess|
    ensures pc.locked <==> s.sess[pc.jobs[0].to].made
    ensures !pc.locked ==> t == Handler(pc.jobs[0].to)
  {
    if pc.locked && !(t.Handler? && Welcoming(pc, t.c)) {
      assert JobInv(env, s, t, pc.jobs[0]);
    }
  }

  predicate WithinSize(env: Env, log: seq<Entry>) {
    forall i | 0 <= i < |log| :: log[i].written <= Size(env, log[i].frame)
  }

  lemma TakeWritten(env: Env, log: seq<Entry>, e: Entry)
    requires e.written == 0
    ensures Written(env, log + [e]) == Written(env, log)
  {
    assert (log + [e])[..|log|] == log;
    AllOrNothing(Bytes(env.ser, e.frame));
  }

  lemma AllOrNothing(all: seq<byte>)
    ensures all[..0] == []
  {}

  lemma TakeNeat(env: Env, log: seq<Entry>, e: Entry)
    requires Neat(env, log) && WithinSize(env, log) && e.written == 0
    ensures Neat(env, log + [e]) && WithinSize(env, log + [e])
  {}

  lemma TakeLog(env: Env, k: Sock, e: Entry)
    requires LogOk(env, k) && e.written == 0
    ensures LogOk(env, k.(log := k.log + [e]))
  {
    TakeWritten(env, k.log, e);
    TakeNeat(env, k.log, e);
  }

  lemma PutWritten(env: Env, log: seq<Entry>, n: nat)
    requires log != [] && log[|log| - 1].written + n <= Size(env, log[|log| - 1].frame)
    ensures var m, e := |log| - 1, log[|log| - 1];
            Written(env, log[m := e.(written := e.written + n)])
            == Written(env, log) + Bytes(env.ser, e.frame)[e.written..e.written + n]
  {
    var m, e := |log| - 1, log[|log| - 1];
    var all := Bytes(env.ser, e.frame);
    var log' := log[m := e.(written := e.written + n)];
    assert log'[..m] == log[..m];
    assert all[..e.written] + all[e.written..e.written + n] == all[..e.written + n];
    Associative(Written(env, log[..m]), all[..e.written], all[e.written..e.written + n]);
  }

  lemma PutNeat(env: Env, log: seq<Entry>, n: nat)
    requires log != [] && forall i | 0 <= i < |log| - 1 :: Complete(env, log[i])
    ensures Neat(env, log[|log| - 1 := log[|log| - 1].(written := log[|log| - 1].written + n)])
  {}

  lemma PutWithin(env: Env, log: seq<Entry>, n: nat)
    requires log != [] && WithinSize(env, log) && log[|log| - 1].written + n <= Size(env, log[|log| - 1].frame)
    ensures WithinSize(env, log[|log| - 1 := log[|log| - 1].(written := log[|log| - 1].written + n)])
  {}

  lemma PutLog(env: Env, k: Sock, m: nat, n: nat)
    requires LogOk(env, k) && m + 1 == |k.log| && k.log[m].written + n <= Size(env, k.log[m].frame)
    requires forall i | 0 <= i < m :: Complete(env, k.log[i])
    ensures var e := k.log[m];
            var chunk := Bytes(env.ser, e.frame)[e.written..e.written + n];
            LogOk(env, k.(wire := k.wire + chunk, log := k.log[m := e.(written := e.written + n)]))
  {
    PutWritten(env, k.log, n);
    PutNeat(env, k.log, n);
    PutWithin(env, k.log, n);
  }

  // A socket that t neither starts on nor writes to.
  lemma OtherSock(env: Env, s: State, s': State, t: Tid, c: nat)
    requires c < |s.socks| && c < |s'.socks| && SockOk(env, s, c) && s'.socks[c] == s.socks[c]
    requires t in s.pcs && s'.pcs.Keys == s.pcs.Keys && forall u | u in s.pcs && u != t :: s'.pcs[u] == s.pcs[u]
    requires WritesTo(s.pcs[t], c) ==> s'.pcs[t] == s.pcs[t]
    ensures SockOk(env, s', c)
  {
    forall i | 0 <= i < |s.socks[c].log| && Busy(s, c, i) ensures Busy(s', c, i) {
      var u :| u in s.pcs && WritesTo(s.pcs[u], c) && s.pcs[u].at == i;
      assert s'.pcs[u] == s.pcs[u];
    }
  }

  lemma TakeWire(env: Env, s: State, t: Tid)
    requires Disciplined(env) && Ok(s) && LocksOk(s) && OwnOk(env, s) && WireOk(env, s) && CanSend(env, s, t, TakeLock)
    ensures WireOk(env, DoSend(env, s, t, TakeLock))
  {
    forall u | u in s.pcs ensures !WritesTo(s.pcs[u], s.pcs[t].jobs[0].to) {
      assert PcFor(t, s.pcs[t], s.socks, s.hist);
      NobodyWrites(env, s, t, u);
    }
    TakeQuiet(env, s, t);
  }

  // A socket whose last entry is being written, all others complete.
  lemma TailSock(env: Env, s: State, t: Tid, c: nat)
    requires c < |s.socks| && t in s.pcs && WritesTo(s.pcs[t], c) && s.pcs[t].at + 1 == |s.socks[c].log|
    requires LogOk(env, s.socks[c])
    requires (!s.socks[c].broken ==> forall i | 0 <= i < s.pcs[t].at :: Complete(env, s.socks[c].log[i]))
    ensures SockOk(env, s, c)
  {
    assert Busy(s, c, s.pcs[t].at);
  }

  lemma TakeTails(env: Env, s: State, t: Tid)
    requires Ok(s) && WireOk(env, s) && CanSend(env, s, t, TakeLock)
    requires forall u | u in s.pcs :: !WritesTo(s.pcs[u], s.pcs[t].jobs[0].to)
    ensures forall u | u in DoSend(env, s, t, TakeLock).pcs ::
        AtTail(DoSend(env, s, t, TakeLock), DoSend(env, s, t, TakeLock).pcs[u])
  {
    assert PcFor(t, s.pcs[t], s.socks, s.hist);
    var s' := DoSend(env, s, t, TakeLock);
    forall u | u in s'.pcs ensures AtTail(s', s'.pcs[u]) {
      if u != t { assert AtTail(s, s.pcs[u]); }
    }
  }

  lemma TakeSock(env: Env, s: State, t: Tid)
    requires Ok(s) && WireOk(env, s) && CanSend(env, s, t, TakeLock)
    requires forall u | u in s.pcs :: !WritesTo(s.pcs[u], s.pcs[t].jobs[0].to)
    ensures SockOk(env, DoSend(env, s, t, TakeLock), s.pcs[t].jobs[0].to)
  {
    assert PcFor(t, s.pcs[t], s.socks, s.hist);
    var d := s.pcs[t].jobs[0].to;
    var s' := DoSend(env, s, t, TakeLock);
    assert SockOk(env, s, d);
    TakeLog(env, s.socks[d], s'.socks[d].log[|s.socks[d].log|]);
    forall i | 0 <= i < |s.socks[d].log| ensures s'.socks[d].log[i] == s.socks[d].log[i] && !Busy(s, d, i) {}
    TailSock(env, s', t, d);
  }

  lemma TakeQuiet(env: Env, s: State, t: Tid)
    requires Ok(s) && WireOk(env, s) && CanSend(env, s, t, TakeLock)
    requires forall u | u in s.pcs :: !WritesTo(s.pcs[u], s.pcs[t].jobs[0].to)
    ensures WireOk(env, DoSend(env, s, t, TakeLock))
  {
    assert PcFor(t, s.pcs[t], s.socks, s.hist);
    var s' := DoSend(env, s, t, TakeLock);
    TakeTails(env, s, t);
    TakeSock(env, s, t);
    forall c | 0 <= c < |s'.socks| ensures SockOk(env, s', c) {
      if c != s.pcs[t].jobs[0].to { OtherSock(env, s, s', t, c); }
    }
  }

  lemma BusyIsLast(s: State, c: nat, i: nat)
    requires (forall t | t in s.pcs :: AtTail(s, s.pcs[t])) && c < |s.socks| && Busy(s, c, i)
    ensures i + 1 == |s.socks[c].log|
  {
    var u :| u in s.pcs && WritesTo(s.pcs[u], c) && s.pcs[u].at == i;
    assert AtTail(s, s.pcs[u]);
  }

  // Everything before the entry being written is complete.
  lemma EarlierComplete(env: Env, s: State, t: Tid)
    requires WireOk(env, s) && t in s.pcs && s.pcs[t].Writing? && s.pcs[t].jobs != []
    requires var d := s.pcs[t].jobs[0].to; d < |s.socks| && !s.socks[d].broken
    ensures var k := s.socks[s.pcs[t].jobs[0].to];
            s.pcs[t].at + 1 == |k.log| && forall i | 0 <= i < s.pcs[t].at :: Complete(env, k.log[i])
  {
    var d := s.pcs[t].jobs[0].to;
    assert AtTail(s, s.pcs[t]) && SockOk(env, s, d);
    forall i | 0 <= i < s.pcs[t].at ensures Complete(env, s.socks[d].log[i]) {
      if Busy(s, d, i) { BusyIsLast(s, d, i); }
    }
  }

  lemma PutTails(env: Env, s: State, t: Tid, n: nat)
    requires Ok(s) && WireOk(env, s) && CanSend(env, s, t, PutBytes(n))
    ensures var s' := DoSend(env, s, t, PutBytes(n));
            s'.pcs == s.pcs && forall u | u in s'.pcs :: AtTail(s', s'.pcs[u])
  {
    assert PcFor(t, s.pcs[t], s.socks, s.hist);
    var s' := DoSend(env, s, t, PutBytes(n));
    forall u | u in s'.pcs ensures AtTail(s', s'.pcs[u]) {
      assert AtTail(s, s.pcs[u]);
    }
  }

  // The log of the socket a step puts bytes on.
  lemma PutEntry(env: Env, s: State, d: nat, m: nat, n: nat)
    requires d < |s.socks| && LogOk(env, s.socks[d]) && m + 1 == |s.socks[d].log|
    requires forall i | 0 <= i < m :: Complete(env, s.socks[d].log[i])
    requires s.socks[d].log[m].written + n <= Size(env, s.socks[d].log[m].frame)
    ensures var s' := Put(env, s, d, m, n);
            && s'.pcs == s.pcs && |s'.socks| == |s.socks| && s'.socks[d].broken == s.socks[d].broken
            && LogOk(env, s'.socks[d])
            && m + 1 == |s'.socks[d].log| && forall i | 0 <= i < m :: Complete(env, s'.socks[d].log[i])
  {
    PutLog(env, s.socks[d], m, n);
  }

  lemma PutSock(env: Env, s: State, t: Tid, n: nat)
    requires Ok(s) && WireOk(env, s) && CanSend(env, s, t, PutBytes(n))
    ensures SockOk(env, DoSend(env, s, t, PutBytes(n)), s.pcs[t].jobs[0].to)
  {
    assert PcFor(t, s.pcs[t], s.socks, s.hist);
    var d := s.pcs[t].jobs[0].to;
    EarlierComplete(env, s, t);
    assert SockOk(env, s, d);
    PutEntry(env, s, d, s.pcs[t].at, n);
    TailSock(env, Put(env, s, d, s.pcs[t].at, n), t, d);
  }

  lemma PutWire(env: Env, s: State, t: Tid, n: nat)
    requires Ok(s) && WireOk(env, s) && CanSend(env, s, t, PutBytes(n))
    ensures WireOk(env, DoSend(env, s, t, PutBytes(n)))
  {
    assert PcFor(t, s.pcs[t], s.socks, s.hist);
    var s' := DoSend(env, s, t, PutBytes(n));
    PutSock(env, s, t, n);
    PutTails(env, s, t, n);
    forall c | 0 <= c < |s'.socks| ensures SockOk(env, s', c) {
      if c != s.pcs[t].jobs[0].to { OtherSock(env, s, s', t, c); }
    }
  }

  lemma FinishTails(env: Env, s: State, t: Tid, failed: bool)
    requires Ok(s) && WireOk(env, s) && CanSend(env, s, t, if failed then Break else Return)
    ensures var s' := Finish(s, t, s.pcs[t].jobs, s.pcs[t].locked, s.pcs[t].after, failed);
            forall u | u in s'.pcs :: AtTail(s', s'.pcs[u])
  {
    assert PcFor(t, s.pcs[t], s.socks, s.hist);
    var s' := Finish(s, t, s.pcs[t].jobs, s.pcs[t].locked, s.pcs[t].after, failed);
    forall u | u in s'.pcs ensures AtTail(s', s'.pcs[u]) {
      assert AtTail(s, s.pcs[u]);
    }
  }

  // The call that returned was complete, or its socket is broken now.
  lemma FinishBusy(env: Env, s: State, t: Tid, failed: bool, c: nat, i: nat)
    requires Ok(s) && CanSend(env, s, t, if failed then Break else Return) && c < |s.socks|
    requires i < |s.socks[c].log| && Busy(s, c, i)
    ensures var s' := Finish(s, t, s.pcs[t].jobs, s.pcs[t].locked, s.pcs[t].after, failed);
            Busy(s', c, i) || Complete(env, s.socks[c].log[i]) || s'.socks[c].broken
  {
    assert PcFor(t, s.pcs[t], s.socks, s.hist);
    var s' := Finish(s, t, s.pcs[t].jobs, s.pcs[t].locked, s.pcs[t].after, failed);
    var u :| u in s.pcs && WritesTo(s.pcs[u], c) && s.pcs[u].at == i;
    if u != t { assert s'.pcs[u] == s.pcs[u]; }
  }

  lemma FinishWire(env: Env, s: State, t: Tid, failed: bool)
    requires Ok(s) && WireOk(env, s) && CanSend(env, s, t, if failed then Break else Return)
    ensures WireOk(env, Finish(s, t, s.pcs[t].jobs, s.pcs[t].locked, s.pcs[t].after, failed))
  {
    assert PcFor(t, s.pcs[t], s.socks, s.hist);
    var s' := Finish(s, t, s.pcs[t].jobs, s.pcs[t].locked, s.pcs[t].after, failed);
    forall c | 0 <= c < |s'.socks| ensures SockOk(env, s', c) {
      assert SockOk(env, s, c);
      forall i | 0 <= i < |s.socks[c].log| && Busy(s, c, i)
        ensures Busy(s', c, i) || Complete(env, s.socks[c].log[i]) || s'.socks[c].broken
      {
        FinishBusy(env, s, t, failed, c, i);
      }
    }
    FinishTails(env, s, t, failed);
  }

  lemma ResumeWrites(env: Env, s: State, t: Tid)
    requires Ok(s) && CanSend(env, s, t, NoMore)
    ensures WireSame(s, DoSend(env, s, t, NoMore))
  {}

  // Every step of a disciplined run keeps every socket in order.
  lemma DoWire(env: Env, s: State, e: Event)
    requires Disciplined(env) && Ok(s) && LocksOk(s) && OwnOk(env, s) && WireOk(env, s) && Can(env, s, e)
    ensures WireOk(env, Do(env, s, e))
  {
    if e.EvSend? {
      match e.act {
        case TakeLock => TakeWire(env, s, e.t);
        case PutBytes(n) => PutWire(env, s, e.t, n);
        case Return => FinishWire(env, s, e.t, false);
        case Break => FinishWire(env, s, e.t, true);
        case NoMore =>
          ResumeWrites(env, s, e.t);
          WireFrame(env, s, DoSend(env, s, e.t, NoMore));
      }
    } else {
      OtherWrites(env, s, e);
      WireFrame(env, s, Do(env, s, e));
    }
  }

  // ---------- what the reader sees ----------

  function FramesOf(log: seq<Entry>): (fs: seq<Frame>)
    ensures |fs| == |log| && forall i | 0 <= i < |log| :: fs[i] == log[i].frame
  {
    seq(|log|, i requires 0 <= i < |log| => log[i].frame)
  }

  function Messages(env: Env, log: seq<Entry>): (ms: seq<Message>)
    ensures |ms| == |log|
    ensures forall i | 0 <= i < |log| :: ms[i] == AsMessage(env.ser, log[i].frame)
  {
    AsMessages(env.ser, FramesOf(log))
  }

  // How many leading send_message calls are complete.
  function Whole(env: Env, log: seq<Entry>): (m: nat)
    ensures m <= |log|
    ensures forall i | 0 <= i < m :: Complete(env, log[i])
    ensures m < |log| ==> !Complete(env, log[m])
  {
    if log == [] || !Complete(env, log[0]) then 0 else
      var m := 1 + Whole(env, log[1..]);
      assert forall i | 1 <= i < m :: log[i] == log[1..][i - 1];
      m
  }

  lemma AllOut(all: seq<byte>, n: nat)
    requires n >= |all|
    ensures (if n <= |all| then all[..n] else all) == all
  {}

  lemma WrittenLast(env: Env, log: seq<Entry>)
    requires log != [] && Complete(env, log[|log| - 1])
    ensures Written(env, log) == Written(env, log[..|log| - 1]) + Bytes(env.ser, log[|log| - 1].frame)
  {
    AllOut(Bytes(env.ser, log[|log| - 1].frame), log[|log| - 1].written);
  }

  lemma MessagesLast(env: Env, log: seq<Entry>)
    requires log != []
    ensures EncodeAll(Messages(env, log))
            == EncodeAll(Messages(env, log[..|log| - 1])) + Bytes(env.ser, log[|log| - 1].frame)
  {
    var n := |log| - 1;
    var last := [AsMessage(env.ser, log[n].frame)];
    assert Messages(env, log) == Messages(env, log[..n]) + last;
    EncodeAllAppend(Messages(env, log[..n]), last);
    assert EncodeAll(last) == Bytes(env.ser, log[n].frame) + EncodeAll([]);
  }

  lemma {:induction false} WrittenComplete(env: Env, log: seq<Entry>)
    requires forall i | 0 <= i < |log| :: Complete(env, log[i])
    ensures Written(env, log) == EncodeAll(Messages(env, log))
  {
    if log != [] {
      WrittenComplete(env, log[..|log| - 1]);
      WrittenLast(env, log);
      MessagesLast(env, log);
    }
  }

  lemma {:induction false} WrittenRest(env: Env, log: seq<Entry>, m: nat)
    requires m <= |log| && forall i | m <= i < |log| :: log[i].written == 0
    ensures Written(env, log) == Written(env, log[..m])
  {
    if m < |log| {
      var n := |log| - 1;
      WrittenRest(env, log[..n], m);
      assert log[..n][..m] == log[..m];
      assert Bytes(env.ser, log[n].frame)[..0] == [];
    } else {
      assert log[..m] == log;
    }
  }

  // The bytes the first unfinished call has put out.
  function Fragment(env: Env, log: seq<Entry>): (part: seq<byte>)
  {
    var m := Whole(env, log);
    if m < |log| then Bytes(env.ser, log[m].frame)[..log[m].written] else []
  }

  lemma WrittenSnoc(env: Env, log: seq<Entry>, m: nat)
    requires m < |log| && log[m].written <= Size(env, log[m].frame)
    ensures Written(env, log[..m + 1]) == Written(env, log[..m]) + Bytes(env.ser, log[m].frame)[..log[m].written]
  {
    assert log[..m + 1][..m] == log[..m];
  }

  // The wire is the complete frames in order, then part of at most one more.
  lemma WireShape(env: Env, k: Sock)
    requires LogOk(env, k)
    ensures var m := Whole(env, k.log);
            k.wire == EncodeAll(Messages(env, k.log[..m])) + Fragment(env, k.log)
  {
    var m := Whole(env, k.log);
    WrittenComplete(env, k.log[..m]);
    if m < |k.log| {
      forall i | m < i < |k.log| ensures k.log[i].written == 0 {}
      WrittenRest(env, k.log, m + 1);
      WrittenSnoc(env, k.log, m);
    } else {
      assert k.log[..m] == k.log;
    }
  }

  // A reader of the socket gets the frames whose send_message calls are complete, in order and up to the first
  // over the limit: exactly those frames when all of them fit.
  lemma ReaderSeesWholeFrames(env: Env, k: Sock)
    requires LogOk(env, k)
    ensures var ms := Messages(env, k.log[..Whole(env, k.log)]);
            Parse(k.wire) == Received(ms) && (Parse(k.wire) == ms <==> AllFit(ms))
  {
    WireShape(env, k);
    var m := Whole(env, k.log);
    var ms := Messages(env, k.log[..m]);
    if m < |k.log| { NextCut(AsMessage(env.ser, k.log[m].frame), k.log[m].written); }
    ParseAny(ms, Fragment(env, k.log));
    ReceivedExactly(ms);
  }

  // The unfinished frame of a working socket belongs to the holder of the session's send mutex, or to the
  // connection's own handler when it has no session.
  lemma FragmentOwner(env: Env, s: State, c: nat) returns (t: Tid)
    requires Disciplined(env) && LocksOk(s) && OwnOk(env, s) && WireOk(env, s) && c < |s.socks|
    requires !s.socks[c].broken && Whole(env, s.socks[c].log) < |s.socks[c].log|
    ensures t in s.pcs && WritesTo(s.pcs[t], c) && s.pcs[t].at == Whole(env, s.socks[c].log)
    ensures if s.sess[c].made then s.sess[c].lock == Some(t) else t == Handler(c)
  {
    var m := Whole(env, s.socks[c].log);
    assert SockOk(env, s, c) && Busy(s, c, m);
    t :| t in s.pcs && WritesTo(s.pcs[t], c) && s.pcs[t].at == m;
    assert PcInv(env, s, t, s.pcs[t]) && HasItsLock(s, t, s.pcs[t]);
    LockedMade(env, s, t, s.pcs[t]);
  }
}
