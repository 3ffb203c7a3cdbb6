/**
 The exact condition for wire integrity. Three kinds of request are answered on the bare socket even when
 the connection has a session: an unknown message type, a Register that does not parse, and a Register with
 an empty name. If a registered client may send one of them, some run mixes the bytes of two frames.
 */
module Undisciplined {
  import opened LengthField
  import opened Framing
  import opened Protocol
  import opened Steps
  import opened Sessions
  import opened Wire
  import opened Runs
  import R = Registry

  const H := Handler(0)
  const W := Watchdog

  lemma Go(env: Env, s: State, e: Event) returns (s': State)
    requires Reached(env, s) && Ok(s) && Can(env, s, e)
    ensures s' == Do(env, s, e) && Reached(env, s') && Ok(s')
  {
    s' := Do(env, s, e);
    DoOk(env, s, e);
    var states :| Run(env, states) && states[|states| - 1] == s;
    var longer := states + [s'];
    forall i | 0 <= i < |longer| - 1 ensures Step(env, longer[i], longer[i + 1]) {
      if i < |states| - 1 {
        assert Step(env, states[i], states[i + 1]);
      } else {
        assert Ok(s) && Can(env, s, e) && longer[i + 1] == Do(env, s, e);
      }
    }
    assert Run(env, longer) && longer[|longer| - 1] == s';
  }

  lemma Start(env: Env) returns (s: State)
    ensures Reached(env, s) && Ok(s)
    ensures s == State(map[W := Sleeping, H := Reading], None, map[], map[], map[],
                       [Sock(5, "ip", true, false, [], [])], [Sess(false, "", false, ACTIVE, ACTIVE, None)],
                       [Hist([], [], 0, 0)])
  {
    InitOk();
    assert Run(env, [INIT]) && [INIT][|[INIT]| - 1] == INIT;
    s := Go(env, INIT, EvAccept(5, "ip"));
  }

  // The session of the one connection, and its socket, once registered.
  const MADE := Sess(true, "a", true, ACTIVE, ACTIVE, None)

  function Registered(pcH: Pc, pcW: Pc, reg: Option<Tid>, k: Sock, e: Sess, marks: nat): State {
    State(map[W := pcW, H := pcH], reg, map[5 := 0], map["a" := 5], map["ip" := 5], [k], [e], [Hist([], [], marks, 0)])
  }

  lemma Asked(env: Env) returns (s: State)
    ensures Reached(env, s) && Ok(s)
    ensures s == State(map[W := Sleeping, H := Inside(Enrol("a"))], Some(H), map[], map[], map[],
                       [Sock(5, "ip", true, false, [], [])], [Sess(false, "", false, ACTIVE, ACTIVE, None)],
                       [Hist([], [], 0, 0)])
  {
    s := Start(env);
    s := Go(env, s, EvRequest(0, Register(Some("a"))));
    s := Go(env, s, EvAcquire(H));
  }

  lemma Enrolled(env: Env) returns (s: State)
    ensures Reached(env, s) && Ok(s)
    ensures s == Registered(Sending([Job(0, Reply(OK_REGISTER), Plain)], true, Unlock), Sleeping, Some(H),
                            Sock(5, "ip", true, false, [], []), MADE, 0)
  {
    s := Asked(env);
    assert Regs(s) == R.EMPTY;
    s := Go(env, s, EvBody(H, [], []));
  }

  lemma GoTake(env: Env, s: State, t: Tid, jobs: seq<Job>, locked: bool, after: After) returns (s': State)
    requires Reached(env, s) && Ok(s) && t in s.pcs && s.pcs[t] == Sending(jobs, locked, after) && jobs != []
    requires jobs[0].to < |s.sess|
    requires locked ==> s.sess[jobs[0].to].lock == None
    ensures s' == Take(s, t, jobs, locked, after) && Reached(env, s') && Ok(s')
  {
    s' := Go(env, s, EvSend(t, TakeLock));
  }

  lemma GoPut(env: Env, s: State, t: Tid, n: nat) returns (s': State)
    requires Reached(env, s) && Ok(s) && t in s.pcs && s.pcs[t].Writing? && s.pcs[t].jobs[0].to == 0
    requires s.pcs[t].at < |s.socks[0].log|
    requires s.socks[0].open && !s.socks[0].broken
    requires var e := s.socks[0].log[s.pcs[t].at]; 0 < n <= Limit(Size(env, e.frame), e.written)
    ensures var e := s.socks[0].log[s.pcs[t].at];
            && e.written + n <= Size(env, e.frame)
            && s' == Put(env, s, 0, s.pcs[t].at, n)
    ensures Reached(env, s') && Ok(s')
  {
    s' := Go(env, s, EvSend(t, PutBytes(n)));
  }

  // The one socket, with bytes `wire` out and its last call at n bytes.
  function Open(wire: seq<byte>, log: seq<Entry>): Sock {
    Sock(5, "ip", true, false, wire, log)
  }

  lemma WelcomeTaken(env: Env) returns (s: State)
    ensures Reached(env, s) && Ok(s)
    ensures s == Registered(Writing([Job(0, Reply(OK_REGISTER), Plain)], 0, true, Unlock), Sleeping, Some(H),
                            Open([], [Entry(Reply(OK_REGISTER), H, Plain, true, 0)]), MADE.(lock := Some(H)), 0)
  {
    s := Enrolled(env);
    s := GoTake(env, s, H, [Job(0, Reply(OK_REGISTER), Plain)], true, Unlock);
    assert s.socks[0].log == [Entry(Reply(OK_REGISTER), H, Plain, true, 0)];
    assert s.socks == [Open([], [Entry(Reply(OK_REGISTER), H, Plain, true, 0)])];
    assert s.sess == [MADE.(lock := Some(H))];
  }

  // The one socket when n bytes of a call's frame are out after those of earlier calls.
  function Out(env: Env, wire: seq<byte>, before: seq<Entry>, e: Entry, n: nat): Sock
    requires n <= Size(env, e.frame)
  {
    Open(wire + Bytes(env.ser, e.frame)[..n], before + [e.(written := n)])
  }

  lemma PutOut(env: Env, s: State, wire: seq<byte>, before: seq<Entry>, e: Entry, w: nat, n: nat)
    requires w + n <= Size(env, e.frame) && s.socks == [Out(env, wire, before, e, w)]
    ensures Put(env, s, 0, |before|, n) == s.(socks := [Out(env, wire, before, e, w + n)])
  {
    var all := Bytes(env.ser, e.frame);
    assert wire + all[..w] + all[w..w + n] == wire + all[..w + n];
    assert (before + [e.(written := w)])[|before| := e.(written := w + n)] == before + [e.(written := w + n)];
  }

  // What one ::send does to the one socket.
  lemma PutOne(env: Env, s: State, t: Tid, wire: seq<byte>, before: seq<Entry>, e: Entry, w: nat, n: nat)
    returns (s': State)
    requires Reached(env, s) && Ok(s) && t in s.pcs && s.pcs[t].Writing? && s.pcs[t].jobs[0].to == 0
    requires s.pcs[t].at == |before| && w <= Size(env, e.frame) && s.socks == [Out(env, wire, before, e, w)]
    requires 0 < n <= Limit(Size(env, e.frame), w)
    ensures Reached(env, s') && Ok(s')
    ensures w + n <= Size(env, e.frame) && s' == s.(socks := [Out(env, wire, before, e, w + n)])
  {
    s' := GoPut(env, s, t, n);
    PutOut(env, s, wire, before, e, w, n);
  }

  lemma OutStart(env: Env, wire: seq<byte>, before: seq<Entry>, e: Entry)
    ensures Out(env, wire, before, e, 0) == Open(wire, before + [e.(written := 0)])
  {}

  lemma OutEnd(env: Env, wire: seq<byte>, before: seq<Entry>, e: Entry)
    ensures var all := Bytes(env.ser, e.frame);
            Out(env, wire, before, e, |all|) == Open(wire + all, before + [e.(written := |all|)])
  {
    var all := Bytes(env.ser, e.frame);
    assert all[..|all|] == all;
  }

  lemma PutRest(env: Env, s: State, t: Tid, wire: seq<byte>, before: seq<Entry>, e: Entry, w: nat, size: nat)
    returns (s': State)
    requires Reached(env, s) && Ok(s) && t in s.pcs && s.pcs[t].Writing? && s.pcs[t].jobs[0].to == 0
    requires HEADER_SIZE <= w <= size == Size(env, e.frame)
    requires s.pcs[t].at == |before| && s.socks == [Out(env, wire, before, e, w)]
    ensures Reached(env, s') && Ok(s')
    ensures s' == s.(socks := [Out(env, wire, before, e, size)])
  {
    s' := s;
    if w < size { s' := PutOne(env, s, t, wire, before, e, w, size - w); }
  }

  // A whole send_message call in two ::sends, or in one if there is no payload.
  lemma PutFrame(env: Env, s: State, t: Tid, wire: seq<byte>, before: seq<Entry>, e: Entry) returns (s': State)
    requires Reached(env, s) && Ok(s) && t in s.pcs && s.pcs[t].Writing? && s.pcs[t].jobs[0].to == 0
    requires s.pcs[t].at == |before| && s.socks == [Out(env, wire, before, e, 0)]
    ensures Reached(env, s') && Ok(s')
    ensures s' == s.(socks := [Out(env, wire, before, e, Size(env, e.frame))])
  {
    s' := PutOne(env, s, t, wire, before, e, 0, HEADER_SIZE);
    s' := PutRest(env, s', t, wire, before, e, HEADER_SIZE, Size(env, e.frame));
  }

  const WELCOME := Entry(Reply(OK_REGISTER), H, Plain, true, 0)

  lemma WelcomeOut(env: Env) returns (s: State)
    ensures Reached(env, s) && Ok(s)
    ensures s == Registered(Writing([Job(0, Reply(OK_REGISTER), Plain)], 0, true, Unlock), Sleeping, Some(H),
                            Welcomed(env), MADE.(lock := Some(H)), 0)
  {
    s := WelcomeTaken(env);
    OutStart(env, [], [], WELCOME);
    assert [] + [WELCOME] == [WELCOME];
    s := PutFrame(env, s, H, [], [], WELCOME);
    OutEnd(env, [], [], WELCOME);
    assert Out(env, [], [], WELCOME, Size(env, WELCOME.frame)) == Welcomed(env);
  }

  function Welcomed(env: Env): Sock {
    var all := Bytes(env.ser, Reply(OK_REGISTER));
    Open(all, [Entry(Reply(OK_REGISTER), H, Plain, true, |all|)])
  }

  // The client is registered and both threads are at rest.
  lemma AtRest(env: Env) returns (s: State)
    ensures Reached(env, s) && Ok(s) && s == Registered(Reading, Sleeping, None, Welcomed(env), MADE, 0)
  {
    s := WelcomeOut(env);
    s := Go(env, s, EvSend(H, Return));
    s := Go(env, s, EvSend(H, NoMore));
  }

  lemma Scanning(env: Env) returns (s: State)
    ensures Reached(env, s) && Ok(s) && s == Registered(Reading, Inside(Scan), Some(W), Welcomed(env), MADE, 0)
  {
    s := AtRest(env);
    s := Go(env, s, EvWake);
    s := Go(env, s, EvAcquire(W));
  }

  lemma Sweeping(env: Env) returns (s: State)
    ensures Reached(env, s) && Ok(s) && s == Registered(Reading, Sweep({0}, []), Some(W), Welcomed(env), MADE, 0)
  {
    s := Scanning(env);
    s := Go(env, s, EvBody(W, [], []));
    assert s.pcs[W] == Sweep({0}, []) by { assert s.sessions[5] == 0; }
  }

  // The watchdog finds the session idle.
  lemma Scanned(env: Env) returns (s: State)
    ensures Reached(env, s) && Ok(s) && s == Registered(Reading, Mark(0, {}, []), Some(W), Welcomed(env), MADE, 0)
  {
    s := Sweeping(env);
    s := Go(env, s, EvSweep(VisitOne(0, true)));
    assert {0} - {0} == {};
  }

  const IDLE := MADE.(status := INVISIBLE)

  lemma MarkIs(env: Env)
    ensures MarkIdle(Registered(Reading, Mark(0, {}, []), Some(W), Welcomed(env), MADE, 0), 0, {}, [])
            == Registered(Reading, Sweep({}, [0]), Some(W), Welcomed(env), IDLE, 1)
  {
    assert [] + [0 as nat] == [0];
  }

  lemma Marked(env: Env) returns (s: State)
    ensures Reached(env, s) && Ok(s) && s == Registered(Reading, Sweep({}, [0]), Some(W), Welcomed(env), IDLE, 1)
  {
    s := Scanned(env);
    MarkIs(env);
    s := Go(env, s, EvSweep(MarkOne));
  }

  lemma Notifying(env: Env) returns (s: State)
    ensures Reached(env, s) && Ok(s)
    ensures s == Registered(Reading, Sending([Job(0, Reply(AUTO_INACTIVE), Plain)], true, Sleep), None,
                            Welcomed(env), IDLE, 1)
  {
    s := Marked(env);
    s := Go(env, s, EvSweep(EndScan));
    assert NoticeJobs([0]) == [Job(0, Reply(AUTO_INACTIVE), Plain)];
  }

  lemma BareQueued(env: Env, rq: Request) returns (s: State)
    requires env.allow(rq) && Bare(rq)
    ensures Reached(env, s) && Ok(s)
    ensures s == Registered(Sending([Job(0, Reply(BAD_REQUEST), Plain)], false, Loop),
                            Sending([Job(0, Reply(AUTO_INACTIVE), Plain)], true, Sleep), None, Welcomed(env), IDLE, 1)
  {
    s := Notifying(env);
    s := Go(env, s, EvRequest(0, rq));
  }

  function Refused(env: Env, n: nat): seq<Entry> {
    Welcomed(env).log + [Entry(Reply(BAD_REQUEST), H, Plain, false, n)]
  }

  // The client has sent the request; H starts the 400 on the bare socket and gets one byte out.
  lemma BareByte(env: Env, rq: Request) returns (s: State)
    requires env.allow(rq) && Bare(rq)
    ensures Reached(env, s) && Ok(s)
    ensures s == Registered(Writing([Job(0, Reply(BAD_REQUEST), Plain)], 1, false, Loop),
                            Sending([Job(0, Reply(AUTO_INACTIVE), Plain)], true, Sleep), None,
                            Open(Welcomed(env).wire + [10], Refused(env, 1)), IDLE, 1)
  {
    s := BareTaken(env, rq);
    var k := Welcomed(env);
    var e := Entry(Reply(BAD_REQUEST), H, Plain, false, 0);
    OutStart(env, k.wire, k.log, e);
    s := PutOne(env, s, H, k.wire, k.log, e, 0, 1);
    assert Bytes(env.ser, e.frame)[..1] == [10];
  }

  lemma BareTaken(env: Env, rq: Request) returns (s: State)
    requires env.allow(rq) && Bare(rq)
    ensures Reached(env, s) && Ok(s)
    ensures s == Registered(Writing([Job(0, Reply(BAD_REQUEST), Plain)], 1, false, Loop),
                            Sending([Job(0, Reply(AUTO_INACTIVE), Plain)], true, Sleep), None,
                            Open(Welcomed(env).wire, Refused(env, 0)), IDLE, 1)
  {
    s := BareQueued(env, rq);
    s := GoTake(env, s, H, [Job(0, Reply(BAD_REQUEST), Plain)], false, Loop);
  }

  // The watchdog takes the send mutex, which is free,
  lemma NoticeTaken(env: Env, rq: Request) returns (s: State)
    requires env.allow(rq) && Bare(rq)
    ensures Reached(env, s) && Ok(s) && W in s.pcs
    ensures s.pcs[W] == Writing([Job(0, Reply(AUTO_INACTIVE), Plain)], 2, true, Sleep)
    ensures var log := Refused(env, 1) + [Entry(Reply(AUTO_INACTIVE), W, Plain, true, 0)];
            s.socks == [Open(Welcomed(env).wire + [10], log)]
  {
    s := BareByte(env, rq);
    s := GoTake(env, s, W, [Job(0, Reply(AUTO_INACTIVE), Plain)], true, Sleep);
  }

  // and gets one byte of the 602 out.
  lemma MixedBytes(env: Env, rq: Request) returns (s: State)
    requires env.allow(rq) && Bare(rq)
    ensures Reached(env, s) && |s.socks| == 1 && s.socks[0].wire == Welcomed(env).wire + [10] + [10]
    ensures FramesOf(s.socks[0].log) == [Reply(OK_REGISTER), Reply(BAD_REQUEST), Reply(AUTO_INACTIVE)]
  {
    s := NoticeTaken(env, rq);
    var wire := Welcomed(env).wire + [10];
    var e := Entry(Reply(AUTO_INACTIVE), W, Plain, true, 0);
    OutStart(env, wire, Refused(env, 1), e);
    s := PutOne(env, s, W, wire, Refused(env, 1), e, 0, 1);
    assert Bytes(env.ser, e.frame)[..1] == [10];
  }

  // The three replies of that run are of acceptable size.
  predicate RepliesFit(env: Env) {
    forall f | f in [Reply(OK_REGISTER), Reply(BAD_REQUEST), Reply(AUTO_INACTIVE)] :: Fits(AsMessage(env.ser, f))
  }

  // No sequence of frames of acceptable size begins with those bytes.
  lemma NotFrames(env: Env, ms: seq<Message>)
    requires Fits(AsMessage(env.ser, Reply(OK_REGISTER))) && AllFit(ms)
    ensures !(Welcomed(env).wire + [10] + [10] <= EncodeAll(ms))
  {
    var wire := Welcomed(env).wire + [10] + [10];
    if wire <= EncodeAll(ms) {
      var rest := EncodeAll(ms)[|wire|..];
      assert ms != [];
      assert Welcomed(env).wire + ([10, 10] + rest) == Encode(ms[0]) + EncodeAll(ms[1..]);
      PrefixFree(AsMessage(env.ser, Reply(OK_REGISTER)), [10, 10] + rest, ms[0], EncodeAll(ms[1..]));
      SecondByte(ms[1..], rest);
    }
  }

  // The second byte of a frame of acceptable size is the top byte of its length: 0 or 1.
  lemma SecondByte(ms: seq<Message>, rest: seq<byte>)
    requires AllFit(ms)
    ensures EncodeAll(ms) != [10, 10] + rest
  {
    if ms != [] {
      EncodeShape(ms[0]);
      assert Encode(ms[0])[1] == |ms[0].payload| / 0x100_0000 % 0x100;
      assert EncodeAll(ms)[1] == Encode(ms[0])[1];
      assert ([10, 10] + rest)[1] == 10;
    }
  }

  lemma BareRequestsMix(env: Env, rq: Request) returns (s: State)
    requires RepliesFit(env) && env.allow(rq) && Bare(rq)
    ensures Reached(env, s) && |s.socks| == 1 && !Intact(env, s.socks[0])
  {
    s := MixedBytes(env, rq);
    forall fs: seq<Frame> | forall f | f in fs :: f in FramesOf(s.socks[0].log)
      ensures !(s.socks[0].wire <= EncodeAll(AsMessages(env.ser, fs)))
    {
      forall i | 0 <= i < |fs| ensures Fits(AsMessages(env.ser, fs)[i]) { assert fs[i] in fs; }
      NotFrames(env, AsMessages(env.ser, fs));
    }
  }

  // Every socket of every run carries whole frames and at most one unfinished one, if and only if no
  // request a registered client may send is answered on the bare socket.
  lemma IntactExactlyWhenDisciplined(env: Env)
    requires RepliesFit(env)
    ensures (forall s: State, c: nat | Reached(env, s) && c < |s.socks| :: Intact(env, s.socks[c]))
            <==> Disciplined(env)
  {
    if Disciplined(env) {
      forall s: State, c: nat | Reached(env, s) && c < |s.socks| ensures Intact(env, s.socks[c]) {
        DisciplinedRunsAreIntact(env, s, c);
      }
    } else {
      var rq :| env.allow(rq) && Bare(rq);
      var s := BareRequestsMix(env, rq);
    }
  }
}
