/**
 What a failed or partial write does. docs/IMPLEMENTATION.md:121 has a handler end when a write fails, and
 docs/protocol_standard.md:107 has header and payload go out in one write; the code does neither.
 */
module Failures {
  import opened LengthField
  import opened Framing
  import opened Protocol
  import opened Steps
  import opened Owners
  import opened Sessions
  import opened Casts
  import opened Runs
  import opened Undisciplined

  // ---------- when a handler ends ----------

  // On the way to remove_session: from the look-up of a Quit's session on.
  predicate Goes(sec: Section) {
    sec.Leave? || (sec.Fetch? && sec.rq.Quit?)
  }

  predicate Ending(pc: Pc) {
    match pc
    case Waiting(sec) => Goes(sec)
    case Inside(sec) => Goes(sec)
    case Sending(_, _, after) => after.Then? && Goes(after.sec)
    case Writing(_, _, _, after) => after.Then? && Goes(after.sec)
    case RestoreTest(_, sec) => Goes(sec)
    case RestoreStatus(_, sec) => Goes(sec)
    case RestoreManual(_, sec) => Goes(sec)
    case Erasing => true
    case Closing => true
    case Closed => true
    case _ => false
  }

  lemma FetchEnds(s: State, c: nat, rq: Request)
    requires c < |s.socks|
    ensures var s' := FetchBody(s, c, rq); Handler(c) in s'.pcs && (Ending(s'.pcs[Handler(c)]) <==> rq.Quit?)
  {}

  lemma InspectEnds(s: State, c: nat, me: nat, target: string)
    requires Shaped(s)
    ensures var s' := InspectBody(s, c, me, target); Handler(c) in s'.pcs && !Ending(s'.pcs[Handler(c)])
  {}

  lemma SeekEnds(s: State, c: nat, me: nat, dest: string, text: string)
    requires Shaped(s) && c < |s.hist| && me < |s.sess|
    ensures var s' := SeekBody(s, c, me, dest, text); Handler(c) in s'.pcs && !Ending(s'.pcs[Handler(c)])
  {}

  lemma EnrolEnds(s: State, c: nat, name: string)
    requires Shaped(s) && c < |s.socks|
    ensures var s' := EnrolBody(s, c, name); Handler(c) in s'.pcs && !Ending(s'.pcs[Handler(c)])
  {}

  lemma BodyEnds(s: State, c: nat, sec: Section, order: seq<nat>, rows: seq<(string, Status)>)
    requires Ok(s) && c < |s.socks| && SectionFor(Handler(c), sec, |s.socks|)
    ensures Handler(c) in Body(s, Handler(c), sec, order, rows).pcs
    ensures Ending(Body(s, Handler(c), sec, order, rows).pcs[Handler(c)]) <==> Goes(sec)
  {
    match sec {
      case Enrol(name) => EnrolEnds(s, c, name);
      case Fetch(rq) => FetchEnds(s, c, rq);
      case Gather(_, _) =>
      case Seek(me, dest, text) => SeekEnds(s, c, me, dest, text);
      case Roll(_) =>
      case Inspect(me, target) => InspectEnds(s, c, me, target);
      case Leave =>
    }
  }

  lemma FieldEnds(s: State, c: nat)
    requires Ok(s) && c < |s.socks| && FieldPc(s.pcs[Handler(c)])
    ensures Handler(c) in Field(s, Handler(c)).pcs
    ensures Ending(Field(s, Handler(c)).pcs[Handler(c)]) <==> Ending(s.pcs[Handler(c)])
  {
    assert PcFor(Handler(c), s.pcs[Handler(c)], s.socks, s.hist);
  }

  // A step of a send leaves a handler as much on its way out as it was, whether the send worked or failed.
  lemma SendEnds(env: Env, s: State, c: nat, act: SendAct)
    requires Ok(s) && c < |s.socks| && CanSend(env, s, Handler(c), act)
    ensures Handler(c) in DoSend(env, s, Handler(c), act).pcs
    ensures Ending(DoSend(env, s, Handler(c), act).pcs[Handler(c)]) <==> Ending(s.pcs[Handler(c)])
  {
    assert PcFor(Handler(c), s.pcs[Handler(c)], s.socks, s.hist);
    match act {
      case TakeLock =>
      case PutBytes(_) =>
      case Return =>
      case Break =>
      case NoMore =>
    }
  }

  // Events outside critical sections, field accesses and sends.
  lemma DispatchEnds(c: nat, rq: Request)
    ensures Ending(Dispatch(c, rq)) <==> rq.Quit?
  {}

  lemma LastMovesEnd(s: State, c: nat)
    requires Ok(s) && c < |s.socks|
    ensures EraseBody(s, c).pcs == s.pcs[Handler(c) := Closing] && Close(s, c).pcs == s.pcs[Handler(c) := Closed]
  {}

  lemma MovesEnd(env: Env, s: State, e: Event, c: nat)
    requires Ok(s) && Can(env, s, e) && c < |s.socks| && Actor(e) == Handler(c) && !e.EvBody? && !e.EvField?
    requires !e.EvSend?
    ensures Handler(c) in Do(env, s, e).pcs
    ensures Ending(Do(env, s, e).pcs[Handler(c)]) <==>
            Ending(s.pcs[Handler(c)]) || e.EvHangUp? || (e.EvRequest? && e.rq.Quit?)
  {
    match e {
      case EvRequest(_, rq) => DispatchEnds(c, rq);
      case EvHangUp(_) =>
      case EvAcquire(_) =>
      case EvErase(_) => LastMovesEnd(s, c);
      case EvClose(_) => LastMovesEnd(s, c);
    }
  }

  // A handler starts to end exactly when recv_message is false, be it at end of stream, for an error or for a length
  // over the limit, or when it reads a Quit, and then goes on to its end: no failed write makes it.
  lemma EndsExactly(env: Env, s: State, e: Event, c: nat)
    requires Ok(s) && Can(env, s, e) && c < |s.socks|
    ensures Handler(c) in Do(env, s, e).pcs
    ensures Ending(Do(env, s, e).pcs[Handler(c)]) <==>
            Ending(s.pcs[Handler(c)]) || e == EvHangUp(c) || (e.EvRequest? && e.c == c && e.rq.Quit?)
  {
    if Actor(e) != Handler(c) {
      OthersLeave(env, s, e, c);
    } else {
      match e {
        case EvBody(t, order, rows) =>
          assert PcFor(t, s.pcs[t], s.socks, s.hist);
          BodyEnds(s, c, s.pcs[t].sec, order, rows);
        case EvField(t) => FieldEnds(s, c);
        case EvSend(t, act) => SendEnds(env, s, c, act);
        case _ => MovesEnd(env, s, e, c);
      }
    }
  }

  // A handler whose own reply failed, back at reading requests, its socket broken.
  ghost predicate WentOn(env: Env, s: State, c: nat) {
    && Reached(env, s) && c < |s.socks| && Handler(c) in s.pcs && s.pcs[Handler(c)] == Reading && s.socks[c].broken
    && exists i | 0 <= i < |s.socks[c].log| ::
         s.socks[c].log[i].author == Handler(c) && s.socks[c].log[i].written < Size(env, s.socks[c].log[i].frame)
  }

  // A stranger's first request draws a 400, whose very first ::send fails.
  lemma FailedReply(env: Env) returns (s: State)
    ensures Reached(env, s) && Ok(s) && H in s.pcs && s.pcs[H] == Sending([], false, Loop)
    ensures |s.socks| == 1 && s.socks[0].broken && s.socks[0].log == [Entry(Reply(BAD_REQUEST), H, Plain, false, 0)]
  {
    s := Start(env);
    s := Go(env, s, EvRequest(0, Unknown(9)));
    s := GoTake(env, s, H, [Job(0, Reply(BAD_REQUEST), Plain)], false, Loop);
    s := Go(env, s, EvSend(H, Break));
  }

  lemma FailedReplyEndsNothing(env: Env)
    ensures exists s, c :: WentOn(env, s, c)
  {
    var s := FailedReply(env);
    s := Go(env, s, EvSend(H, NoMore));
    assert WentOn(env, s, 0);
  }

  // ---------- how many writes a frame takes ----------

  // The first ::send of a call completes its frame exactly when there is no payload and it takes the whole header.
  lemma OneWriteExactly(env: Env, s: State, t: Tid, n: nat)
    requires Ok(s) && CanSend(env, s, t, PutBytes(n)) && Current(s, s.pcs[t]).written == 0
    ensures var f := Current(s, s.pcs[t]).frame; var pc := s.pcs[t];
            var s' := DoSend(env, s, t, PutBytes(n));
            && pc.jobs[0].to < |s'.socks| && pc.at < |s'.socks[pc.jobs[0].to].log|
            && (Complete(env, Current(s', pc)) <==> |env.ser(f)| % TWO_32 == 0 && n == HEADER_SIZE)
  {
    EncodeShape(AsMessage(env.ser, Current(s, s.pcs[t]).frame));
  }
}
