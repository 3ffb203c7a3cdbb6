/**
 A broadcast that nobody gets. A general message may be as large as the receiving limit allows, and the delivery
 made of it carries the sender's name besides: it can be over the limit, and no reader takes it, the sender's own
 included. No write fails in this run and every call is complete.
 */
module Oversize {
  import opened Framing
  import opened Protocol
  import opened Steps
  import opened Sessions
  import opened Wire
  import opened Runs
  import opened Undisciplined

  // The one client, registered as "a", has posted the text.
  function Posted(text: string, pc: Pc, k: Sock, e: Sess): State {
    Registered(pc, Sleeping, None, k, e, 0).(hist := [Hist([CastRec(text, "a", [0], {0})], [], 0, 0)])
  }

  function Delivery(text: string): Frame {
    BroadcastDelivery(text, "a")
  }

  function Cast0(text: string): Entry {
    Entry(Delivery(text), H, Cast(0), true, 0)
  }

  lemma Asking(env: Env, text: string) returns (s: State)
    requires env.allow(MessageGeneral(Some(text)))
    ensures Reached(env, s) && Ok(s)
    ensures s == Registered(Inside(Fetch(MessageGeneral(Some(text)))), Sleeping, Some(H), Welcomed(env), MADE, 0)
  {
    s := AtRest(env);
    s := Go(env, s, EvRequest(0, MessageGeneral(Some(text))));
    s := Go(env, s, EvAcquire(H));
  }

  lemma Testing(env: Env, text: string) returns (s: State)
    requires env.allow(MessageGeneral(Some(text)))
    ensures Reached(env, s) && Ok(s)
    ensures s == Registered(RestoreTest(0, Gather(0, text)), Sleeping, None, Welcomed(env), MADE, 0)
  {
    s := Asking(env, text);
    assert s.sessions[5] == 0;
    s := Go(env, s, EvBody(H, [], []));
  }

  function Asker(env: Env, text: string): State {
    Registered(Inside(Gather(0, text)), Sleeping, Some(H), Welcomed(env), MADE, 0)
  }

  lemma Gathering(env: Env, text: string) returns (s: State)
    requires env.allow(MessageGeneral(Some(text)))
    ensures Reached(env, s) && Ok(s)
    ensures s == Asker(env, text)
  {
    s := Testing(env, text);
    s := Go(env, s, EvField(H));
    s := Go(env, s, EvAcquire(H));
  }

  lemma OneSession(env: Env, text: string)
    ensures Shaped(Asker(env, text)) && AllSessions(Asker(env, text)) == {0} && IsSnapshot(Asker(env, text), [0])
  {
    assert Asker(env, text).sessions[5] == 0;
  }

  lemma GatherIs(env: Env, text: string)
    ensures GatherBody(Asker(env, text), 0, 0, text, [0])
            == Posted(text, Sending([Job(0, Delivery(text), Cast(0))], true, Loop), Welcomed(env), MADE)
  {
    OneSession(env, text);
    assert CastJobs([0], Delivery(text), 0) == [Job(0, Delivery(text), Cast(0))];
    assert [] + [CastRec(text, "a", [0], {0})] == [CastRec(text, "a", [0], {0})];
  }

  lemma Gathered(env: Env, text: string) returns (s: State)
    requires env.allow(MessageGeneral(Some(text)))
    ensures Reached(env, s) && Ok(s)
    ensures s == Posted(text, Sending([Job(0, Delivery(text), Cast(0))], true, Loop), Welcomed(env), MADE)
  {
    s := Gathering(env, text);
    OneSession(env, text);
    GatherIs(env, text);
    s := Go(env, s, EvBody(H, [0], []));
  }

  lemma Delivering(env: Env, text: string) returns (s: State)
    requires env.allow(MessageGeneral(Some(text)))
    ensures Reached(env, s) && Ok(s)
    ensures s == Posted(text, Writing([Job(0, Delivery(text), Cast(0))], 1, true, Loop),
                        Open(Welcomed(env).wire, Welcomed(env).log + [Cast0(text)]), MADE.(lock := Some(H)))
  {
    s := Gathered(env, text);
    s := GoTake(env, s, H, [Job(0, Delivery(text), Cast(0))], true, Loop);
  }

  // The one socket at the end.
  function Both(env: Env, text: string): Sock {
    var k, all := Welcomed(env), Bytes(env.ser, Delivery(text));
    Open(k.wire + all, k.log + [Cast0(text).(written := |all|)])
  }

  lemma Delivered(env: Env, text: string) returns (s: State)
    requires env.allow(MessageGeneral(Some(text)))
    ensures Reached(env, s) && Ok(s)
    ensures s == Posted(text, Writing([Job(0, Delivery(text), Cast(0))], 1, true, Loop), Both(env, text),
                        MADE.(lock := Some(H)))
  {
    s := Delivering(env, text);
    var k := Welcomed(env);
    OutStart(env, k.wire, k.log, Cast0(text));
    s := PutFrame(env, s, H, k.wire, k.log, Cast0(text));
    OutEnd(env, k.wire, k.log, Cast0(text));
  }

  lemma ReturnIs(text: string, k: Sock, jobs: seq<Job>)
    requires |jobs| == 1 && jobs[0].to == 0
    ensures Finish(Posted(text, Writing(jobs, 1, true, Loop), k, MADE.(lock := Some(H))), H, jobs, true, Loop, false)
            == Posted(text, Sending([], true, Loop), k, MADE)
  {
    assert jobs[1..] == [];
    assert [MADE.(lock := Some(H))][0 := MADE] == [MADE];
  }

  lemma Returned(env: Env, text: string) returns (s: State)
    requires env.allow(MessageGeneral(Some(text)))
    ensures Reached(env, s) && Ok(s) && s == Posted(text, Sending([], true, Loop), Both(env, text), MADE)
  {
    s := Delivered(env, text);
    assert Both(env, text).log[1].written == Size(env, Delivery(text));
    ReturnIs(text, Both(env, text), s.pcs[H].jobs);
    s := Go(env, s, EvSend(H, Return));
  }

  lemma Finished(env: Env, text: string) returns (s: State)
    requires env.allow(MessageGeneral(Some(text)))
    ensures Reached(env, s) && Ok(s) && s == Posted(text, Reading, Both(env, text), MADE)
  {
    s := Returned(env, text);
    s := Go(env, s, EvSend(H, NoMore));
  }

  // Both calls on that socket are complete, and what a reader makes of it is at most the 200.
  lemma ReadOff(env: Env, text: string)
    requires !Readable(AsMessage(env.ser, Delivery(text)))
    ensures Parse(Both(env, text).wire) == Received([AsMessage(env.ser, Reply(OK_REGISTER))])
  {
    var a, b := AsMessage(env.ser, Reply(OK_REGISTER)), AsMessage(env.ser, Delivery(text));
    assert EncodeAll([a, b]) + [] == Both(env, text).wire by {
      assert [a, b][1..] == [b] && [b][1..] == [];
      assert EncodeAll([b]) == Encode(b) + [];
    }
    ParseAny([a, b], []);
    assert [a, b][1..] == [b] && [a][1..] == [];
    assert Received([b]) == [] && Received([]) == [];
  }

  // The run: the broadcast is over, its target is the sender, nothing failed, both threads are at rest, and the
  // target's reader has no broadcast.
  lemma OversizedBroadcastIsLost(env: Env, text: string) returns (s: State)
    requires env.allow(MessageGeneral(Some(text))) && !Readable(AsMessage(env.ser, BroadcastDelivery(text, "a")))
    ensures Reached(env, s) && |s.socks| == |s.hist| == 1 && s.pcs == map[W := Sleeping, H := Reading]
    ensures s.hist[0].casts == [CastRec(text, "a", [0], {0})]
    ensures var k := s.socks[0];
            && k.open && !k.broken && FramesOf(k.log) == [Reply(OK_REGISTER), BroadcastDelivery(text, "a")]
            && (forall i | 0 <= i < |k.log| :: Complete(env, k.log[i]))
            && Parse(k.wire) == Received([AsMessage(env.ser, Reply(OK_REGISTER))])
  {
    s := Finished(env, text);
    ReadOff(env, text);
  }

  // ---------- an input of that kind ----------

  // The size of a varint, and of a string field with a number below 16, by the Protocol Buffers encoding.
  function VarintSize(n: nat): nat {
    if n < 0x80 then 1 else 1 + VarintSize(n / 0x80)
  }

  function FieldSize(n: nat): nat {
    if n == 0 then 0 else 1 + VarintSize(n) + n
  }

  predicate Ascii(text: string) {
    forall i | 0 <= i < |text| :: text[i] < 128 as char
  }

  // A BroadcastDelivery is serialized as its two string fields.
  ghost predicate TwoFields(ser: Serializer) {
    forall text, origin | Ascii(text) && Ascii(origin) ::
      |ser(BroadcastDelivery(text, origin))| == FieldSize(|text|) + FieldSize(|origin|)
  }

  // The text of the largest MessageGeneral a server accepts when the message is its only field.
  const LARGEST: string := seq(16_777_211, i => 'x')

  // A request of exactly the limit whose delivery is over it.
  lemma LargestMessageIsLost(env: Env) returns (s: State)
    requires env.allow(MessageGeneral(Some(LARGEST))) && TwoFields(env.ser)
    ensures FieldSize(|LARGEST|) == MAX_PAYLOAD
    ensures Reached(env, s) && |s.socks| == |s.hist| == 1 && s.pcs == map[W := Sleeping, H := Reading]
    ensures s.hist[0].casts == [CastRec(LARGEST, "a", [0], {0})]
    ensures !s.socks[0].broken && forall i | 0 <= i < |s.socks[0].log| :: Complete(env, s.socks[0].log[i])
    ensures Parse(s.socks[0].wire) == Received([AsMessage(env.ser, Reply(OK_REGISTER))])
  {
    assert VarintSize(16_777_211) == 1 + VarintSize(131_071) && VarintSize(131_071) == 1 + VarintSize(1_023);
    assert VarintSize(1_023) == 1 + VarintSize(7);
    assert Ascii(LARGEST) && Ascii("a");
    s := OversizedBroadcastIsLost(env, LARGEST);
  }
}
