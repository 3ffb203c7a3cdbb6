/**
 The closed loop of server and clients with no user, timer or new connection: only messages already on their
 way are delivered, in any order, and the traffic they cause dies out within a bound known at the start.
 */
module Quiescence {
  import opened Protocol
  import opened Handlers
  import opened Client

  /** A message on its way: to the server on connection `fd`, or to the client at the other end of it. */
  datatype Flight = ToServer(fd: int, rq: Request) | ToClient(fd: int, frame: Frame)

  datatype Loop = Loop(sv: Server, flights: seq<Flight>)

  function Landing(outs: seq<Out>): (fs: seq<Flight>)
    ensures |fs| == |outs| && forall i | 0 <= i < |outs| :: fs[i] == ToClient(outs[i].fd, outs[i].frame)
  {
    seq(|outs|, i requires 0 <= i < |outs| => ToClient(outs[i].fd, outs[i].frame))
  }

  /** One delivery: which flight, and what the handler takes from its surroundings. */
  datatype Delivery = Delivery(k: nat, ip: string, now: int, order: seq<int>, rows: seq<Row>)

  ghost predicate CanDeliver(s: Loop, d: Delivery) {
    && d.k < |s.flights|
    && (s.flights[d.k].ToServer? ==> Legal(s.sv, 0, AsEvent(s.flights[d.k], d)))
  }

  function AsEvent(f: Flight, d: Delivery): Event
    requires f.ToServer?
  {
    Arrive(f.fd, d.ip, f.rq, d.now, d.order, d.rows)
  }

  function Caused(s: Loop, d: Delivery): (Server, seq<Flight>)
    requires d.k < |s.flights|
  {
    match s.flights[d.k]
    case ToServer(fd, rq) =>
      var r := Apply(s.sv, 0, AsEvent(s.flights[d.k], d)); (r.0, Landing(r.1))
    case ToClient(fd, f) =>
      (s.sv, match React(f) case Some(rq) => [ToServer(fd, rq)] case None => [])
  }

  function Deliver(s: Loop, d: Delivery): Loop
    requires d.k < |s.flights|
  {
    var r := Caused(s, d);
    Loop(r.0, s.flights[..d.k] + s.flights[d.k + 1..] + r.1)
  }

  // Connections that are registered or have a message on its way: nobody else can come in.
  ghost predicate Within(s: Loop, conns: set<int>) {
    s.sv.sessions.Keys <= conns && forall i | 0 <= i < |s.flights| :: s.flights[i].fd in conns
  }

  // ---------- weights ----------

  // With n connections: an upper bound on the deliveries a message can cause, itself included.
  function Weight(f: Flight, n: nat): nat {
    match f
    case ToClient(_, fr) => if React(fr).Some? then 3 else 1
    case ToServer(_, rq) =>
      match rq
      case MessageGeneral(_) => n + 4
      case MessageDm(_) => 6
      case ChangeStatus(_) => 4
      case _ => 2
  }

  function Total(fs: seq<Flight>, n: nat): nat {
    if fs == [] then 0 else Weight(fs[0], n) + Total(fs[1..], n)
  }

  lemma {:induction false} TotalAppend(a: seq<Flight>, b: seq<Flight>, n: nat)
    ensures Total(a + b, n) == Total(a, n) + Total(b, n)
  {
    if a == [] {
      assert a + b == b;
    } else {
      assert (a + b)[1..] == a[1..] + b;
      TotalAppend(a[1..], b, n);
    }
  }

  lemma TotalWithout(fs: seq<Flight>, k: nat, n: nat)
    requires k < |fs|
    ensures Total(fs, n) == Total(fs[..k] + fs[k + 1..], n) + Weight(fs[k], n)
  {
    assert fs == fs[..k] + fs[k..];
    TotalAppend(fs[..k], fs[k..], n);
    TotalAppend(fs[..k], fs[k + 1..], n);
  }

  lemma {:induction false} TotalOnes(fs: seq<Flight>, n: nat)
    requires forall i | 0 <= i < |fs| :: fs[i].ToClient? && React(fs[i].frame).None?
    ensures Total(fs, n) == |fs|
  {
    if fs != [] {
      TotalOnes(fs[1..], n);
    }
  }

  lemma {:induction false} OrderWithin(order: seq<int>, conns: set<int>)
    requires forall fd | fd in order :: fd in conns
    requires forall i, j | 0 <= i < j < |order| :: order[i] != order[j]
    ensures |order| <= |conns|
    decreases |order|
  {
    if order != [] {
      var init, last := order[..|order| - 1], order[|order| - 1];
      assert forall fd | fd in init :: fd in order && fd != last;
      OrderWithin(init, conns - {last});
    }
  }

  lemma RestoreWeight(a: Account, fd: int, rest: seq<Out>, n: nat)
    requires forall i | 0 <= i < |rest| :: React(rest[i].frame).None?
    ensures Total(Landing(RestoreOuts(a, fd) + rest), n) <= 3 + |rest|
  {
    var first := RestoreOuts(a, fd);
    assert Landing(first + rest) == Landing(first) + Landing(rest);
    TotalAppend(Landing(first), Landing(rest), n);
    TotalOnes(Landing(rest), n);
    if first != [] {
      assert Landing(first)[1..] == [];
    }
  }

  lemma OneWeight(o: Out, n: nat)
    ensures Total(Landing([o]), n) == Weight(ToClient(o.fd, o.frame), n)
  {
    assert Landing([o])[1..] == [];
  }

  lemma RequestWeight(sv: Server, fd: int, rq: Request, d: Delivery, conns: set<int>)
    requires sv.sessions.Keys <= conns && Legal(sv, 0, AsEvent(ToServer(fd, rq), d))
    ensures Total(Landing(Handle(sv, fd, d.ip, rq, d.now, d.order, d.rows).1), |conns|)
            < Weight(ToServer(fd, rq), |conns|)
  {
    var n, outs := |conns|, Handle(sv, fd, d.ip, rq, d.now, d.order, d.rows).1;
    if fd in sv.sessions && rq.MessageGeneral? && rq.text.Some? {
      OrderWithin(d.order, conns);
      RestoreWeight(sv.sessions[fd], fd, ToAll(d.order, BroadcastDelivery(rq.text.value, sv.sessions[fd].name)), n);
    } else if fd in sv.sessions && rq.MessageDm? && rq.dm.Some? {
      RestoreWeight(sv.sessions[fd], fd, outs[|RestoreOuts(sv.sessions[fd], fd)|..], n);
      assert outs == RestoreOuts(sv.sessions[fd], fd) + outs[|RestoreOuts(sv.sessions[fd], fd)|..];
    } else if outs != [] {
      OneWeight(outs[0], n);
      assert outs == [outs[0]];
    }
  }

  lemma RequestWithin(sv: Server, fd: int, rq: Request, d: Delivery, conns: set<int>)
    requires sv.sessions.Keys <= conns && fd in conns && Legal(sv, 0, AsEvent(ToServer(fd, rq), d))
    ensures Handle(sv, fd, d.ip, rq, d.now, d.order, d.rows).0.sessions.Keys <= conns
    ensures forall o | o in Handle(sv, fd, d.ip, rq, d.now, d.order, d.rows).1 :: o.fd in conns
  {
    if fd in sv.sessions && rq.MessageGeneral? && rq.text.Some? {
      forall i | 0 <= i < |d.order|
        ensures d.order[i] in conns
      {
        assert d.order[i] in d.order;
      }
    }
  }

  // Every delivery makes the total smaller, and lets nobody in.
  lemma DeliverShrinks(s: Loop, d: Delivery, conns: set<int>)
    requires Within(s, conns) && CanDeliver(s, d)
    ensures Within(Deliver(s, d), conns)
    ensures Total(Deliver(s, d).flights, |conns|) < Total(s.flights, |conns|)
  {
    var n, f, r := |conns|, s.flights[d.k], Caused(s, d);
    var rest := s.flights[..d.k] + s.flights[d.k + 1..];
    TotalWithout(s.flights, d.k, n);
    TotalAppend(rest, r.1, n);
    if f.ToServer? {
      RequestWeight(s.sv, f.fd, f.rq, d, conns);
      RequestWithin(s.sv, f.fd, f.rq, d, conns);
    } else {
      assert r.1 != [] ==> r.1[1..] == [];
    }
  }

  // ---------- runs ----------

  ghost predicate CanRun(s: Loop, ds: seq<Delivery>)
    decreases |ds|
  {
    ds != [] ==> CanDeliver(s, ds[0]) && CanRun(Deliver(s, ds[0]), ds[1..])
  }

  // However the deliveries are ordered, there are at most as many as the messages on their way weigh now.
  lemma {:induction false} TrafficDiesOut(s: Loop, ds: seq<Delivery>, conns: set<int>)
    requires Within(s, conns) && CanRun(s, ds)
    ensures |ds| <= Total(s.flights, |conns|)
    decreases |ds|
  {
    if ds != [] {
      DeliverShrinks(s, ds[0], conns);
      TrafficDiesOut(Deliver(s, ds[0]), ds[1..], conns);
    }
  }
}
