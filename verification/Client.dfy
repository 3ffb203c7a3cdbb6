/**
 The client's side (src/client/mainwindow.cpp and src/client/network.cpp): the status shown to the user, the
 requests the window sends on its own, and the network thread's receive-and-dispatch loop.
 */
module Client {
  import opened LengthField
  import opened Framing
  import opened Protocol
  import opened Sockets

  /** current_status_ and the entry the status box shows. */
  datatype View = View(current: Status, combo: Status)

  const FIRST_VIEW := View(ACTIVE, ACTIVE)

  // The entries of the status box, by index: the three enum values in order.
  function ItemData(index: nat): (v: Status)
    requires index < 3
    ensures StatusOf(index) == Some(v)
  {
    if index == 0 then ACTIVE else if index == 1 then DO_NOT_DISTURB else INVISIBLE
  }

  function ValueOf(v: Status): (n: int)
    ensures StatusOf(n) == Some(v)
  {
    match v case ACTIVE => 0 case DO_NOT_DISTURB => 1 case INVISIBLE => 2
  }

  // What a notice does to the window. A 201 names no status the client reads: it takes the box's entry.
  function Receive(w: View, code: int): View {
    if code == OK_STATUS_CHANGED then View(w.combo, w.combo)
    else if code == STATUS_RESTORED then View(ACTIVE, ACTIVE)
    else if code == AUTO_INACTIVE then View(INVISIBLE, INVISIBLE)
    else w
  }

  function ReceiveFrame(w: View, f: Frame): View {
    if f.Response? then Receive(w, f.code) else w
  }

  // The request a frame makes the client send on its own.
  function React(f: Frame): Option<Request> {
    if f.Response? && (f.code == OK_STATUS_CHANGED || f.code == STATUS_RESTORED) then Some(ListUsers(true)) else None
  }

  // The user picks an entry of the box. Nothing is signalled when it is the one already shown.
  function Choose(w: View, v: Status): (View, Option<Request>) {
    if v == w.combo then (w, None)
    else (View(w.current, v), if v == w.current then None else Some(ChangeStatus(Some(ValueOf(v)))))
  }

  function Listed(o: Option<Request>): seq<Request> {
    match o case Some(rq) => [rq] case None => []
  }

  // ---------- the window ----------

  class MainWindow {
    var currentStatus: Status
    var comboIndex: nat
    var requests: seq<Request> // handed to NetworkSender, in order

    constructor ()
      ensures Valid() && Shown() == FIRST_VIEW && requests == []
    {
      currentStatus, comboIndex, requests := ACTIVE, 0, [];
    }

    ghost predicate Valid() reads this {
      comboIndex < 3
    }

    ghost function Shown(): View reads this requires Valid() {
      View(currentStatus, ItemData(comboIndex))
    }

    method OnRefreshUsers()
      modifies this`requests
      ensures requests == old(requests) + [ListUsers(true)]
    {
      requests := requests + [ListUsers(true)];
    }

    method OnServerResponse(code: int)
      requires Valid()
      modifies this
      ensures Valid() && Shown() == Receive(old(Shown()), code)
      ensures requests == old(requests) + Listed(React(Reply(code)))
    {
      if code == OK_STATUS_CHANGED || code == STATUS_RESTORED {
        OnRefreshUsers();
        if code == STATUS_RESTORED {
          currentStatus := ACTIVE;
          comboIndex := 0;
        } else {
          currentStatus := ItemData(comboIndex);
        }
      } else if code == AUTO_INACTIVE {
        currentStatus := INVISIBLE;
        comboIndex := 2;
      }
    }

    // The slot of the box's currentIndexChanged signal.
    method OnChangeStatus(index: nat)
      requires index < 3
      modifies this`requests
      ensures requests == old(requests) +
                          if ItemData(index) == currentStatus then [] else [ChangeStatus(Some(index))]
    {
      var newStatus := ItemData(index);
      if newStatus == currentStatus { return; }
      requests := requests + [ChangeStatus(Some(index))];
    }

    // The user picks an entry: the box changes and, if it does, signals.
    method Pick(index: nat)
      requires Valid() && index < 3
      modifies this
      ensures Valid() && Shown() == Choose(old(Shown()), ItemData(index)).0
      ensures requests == old(requests) + Listed(Choose(old(Shown()), ItemData(index)).1)
    {
      if index != comboIndex {
        comboIndex := index;
        OnChangeStatus(index);
      }
    }
  }

  // ---------- the network thread ----------

  /** How the message library reads a payload of a given kind: any function will do. */
  type Parser = (byte, seq<byte>) -> Option<Frame>

  // The signal a received message raises: only known kinds with a payload that parses raise one.
  function Signal(parse: Parser, m: Message): seq<Frame> {
    if 10 <= m.kind <= 14 then match parse(m.kind, m.payload) case Some(f) => [f] case None => [] else []
  }

  predicate SameForm(f: Frame, g: Frame) {
    && (f.Response? <==> g.Response?) && (f.AllUsers? <==> g.AllUsers?) && (f.ForDm? <==> g.ForDm?)
    && (f.BroadcastDelivery? <==> g.BroadcastDelivery?) && (f.UserInfo? <==> g.UserInfo?)
  }

  // The kinds the thread knows are exactly those of the server's frames, and a kind tells the form of the frame.
  lemma KnownKinds(k: byte)
    ensures 10 <= k <= 14 <==> exists f: Frame :: Kind(f) == k
    ensures forall f: Frame, g: Frame | Kind(f) == Kind(g) :: SameForm(f, g)
  {
    assert Kind(Reply(0)) == 10 && Kind(AllUsers([])) == 11 && Kind(ForDm("", "")) == 12;
    assert Kind(BroadcastDelivery("", "")) == 13 && Kind(UserInfo("", "", ACTIVE)) == 14;
  }

  function Signals(parse: Parser, ms: seq<Message>): seq<Frame> {
    if ms == [] then [] else Signals(parse, ms[..|ms| - 1]) + Signal(parse, ms[|ms| - 1])
  }

  lemma SignalsSnoc(parse: Parser, ms: seq<Message>, m: Message)
    ensures Signals(parse, ms + [m]) == Signals(parse, ms) + Signal(parse, m)
  {
    assert (ms + [m])[..|ms|] == ms;
  }

  // The switch of the receive loop.
  method Dispatch(parse: Parser, m: Message, before: seq<Frame>) returns (signals: seq<Frame>)
    ensures signals == before + Signal(parse, m)
  {
    signals := before;
    if 10 <= m.kind <= 14 {
      var parsed := parse(m.kind, m.payload);
      if parsed.Some? {
        signals := signals + [parsed.value];
      }
    }
  }

  lemma Reassociate(a: seq<Message>, m: Message, b: seq<Message>)
    ensures a + ([m] + b) == a + [m] + b
  {}

  // The receive loop: signals for exactly the messages that arrive whole.
  method Listen(socket: Socket, parse: Parser) returns (signals: seq<Frame>)
    modifies socket`incoming
    ensures signals == Signals(parse, Parse(old(socket.incoming)))
  {
    signals := [];
    ghost var ms: seq<Message>, all := [], Parse(socket.incoming);
    while true
      invariant ms + Parse(socket.incoming) == all
      invariant signals == Signals(parse, ms)
      decreases |socket.incoming|
    {
      ghost var left := Parse(socket.incoming);
      var ok, m := RecvMessage(socket);
      if !ok {
        assert left == [];
        assert ms + left == ms;
        return;
      }
      assert left == [m] + Parse(socket.incoming);
      Reassociate(ms, m, Parse(socket.incoming));
      SignalsSnoc(parse, ms, m);
      ms := ms + [m];
      signals := Dispatch(parse, m, signals);
    }
  }

  // The parser undoes the serializer, frame kind by frame kind.
  ghost predicate Undoes(parse: Parser, ser: Serializer) {
    forall f :: parse(Kind(f), ser(f)) == Some(f)
  }

  lemma {:induction false} SignalsAreFrames(parse: Parser, ser: Serializer, fs: seq<Frame>)
    requires Undoes(parse, ser)
    ensures Signals(parse, AsMessages(ser, fs)) == fs
    decreases |fs|
  {
    if fs != [] {
      var init, last := fs[..|fs| - 1], fs[|fs| - 1];
      SignalsAreFrames(parse, ser, init);
      assert AsMessages(ser, fs)[..|fs| - 1] == AsMessages(ser, init);
      assert fs == init + [last];
    }
  }

  // End to end: of the frames a server put on the stream the thread signals, in order, those that arrived whole.
  lemma StreamSignals(parse: Parser, ser: Serializer, fs: seq<Frame>, cut: nat)
    requires Undoes(parse, ser) && AllFit(AsMessages(ser, fs)) && cut <= |EncodeAll(AsMessages(ser, fs))|
    ensures var n := WholeBefore(AsMessages(ser, fs), cut);
            Signals(parse, Parse(EncodeAll(AsMessages(ser, fs))[..cut])) == fs[..n]
  {
    var ms := AsMessages(ser, fs);
    var n := WholeBefore(ms, cut);
    ParsePrefix(ms, cut);
    assert ms[..n] == AsMessages(ser, fs[..n]);
    SignalsAreFrames(parse, ser, fs[..n]);
  }
}
