/**
 The watchdog's scan among the threads: it visits every registered session once, every session it visits is alive,
 and it marks exactly those that are visible and found idle.
 */
module Sweeps {
  import opened Framing
  import opened Protocol
  import opened Steps
  import opened Locks
  import opened Owners

  predicate Scanning(pc: Pc) {
    pc.Sweep? || pc.Mark?
  }

  // What is left to visit, and the session about to be marked, are registered.
  ghost predicate ScanOk(s: State) {
    && Domain(s) && Watchdog in s.pcs
    && var pc := s.pcs[Watchdog];
       && (Scanning(pc) ==> pc.todo <= AllSessions(s))
       && (pc.Mark? ==> pc.c in AllSessions(s))
  }

  // While the watchdog scans it has sessions_mutex_, and no other thread changes the registry.
  lemma RegistryStays(env: Env, s: State, e: Event)
    requires Ok(s) && LocksOk(s) && Can(env, s, e) && Watchdog in s.pcs && Scanning(s.pcs[Watchdog])
    ensures Do(env, s, e).sessions == s.sessions
  {
    assert HoldsReg(s.pcs[Watchdog]) && s.reg == Some(Watchdog);
    assert Actor(e) in s.pcs && (HoldsReg(s.pcs[Actor(e)]) <==> Actor(e) == Watchdog);
    if !Touches(s, e) { QuietEvent(env, s, e); }
  }

  lemma ScanBegins(env: Env, s: State, e: Event)
    requires Ok(s) && Can(env, s, e) && e.EvBody? && e.t == Watchdog
    ensures Watchdog in Do(env, s, e).pcs && Do(env, s, e).pcs[Watchdog] == Sweep(AllSessions(s), [])
    ensures Do(env, s, e).sessions == s.sessions
  {
    assert PcFor(Watchdog, s.pcs[Watchdog], s.socks, s.hist);
  }

  lemma SweepGoesOn(s: State, act: SweepAct)
    requires Ok(s) && CanSweep(s, act)
    ensures var pc := s.pcs[Watchdog]; var pc' := DoSweep(s, act).pcs[Watchdog];
            && (Scanning(pc') ==> Scanning(pc) && pc'.todo <= pc.todo)
            && (pc'.Mark? ==> pc.Sweep? && pc'.c in pc.todo)
            && DoSweep(s, act).sessions == s.sessions
  {
    assert PcFor(Watchdog, s.pcs[Watchdog], s.socks, s.hist);
  }

  lemma SendsNoScan(env: Env, s: State, act: SendAct)
    requires Ok(s) && CanSend(env, s, Watchdog, act)
    ensures Watchdog in DoSend(env, s, Watchdog, act).pcs && !Scanning(DoSend(env, s, Watchdog, act).pcs[Watchdog])
  {
    assert PcFor(Watchdog, s.pcs[Watchdog], s.socks, s.hist);
  }

  lemma OwnSweep(env: Env, s: State, e: Event)
    requires Ok(s) && ScanOk(s) && Can(env, s, e) && Actor(e) == Watchdog && !e.EvAccept?
    requires Domain(Do(env, s, e)) && (e.EvSweep? ==> Do(env, s, e).sessions == s.sessions)
    ensures ScanOk(Do(env, s, e))
  {
    assert PcFor(Watchdog, s.pcs[Watchdog], s.socks, s.hist);
    match e {
      case EvBody(_, _, _) => ScanBegins(env, s, e);
      case EvSweep(act) => SweepGoesOn(s, act);
      case EvSend(_, act) => SendsNoScan(env, s, act);
      case EvAcquire(_) =>
      case EvWake =>
    }
  }

  lemma EnrolElsewhere(s: State, c: nat, name: string)
    requires Shaped(s) && c < |s.socks| && Watchdog in s.pcs
    ensures var s' := EnrolBody(s, c, name); Watchdog in s'.pcs && s'.pcs[Watchdog] == s.pcs[Watchdog]
  {}

  // Others leave the watchdog where it is.
  lemma OthersSweep(env: Env, s: State, e: Event)
    requires Ok(s) && Can(env, s, e) && (Actor(e) != Watchdog || e.EvAccept?)
    ensures Watchdog in Do(env, s, e).pcs && Do(env, s, e).pcs[Watchdog] == s.pcs[Watchdog]
  {
    if !Touches(s, e) {
      QuietEvent(env, s, e);
    } else if e.EvBody? && s.pcs[e.t].sec.Enrol? {
      EnrolElsewhere(s, e.t.c, s.pcs[e.t].sec.name);
    }
  }

  // Every step keeps it so.
  lemma DoSweeps(env: Env, s: State, e: Event)
    requires Ok(s) && LocksOk(s) && ScanOk(s) && Can(env, s, e)
    ensures ScanOk(Do(env, s, e))
  {
    DoOk(env, s, e);
    if Actor(e) == Watchdog && !e.EvAccept? {
      if e.EvSweep? { RegistryStays(env, s, e); }
      OwnSweep(env, s, e);
    } else {
      OthersSweep(env, s, e);
      if Scanning(s.pcs[Watchdog]) { RegistryStays(env, s, e); }
    }
  }

  // Nobody is half removed while the watchdog scans, so whoever it visits is alive.
  lemma VisitedAlive(s: State, c: nat)
    requires LocksOk(s) && LivesOk(s) && ScanOk(s) && Scanning(s.pcs[Watchdog]) && c in AllSessions(s)
    ensures c < |s.sess| && s.sess[c].alive
  {
    assert HoldsReg(s.pcs[Watchdog]);
    var fd :| fd in s.sessions && s.sessions[fd] == c;
    assert SessionOk(s, fd) && ConnOk(s, c);
    assert !HoldsReg(s.pcs[Handler(c)]);
  }

  // ---------- one scan ----------

  // The events of a run from a moment in a scan on, while the scan lasts.
  ghost predicate ScanRun(env: Env, states: seq<State>, events: seq<Event>) {
    && |states| == |events| + 1
    && (forall i | 0 <= i < |states| :: Ok(states[i]) && Scanning(states[i].pcs[Watchdog]))
    && (forall i | 0 <= i < |events| ::
          Can(env, states[i], events[i]) && states[i + 1] == Do(env, states[i], events[i]))
  }

  function Visits(events: seq<Event>): seq<nat> {
    if events == [] then []
    else
      var e := events[|events| - 1];
      Visits(events[..|events| - 1]) + (if e.EvSweep? && e.sweep.VisitOne? then [e.sweep.conn] else [])
  }

  lemma ScanStep(env: Env, s: State, e: Event)
    requires Ok(s) && Can(env, s, e) && Scanning(s.pcs[Watchdog])
    requires Watchdog in Do(env, s, e).pcs && Scanning(Do(env, s, e).pcs[Watchdog])
    ensures Do(env, s, e).pcs[Watchdog].todo ==
            s.pcs[Watchdog].todo - (if e.EvSweep? && e.sweep.VisitOne? then {e.sweep.conn} else {})
    ensures e.EvSweep? && e.sweep.VisitOne? ==> e.sweep.conn in s.pcs[Watchdog].todo
  {
    if Actor(e) != Watchdog || e.EvAccept? { OthersSweep(env, s, e); }
  }

  lemma ScanPrefix(env: Env, states: seq<State>, events: seq<Event>)
    requires ScanRun(env, states, events) && events != []
    ensures var n := |events| - 1;
            && ScanRun(env, states[..n + 1], events[..n])
            && Ok(states[n]) && Can(env, states[n], events[n]) && Scanning(states[n].pcs[Watchdog])
            && states[n + 1] == Do(env, states[n], events[n])
            && Watchdog in states[n + 1].pcs && Scanning(states[n + 1].pcs[Watchdog])
  {
    var n := |events| - 1;
    assert states[n + 1] == Do(env, states[n], events[n]);
    assert Ok(states[n + 1]) && Scanning(states[n + 1].pcs[Watchdog]);
  }

  // The sessions visited, each once, and those left are those the scan began with.
  ghost predicate Split(began: set<nat>, left: set<nat>, visits: seq<nat>) {
    && (forall c :: c in began <==> c in left || c in visits)
    && (forall c | c in visits :: c !in left)
    && (forall i, j | 0 <= i < j < |visits| :: visits[i] != visits[j])
  }

  lemma SplitStep(began: set<nat>, left: set<nat>, visits: seq<nat>, c: nat)
    requires Split(began, left, visits) && c in left
    ensures Split(began, left - {c}, visits + [c])
  {
    assert forall d :: d in visits + [c] <==> d in visits || d == c;
  }

  lemma {:induction false} ScanVisits(env: Env, states: seq<State>, events: seq<Event>)
    requires ScanRun(env, states, events)
    ensures Split(states[0].pcs[Watchdog].todo, states[|events|].pcs[Watchdog].todo, Visits(events))
    decreases |events|
  {
    if events != [] {
      var n := |events| - 1;
      ScanPrefix(env, states, events);
      ScanVisits(env, states[..n + 1], events[..n]);
      ScanStep(env, states[n], events[n]);
      var e := events[n];
      if e.EvSweep? && e.sweep.VisitOne? {
        SplitStep(states[0].pcs[Watchdog].todo, states[n].pcs[Watchdog].todo, Visits(events[..n]), e.sweep.conn);
      }
    }
  }

  lemma ScanEnds(env: Env, s: State)
    requires Ok(s) && Can(env, s, EvSweep(EndScan))
    ensures s.pcs[Watchdog].Sweep? && s.pcs[Watchdog].todo == {}
  {}

  // A whole scan visits everybody registered when it began, each once.
  lemma ScanVisitsAll(env: Env, s: State, states: seq<State>, events: seq<Event>)
    requires Ok(s) && Can(env, s, EvBody(Watchdog, [], [])) && s.pcs[Watchdog] == Inside(Scan)
    requires ScanRun(env, states, events) && states[0] == Do(env, s, EvBody(Watchdog, [], []))
    requires Can(env, states[|events|], EvSweep(EndScan))
    ensures Split(AllSessions(s), {}, Visits(events))
  {
    ScanBegins(env, s, EvBody(Watchdog, [], []));
    ScanEnds(env, states[|events|]);
    ScanVisits(env, states, events);
  }

  // A visit marks a session exactly if it is visible and found idle.
  lemma VisitMarks(env: Env, s: State, c: nat, idle: bool)
    requires Ok(s) && LocksOk(s) && LivesOk(s) && ScanOk(s) && Can(env, s, EvSweep(VisitOne(c, idle)))
    ensures c in AllSessions(s) && c < |s.sess|
    ensures var s' := Do(env, s, EvSweep(VisitOne(c, idle)));
            && Watchdog in s'.pcs
            && (s'.pcs[Watchdog].Mark? <==> s.sess[c].status != INVISIBLE && idle)
            && (s'.pcs[Watchdog].Mark? ==> s'.pcs[Watchdog].c == c)
  {
    VisitedAlive(s, c);
  }
}
