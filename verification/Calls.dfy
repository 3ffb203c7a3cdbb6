/**
 The send_message calls of one thread on one socket, in order, and how each step of the server extends them.
 */
module Calls {
  import opened Protocol
  import opened Steps
  import opened Sessions
  import opened Wire

  datatype Stamp = Stamp(frame: Frame, tag: Tag)

  function StampOf(e: Entry): Stamp {
    Stamp(e.frame, e.tag)
  }

  // The calls of thread t recorded in a log.
  function Issued(log: seq<Entry>, t: Tid): seq<Stamp> {
    if log == [] then []
    else
      var e := log[|log| - 1];
      Issued(log[..|log| - 1], t) + (if e.author == t then [StampOf(e)] else [])
  }

  lemma IssuedAppend(log: seq<Entry>, e: Entry, t: Tid)
    ensures Issued(log + [e], t) == Issued(log, t) + (if e.author == t then [StampOf(e)] else [])
  {
    assert (log + [e])[..|log|] == log;
  }

  // Writing bytes of a call does not change the record of calls.
  lemma {:induction false} IssuedLater(log: seq<Entry>, log': seq<Entry>, t: Tid)
    requires |log'| == |log| && forall i | 0 <= i < |log| :: Later(log[i], log'[i])
    ensures Issued(log', t) == Issued(log, t)
  {
    if log != [] {
      var m := |log| - 1;
      assert Later(log[m], log'[m]);
      IssuedLater(log[..m], log'[..m], t);
    }
  }

  // Calls come in the order of the log.
  lemma {:induction false} IssuedOrder(log: seq<Entry>, t: Tid, i: nat, j: nat) returns (a: nat, b: nat)
    requires i < j < |log| && log[i].author == t && log[j].author == t
    ensures a < b < |Issued(log, t)|
    ensures Issued(log, t)[a] == StampOf(log[i]) && Issued(log, t)[b] == StampOf(log[j])
  {
    var m := |log| - 1;
    if j == m {
      a := IssuedFind(log[..m], t, i);
      b := |Issued(log[..m], t)|;
    } else {
      a, b := IssuedOrder(log[..m], t, i, j);
    }
  }

  lemma {:induction false} IssuedFind(log: seq<Entry>, t: Tid, i: nat) returns (a: nat)
    requires i < |log| && log[i].author == t
    ensures a < |Issued(log, t)| && Issued(log, t)[a] == StampOf(log[i])
  {
    var m := |log| - 1;
    if i == m {
      a := |Issued(log[..m], t)|;
    } else {
      a := IssuedFind(log[..m], t, i);
    }
  }

  lemma {:induction false} IssuedBack(log: seq<Entry>, t: Tid, a: nat) returns (i: nat)
    requires a < |Issued(log, t)|
    ensures i < |log| && log[i].author == t && StampOf(log[i]) == Issued(log, t)[a]
  {
    var m := |log| - 1;
    if a < |Issued(log[..m], t)| {
      i := IssuedBack(log[..m], t, a);
    } else {
      i := m;
    }
  }

  // The call an event starts on socket d for thread t, if any.
  function NewCall(s: State, e: Event, t: Tid, d: nat): seq<Stamp> {
    if e.EvSend? && e.act.TakeLock? && e.t == t && t in s.pcs && s.pcs[t].Sending? && s.pcs[t].jobs != [] &&
        s.pcs[t].jobs[0].to == d then
      [Stamp(s.pcs[t].jobs[0].frame, s.pcs[t].jobs[0].tag)]
    else []
  }

  lemma TakeCalls(env: Env, s: State, u: Tid, t: Tid, d: nat)
    requires Ok(s) && CanSend(env, s, u, TakeLock) && d < |s.socks|
    ensures Issued(DoSend(env, s, u, TakeLock).socks[d].log, t) ==
        Issued(s.socks[d].log, t) + NewCall(s, EvSend(u, TakeLock), t, d)
  {
    assert PcFor(u, s.pcs[u], s.socks, s.hist);
    var j := s.pcs[u].jobs[0];
    if d == j.to {
      IssuedAppend(s.socks[d].log, Entry(j.frame, u, j.tag, s.pcs[u].locked, 0), t);
    }
  }

  // The other steps of a send only write bytes.
  lemma SendLater(env: Env, s: State, u: Tid, act: SendAct, d: nat)
    requires Ok(s) && CanSend(env, s, u, act) && !act.TakeLock? && d < |s.socks|
    ensures var s' := DoSend(env, s, u, act);
            |s'.socks| == |s.socks| && |s'.socks[d].log| == |s.socks[d].log|
            && forall i | 0 <= i < |s.socks[d].log| :: Later(s.socks[d].log[i], s'.socks[d].log[i])
  {
    assert PcFor(u, s.pcs[u], s.socks, s.hist);
  }

  // Every step adds to a thread's calls exactly the call it starts.
  lemma StepCalls(env: Env, s: State, e: Event, t: Tid, d: nat)
    requires Ok(s) && Can(env, s, e) && d < |s.socks|
    ensures d < |Do(env, s, e).socks|
    ensures Issued(Do(env, s, e).socks[d].log, t) == Issued(s.socks[d].log, t) + NewCall(s, e, t, d)
  {
    if e.EvSend? {
      if e.act.TakeLock? {
        TakeCalls(env, s, e.t, t, d);
      } else {
        SendLater(env, s, e.t, e.act, d);
        IssuedLater(s.socks[d].log, Do(env, s, e).socks[d].log, t);
      }
    } else {
      OtherWrites(env, s, e);
      assert SameTraffic(s.socks[d], Do(env, s, e).socks[d]);
    }
  }

  // The sends a thread still has to start.
  function Todo(pc: Pc): seq<Job> {
    if pc.Sending? then pc.jobs else if pc.Writing? && pc.jobs != [] then pc.jobs[1..] else []
  }
}
