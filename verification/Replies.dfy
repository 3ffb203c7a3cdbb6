/**
 Registration comes first on the wire: whatever is sent under a session's send mutex starts only after the
 200 reply is out whole.
 */
module Replies {
  import opened Framing
  import opened Protocol
  import opened Steps
  import opened Sessions
  import opened Wire

  ghost predicate GreetedBefore(env: Env, log: seq<Entry>, j: nat)
    requires j <= |log|
  {
    exists i | 0 <= i < j :: log[i].frame == Reply(OK_REGISTER) && Complete(env, log[i])
  }

  // Entry j of the log: a refusal sent with no lock, the 200 itself, or something after it.
  ghost predicate EntryOk(env: Env, k: Sock, j: nat)
    requires j < |k.log|
  {
    var e := k.log[j];
    FrameBy(e.author, e.frame) &&
    if !e.locked then Refusal(e.frame)
    else e.frame == Reply(OK_REGISTER) || GreetedBefore(env, k.log, j) || (k.broken && e.written == 0)
  }

  ghost predicate ReplyOk(env: Env, k: Sock) {
    forall j | 0 <= j < |k.log| :: EntryOk(env, k, j)
  }

  ghost predicate RepliesOk(env: Env, s: State) {
    forall c | 0 <= c < |s.socks| :: ReplyOk(env, s.socks[c])
  }

  lemma ReplyStays(env: Env, k: Sock, k': Sock)
    requires ReplyOk(env, k) && |k'.log| == |k.log| && LogGrows(k.log, k'.log) && (k.broken ==> k'.broken)
    requires k.broken ==> k'.log == k.log
    ensures ReplyOk(env, k')
  {
    forall j | 0 <= j < |k'.log| ensures EntryOk(env, k', j) {
      assert EntryOk(env, k, j) && Later(k.log[j], k'.log[j]);
      if GreetedBefore(env, k.log, j) {
        var i :| 0 <= i < j && k.log[i].frame == Reply(OK_REGISTER) && Complete(env, k.log[i]);
        assert Later(k.log[i], k'.log[i]);
      }
    }
  }

  lemma ReplyAppended(env: Env, k: Sock, e: Entry)
    requires ReplyOk(env, k) && e.written == 0
    requires FrameBy(e.author, e.frame)
    requires if e.locked then e.frame == Reply(OK_REGISTER) || Greeted(env, k) else Refusal(e.frame)
    ensures ReplyOk(env, k.(log := k.log + [e]))
  {
    var k' := k.(log := k.log + [e]);
    forall j | 0 <= j < |k'.log| ensures EntryOk(env, k', j) {
      if j < |k.log| {
        assert EntryOk(env, k, j);
        if GreetedBefore(env, k.log, j) {
          var i :| 0 <= i < j && k.log[i].frame == Reply(OK_REGISTER) && Complete(env, k.log[i]);
          assert k'.log[i] == k.log[i];
        }
      } else if e.locked && e.frame != Reply(OK_REGISTER) && !k.broken {
        var i :| 0 <= i < |k.log| && k.log[i].frame == Reply(OK_REGISTER) && Complete(env, k.log[i]);
        assert k'.log[i] == k.log[i];
      }
    }
  }

  lemma TakeReplies(env: Env, s: State, t: Tid)
    requires Ok(s) && OwnOk(env, s) && RepliesOk(env, s) && CanSend(env, s, t, TakeLock)
    ensures RepliesOk(env, DoSend(env, s, t, TakeLock))
  {
    var pc := s.pcs[t];
    assert PcFor(t, pc, s.socks, s.hist);
    assert PcInv(env, s, t, pc);
    var d := pc.jobs[0].to;
    if pc.locked && !(t.Handler? && Welcoming(pc, t.c)) { assert JobInv(env, s, t, pc.jobs[0]); }
    var s' := DoSend(env, s, t, TakeLock);
    ReplyAppended(env, s.socks[d], s'.socks[d].log[|s.socks[d].log|]);
    forall c | 0 <= c < |s'.socks| ensures ReplyOk(env, s'.socks[c]) {
      if c != d { assert ReplyOk(env, s.socks[c]); }
    }
  }

  // The other steps of a send change no log's length.
  lemma SendReplies(env: Env, s: State, t: Tid, act: SendAct)
    requires Ok(s) && RepliesOk(env, s) && CanSend(env, s, t, act) && !act.TakeLock?
    ensures RepliesOk(env, DoSend(env, s, t, act))
  {
    assert PcFor(t, s.pcs[t], s.socks, s.hist);
    var s' := DoSend(env, s, t, act);
    forall c | 0 <= c < |s'.socks| ensures ReplyOk(env, s'.socks[c]) {
      assert ReplyOk(env, s.socks[c]);
      ReplyStays(env, s.socks[c], s'.socks[c]);
    }
  }

  lemma DoReplies(env: Env, s: State, e: Event)
    requires Ok(s) && OwnOk(env, s) && RepliesOk(env, s) && Can(env, s, e)
    ensures RepliesOk(env, Do(env, s, e))
  {
    if e.EvSend? {
      if e.act.TakeLock? { TakeReplies(env, s, e.t); } else { SendReplies(env, s, e.t, e.act); }
    } else {
      OtherWrites(env, s, e);
      var s' := Do(env, s, e);
      forall c | 0 <= c < |s'.socks| ensures ReplyOk(env, s'.socks[c]) {
        if c < |s.socks| {
          assert ReplyOk(env, s.socks[c]) && SameTraffic(s.socks[c], s'.socks[c]);
          ReplyStays(env, s.socks[c], s'.socks[c]);
        }
      }
    }
  }

  // Frames that only a registered client gets.
  predicate Notice(f: Frame) {
    f.BroadcastDelivery? || f.ForDm? || f.AllUsers? || f.UserInfo? || (f.Response? && f.code == AUTO_INACTIVE)
  }

  // Such a frame, or anything but the 200 itself that is sent under a session's send mutex.
  predicate ForMembers(e: Entry) {
    Notice(e.frame) || (e.locked && e.frame != Reply(OK_REGISTER))
  }

  // No byte of a broadcast, a direct message, a list, user info or a 602 precedes the whole 200 reply; nor does one
  // of anything else sent under a session's send mutex.
  lemma WelcomeComesFirst(env: Env, s: State, c: nat, j: nat)
    requires RepliesOk(env, s) && c < |s.socks| && j < |s.socks[c].log| && s.socks[c].log[j].written > 0
    requires ForMembers(s.socks[c].log[j])
    ensures GreetedBefore(env, s.socks[c].log, j)
  {
    assert ReplyOk(env, s.socks[c]) && EntryOk(env, s.socks[c], j);
  }

  // So message j that a reader gets, when it is one of those, comes after the 200, whatever the sizes.
  lemma ReaderIsWelcomedFirst(env: Env, s: State, c: nat, j: nat)
    requires RepliesOk(env, s) && WireOk(env, s) && c < |s.socks| && j < |Parse(s.socks[c].wire)|
    ensures j < |s.socks[c].log| && Parse(s.socks[c].wire)[j] == Arriving(AsMessage(env.ser, s.socks[c].log[j].frame))
    ensures ForMembers(s.socks[c].log[j]) ==>
              Arriving(AsMessage(env.ser, Reply(OK_REGISTER))) in Parse(s.socks[c].wire)[..j]
  {
    var k := s.socks[c];
    assert SockOk(env, s, c);
    ReaderSeesWholeFrames(env, k);
    var m := Whole(env, k.log);
    var ms := Messages(env, k.log[..m]);
    ReceivedLength(ms);
    ReceivedAt(ms, j);
    assert ms[j] == AsMessage(env.ser, k.log[j].frame) && Complete(env, k.log[j]);
    if ForMembers(k.log[j]) {
      WelcomeComesFirst(env, s, c, j);
      var i :| 0 <= i < j && k.log[i].frame == Reply(OK_REGISTER) && Complete(env, k.log[i]);
      ReceivedAt(ms, i);
      assert Received(ms)[..j][i] == Arriving(AsMessage(env.ser, Reply(OK_REGISTER)));
    }
  }
}
