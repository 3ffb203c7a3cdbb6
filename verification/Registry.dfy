/**
 The session registry of src/server/server.cpp: three maps updated together, and the plain set of
 (fd, username, ip) triples they stand for.
 */
module Registry {
  import opened Framing
  import opened Protocol

  datatype User = User(name: string, ip: string)

  /** sessions_ (by what identifies each session), username_to_fd_ and ip_to_fd_ */
  datatype Maps = Maps(users: map<int, User>, names: map<string, int>, ips: map<string, int>)

  const EMPTY := Maps(map[], map[], map[])

  // The three maps are mutually inverse.
  ghost predicate Inverse(m: Maps) {
    && (forall fd | fd in m.users ::
          && m.users[fd].name in m.names && m.names[m.users[fd].name] == fd
          && m.users[fd].ip in m.ips && m.ips[m.users[fd].ip] == fd)
    && (forall n | n in m.names :: m.names[n] in m.users && m.users[m.names[n]].name == n)
    && (forall a | a in m.ips :: m.ips[a] in m.users && m.users[m.ips[a]].ip == a)
  }

  // What handle_register answers a non-empty name: its three checks, in their order.
  function Verdict<T>(sessions: map<int, T>, names: map<string, int>, ips: map<string, int>,
                      fd: int, name: string, ip: string): int {
    if fd in sessions then BAD_REQUEST
    else if name in names then USERNAME_TAKEN
    else if ip in ips then IP_TAKEN
    else OK_REGISTER
  }

  // The two-step lookup by name: username_to_fd_, then sessions_.
  function Lookup<T>(sessions: map<int, T>, names: map<string, int>, name: string): Option<int> {
    if name in names && names[name] in sessions then Some(names[name]) else None
  }

  // The critical section of handle_register.
  function Join(m: Maps, fd: int, name: string, ip: string): (Maps, int) {
    var code := Verdict(m.users, m.names, m.ips, fd, name, ip);
    (if code == OK_REGISTER then Maps(m.users[fd := User(name, ip)], m.names[name := fd], m.ips[ip := fd]) else m, code)
  }

  // remove_session
  function Leave(m: Maps, fd: int): Maps {
    if fd !in m.users then m
    else Maps(m.users - {fd}, m.names - {m.users[fd].name}, m.ips - {m.users[fd].ip})
  }

  function Find(m: Maps, name: string): Option<int> {
    Lookup(m.users, m.names, name)
  }

  lemma JoinKeepsInverse(m: Maps, fd: int, name: string, ip: string)
    requires Inverse(m)
    ensures Inverse(Join(m, fd, name, ip).0)
  {}

  lemma LeaveKeepsInverse(m: Maps, fd: int)
    requires Inverse(m)
    ensures Inverse(Leave(m, fd))
  {}

  // ---------- the set of triples ----------

  datatype Triple = Triple(fd: int, name: string, ip: string)

  ghost function Triples(m: Maps): (t: set<Triple>)
    ensures forall x :: x in t <==> x.fd in m.users && m.users[x.fd] == User(x.name, x.ip)
  {
    set fd | fd in m.users :: Triple(fd, m.users[fd].name, m.users[fd].ip)
  }

  // Registration on the set: a code that looks at nothing but membership.
  ghost function SetJoin(t: set<Triple>, fd: int, name: string, ip: string): (set<Triple>, int) {
    if exists x | x in t :: x.fd == fd then (t, BAD_REQUEST)
    else if exists x | x in t :: x.name == name then (t, USERNAME_TAKEN)
    else if exists x | x in t :: x.ip == ip then (t, IP_TAKEN)
    else (t + {Triple(fd, name, ip)}, OK_REGISTER)
  }

  ghost function SetLeave(t: set<Triple>, fd: int): set<Triple> {
    set x | x in t && x.fd != fd
  }

  // A linear scan of the set for a name.
  ghost function SetFind(t: set<Triple>, name: string): set<int> {
    set x | x in t && x.name == name :: x.fd
  }

  lemma JoinRefines(m: Maps, fd: int, name: string, ip: string)
    requires Inverse(m)
    ensures Triples(Join(m, fd, name, ip).0) == SetJoin(Triples(m), fd, name, ip).0
    ensures Join(m, fd, name, ip).1 == SetJoin(Triples(m), fd, name, ip).1
  {
    var t := Triples(m);
    assert forall g | g in m.users :: Triple(g, m.users[g].name, m.users[g].ip) in t;
    var m' := Join(m, fd, name, ip).0;
    if Join(m, fd, name, ip).1 == OK_REGISTER {
      assert forall x: Triple :: x in Triples(m') <==> x in t + {Triple(fd, name, ip)};
    }
  }

  lemma LeaveRefines(m: Maps, fd: int)
    requires Inverse(m)
    ensures Triples(Leave(m, fd)) == SetLeave(Triples(m), fd)
  {
    assert forall x: Triple :: x in Triples(Leave(m, fd)) <==> x in SetLeave(Triples(m), fd);
  }

  lemma FindRefines(m: Maps, name: string)
    requires Inverse(m)
    ensures SetFind(Triples(m), name) == (match Find(m, name) case Some(fd) => {fd} case None => {})
    ensures name in m.names ==> Find(m, name).Some?
  {
    var t := Triples(m);
    assert forall g | g in m.users :: Triple(g, m.users[g].name, m.users[g].ip) in t;
    match Find(m, name)
    case Some(fd) =>
      assert Triple(fd, m.users[fd].name, m.users[fd].ip) in t;
      assert forall x | x in t && x.name == name :: x.fd == fd;
    case None =>
      assert forall x | x in t :: x.name != name;
  }

  // ---------- whole runs ----------

  datatype Op = OpJoin(fd: int, name: string, ip: string) | OpLeave(fd: int) | OpFind(name: string)

  datatype Answer = Code(code: int) | Done | Found(fds: set<int>)

  function Apply(m: Maps, op: Op): (Maps, Answer) {
    match op
    case OpJoin(fd, name, ip) => var r := Join(m, fd, name, ip); (r.0, Code(r.1))
    case OpLeave(fd) => (Leave(m, fd), Done)
    case OpFind(name) => (m, Found(match Find(m, name) case Some(fd) => {fd} case None => {}))
  }

  ghost function SetApply(t: set<Triple>, op: Op): (set<Triple>, Answer) {
    match op
    case OpJoin(fd, name, ip) => var r := SetJoin(t, fd, name, ip); (r.0, Code(r.1))
    case OpLeave(fd) => (SetLeave(t, fd), Done)
    case OpFind(name) => (t, Found(SetFind(t, name)))
  }

  function Answers(m: Maps, ops: seq<Op>): seq<Answer>
    decreases |ops|
  {
    if ops == [] then [] else var r := Apply(m, ops[0]); [r.1] + Answers(r.0, ops[1..])
  }

  ghost function SetAnswers(t: set<Triple>, ops: seq<Op>): seq<Answer>
    decreases |ops|
  {
    if ops == [] then [] else var r := SetApply(t, ops[0]); [r.1] + SetAnswers(r.0, ops[1..])
  }

  lemma ApplyRefines(m: Maps, op: Op)
    requires Inverse(m)
    ensures Inverse(Apply(m, op).0)
    ensures SetApply(Triples(m), op) == (Triples(Apply(m, op).0), Apply(m, op).1)
  {
    match op
    case OpJoin(fd, name, ip) =>
      JoinKeepsInverse(m, fd, name, ip);
      JoinRefines(m, fd, name, ip);
    case OpLeave(fd) =>
      LeaveKeepsInverse(m, fd);
      LeaveRefines(m, fd);
    case OpFind(name) =>
      FindRefines(m, name);
  }

  // Over any run the three maps answer exactly as the set of triples does.
  lemma {:induction false} RunRefines(m: Maps, ops: seq<Op>)
    requires Inverse(m)
    ensures Answers(m, ops) == SetAnswers(Triples(m), ops)
    decreases |ops|
  {
    if ops != [] {
      ApplyRefines(m, ops[0]);
      RunRefines(Apply(m, ops[0]).0, ops[1..]);
    }
  }

  // A released name and ip can be taken again, by any connection that has no session.
  lemma ReleasedCanRejoin(m: Maps, fd: int, other: int)
    requires Inverse(m) && fd in m.users && other !in Leave(m, fd).users
    ensures Join(Leave(m, fd), other, m.users[fd].name, m.users[fd].ip).1 == OK_REGISTER
    ensures Find(Leave(m, fd), m.users[fd].name) == None
  {}

  // Sets matched one to one by a pair of inverse maps have the same size.
  lemma {:induction false} SameSize<K, V>(keys: set<K>, image: set<V>, f: map<K, V>, g: map<V, K>)
    requires keys <= f.Keys && image <= g.Keys
    requires forall k | k in keys :: f[k] in image && g[f[k]] == k
    requires forall v | v in image :: g[v] in keys && f[g[v]] == v
    ensures |keys| == |image|
  {
    if keys == {} {
      assert image == {};
    } else {
      var k :| k in keys;
      SameSize(keys - {k}, image - {f[k]}, f, g);
    }
  }

  // The registry never holds more of one kind of entry than of another.
  lemma EqualSizes(m: Maps)
    requires Inverse(m)
    ensures |m.users| == |m.names| == |m.ips|
  {
    var name := map fd | fd in m.users :: m.users[fd].name;
    var ip := map fd | fd in m.users :: m.users[fd].ip;
    forall fd | fd in m.users.Keys
      ensures fd in name && name[fd] in m.names && m.names[name[fd]] == fd
      ensures fd in ip && ip[fd] in m.ips && m.ips[ip[fd]] == fd
    {
      assert fd in m.users;
    }
    SameSize(m.users.Keys, m.names.Keys, name, m.names);
    SameSize(m.users.Keys, m.ips.Keys, ip, m.ips);
  }
}
