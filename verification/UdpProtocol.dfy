/**
 * The UDP session table as a protocol. Many forward goroutines race through lookup, dial, store,
 * touch and write against one evictor that loads an entry, inspects it, closes its connection and
 * deletes its key. Each operation on the shared map or on a connection is one step, and any
 * interleaving of steps is a run.
 */
module UdpProtocol {

  type Key = string
  type Data = seq<bv8>
  type Conn = nat
  type Goroutine = nat

  /** Where a forward goroutine stands; conn is the session it will use, own one it alone knows of. */
  datatype Forward =
    | Received
    | Missed
    | Dialed(own: Conn)
    | Lost(own: Conn, conn: Conn)
    | Resolved(conn: Conn)
    | Touched(conn: Conn)
    | Done

  datatype Evictor =
    | Resting
    | Loaded(key: Key, conn: Conn)
    | Expired(key: Key, conn: Conn)
    | Closed(key: Key, conn: Conn)

  datatype Datagram = Datagram(key: Key, data: Data)
  datatype Write = Write(sender: Goroutine, conn: Conn, data: Data)
  datatype Reply = Reply(conn: Conn, client: Key)

  /**
   * Connections are numbered in the order they were dialed; dialed[c] is the client c was dialed
   * for. Input holds each goroutine's datagram, found the connection its lookup gave it.
   */
  datatype State = State(
    sessions: map<Key, Conn>, dialed: seq<Key>, closed: set<Conn>, lastSeen: map<Conn, int>,
    input: map<Goroutine, Datagram>, forwards: map<Goroutine, Forward>, found: map<Goroutine, Conn>,
    pumps: map<Conn, Key>, writes: seq<Write>, replies: seq<Reply>, evictor: Evictor)

  datatype Event =
    | Receive(f: Goroutine, datagram: Datagram)
    | Load(f: Goroutine)
    | GiveUp(f: Goroutine)
    | Dial(f: Goroutine, now: int)
    | LoadOrStore(f: Goroutine)
    | CloseOwn(f: Goroutine)
    | Touch(f: Goroutine, now: int)
    | Send(f: Goroutine)
    | Pump(c: Conn)
    | Visit(k: Key)
    | Inspect(cutoff: int)
    | Close
    | Delete

  predicate Live(s: State, f: Goroutine) {
    f in s.forwards && f in s.input
  }

  predicate Can(s: State, e: Event) {
    match e
    case Receive(f, d) => f !in s.input && f !in s.forwards
    case Load(f) => Live(s, f) && s.forwards[f].Received?
    case GiveUp(f) => Live(s, f) && s.forwards[f].Missed?
    case Dial(f, now) => Live(s, f) && s.forwards[f].Missed?
    case LoadOrStore(f) => Live(s, f) && s.forwards[f].Dialed?
    case CloseOwn(f) => Live(s, f) && s.forwards[f].Lost?
    case Touch(f, now) => Live(s, f) && s.forwards[f].Resolved?
    case Send(f) => Live(s, f) && s.forwards[f].Touched?
    case Pump(c) => c in s.pumps
    case Visit(k) => s.evictor.Resting? && k in s.sessions
    case Inspect(cutoff) => s.evictor.Loaded?
    case Close => s.evictor.Expired?
    case Delete => s.evictor.Closed?
  }

  function Moved(s: State, f: Goroutine, p: Forward): State {
    s.(forwards := s.forwards[f := p])
  }

  /** A lookup that ends with session c for goroutine f. */
  function Found(s: State, f: Goroutine, c: Conn): State {
    s.(found := s.found[f := c])
  }

  function Do(s: State, e: Event): State
    requires Can(s, e)
  {
    match e
    case Receive(f, d) => Moved(s, f, Received).(input := s.input[f := d])
    case Load(f) =>
      var k := s.input[f].key;
      if k in s.sessions then Found(Moved(s, f, Resolved(s.sessions[k])), f, s.sessions[k]) else Moved(s, f, Missed)
    case GiveUp(f) => Moved(s, f, Done)
    case Dial(f, now) =>
      var c := |s.dialed|;
      Moved(s, f, Dialed(c)).(dialed := s.dialed + [s.input[f].key], lastSeen := s.lastSeen[c := now])
    case LoadOrStore(f) =>
      var k, own := s.input[f].key, s.forwards[f].own;
      if k in s.sessions then Found(Moved(s, f, Lost(own, s.sessions[k])), f, s.sessions[k])
      else Found(Moved(s, f, Resolved(own)), f, own).(sessions := s.sessions[k := own], pumps := s.pumps[own := k])
    case CloseOwn(f) =>
      Moved(s, f, Resolved(s.forwards[f].conn)).(closed := s.closed + {s.forwards[f].own})
    case Touch(f, now) =>
      var c := s.forwards[f].conn;
      Moved(s, f, Touched(c)).(lastSeen := s.lastSeen[c := now])
    case Send(f) =>
      Moved(s, f, Done).(writes := s.writes + [Write(f, s.forwards[f].conn, s.input[f].data)])
    case Pump(c) => s.(replies := s.replies + [Reply(c, s.pumps[c])])
    case Visit(k) => s.(evictor := Loaded(k, s.sessions[k]))
    case Inspect(cutoff) =>
      var v := s.evictor;
      s.(evictor := if v.conn in s.lastSeen && s.lastSeen[v.conn] < cutoff then Expired(v.key, v.conn) else Resting)
    case Close => s.(evictor := Closed(s.evictor.key, s.evictor.conn), closed := s.closed + {s.evictor.conn})
    case Delete => s.(evictor := Resting, sessions := s.sessions - {s.evictor.key})
  }

  const START: State := State(map[], [], {}, map[], map[], map[], map[], map[], [], [], Resting)

  /** Every event of a run can happen when its turn comes. */
  predicate Runs(s: State, es: seq<Event>)
    decreases |es|
  {
    es == [] || (Can(s, es[0]) && Runs(Do(s, es[0]), es[1..]))
  }

  function After(s: State, es: seq<Event>): State
    requires Runs(s, es)
    decreases |es|
  {
    if es == [] then s else After(Do(s, es[0]), es[1..])
  }

  // ---- Ownership

  /** Goroutine f holds connection c and has not published it. */
  predicate Owns(s: State, f: Goroutine, c: Conn) {
    f in s.forwards && (s.forwards[f].Dialed? || s.forwards[f].Lost?) && s.forwards[f].own == c
  }

  predicate Published(s: State, c: Conn) {
    c < |s.dialed| && s.dialed[c] in s.sessions && s.sessions[s.dialed[c]] == c
  }

  function Owners(s: State): set<Goroutine> {
    set f | f in s.forwards && (s.forwards[f].Dialed? || s.forwards[f].Lost?)
  }

  /** A session is published only under the client it was dialed for, so under one key. */
  ghost predicate SessionsSound(s: State) {
    forall k :: k in s.sessions ==> s.sessions[k] < |s.dialed| && s.dialed[s.sessions[k]] == k
  }

  ghost predicate OwnersSound(s: State) {
    && (forall f :: f in s.forwards ==> f in s.input)
    && (forall f, c: Conn :: Owns(s, f, c) ==>
          c < |s.dialed| && s.dialed[c] == s.input[f].key && c !in s.closed && !Published(s, c) && c !in s.pumps)
    && (forall f, g, c: Conn :: Owns(s, f, c) && Owns(s, g, c) ==> f == g)
  }

  /** The evictor works on the session that is in the map, and its close is the only one of a published session. */
  ghost predicate EvictorSound(s: State) {
    && (!s.evictor.Resting? ==> s.evictor.key in s.sessions && s.sessions[s.evictor.key] == s.evictor.conn)
    && (forall c :: c in s.closed ==>
          c < |s.dialed| && (Published(s, c) ==> s.evictor.Closed? && s.evictor.conn == c))
    && (s.evictor.Closed? ==> s.evictor.conn in s.closed)
  }

  /** No connection is forgotten. */
  ghost predicate NoneLeaked(s: State) {
    forall c :: 0 <= c < |s.dialed| ==> c in s.closed || Published(s, c) || exists f :: Owns(s, f, c)
  }

  /** Dialed connections are closed, published or owned; the evictor's half-done eviction counts twice. */
  ghost predicate Balanced(s: State) {
    |s.dialed| + (if s.evictor.Closed? then 1 else 0) == |s.closed| + |s.sessions| + |Owners(s)|
  }

  /** Pumps answer the client their connection was dialed for; every published session has had one. */
  ghost predicate PumpsSound(s: State) {
    && (forall c :: c in s.pumps ==> c < |s.dialed| && s.pumps[c] == s.dialed[c])
    && (forall k :: k in s.sessions ==> s.sessions[k] in s.pumps)
  }

  ghost predicate Ownership(s: State) {
    SessionsSound(s) && PumpsSound(s) && OwnersSound(s) && EvictorSound(s) && NoneLeaked(s) && Balanced(s)
  }

  lemma SessionsSoundDo(s: State, e: Event)
    requires SessionsSound(s) && OwnersSound(s) && Can(s, e)
    ensures SessionsSound(Do(s, e))
  {
    if e.LoadOrStore? {
      assert Owns(s, e.f, s.forwards[e.f].own);
    }
  }

  lemma PublishedDialed(s: State, c: Conn)
    ensures Published(s, c) ==> c < |s.dialed|
  {}

  lemma EvictorPublished(s: State)
    requires SessionsSound(s) && EvictorSound(s) && !s.evictor.Resting?
    ensures Published(s, s.evictor.conn)
  {}

  /** Only a winning LoadOrStore publishes and only the evictor's delete withdraws, each its own connection. */
  lemma PublishedDo(s: State, e: Event, c: Conn)
    requires SessionsSound(s) && OwnersSound(s) && EvictorSound(s) && Can(s, e)
    ensures Published(Do(s, e), c) <==>
      || (Published(s, c) && !(e.Delete? && c == s.evictor.conn))
      || (e.LoadOrStore? && s.input[e.f].key !in s.sessions && c == s.forwards[e.f].own)
  {
    if e.LoadOrStore? {
      assert Owns(s, e.f, s.forwards[e.f].own);
    }
  }

  lemma OwnsDo(s: State, e: Event, f: Goroutine, c: Conn)
    requires Can(s, e) && Owns(Do(s, e), f, c)
    ensures Owns(s, f, c) || (e.Dial? && e.f == f && c == |s.dialed|)
    ensures e.LoadOrStore? && e.f == f ==> s.input[f].key in s.sessions
  {}

  lemma OwnersSoundDo(s: State, e: Event)
    requires SessionsSound(s) && OwnersSound(s) && EvictorSound(s) && PumpsSound(s) && Can(s, e)
    ensures OwnersSound(Do(s, e))
  {
    hide EvictorSound, PumpsSound, SessionsSound;
    var t := Do(s, e);
    forall f, c: Conn | Owns(t, f, c)
      ensures c < |t.dialed| && t.dialed[c] == t.input[f].key && c !in t.closed && !Published(t, c) && c !in t.pumps
    {
      OwnsDo(s, e, f, c);
      OwnedKept(s, e, f, c);
    }
    forall f, g, c: Conn | Owns(t, f, c) && Owns(t, g, c) ensures f == g {
      OwnsDo(s, e, f, c);
      OwnsDo(s, e, g, c);
    }
  }

  lemma OwnedKept(s: State, e: Event, f: Goroutine, c: Conn)
    requires SessionsSound(s) && OwnersSound(s) && EvictorSound(s) && PumpsSound(s)
    requires Can(s, e) && Owns(Do(s, e), f, c)
    ensures var t := Do(s, e);
      c < |t.dialed| && t.dialed[c] == t.input[f].key && c !in t.closed && !Published(t, c) && c !in t.pumps
  {
    hide Published;
    OwnsDo(s, e, f, c);
    PublishedDo(s, e, c);
    PublishedDialed(s, c);
    if e.CloseOwn? || e.LoadOrStore? {
      assert Owns(s, e.f, s.forwards[e.f].own);
    }
    if e.Close? {
      EvictorPublished(s);
    }
  }

  lemma PumpsSoundDo(s: State, e: Event)
    requires OwnersSound(s) && PumpsSound(s) && Can(s, e)
    ensures PumpsSound(Do(s, e))
  {
    if e.LoadOrStore? {
      assert Owns(s, e.f, s.forwards[e.f].own);
    }
  }

  lemma EvictorSoundDo(s: State, e: Event)
    requires SessionsSound(s) && OwnersSound(s) && EvictorSound(s) && Can(s, e)
    ensures EvictorSound(Do(s, e))
  {
    hide Published, SessionsSound;
    var t := Do(s, e);
    if e.LoadOrStore? || e.CloseOwn? {
      assert Owns(s, e.f, s.forwards[e.f].own);
    }
    forall c | c in t.closed ensures c < |t.dialed| && (Published(t, c) ==> t.evictor.Closed? && t.evictor.conn == c) {
      PublishedDo(s, e, c);
      if e.Close? {
        EvictorPublished(s);
        PublishedDialed(s, s.evictor.conn);
      }
    }
  }

  lemma NoneLeakedDo(s: State, e: Event)
    requires Ownership(s) && Can(s, e)
    ensures NoneLeaked(Do(s, e))
  {
    hide Balanced;
    var t := Do(s, e);
    forall c: Conn | 0 <= c < |t.dialed| ensures c in t.closed || Published(t, c) || exists f :: Owns(t, f, c) {
      Accounted(s, e, c);
    }
  }

  /** An owned connection stays owned until its own goroutine closes or publishes it. */
  lemma OwnedMoves(s: State, e: Event, f: Goroutine, c: Conn)
    requires Can(s, e) && Owns(s, f, c)
    ensures Owns(Do(s, e), f, c)
      || (e == CloseOwn(f) && c in Do(s, e).closed)
      || (e == LoadOrStore(f) && s.input[f].key !in s.sessions && s.forwards[f].own == c)
  {}

  lemma DialedAndClosed(s: State, e: Event)
    requires Can(s, e) && EvictorSound(s)
    ensures s.closed <= Do(s, e).closed
    ensures |Do(s, e).dialed| == |s.dialed| + if e.Dial? then 1 else 0
    ensures e.Dial? ==> Owns(Do(s, e), e.f, |s.dialed|)
    ensures e.Delete? ==> s.evictor.conn in s.closed
  {}

  lemma Accounted(s: State, e: Event, c: Conn)
    requires SessionsSound(s) && OwnersSound(s) && EvictorSound(s) && NoneLeaked(s)
    requires Can(s, e) && c < |Do(s, e).dialed|
    ensures var t := Do(s, e); c in t.closed || Published(t, c) || exists f :: Owns(t, f, c)
  {
    hide Published, Owns, SessionsSound, OwnersSound, EvictorSound, Do, Can;
    PublishedDo(s, e, c);
    DialedAndClosed(s, e);
    if c < |s.dialed| && c !in s.closed && !Published(s, c) {
      var f :| Owns(s, f, c);
      OwnedMoves(s, e, f, c);
    }
  }

  lemma OwnersDo(s: State, e: Event)
    requires Can(s, e)
    ensures var t := Do(s, e);
      match e
      case Dial(f, now) => f !in Owners(s) && Owners(t) == Owners(s) + {f}
      case LoadOrStore(f) => f in Owners(s) && Owners(t) == if s.input[f].key in s.sessions then Owners(s) else Owners(s) - {f}
      case CloseOwn(f) => f in Owners(s) && Owners(t) == Owners(s) - {f}
      case _ => Owners(t) == Owners(s)
  {}

  lemma ClosedSize(s: State, e: Event)
    requires SessionsSound(s) && OwnersSound(s) && EvictorSound(s) && Can(s, e)
    ensures |Do(s, e).closed| == |s.closed| + if e.CloseOwn? || e.Close? then 1 else 0
  {
    hide Published;
    if e.CloseOwn? {
      assert Owns(s, e.f, s.forwards[e.f].own);
    } else if e.Close? {
      EvictorPublished(s);
    }
  }

  lemma SizeWithout<K, V>(m: map<K, V>, k: K)
    requires k in m
    ensures |m - {k}| == |m| - 1
  {
    assert m.Keys == (m - {k}).Keys + {k};
  }

  lemma SizeWith<K, V>(m: map<K, V>, k: K, v: V)
    requires k !in m
    ensures |m[k := v]| == |m| + 1
  {
    assert m[k := v].Keys == m.Keys + {k};
  }

  lemma SessionsSize(s: State, e: Event)
    requires EvictorSound(s) && Can(s, e)
    ensures |Do(s, e).sessions| == |s.sessions| + if e.Delete? then -1
                                                  else if e.LoadOrStore? && s.input[e.f].key !in s.sessions then 1 else 0
  {
    if e.Delete? {
      SizeWithout(s.sessions, s.evictor.key);
    } else if e.LoadOrStore? && s.input[e.f].key !in s.sessions {
      SizeWith(s.sessions, s.input[e.f].key, s.forwards[e.f].own);
    }
  }

  lemma BalancedDo(s: State, e: Event)
    requires SessionsSound(s) && OwnersSound(s) && EvictorSound(s) && Balanced(s) && Can(s, e)
    ensures Balanced(Do(s, e))
  {
    hide Owners, SessionsSound, OwnersSound, EvictorSound;
    OwnersDo(s, e);
    ClosedSize(s, e);
    SessionsSize(s, e);
  }

  lemma OwnershipDo(s: State, e: Event)
    requires Ownership(s) && Can(s, e)
    ensures Ownership(Do(s, e))
  {
    hide SessionsSound, PumpsSound, OwnersSound, EvictorSound, NoneLeaked, Balanced, Do, Can;
    SessionsSoundDo(s, e);
    PumpsSoundDo(s, e);
    OwnersSoundDo(s, e);
    EvictorSoundDo(s, e);
    NoneLeakedDo(s, e);
    BalancedDo(s, e);
  }

  /**
   * Every run keeps the books: each dialed connection is owned, published or closed, and never two of
   * them but for the evictor's half-done step.
   */
  lemma {:induction false} OwnershipAfter(s: State, es: seq<Event>)
    requires Ownership(s) && Runs(s, es)
    ensures Ownership(After(s, es))
    decreases |es|
  {
    hide Ownership, Do, Can;
    if es != [] {
      OwnershipDo(s, es[0]);
      OwnershipAfter(Do(s, es[0]), es[1..]);
    }
  }

  lemma OwnershipStart()
    ensures Ownership(START)
  {
    assert Owners(START) == {};
  }

  lemma RunOwnership(es: seq<Event>)
    requires Runs(START, es)
    ensures Ownership(After(START, es))
  {
    OwnershipStart();
    OwnershipAfter(START, es);
  }

  /**
   * At any point of any run a dialed connection is owned by one goroutine, published under one
   * key, or closed: exactly one of the three, except that the connection the evictor has closed
   * and not yet deleted is the last two at once.
   */
  lemma ExactlyOneHolder(es: seq<Event>, c: Conn)
    requires Runs(START, es) && c < |After(START, es).dialed|
    ensures var s := After(START, es);
      && ((exists f :: Owns(s, f, c)) ==> !Published(s, c) && c !in s.closed)
      && (forall f, g :: Owns(s, f, c) && Owns(s, g, c) ==> f == g)
      && (Published(s, c) ==> (c in s.closed <==> s.evictor.Closed? && s.evictor.conn == c))
      && (Published(s, c) ==> forall k :: k in s.sessions && s.sessions[k] == c ==> k == s.dialed[c])
      && (!Published(s, c) && !(exists f :: Owns(s, f, c)) ==> c in s.closed)
  {
    RunOwnership(es);
    HolderAt(After(START, es), c);
  }

  lemma HolderAt(s: State, c: Conn)
    requires Ownership(s) && c < |s.dialed|
    ensures (exists f :: Owns(s, f, c)) ==> !Published(s, c) && c !in s.closed
    ensures forall f, g :: Owns(s, f, c) && Owns(s, g, c) ==> f == g
    ensures Published(s, c) ==> (c in s.closed <==> s.evictor.Closed? && s.evictor.conn == c)
    ensures Published(s, c) ==> forall k :: k in s.sessions && s.sessions[k] == c ==> k == s.dialed[c]
    ensures !Published(s, c) && !(exists f :: Owns(s, f, c)) ==> c in s.closed
  {}

  /** When every forward of a run is done and the evictor rests, what was dialed and not closed is what the table holds. */
  lemma Quiescence(es: seq<Event>)
    requires Runs(START, es)
    requires var s := After(START, es); s.evictor.Resting? && forall f :: f in s.forwards ==> s.forwards[f].Done?
    ensures var s := After(START, es);
      && |s.dialed| - |s.closed| == |s.sessions|
      && forall c: Conn :: 0 <= c < |s.dialed| ==> (Published(s, c) <==> c !in s.closed)
  {
    RunOwnership(es);
    QuietAt(After(START, es));
  }

  lemma QuietAt(s: State)
    requires Ownership(s) && s.evictor.Resting?
    requires forall f :: f in s.forwards ==> s.forwards[f].Done?
    ensures |s.dialed| - |s.closed| == |s.sessions|
    ensures forall c: Conn :: 0 <= c < |s.dialed| ==> (Published(s, c) <==> c !in s.closed)
  {
    assert Owners(s) == {};
  }

  /** In every run the session the evictor deletes is the very one it loaded and closed, and no other entry changes. */
  lemma DeletesWhatItClosed(es: seq<Event>)
    requires Runs(START, es) && After(START, es).evictor.Closed?
    ensures var s := After(START, es); var k := s.evictor.key;
      && k in s.sessions && s.sessions[k] == s.evictor.conn && s.evictor.conn in s.closed
      && Do(s, Delete).sessions == map l | l in s.sessions && l != k :: s.sessions[l]
  {
    RunOwnership(es);
    DeletesAt(After(START, es));
  }

  lemma DeletesAt(s: State)
    requires Ownership(s) && s.evictor.Closed?
    ensures s.evictor.key in s.sessions && s.sessions[s.evictor.key] == s.evictor.conn && s.evictor.conn in s.closed
    ensures Do(s, Delete).sessions == map l | l in s.sessions && l != s.evictor.key :: s.sessions[l]
  {}

  // ---- Progress

  /** How many steps a forward can still take. */
  function StepsLeft(p: Forward): nat {
    match p
    case Received => 6
    case Missed => 5
    case Dialed(own) => 4
    case Lost(own, c) => 3
    case Resolved(c) => 2
    case Touched(c) => 1
    case Done => 0
  }

  /**
   * In every run nobody waits for anybody: a forward that is not done can step, whatever the others do,
   * and is done after at most six steps of its own; one that found or dialed a connection and does not
   * give up has written its datagram by then. The evictor can always go on, and at rest visit any session.
   */
  lemma Progress(es: seq<Event>, f: Goroutine)
    requires Runs(START, es) && f in After(START, es).forwards
    ensures var s := After(START, es);
      && (!s.forwards[f].Done? ==> exists e :: StepOf(e, f) && !e.GiveUp? && Can(s, e))
      && (s.forwards[f].Done? ==> forall e :: StepOf(e, f) ==> !Can(s, e))
      && (forall e :: StepOf(e, f) && Can(s, e) ==>
            f in Do(s, e).forwards && StepsLeft(Do(s, e).forwards[f]) < StepsLeft(s.forwards[f]))
      && (forall e :: StepOf(e, f) && Can(s, e) && Do(s, e).forwards[f].Done? ==> e.GiveUp? || e.Send?)
      && (forall e :: !StepOf(e, f) && Can(s, e) ==> f in Do(s, e).forwards && Do(s, e).forwards[f] == s.forwards[f])
  {
    OwnershipStart();
    OwnershipAfter(START, es);
    ProgressAt(After(START, es), f);
  }

  lemma ProgressAt(s: State, f: Goroutine)
    requires OwnersSound(s) && f in s.forwards
    ensures !s.forwards[f].Done? ==> exists e :: StepOf(e, f) && !e.GiveUp? && Can(s, e)
    ensures s.forwards[f].Done? ==> forall e :: StepOf(e, f) ==> !Can(s, e)
    ensures forall e :: StepOf(e, f) && Can(s, e) ==>
      && f in Do(s, e).forwards && StepsLeft(Do(s, e).forwards[f]) < StepsLeft(s.forwards[f])
      && (Do(s, e).forwards[f].Done? ==> e.GiveUp? || e.Send?)
    ensures forall e :: !StepOf(e, f) && Can(s, e) ==> f in Do(s, e).forwards && Do(s, e).forwards[f] == s.forwards[f]
  {
    hide Do, OwnersSound;
    assert Live(s, f) by { InputOf(s, f); }
    match s.forwards[f] {
      case Received => assert Can(s, Load(f)) && StepOf(Load(f), f);
      case Missed => assert Can(s, Dial(f, 0)) && StepOf(Dial(f, 0), f);
      case Dialed(own) => assert Can(s, LoadOrStore(f)) && StepOf(LoadOrStore(f), f);
      case Lost(own, c) => assert Can(s, CloseOwn(f)) && StepOf(CloseOwn(f), f);
      case Resolved(c) => assert Can(s, Touch(f, 0)) && StepOf(Touch(f, 0), f);
      case Touched(c) => assert Can(s, Send(f)) && StepOf(Send(f), f);
      case Done =>
    }
    forall e | Can(s, e)
      ensures f in Do(s, e).forwards
      ensures StepOf(e, f) ==> StepsLeft(Do(s, e).forwards[f]) < StepsLeft(s.forwards[f])
      ensures StepOf(e, f) && Do(s, e).forwards[f].Done? ==> e.GiveUp? || e.Send?
      ensures !StepOf(e, f) ==> Do(s, e).forwards[f] == s.forwards[f]
    {
      if StepOf(e, f) {
        OwnStep(s, e, f);
      } else {
        OtherUntouched(s, e, f);
      }
    }
  }

  lemma InputOf(s: State, f: Goroutine)
    requires OwnersSound(s) && f in s.forwards
    ensures f in s.input
  {}

  lemma OwnStep(s: State, e: Event, f: Goroutine)
    requires Can(s, e) && StepOf(e, f) && f in s.forwards
    ensures f in Do(s, e).forwards && StepsLeft(Do(s, e).forwards[f]) < StepsLeft(s.forwards[f])
    ensures Do(s, e).forwards[f].Done? ==> e.GiveUp? || e.Send?
  {}

  /** The evictor is never stuck and never locked out of a session. */
  lemma EvictorProgress(s: State, k: Key, cutoff: int)
    ensures match s.evictor
      case Resting => k in s.sessions ==> Can(s, Visit(k)) && Do(s, Visit(k)).evictor == Loaded(k, s.sessions[k])
      case Loaded(_, _) => Can(s, Inspect(cutoff))
      case Expired(l, c) => Can(s, Close) && c in Do(s, Close).closed && Do(s, Close).evictor == Closed(l, c)
      case Closed(l, _) => Can(s, Delete) && l !in Do(s, Delete).sessions && Do(s, Delete).evictor.Resting?
  {}

  // ---- Pumps

  /** Connection c is in the table at some point of the run. */
  predicate EverPublished(s: State, es: seq<Event>, c: Conn)
    requires Runs(s, es)
    decreases |es|
  {
    Published(s, c) || (es != [] && EverPublished(Do(s, es[0]), es[1..], c))
  }

  lemma {:induction false} PumpsGrow(s: State, es: seq<Event>, c: Conn)
    requires Runs(s, es) && c in s.pumps
    ensures c in After(s, es).pumps
    decreases |es|
  {
    if es != [] {
      PumpsGrow(Do(s, es[0]), es[1..], c);
    }
  }

  /** Exactly the connections that win their LoadOrStore get a pump. */
  lemma {:induction false} PumpIffPublished(s: State, es: seq<Event>, c: Conn)
    requires Ownership(s) && Runs(s, es) && c !in s.pumps
    ensures c in After(s, es).pumps <==> EverPublished(s, es, c)
    decreases |es|
  {
    hide Ownership;
    UnpumpedUnpublished(s, c);
    if es != [] {
      OwnershipDo(s, es[0]);
      if c in Do(s, es[0]).pumps {
        Parts(s);
        PumpStep(s, es[0], c);
        PumpsGrow(Do(s, es[0]), es[1..], c);
      } else {
        PumpIffPublished(Do(s, es[0]), es[1..], c);
      }
    }
  }

  lemma Cons(s: State, e: Event, es: seq<Event>)
    requires Can(s, e) && Runs(Do(s, e), es)
    ensures Runs(s, [e] + es) && After(s, [e] + es) == After(Do(s, e), es)
  {
    assert ([e] + es)[1..] == es;
  }

  lemma OneStep(s: State, e: Event)
    requires Can(s, e)
    ensures Runs(s, [e]) && After(s, [e]) == Do(s, e)
  {
    assert [e][1..] == [];
    assert Runs(Do(s, e), []);
  }

  lemma UnpumpedUnpublished(s: State, c: Conn)
    requires Ownership(s) && c !in s.pumps
    ensures !Published(s, c)
  {}

  lemma PumpStep(s: State, e: Event, c: Conn)
    requires OwnersSound(s) && Can(s, e) && c !in s.pumps && c in Do(s, e).pumps
    ensures Published(Do(s, e), c)
  {
    assert Owns(s, e.f, s.forwards[e.f].own);
  }

  // ---- Traffic

  /** What goroutine f's lookup found fits where f stands and the client of its datagram. */
  ghost predicate FoundSound(s: State, f: Goroutine)
    requires f in s.forwards
  {
    && f in s.input
    && (f in s.found ==> s.found[f] < |s.dialed| && s.dialed[s.found[f]] == s.input[f].key)
    && match s.forwards[f]
       case Received => f !in s.found
       case Missed => f !in s.found
       case Dialed(own) => f !in s.found
       case Lost(own, c) => f in s.found && s.found[f] == c
       case Resolved(c) => f in s.found && s.found[f] == c
       case Touched(c) => f in s.found && s.found[f] == c
       case Done => true
  }

  ghost predicate TrafficSound(s: State) {
    && (forall f :: f in s.found ==> f in s.forwards)
    && (forall f :: f in s.forwards ==> FoundSound(s, f))
  }

  ghost predicate WriteSound(s: State, w: Write) {
    && w.sender in s.found && w.sender in s.input && w.sender in s.forwards
    && w.conn == s.found[w.sender] && w.data == s.input[w.sender].data && s.forwards[w.sender].Done?
  }

  /** Every write goes to what its sender found, with what its sender read, and is its sender's only one. */
  ghost predicate WritesSound(s: State) {
    && (forall i :: 0 <= i < |s.writes| ==> WriteSound(s, s.writes[i]))
    && (forall i, j :: 0 <= i < j < |s.writes| ==> s.writes[i].sender != s.writes[j].sender)
  }

  ghost predicate RepliesSound(s: State) {
    forall i :: 0 <= i < |s.replies| ==>
      s.replies[i].conn < |s.dialed| && s.replies[i].client == s.dialed[s.replies[i].conn]
  }

  /** The event is a step of goroutine f. */
  predicate StepOf(e: Event, f: Goroutine) {
    !(e.Pump? || e.Visit? || e.Inspect? || e.Close? || e.Delete?) && e.f == f
  }

  lemma FoundOther(s: State, e: Event, f: Goroutine)
    requires Can(s, e) && !StepOf(e, f) && f in s.forwards && FoundSound(s, f)
    ensures f in Do(s, e).forwards && FoundSound(Do(s, e), f)
  {
    hide Do;
    OtherUntouched(s, e, f);
    DialedGrows(s, e);
  }

  lemma OtherUntouched(s: State, e: Event, f: Goroutine)
    requires Can(s, e) && !StepOf(e, f) && f in s.forwards
    ensures var t := Do(s, e);
      && f in t.forwards && t.forwards[f] == s.forwards[f]
      && (f in t.found <==> f in s.found) && (f in s.found ==> t.found[f] == s.found[f])
      && (f in s.input ==> f in t.input && t.input[f] == s.input[f])
  {}

  lemma DialedGrows(s: State, e: Event)
    requires Can(s, e)
    ensures s.dialed <= Do(s, e).dialed
  {}

  lemma FoundSelf(s: State, e: Event, f: Goroutine)
    requires SessionsSound(s) && OwnersSound(s) && TrafficSound(s) && Can(s, e) && StepOf(e, f)
    ensures f in Do(s, e).forwards && FoundSound(Do(s, e), f)
  {
    if !e.Receive? {
      assert FoundSound(s, f);
    }
    if e.LoadOrStore? {
      assert Owns(s, f, s.forwards[f].own);
    }
  }

  lemma TrafficDomain(s: State, e: Event)
    requires TrafficSound(s) && Can(s, e)
    ensures forall f :: f in Do(s, e).found ==> f in Do(s, e).forwards
    ensures forall f :: f in Do(s, e).forwards ==> f in s.forwards || StepOf(e, f)
  {
    hide FoundSound;
  }

  lemma TrafficSoundDo(s: State, e: Event)
    requires SessionsSound(s) && OwnersSound(s) && TrafficSound(s) && Can(s, e)
    ensures TrafficSound(Do(s, e))
  {
    hide FoundSound, SessionsSound, OwnersSound;
    TrafficDomain(s, e);
    forall f | f in Do(s, e).forwards ensures FoundSound(Do(s, e), f) {
      if StepOf(e, f) {
        FoundSelf(s, e, f);
      } else {
        FoundOther(s, e, f);
      }
    }
  }

  lemma WriteKept(s: State, e: Event, w: Write)
    requires TrafficSound(s) && WriteSound(s, w) && Can(s, e)
    ensures WriteSound(Do(s, e), w)
    ensures e.Send? ==> w.sender != e.f
  {}

  lemma WritesSoundDo(s: State, e: Event)
    requires TrafficSound(s) && WritesSound(s) && Can(s, e)
    ensures WritesSound(Do(s, e))
  {
    var t := Do(s, e);
    if e.Send? {
      assert FoundSound(s, e.f);
      assert WriteSound(t, t.writes[|s.writes|]);
    }
    hide WriteSound, TrafficSound;
    forall i | 0 <= i < |s.writes| ensures WriteSound(t, t.writes[i]) && (e.Send? ==> t.writes[i].sender != e.f) {
      WriteKept(s, e, s.writes[i]);
    }
  }

  lemma RepliesSoundDo(s: State, e: Event)
    requires PumpsSound(s) && RepliesSound(s) && Can(s, e)
    ensures RepliesSound(Do(s, e))
  {}

  lemma {:induction false} TrafficAfter(s: State, es: seq<Event>)
    requires Ownership(s) && TrafficSound(s) && WritesSound(s) && RepliesSound(s) && Runs(s, es)
    ensures TrafficSound(After(s, es)) && WritesSound(After(s, es)) && RepliesSound(After(s, es))
    decreases |es|
  {
    hide TrafficSound, WritesSound, RepliesSound, Do, Can;
    hide SessionsSound, PumpsSound, OwnersSound, EvictorSound, NoneLeaked, Balanced;
    if es != [] {
      TrafficSoundDo(s, es[0]);
      WritesSoundDo(s, es[0]);
      RepliesSoundDo(s, es[0]);
      OwnershipDo(s, es[0]);
      TrafficAfter(Do(s, es[0]), es[1..]);
    }
  }

  /** Every lookup ends with a connection that was published. */
  ghost predicate FoundPumped(s: State) {
    forall f :: f in s.found ==> s.found[f] in s.pumps
  }

  lemma FoundPumpedDo(s: State, e: Event)
    requires PumpsSound(s) && FoundPumped(s) && Can(s, e)
    ensures FoundPumped(Do(s, e))
  {}

  lemma {:induction false} FoundPumpedAfter(s: State, es: seq<Event>)
    requires Ownership(s) && FoundPumped(s) && Runs(s, es)
    ensures FoundPumped(After(s, es))
    decreases |es|
  {
    hide FoundPumped, Do, Can;
    if es != [] {
      FoundPumpedDo(s, es[0]);
      OwnershipDo(s, es[0]);
      FoundPumpedAfter(Do(s, es[0]), es[1..]);
    }
  }

  /** Each goroutine's input is the one datagram it was started with. */
  lemma {:induction false} InputReceived(s: State, es: seq<Event>, f: Goroutine)
    requires Runs(s, es) && f in After(s, es).input
    ensures f in s.input ==> After(s, es).input[f] == s.input[f]
    ensures f !in s.input ==> Receive(f, After(s, es).input[f]) in es
    decreases |es|
  {
    if es != [] {
      InputReceived(Do(s, es[0]), es[1..], f);
      InputDo(s, es[0], f);
    }
  }

  lemma InputDo(s: State, e: Event, f: Goroutine)
    requires Can(s, e)
    ensures f in s.input ==> f in Do(s, e).input && Do(s, e).input[f] == s.input[f]
    ensures f !in s.input && f in Do(s, e).input ==> e == Receive(f, Do(s, e).input[f])
  {}

  /** The goroutines whose send steps a run contains, in order. */
  function Senders(es: seq<Event>): seq<Goroutine> {
    if es == [] then [] else (if es[0].Send? then [es[0].f] else []) + Senders(es[1..])
  }

  /** The connections whose pump steps a run contains, in order. */
  function Pumped(es: seq<Event>): seq<Conn> {
    if es == [] then [] else (if es[0].Pump? then [es[0].c] else []) + Pumped(es[1..])
  }

  function SendersOf(writes: seq<Write>): seq<Goroutine> {
    seq(|writes|, i requires 0 <= i < |writes| => writes[i].sender)
  }

  function ConnsOf(replies: seq<Reply>): seq<Conn> {
    seq(|replies|, i requires 0 <= i < |replies| => replies[i].conn)
  }

  lemma TrafficStep(s: State, e: Event)
    requires Can(s, e)
    ensures SendersOf(Do(s, e).writes) == SendersOf(s.writes) + if e.Send? then [e.f] else []
    ensures ConnsOf(Do(s, e).replies) == ConnsOf(s.replies) + if e.Pump? then [e.c] else []
  {}

  /** Every send step writes one datagram, every pump step sends one reply, and nothing else does either. */
  lemma {:induction false} TrafficInOrder(s: State, es: seq<Event>)
    requires Runs(s, es)
    ensures SendersOf(After(s, es).writes) == SendersOf(s.writes) + Senders(es)
    ensures ConnsOf(After(s, es).replies) == ConnsOf(s.replies) + Pumped(es)
    decreases |es|
  {
    hide Do, Can, SendersOf, ConnsOf;
    if es != [] {
      TrafficStep(s, es[0]);
      TrafficInOrder(Do(s, es[0]), es[1..]);
    }
  }

  /**
   * In every run from the start each send step writes one datagram, the one its goroutine received, and
   * each goroutine sends once; each pump step sends one reply, to the client its connection was dialed
   * for. A datagram goes to a connection that was dialed for the client it was received from and has
   * been published under that client's key.
   */
  lemma Isolation(es: seq<Event>)
    requires Runs(START, es)
    ensures var t := After(START, es);
      && (forall i :: 0 <= i < |t.writes| ==>
            var w := t.writes[i];
            && w.sender in t.input && w.data == t.input[w.sender].data
            && w.conn < |t.dialed| && t.dialed[w.conn] == t.input[w.sender].key
            && Receive(w.sender, Datagram(t.dialed[w.conn], w.data)) in es
            && w.conn in t.pumps && EverPublished(START, es, w.conn))
      && (forall i, j :: 0 <= i < j < |t.writes| ==> t.writes[i].sender != t.writes[j].sender)
      && (forall i :: 0 <= i < |t.replies| ==>
            t.replies[i].conn < |t.dialed| && t.replies[i].client == t.dialed[t.replies[i].conn])
      && SendersOf(t.writes) == Senders(es) && ConnsOf(t.replies) == Pumped(es)
  {
    hide Ownership, Runs, After, EverPublished, Senders, Pumped;
    TrafficInOrder(START, es);
    OwnershipStart();
    TrafficAfter(START, es);
    FoundPumpedAfter(START, es);
    var t := After(START, es);
    forall i | 0 <= i < |t.writes|
      ensures t.writes[i].conn in t.pumps && EverPublished(START, es, t.writes[i].conn)
      ensures Receive(t.writes[i].sender, Datagram(t.dialed[t.writes[i].conn], t.writes[i].data)) in es
    {
      assert WriteSound(t, t.writes[i]);
      assert FoundSound(t, t.writes[i].sender);
      PumpIffPublished(START, es, t.writes[i].conn);
      InputReceived(START, es, t.writes[i].sender);
    }
  }

  // ---- Stickiness

  /** No step of the run deletes key k. */
  predicate Keeps(s: State, es: seq<Event>, k: Key)
    requires Runs(s, es)
    decreases |es|
  {
    es == [] || (!(es[0].Delete? && s.evictor.key == k) && Keeps(Do(s, es[0]), es[1..], k))
  }

  /** The event is the lookup that settles which session goroutine f, of client k, will use. */
  predicate Settles(s: State, e: Event, f: Goroutine, k: Key)
    requires Can(s, e)
  {
    && (e == Load(f) || e == LoadOrStore(f))
    && s.input[f].key == k && f !in s.found && f in Do(s, e).found
  }

  lemma SettledStep(s: State, e: Event, f: Goroutine, k: Key)
    requires Can(s, e) && Settles(s, e, f, k)
    ensures k in Do(s, e).sessions && Do(s, e).found[f] == Do(s, e).sessions[k]
    ensures k in s.sessions ==> Do(s, e).sessions[k] == s.sessions[k]
  {}

  lemma KeptStep(s: State, e: Event, k: Key, f: Goroutine)
    requires Can(s, e) && !(e.Delete? && s.evictor.key == k)
    ensures k in s.sessions ==> k in Do(s, e).sessions && Do(s, e).sessions[k] == s.sessions[k]
    ensures TrafficSound(s) && f in s.found ==> f in Do(s, e).found && Do(s, e).found[f] == s.found[f]
  {}

  lemma {:induction false} KeptAfter(s: State, es: seq<Event>, k: Key, f: Goroutine)
    requires Ownership(s) && TrafficSound(s) && Runs(s, es) && Keeps(s, es, k)
    requires k in s.sessions && f in s.found
    ensures k in After(s, es).sessions && After(s, es).sessions[k] == s.sessions[k]
    ensures f in After(s, es).found && After(s, es).found[f] == s.found[f]
    decreases |es|
  {
    hide TrafficSound, Ownership, Do, Can;
    if es != [] {
      KeptStep(s, es[0], k, f);
      OwnershipDo(s, es[0]);
      assert TrafficSound(Do(s, es[0])) by {
        Parts(s);
        TrafficSoundDo(s, es[0]);
      }
      KeptAfter(Do(s, es[0]), es[1..], k, f);
    }
  }

  lemma Parts(s: State)
    requires Ownership(s)
    ensures SessionsSound(s) && OwnersSound(s)
  {}

  /** Two lookups of one client with no delete of its key between them settle on the same connection. */
  lemma SameConnection(before: seq<Event>, e: Event, es: seq<Event>, e': Event, f: Goroutine, g: Goroutine, k: Key)
    requires Runs(START, before)
    requires var s := After(START, before);
      && Can(s, e) && Settles(s, e, f, k)
      && Runs(Do(s, e), es) && Keeps(Do(s, e), es, k)
      && Can(After(Do(s, e), es), e') && Settles(After(Do(s, e), es), e', g, k)
    ensures var t := Do(After(Do(After(START, before), e), es), e');
      f in t.found && g in t.found && t.found[f] == t.found[g]
  {
    hide Ownership, TrafficSound, WritesSound, RepliesSound, Keeps, Runs, After, Can, Do, Settles;
    RunOwnership(before);
    assert TrafficSound(START) by {
      TrafficStart();
    }
    OwnershipStart();
    TrafficKept(START, before);
    SameConnectionFrom(After(START, before), e, es, e', f, g, k);
  }

  lemma TrafficStart()
    ensures TrafficSound(START)
  {}

  lemma SameConnectionFrom(s: State, e: Event, es: seq<Event>, e': Event, f: Goroutine, g: Goroutine, k: Key)
    requires Ownership(s) && TrafficSound(s)
    requires Can(s, e) && Settles(s, e, f, k)
    requires Runs(Do(s, e), es) && Keeps(Do(s, e), es, k)
    requires Can(After(Do(s, e), es), e') && Settles(After(Do(s, e), es), e', g, k)
    ensures var t := Do(After(Do(s, e), es), e');
      f in t.found && g in t.found && t.found[f] == t.found[g]
  {
    hide TrafficSound, Ownership, Keeps, Runs, After, Can;
    var s1 := Do(s, e);
    SettledStep(s, e, f, k);
    assert Ownership(s1) by {
      OneStep(s, e);
      OwnershipAfter(s, [e]);
    }
    assert TrafficSound(s1) by {
      Parts(s);
      TrafficSoundDo(s, e);
    }
    KeptAfter(s1, es, k, f);
    var s2 := After(s1, es);
    SettledStep(s2, e', g, k);
    assert TrafficSound(s2) by {
      TrafficKept(s1, es);
    }
    KeptStep(s2, e', k, f);
  }

  lemma {:induction false} TrafficKept(s: State, es: seq<Event>)
    requires Ownership(s) && TrafficSound(s) && Runs(s, es)
    ensures TrafficSound(After(s, es))
    decreases |es|
  {
    hide TrafficSound, Ownership, Do, Can;
    if es != [] {
      Parts(s);
      TrafficSoundDo(s, es[0]);
      OneStep(s, es[0]);
      OwnershipAfter(s, [es[0]]);
      TrafficKept(Do(s, es[0]), es[1..]);
    }
  }

  // ---- When a touch keeps a session open

  /** From a touch at time now on, no cutoff is later than it and no touch earlier. */
  predicate Calm(es: seq<Event>, now: int) {
    forall i :: 0 <= i < |es| ==>
      && (es[i].Inspect? ==> es[i].cutoff <= now)
      && (es[i].Touch? ==> es[i].now >= now)
  }

  /** A published connection that is open, used since now, and not about to be closed. */
  ghost predicate Protected(s: State, c: Conn, now: int) {
    && c in s.pumps && c !in s.closed
    && c in s.lastSeen && s.lastSeen[c] >= now
    && !(s.evictor.Expired? && s.evictor.conn == c)
  }

  lemma ProtectedDo(s: State, e: Event, c: Conn, now: int)
    requires Ownership(s) && Protected(s, c, now) && Can(s, e) && Calm([e], now)
    ensures Protected(Do(s, e), c, now)
  {
    hide SessionsSound, EvictorSound, NoneLeaked, Balanced;
    assert e == [e][0];
    if e.CloseOwn? {
      assert Owns(s, e.f, s.forwards[e.f].own);
    }
  }

  lemma {:induction false} ProtectedAfter(s: State, es: seq<Event>, c: Conn, now: int)
    requires Ownership(s) && Protected(s, c, now) && Runs(s, es) && Calm(es, now)
    ensures Protected(After(s, es), c, now)
    decreases |es|
  {
    hide Ownership, Protected, Do, Can;
    if es != [] {
      OwnershipDo(s, es[0]);
      ProtectedDo(s, es[0], c, now);
      ProtectedAfter(Do(s, es[0]), es[1..], c, now);
    }
  }

  /** Connection c is open at the end of every calm run from s. */
  ghost predicate StaysOpen(s: State, c: Conn, now: int) {
    forall es :: Runs(s, es) && Calm(es, now) ==> c !in After(s, es).closed
  }

  /**
   * In every run, a touch keeps its connection open exactly when the connection is not closed already
   * and the evictor has not read its previous use and found it expired.
   */
  lemma TouchProtectsIff(es: seq<Event>, f: Goroutine, c: Conn, now: int)
    requires Runs(START, es)
    requires var s := After(START, es); Live(s, f) && s.forwards[f] == Resolved(c)
    ensures var s := After(START, es);
      StaysOpen(Do(s, Touch(f, now)), c, now) <==>
        (c !in s.closed && !(s.evictor.Expired? && s.evictor.conn == c))
  {
    RunOwnership(es);
    ResolvedPumped(es, f, c);
    TouchAt(After(START, es), f, c, now);
  }

  lemma TouchAt(s: State, f: Goroutine, c: Conn, now: int)
    requires Ownership(s) && Live(s, f) && s.forwards[f] == Resolved(c) && c in s.pumps
    ensures StaysOpen(Do(s, Touch(f, now)), c, now) <==>
      (c !in s.closed && !(s.evictor.Expired? && s.evictor.conn == c))
  {
    hide Ownership;
    var t := Do(s, Touch(f, now));
    OwnershipDo(s, Touch(f, now));
    if c in s.closed {
      assert Runs(t, []) && Calm([], now) && c in After(t, []).closed;
    } else if s.evictor.Expired? && s.evictor.conn == c {
      OneStep(t, Close);
      assert Calm([Close], now) && c in After(t, [Close]).closed;
    } else {
      forall more | Runs(t, more) && Calm(more, now) ensures c !in After(t, more).closed {
        ProtectedAfter(t, more, c, now);
      }
    }
  }

  lemma ResolvedPumped(es: seq<Event>, f: Goroutine, c: Conn)
    requires Runs(START, es)
    requires var s := After(START, es); f in s.forwards && s.forwards[f] == Resolved(c)
    ensures c in After(START, es).pumps
  {
    hide Ownership, Runs, After;
    OwnershipStart();
    TrafficAfter(START, es);
    FoundPumpedAfter(START, es);
    assert FoundSound(After(START, es), f);
  }

  /** Connection c was used since now, is not about to be closed, and is closed only if it was never published. */
  ghost predicate Young(s: State, c: Conn, now: int) {
    && c < |s.dialed| && c in s.lastSeen && s.lastSeen[c] >= now
    && !(s.evictor.Expired? && s.evictor.conn == c)
    && (c in s.closed ==> c !in s.pumps)
  }

  lemma YoungDo(s: State, e: Event, c: Conn, now: int)
    requires Ownership(s) && Young(s, c, now) && Can(s, e) && Calm([e], now)
    ensures Young(Do(s, e), c, now)
  {
    hide SessionsSound, EvictorSound, NoneLeaked, Balanced, PumpsSound;
    assert e == [e][0];
    if e.CloseOwn? || e.LoadOrStore? {
      assert Owns(s, e.f, s.forwards[e.f].own);
    }
  }

  lemma {:induction false} YoungAfter(s: State, es: seq<Event>, c: Conn, now: int)
    requires Ownership(s) && Young(s, c, now) && Runs(s, es) && Calm(es, now)
    ensures Young(After(s, es), c, now)
    decreases |es|
  {
    hide Ownership, Young, Do, Can;
    if es != [] {
      OwnershipDo(s, es[0]);
      YoungDo(s, es[0], c, now);
      YoungAfter(Do(s, es[0]), es[1..], c, now);
    }
  }

  /**
   * A dial counts as a use: in every run, what is dialed at time now is closed by no evictor whose cutoff
   * is not later, so at the end it is open unless it lost its LoadOrStore.
   */
  lemma DialProtects(es: seq<Event>, f: Goroutine, now: int, more: seq<Event>)
    requires Runs(START, es) && Can(After(START, es), Dial(f, now))
    requires var t := Do(After(START, es), Dial(f, now)); Runs(t, more) && Calm(more, now)
    ensures var c, t := |After(START, es).dialed|, After(Do(After(START, es), Dial(f, now)), more);
      && c < |t.dialed| && (c in t.closed ==> c !in t.pumps)
  {
    RunOwnership(es);
    DialYoung(After(START, es), f, now);
    OwnershipDo(After(START, es), Dial(f, now));
    YoungAfter(Do(After(START, es), Dial(f, now)), more, |After(START, es).dialed|, now);
  }

  lemma DialYoung(s: State, f: Goroutine, now: int)
    requires Ownership(s) && Can(s, Dial(f, now))
    ensures Young(Do(s, Dial(f, now)), |s.dialed|, now)
  {}

  /**
   * Where the touch comes too late, this schedule loses its datagram: it touches an expired session,
   * the evictor closes the connection, and the datagram is written to the closed connection.
   */
  lemma LateTouchIsLost(s: State, f: Goroutine, now: int)
    requires Live(s, f) && s.evictor.Expired? && s.forwards[f] == Resolved(s.evictor.conn)
    ensures Runs(s, [Touch(f, now), Close, Send(f)])
    ensures var t := After(s, [Touch(f, now), Close, Send(f)]);
      && t.writes == s.writes + [Write(f, s.evictor.conn, s.input[f].data)]
      && s.evictor.conn in t.closed && s.evictor.conn in t.lastSeen && t.lastSeen[s.evictor.conn] == now
  {
    var s1 := Do(s, Touch(f, now));
    var s2 := Do(s1, Close);
    OneStep(s2, Send(f));
    Cons(s1, Close, [Send(f)]);
    Cons(s, Touch(f, now), [Close, Send(f)]);
    assert [Close] + [Send(f)] == [Close, Send(f)];
    assert [Touch(f, now)] + [Close, Send(f)] == [Touch(f, now), Close, Send(f)];
  }

  /**
   * A run that gets there, with an idle time of 30: client "a" dials at 0 and sends once, and the tick
   * at 30 passes the session over; at 60 its second datagram finds the session while the tick finds
   * it last used before the cutoff 30.
   */
  function LostRun(d: Data): seq<Event> {
    FirstDatagram(d) + SecondDatagram(d)
  }

  function FirstDatagram(d: Data): seq<Event> {
    [Receive(0, Datagram("a", d)), Load(0), Dial(0, 0), LoadOrStore(0), Touch(0, 0), Send(0)]
  }

  function SecondDatagram(d: Data): seq<Event> {
    [Visit("a"), Inspect(0), Receive(1, Datagram("a", d)), Load(1), Visit("a"), Inspect(30)]
  }

  function SentState(d: Data): State {
    State(map["a" := 0], ["a"], {}, map[0 := 0], map[0 := Datagram("a", d)], map[0 := Done], map[0 := 0],
          map[0 := "a"], [Write(0, 0, d)], [], Resting)
  }

  function LostState(d: Data): State {
    SentState(d).(input := map[0 := Datagram("a", d), 1 := Datagram("a", d)],
                  forwards := map[0 := Done, 1 := Resolved(0)], found := map[0 := 0, 1 := 0],
                  evictor := Expired("a", 0))
  }

  lemma FirstDatagramEnds(d: Data)
    ensures Runs(START, FirstDatagram(d)) && After(START, FirstDatagram(d)) == SentState(d)
  {
    var es := FirstDatagram(d);
    var s1 := Do(START, es[0]);
    var s2 := Do(s1, es[1]);
    var s3 := Do(s2, es[2]);
    var s4 := Do(s3, es[3]);
    var s5 := Do(s4, es[4]);
    assert Can(s5, es[5]) && Do(s5, es[5]) == SentState(d);
    hide *;
    Trace(START, es, [START, s1, s2, s3, s4, s5, SentState(d)]);
  }

  lemma SecondDatagramEnds(d: Data)
    ensures Runs(SentState(d), SecondDatagram(d)) && After(SentState(d), SecondDatagram(d)) == LostState(d)
  {
    var es := SecondDatagram(d);
    var s1 := Do(SentState(d), es[0]);
    var s2 := Do(s1, es[1]);
    var s3 := Do(s2, es[2]);
    var s4 := Do(s3, es[3]);
    var s5 := Do(s4, es[4]);
    assert Can(s5, es[5]) && Do(s5, es[5]) == LostState(d);
    hide *;
    Trace(SentState(d), es, [SentState(d), s1, s2, s3, s4, s5, LostState(d)]);
  }

  lemma {:induction false} Trace(s: State, es: seq<Event>, states: seq<State>)
    requires |states| == |es| + 1 && states[0] == s
    requires forall i :: 0 <= i < |es| ==> Can(states[i], es[i]) && Do(states[i], es[i]) == states[i + 1]
    ensures Runs(s, es) && After(s, es) == states[|es|]
    decreases |es|
  {
    hide Do, Can;
    if es != [] {
      Trace(states[1], es[1..], states[1..]);
    }
  }

  /** So a run from the start writes a datagram to a connection that was closed while its last use was fresh. */
  lemma LateTouchHappens(d: Data)
    ensures var es := LostRun(d) + [Touch(1, 60), Close, Send(1)];
      && Runs(START, es)
      && After(START, es).writes == [Write(0, 0, d), Write(1, 0, d)]
      && 0 in After(START, es).closed && 0 in After(START, es).lastSeen && After(START, es).lastSeen[0] == 60
  {
    var late := [Touch(1, 60), Close, Send(1)];
    FirstDatagramEnds(d);
    SecondDatagramEnds(d);
    Concat(START, FirstDatagram(d), SecondDatagram(d));
    LateTouchIsLost(LostState(d), 1, 60);
    Concat(START, LostRun(d), late);
  }

  lemma {:induction false} Concat(s: State, es: seq<Event>, more: seq<Event>)
    requires Runs(s, es) && Runs(After(s, es), more)
    ensures Runs(s, es + more) && After(s, es + more) == After(After(s, es), more)
    decreases |es|
  {
    hide Do, Can;
    if es == [] {
      assert es + more == more;
    } else {
      Concat(Do(s, es[0]), es[1..], more);
      assert (es + more)[1..] == es[1..] + more;
    }
  }
}
