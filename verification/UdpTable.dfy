/**
 * The UDP tunnel one operation at a time: the reader that copies each datagram out of its buffer,
 * a forward that runs without interference, and an eviction round over the whole table.
 */
module UdpTable {

  /** When each client's session was last used. */
  type Table = map<string, int>

  /** The table after a round whose cutoff is now - idle: a session last used strictly before it goes. */
  function Swept(t: Table, now: int, idle: int): Table {
    map k | k in t && t[k] >= now - idle :: t[k]
  }

  class Session {
    const conn: nat
    var lastSeen: int
    var closed: bool

    /** The datagrams written to the backend so far. */
    var sent: seq<seq<bv8>>

    constructor (conn: nat, now: int)
      ensures this.conn == conn && lastSeen == now && !closed && sent == []
    {
      this.conn, lastSeen, closed, sent := conn, now, false, [];
    }
  }

  class UdpTable {
    var sessions: map<string, Session>

    /** Every key has its own session, and every session in the table is open. */
    ghost predicate Valid()
      reads this, sessions.Values
    {
      && (forall k, l :: k in sessions && l in sessions && k != l ==> sessions[k] != sessions[l])
      && (forall k :: k in sessions ==> !sessions[k].closed)
    }

    ghost function Uses(): Table
      reads this, sessions.Values
    {
      map k | k in sessions :: sessions[k].lastSeen
    }

    constructor ()
      ensures Valid() && sessions == map[]
    {
      sessions := map[];
    }

    /**
     * A forward for a client with a session uses that session; otherwise it stores the one it dialed, if
     * any, and starts its pump. The datagram is written to that session and to no other.
     */
    method Forward(key: string, data: seq<bv8>, now: int, dialed: bool, conn: nat) returns (used: Session?, pumped: bool)
      requires Valid()
      modifies this, sessions.Values
      ensures Valid()
      ensures used == null <==> key !in old(sessions) && !dialed
      ensures used == null ==> sessions == old(sessions) && Uses() == old(Uses())
      ensures used != null ==> key in sessions && sessions[key] == used && !used.closed
      ensures used != null ==> Uses() == old(Uses())[key := now]
      ensures key in old(sessions) ==> used == old(sessions)[key] && sessions == old(sessions)
      ensures key !in old(sessions) && dialed ==> fresh(used) && used.conn == conn && sessions == old(sessions)[key := used]
      ensures pumped <==> key !in old(sessions) && dialed
      ensures used != null ==> used.sent == (if key in old(sessions) then old(sessions[key].sent) else []) + [data]
      ensures forall k :: k in old(sessions) && k != key ==> old(sessions)[k].sent == old(sessions[k].sent)
    {
      var s: Session;
      pumped := false;
      if key in sessions {
        s := sessions[key];
      } else {
        if !dialed {
          return null, false;
        }
        s := new Session(conn, now);
        sessions := sessions[key := s];
        pumped := true;
      }
      s.lastSeen := now;
      s.sent := s.sent + [data];
      return s, pumped;
    }

    /** The walk over the table, in any order: each session is inspected once. */
    method CloseBefore(cutoff: int)
      requires Valid()
      modifies this, sessions.Values
      ensures forall k :: k in sessions <==> k in old(sessions) && old(sessions[k].lastSeen) >= cutoff
      ensures forall k :: k in sessions ==> sessions[k] == old(sessions)[k]
      ensures forall k :: k in old(sessions) ==>
        && old(sessions)[k].lastSeen == old(sessions[k].lastSeen)
        && (old(sessions)[k].closed <==> k !in sessions)
    {
      ghost var was := sessions;
      var left := sessions.Keys;
      while left != {}
        invariant left <= sessions.Keys <= was.Keys
        invariant forall k :: k in sessions ==> sessions[k] == was[k]
        invariant forall k :: k in was ==> was[k].lastSeen == old(was[k].lastSeen)
        invariant forall k :: k in was ==> (was[k].closed <==> k !in sessions)
        invariant forall k :: k in was && k !in left ==> (k in sessions <==> was[k].lastSeen >= cutoff)
        decreases left
      {
        var k :| k in left;
        var s := sessions[k];
        if s.lastSeen < cutoff {
          s.closed := true;
          sessions := sessions - {k};
        }
        left := left - {k};
      }
    }

    /** One tick of the evictor: idle sessions are closed and deleted, the others are not touched. */
    method EvictRound(now: int, idle: int)
      requires Valid()
      modifies this, sessions.Values
      ensures Valid() && Uses() == Swept(old(Uses()), now, idle)
      ensures forall k :: k in sessions <==> k in old(sessions) && old(sessions[k].lastSeen) >= now - idle
      ensures forall k :: k in sessions ==> k in old(sessions) && sessions[k] == old(sessions)[k]
      ensures forall k :: k in old(sessions) && k !in sessions ==> old(sessions)[k].closed
    {
      var cutoff := now - idle;
      CloseBefore(cutoff);
    }
  }

  // ---- When an idle session goes

  datatype Op = Arrive(key: string, at: int, dialed: bool) | Tick(at: int)

  function Step(t: Table, idle: int, op: Op): Table {
    match op
    case Arrive(k, now, dialed) => if k in t || dialed then t[k := now] else t
    case Tick(now) => Swept(t, now, idle)
  }

  function After(t: Table, idle: int, ops: seq<Op>): Table {
    if ops == [] then t else Step(After(t, idle, ops[..|ops| - 1]), idle, ops[|ops| - 1])
  }

  /** A session last used at time u and not used again is there exactly until a tick later than u + idle. */
  lemma {:induction false} IdleSession(t: Table, idle: int, ops: seq<Op>, k: string)
    requires k in t
    requires forall i :: 0 <= i < |ops| && ops[i].Arrive? ==> ops[i].key != k
    ensures k in After(t, idle, ops) <==> forall i :: 0 <= i < |ops| && ops[i].Tick? ==> ops[i].at <= t[k] + idle
    ensures k in After(t, idle, ops) ==> After(t, idle, ops)[k] == t[k]
  {
    if ops != [] {
      var n := |ops| - 1;
      IdleSession(t, idle, ops[..n], k);
      assert ops == ops[..n] + [ops[n]];
    }
  }

  /** Tick n of a ticker with period idle started at time start; the first one comes after one period. */
  function TickAt(start: int, idle: int, n: int): int {
    start + n * idle
  }

  /** The tick at which a session last used at time u goes. */
  function DueAt(start: int, idle: int, u: int): int
    requires idle > 0
  {
    TickAt(start, idle, (u + idle - start) / idle + 1)
  }

  /** It is the first tick later than u + idle, and comes no later than u + 2 * idle. */
  lemma FirstTickAfter(start: int, idle: int, u: int)
    requires idle > 0
    ensures u + idle < DueAt(start, idle, u) <= u + 2 * idle
    ensures forall n :: TickAt(start, idle, n) > u + idle ==> TickAt(start, idle, n) >= DueAt(start, idle, u)
    ensures start <= u ==> exists n :: n >= 1 && DueAt(start, idle, u) == TickAt(start, idle, n)
  {
    var q, r := (u + idle - start) / idle, (u + idle - start) % idle;
    assert u + idle - start == q * idle + r;
    assert (q + 1) * idle == q * idle + idle;
    forall n | TickAt(start, idle, n) > u + idle ensures TickAt(start, idle, n) >= DueAt(start, idle, u) {
      Ordered(n, q, idle);
      Ordered(q + 1, n, idle);
    }
    Ordered(q + 1, 0, idle);
    assert DueAt(start, idle, u) == TickAt(start, idle, q + 1);
  }

  lemma Ordered(m: int, n: int, idle: int)
    requires idle > 0
    ensures m <= n ==> m * idle <= n * idle
  {
    assert (n - m) * idle == n * idle - m * idle;
    assert m <= n ==> (n - m) * idle >= 0;
  }

  /** A run in the order of time from start to now, whose ticks are exactly those of the ticker. */
  ghost predicate Clocked(ops: seq<Op>, start: int, idle: int, now: int) {
    && (forall i :: 0 <= i < |ops| ==> start <= ops[i].at <= now)
    && (forall i, j :: 0 <= i < j < |ops| ==> ops[i].at <= ops[j].at)
    && (forall at :: Tick(at) in ops <==> at <= now && exists n :: n >= 1 && at == TickAt(start, idle, n))
  }

  lemma {:induction false} AfterConcat(t: Table, idle: int, xs: seq<Op>, ys: seq<Op>)
    ensures After(t, idle, xs + ys) == After(After(t, idle, xs), idle, ys)
  {
    if ys == [] {
      assert xs + ys == xs;
    } else {
      var n := |ys| - 1;
      assert (xs + ys)[..|xs| + n] == xs + ys[..n];
      AfterConcat(t, idle, xs, ys[..n]);
    }
  }

  /** Of a run, no datagram of client k comes after op i. */
  predicate LastUse(ops: seq<Op>, i: nat, k: string)
    requires i < |ops|
  {
    ops[i].Arrive? && ops[i].key == k && forall j :: i < j < |ops| && ops[j].Arrive? ==> ops[j].key != k
  }

  /**
   * In every clocked run from the empty table, a session last used at time u is there exactly until the
   * first tick later than u + idle, and that tick comes no later than u + 2 * idle.
   */
  lemma EvictedOnTime(start: int, idle: int, ops: seq<Op>, now: int, i: nat, k: string)
    requires idle > 0 && Clocked(ops, start, idle, now)
    requires i < |ops| && LastUse(ops, i, k) && k in After(map[], idle, ops[..i + 1])
    ensures var u := ops[i].at;
      && u + idle < DueAt(start, idle, u) <= u + 2 * idle
      && (k in After(map[], idle, ops) <==> now < DueAt(start, idle, u))
  {
    hide TickAt, DueAt, Clocked, After;
    var t, post := After(map[], idle, ops[..i + 1]), ops[i + 1..];
    assert ops == ops[..i + 1] + post;
    FirstTickAfter(start, idle, ops[i].at);
    StillUsed(idle, ops, i);
    AfterConcat(map[], idle, ops[..i + 1], post);
    IdleSession(t, idle, post, k);
    LaterTicks(start, idle, ops, now, i);
  }

  lemma StillUsed(idle: int, ops: seq<Op>, i: nat)
    requires i < |ops| && ops[i].Arrive? && ops[i].key in After(map[], idle, ops[..i + 1])
    ensures After(map[], idle, ops[..i + 1])[ops[i].key] == ops[i].at
  {
    assert ops[..i + 1][..i] == ops[..i];
  }

  /** All ticks after op i are within idle of it exactly until the due one. */
  lemma LaterTicks(start: int, idle: int, ops: seq<Op>, now: int, i: nat)
    requires idle > 0 && Clocked(ops, start, idle, now) && i < |ops| && ops[i].Arrive?
    ensures var u, post := ops[i].at, ops[i + 1..];
      (forall m :: 0 <= m < |post| && post[m].Tick? ==> post[m].at <= u + idle) <==> now < DueAt(start, idle, u)
  {
    hide TickAt, DueAt;
    var u, post := ops[i].at, ops[i + 1..];
    var due := DueAt(start, idle, u);
    FirstTickAfter(start, idle, u);
    if due <= now {
      assert Tick(due) in ops;
      var m :| 0 <= m < |ops| && ops[m] == Tick(due);
      assert m > i;
      assert post[m - i - 1] == Tick(due);
    } else {
      forall m | 0 <= m < |post| && post[m].Tick? ensures post[m].at <= u + idle {
        assert ops[i + 1 + m] == post[m] == Tick(post[m].at);
      }
    }
  }

  // ---- The reader

  datatype Packet = Packet(client: string, payload: seq<bv8>)

  /** What is handed to one forward goroutine. */
  datatype Job = Job(client: string, data: array<bv8>)

  const BUFFER: nat := 65535

  function Received(p: Packet): seq<bv8> {
    if |p.payload| <= BUFFER then p.payload else p.payload[..BUFFER]
  }

  /** ReadFrom fills the front of the buffer; what does not fit is dropped. */
  method ReadFrom(p: Packet, buf: array<bv8>) returns (n: nat)
    requires buf.Length == BUFFER
    modifies buf
    ensures n == |Received(p)| && buf[..n] == Received(p)
    ensures n == (if |p.payload| <= 65535 then |p.payload| else 65535) && buf[..n] == p.payload[..n]
  {
    n := if |p.payload| <= buf.Length then |p.payload| else buf.Length;
    for i := 0 to n
      invariant buf[..i] == p.payload[..i]
    {
      buf[i] := p.payload[i];
    }
  }

  method Copy(buf: array<bv8>, n: nat) returns (data: array<bv8>)
    requires n <= buf.Length
    ensures fresh(data) && data[..] == buf[..n]
  {
    data := new bv8[n];
    for i := 0 to n
      invariant data[..i] == buf[..i]
    {
      data[i] := buf[i];
    }
  }

  /** One buffer serves every read, yet each goroutine still holds the bytes of its own datagram at the end. */
  method Listen(packets: seq<Packet>) returns (jobs: seq<Job>)
    ensures |jobs| == |packets|
    ensures forall i :: 0 <= i < |jobs| ==>
      fresh(jobs[i].data) && jobs[i].client == packets[i].client && jobs[i].data[..] == Received(packets[i])
    ensures forall i :: 0 <= i < |jobs| && |packets[i].payload| <= 65535 ==> jobs[i].data[..] == packets[i].payload
    ensures forall i, j :: 0 <= i < j < |jobs| ==> jobs[i].data != jobs[j].data
  {
    var buf := new bv8[BUFFER];
    jobs := [];
    for i := 0 to |packets|
      modifies buf
      invariant |jobs| == i
      invariant forall k :: 0 <= k < i ==> fresh(jobs[k].data) && jobs[k].data != buf && jobs[k].client == packets[k].client
      invariant forall k :: 0 <= k < i ==> jobs[k].data[..] == Received(packets[k])
      invariant forall k, l :: 0 <= k < l < i ==> jobs[k].data != jobs[l].data
    {
      var n := ReadFrom(packets[i], buf);
      var data := Copy(buf, n);
      jobs := jobs + [Job(packets[i].client, data)];
    }
  }
}
