/** The per-IP rate limiter: a map of token buckets and the eviction of idle ones. */
module FluxShield {

  /** A limiter: tokens left when it last granted a request, and when that was. */
  datatype Bucket = Bucket(tokens: real, last: real)

  datatype Entry = Entry(bucket: Bucket, lastSeen: real)

  datatype Shield = Shield(rps: real, burst: int)

  type Peers = map<string, Entry>

  /** Seconds after which an unseen entry may be evicted. */
  const IDLE: real := 60.0

  function Min(x: real, y: real): real {
    if x < y then x else y
  }

  /** The tokens in a bucket at a later time: refilled at rps, capped at burst. */
  function Level(p: Shield, b: Bucket, now: real): real {
    var elapsed := if now < b.last then 0.0 else now - b.last;
    Min(p.burst as real, b.tokens + elapsed * p.rps)
  }

  /** A new limiter starts with all its tokens. */
  function Full(p: Shield, now: real): Bucket {
    Bucket(p.burst as real, now)
  }

  /** One token is there for one request. */
  predicate Allows(p: Shield, b: Bucket, now: real) {
    1 <= p.burst && Level(p, b, now) - 1.0 >= 0.0
  }

  /** A refused request leaves the limiter as it was. */
  function Spent(p: Shield, b: Bucket, now: real): Bucket {
    if Allows(p, b, now) then Bucket(Level(p, b, now) - 1.0, now) else b
  }

  function LimiterOf(p: Shield, peers: Peers, ip: string, now: real): Bucket {
    if ip in peers then peers[ip].bucket else Full(p, now)
  }

  function Granted(p: Shield, peers: Peers, ip: string, now: real): bool {
    Allows(p, LimiterOf(p, peers, ip, now), now)
  }

  function Handled(p: Shield, peers: Peers, ip: string, now: real): Peers {
    peers[ip := Entry(Spent(p, LimiterOf(p, peers, ip, now), now), now)]
  }

  /** A request marks its own client as seen now and touches no other. */
  lemma HandledOthers(p: Shield, peers: Peers, ip: string, now: real)
    ensures var after := Handled(p, peers, ip, now);
      && ip in after && after[ip].lastSeen == now
      && forall jp :: jp != ip ==> (jp in after <==> jp in peers) && (jp in peers ==> after[jp] == peers[jp])
  {}

  /** Entries last seen strictly before now - 60 go. */
  function Cleaned(peers: Peers, now: real): Peers {
    map ip | ip in peers && peers[ip].lastSeen >= now - IDLE :: peers[ip]
  }

  // ---- The objects

  class Limiter {
    const limit: Shield
    var tokens: real
    var last: real

    constructor (limit: Shield, now: real)
      ensures this.limit == limit && View() == Full(limit, now)
    {
      this.limit, tokens, last := limit, limit.burst as real, now;
    }

    function View(): Bucket
      reads this
    {
      Bucket(tokens, last)
    }

    method Allow(now: real) returns (ok: bool)
      modifies this
      ensures ok == Allows(limit, old(View()), now)
      ensures View() == Spent(limit, old(View()), now)
      ensures var elapsed := if now < old(last) then 0.0 else now - old(last);
        && (ok <==> limit.burst >= 1 && old(tokens) + elapsed * limit.rps >= 1.0)
        && (!ok ==> tokens == old(tokens) && last == old(last))
        && (ok ==> last == now)
        && (ok ==> tokens <= limit.burst as real - 1.0 && tokens <= old(tokens) + elapsed * limit.rps - 1.0)
        && (ok ==> tokens == limit.burst as real - 1.0 || tokens == old(tokens) + elapsed * limit.rps - 1.0)
    {
      var elapsed := if now < last then 0.0 else now - last;
      var available := tokens + elapsed * limit.rps;
      if available > limit.burst as real {
        available := limit.burst as real;
      }
      available := available - 1.0;
      ok := 1 <= limit.burst && available >= 0.0;
      if ok {
        tokens, last := available, now;
      }
    }
  }

  class Record {
    const limiter: Limiter
    var lastSeen: real

    constructor (limiter: Limiter, now: real)
      ensures this.limiter == limiter && lastSeen == now
    {
      this.limiter, lastSeen := limiter, now;
    }
  }

  class FluxShield {
    const limit: Shield
    var peers: map<string, Record>

    /** The entries as values. */
    ghost var book: Peers

    ghost function Objects(): set<object>
      reads this
    {
      (set o: object | o in peers.Values) + set ip | ip in peers :: peers[ip].limiter
    }

    ghost predicate Valid()
      reads this, Objects()
    {
      && peers.Keys == book.Keys
      && (forall ip :: ip in peers ==> Shows(peers[ip], book[ip]))
      && (forall ip, jp :: ip in peers && jp in peers && ip != jp ==>
            peers[ip] != peers[jp] && peers[ip].limiter != peers[jp].limiter)
    }

    ghost predicate Shows(r: Record, e: Entry)
      reads r, r.limiter
    {
      r.limiter.limit == limit && r.limiter.View() == e.bucket && r.lastSeen == e.lastSeen
    }

    constructor (rps: real, burst: int)
      ensures Valid() && limit == Shield(rps, burst) && book == map[]
    {
      limit, peers, book := Shield(rps, burst), map[], map[];
    }

    /** The limiter of an IP, created full when there is none; either way the IP counts as seen now. */
    method LimiterFor(ip: string, now: real) returns (l: Limiter)
      requires Valid()
      modifies this, Objects()
      ensures Valid() && ip in peers && peers[ip].limiter == l
      ensures book == old(book)[ip := Entry(LimiterOf(limit, old(book), ip, now), now)]
      ensures fresh(l) || l in old(Objects())
    {
      if ip !in peers {
        Insert(ip, now);
      }
      var e := peers[ip];
      e.lastSeen := now;
      book := book[ip := Entry(book[ip].bucket, now)];
      return e.limiter;
    }

    method Insert(ip: string, now: real)
      requires Valid() && ip !in peers
      modifies this
      ensures Valid() && ip in peers && fresh(peers[ip]) && fresh(peers[ip].limiter)
      ensures peers == old(peers)[ip := peers[ip]]
      ensures book == old(book)[ip := Entry(Full(limit, now), now)]
    {
      var fl := new Limiter(limit, now);
      var r := new Record(fl, now);
      peers := peers[ip := r];
      book := book[ip := Entry(Full(limit, now), now)];
    }

    /** Asks the limiter of a listed IP for one token. */
    method AllowOne(ip: string, l: Limiter, now: real) returns (ok: bool)
      requires Valid() && ip in peers && peers[ip].limiter == l
      modifies `book, l
      ensures Valid()
      ensures ok == Allows(limit, old(book)[ip].bucket, now)
      ensures book == old(book)[ip := Entry(Spent(limit, old(book)[ip].bucket, now), old(book)[ip].lastSeen)]
    {
      ok := l.Allow(now);
      book := book[ip := Entry(l.View(), book[ip].lastSeen)];
    }

    /** The decision of the middleware: whether the request goes on to the next handler. */
    method Middleware(ip: string, now: real) returns (ok: bool)
      requires Valid()
      modifies this, Objects()
      ensures Valid()
      ensures ok == Granted(limit, old(book), ip, now)
      ensures book == Handled(limit, old(book), ip, now)
    {
      hide Valid, Objects, Allows, Spent, LimiterOf;
      var l := LimiterFor(ip, now);
      ok := AllowOne(ip, l, now);
    }

    /** One tick of the cleanup loop. */
    method Cleanup(now: real)
      requires Valid()
      modifies this
      ensures Valid() && book == Cleaned(old(book), now)
      ensures forall ip :: ip in peers <==> ip in old(peers) && old(peers[ip].lastSeen) >= now - 60.0
      ensures forall ip :: ip in peers ==> peers[ip] == old(peers)[ip]
    {
      var cutoff := now - IDLE;
      ghost var was := peers;
      var left := peers.Keys;
      while left != {}
        invariant book == old(book) && was == old(peers)
        invariant left <= peers.Keys <= was.Keys
        invariant forall ip :: ip in peers ==> peers[ip] == was[ip]
        invariant forall ip :: ip in was && ip !in left ==> (ip in peers <==> was[ip].lastSeen >= cutoff)
        decreases left
      {
        var ip :| ip in left;
        var e := peers[ip];
        if e.lastSeen < cutoff {
          peers := peers - {ip};
        }
        left := left - {ip};
      }
      book := Cleaned(book, now);
    }
  }
}
