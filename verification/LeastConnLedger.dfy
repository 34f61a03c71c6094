/**
 * Acquire and Release under concurrency. Each first fetches the counter object of its address and
 * later adds to it, and SetBackends may run in between. Counter objects are cells of a heap, so a
 * counter that was fetched before its address was dropped is a cell that no address maps to.
 */
module LeastConnLedger {
  import opened Lists

  type Client = nat
  type Cell = nat

  datatype Fetched = Nothing | Found(cell: Cell)

  /** One request or connection: Next has chosen, Acquire runs, it is open, Release runs. */
  datatype Job =
    | Idle
    | Chosen(addr: string)
    | Acquiring(addr: string, at: Fetched)
    | Open(addr: string)
    | Releasing(addr: string, at: Fetched)

  datatype State = State(heap: seq<int>, list: seq<string>, conns: map<string, Cell>, jobs: map<Client, Job>)

  datatype Event =
    | Choose(c: Client, addr: string)
    | Fetch(c: Client)
    | Land(c: Client)
    | Replace(addrs: seq<string>)

  function JobOf(s: State, c: Client): Job {
    if c in s.jobs then s.jobs[c] else Idle
  }

  function Lookup(s: State, a: string): Fetched {
    if a in s.conns then Found(s.conns[a]) else Nothing
  }

  predicate Can(s: State, e: Event) {
    match e
    case Choose(c, a) => JobOf(s, c).Idle? && a in s.list
    case Fetch(c) => JobOf(s, c).Chosen? || JobOf(s, c).Open?
    case Land(c) => JobOf(s, c).Acquiring? || JobOf(s, c).Releasing?
    case Replace(addrs) => true
  }

  function LastIndex(xs: seq<string>, x: string): (i: nat)
    requires x in xs
    ensures i < |xs| && xs[i] == x
  {
    if xs[|xs| - 1] == x then |xs| - 1 else LastIndex(xs[..|xs| - 1], x)
  }

  /** Kept addresses keep their cell; each new one gets a cell beyond the present heap. */
  function Relisted(conns: map<string, Cell>, size: nat, addrs: seq<string>): map<string, Cell> {
    map a | a in addrs :: if a in conns then conns[a] else size + LastIndex(addrs, a)
  }

  function Bump(heap: seq<int>, at: Fetched, d: int): seq<int> {
    if at.Found? && at.cell < |heap| then heap[at.cell := heap[at.cell] + d] else heap
  }

  function Do(s: State, e: Event): State
    requires Can(s, e)
  {
    match e
    case Choose(c, a) => s.(jobs := s.jobs[c := Chosen(a)])
    case Fetch(c) =>
      var j := JobOf(s, c);
      s.(jobs := s.jobs[c := if j.Chosen? then Acquiring(j.addr, Lookup(s, j.addr))
                             else Releasing(j.addr, Lookup(s, j.addr))])
    case Land(c) =>
      var j := JobOf(s, c);
      if j.Acquiring?
      then s.(heap := Bump(s.heap, j.at, 1), jobs := s.jobs[c := Open(j.addr)])
      else s.(heap := Bump(s.heap, j.at, -1), jobs := s.jobs[c := Idle])
    case Replace(addrs) =>
      s.(heap := s.heap + Zeros(|addrs|), list := addrs, conns := Relisted(s.conns, |s.heap|, addrs))
  }

  function Start(list: seq<string>): State {
    State(Zeros(|list|), list, Relisted(map[], 0, list), map[])
  }

  /** The state after a sequence of events; an event that cannot happen is passed over. */
  function After(list: seq<string>, es: seq<Event>): State {
    if es == [] then Start(list)
    else
      var s, e := After(list, es[..|es| - 1]), es[|es| - 1];
      if Can(s, e) then Do(s, e) else s
  }

  /** The fetched counter of a job between its two steps. */
  predicate Midway(j: Job) {
    j.Acquiring? || j.Releasing?
  }

  // ---- Addresses and cells

  ghost predicate WellFormed(s: State) {
    && (forall a :: a in s.conns <==> a in s.list)
    && (forall a :: a in s.conns ==> s.conns[a] < |s.heap|)
    && (forall a, b :: a in s.conns && b in s.conns && s.conns[a] == s.conns[b] ==> a == b)
    && forall c :: Midway(JobOf(s, c)) ==> SoundFetch(s, JobOf(s, c))
  }

  /** A fetched cell still in use belongs to the address it was fetched for. */
  ghost predicate SoundFetch(s: State, j: Job)
    requires Midway(j)
  {
    j.at.Found? ==>
      && j.at.cell < |s.heap|
      && forall b :: b in s.conns && s.conns[b] == j.at.cell ==> b == j.addr
  }

  lemma StartWellFormed(list: seq<string>)
    ensures WellFormed(Start(list))
  {}

  lemma WellFormedDo(s: State, e: Event)
    requires WellFormed(s) && Can(s, e)
    ensures WellFormed(Do(s, e))
  {
    var t := Do(s, e);
    forall c | Midway(JobOf(t, c)) ensures SoundFetch(t, JobOf(t, c)) {
      if e.Fetch? && c == e.c {
      } else {
        assert JobOf(t, c) == JobOf(s, c);
        assert SoundFetch(s, JobOf(s, c));
      }
    }
  }

  lemma {:induction false} WellFormedAfter(list: seq<string>, es: seq<Event>)
    ensures WellFormed(After(list, es))
  {
    if es == [] {
      StartWellFormed(list);
    } else {
      WellFormedAfter(list, es[..|es| - 1]);
      var s, e := After(list, es[..|es| - 1]), es[|es| - 1];
      if Can(s, e) {
        WellFormedDo(s, e);
      }
    }
  }

  // ---- The count since an address last entered the list

  /** How many events had happened when a last entered the list. */
  function Entered(list: seq<string>, es: seq<Event>, a: string): (n: nat)
    ensures n <= |es|
  {
    if es == [] then 0
    else
      var init, e := es[..|es| - 1], es[|es| - 1];
      if e.Replace? && a in e.addrs && a !in After(list, init).list then |es| else Entered(list, init, a)
  }

  /** How many events had happened when client c last fetched a counter. */
  function FetchTime(list: seq<string>, es: seq<Event>, c: Client): (n: nat)
    ensures n <= |es|
  {
    if es == [] then 0
    else
      var init, e := es[..|es| - 1], es[|es| - 1];
      if e == Fetch(c) && Can(After(list, init), e) then |es| - 1 else FetchTime(list, init, c)
  }

  /** Acquires less releases of a, counting those that were begun since a last entered the list. */
  function Net(list: seq<string>, es: seq<Event>, a: string): int {
    if es == [] then 0
    else
      var init, e := es[..|es| - 1], es[|es| - 1];
      var s, n := After(list, init), Net(list, init, a);
      match e
      case Replace(addrs) => if a in addrs && a in s.list then n else 0
      case Land(c) =>
        var j := JobOf(s, c);
        if Midway(j) && j.addr == a && FetchTime(list, init, c) >= Entered(list, init, a)
        then n + if j.Acquiring? then 1 else -1
        else n
      case _ => n
  }

  /** A job midway holds the listed counter exactly when it fetched since its address entered. */
  ghost predicate Timely(list: seq<string>, es: seq<Event>, c: Client) {
    var s, j := After(list, es), JobOf(After(list, es), c);
    Midway(j) && j.addr in s.conns ==>
      (j.at == Found(s.conns[j.addr]) <==> FetchTime(list, es, c) >= Entered(list, es, j.addr))
  }

  lemma FetchSound(list: seq<string>, es: seq<Event>, c: Client)
    ensures var s := After(list, es);
      && (Midway(JobOf(s, c)) ==> SoundFetch(s, JobOf(s, c)))
      && forall a :: a in s.conns <==> a in s.list
  {
    WellFormedAfter(list, es);
  }

  lemma {:induction false} AlwaysTimely(list: seq<string>, es: seq<Event>, c: Client)
    ensures Timely(list, es, c)
  {
    if es != [] {
      var init, e := es[..|es| - 1], es[|es| - 1];
      AlwaysTimely(list, init, c);
      FetchSound(list, init, c);
    }
  }

  lemma ListedCell(s: State, a: string)
    requires WellFormed(s) && a in s.list
    ensures a in s.conns && s.conns[a] < |s.heap|
  {}

  lemma StartCounts(list: seq<string>, a: string)
    requires a in list
    ensures a in Start(list).conns && Start(list).conns[a] < |list| && Start(list).heap[Start(list).conns[a]] == 0
  {}

  /** What an event adds to the counter of a: only a landing on that very cell moves it. */
  function Moves(s: State, e: Event, a: string): int
    requires Can(s, e)
  {
    if e.Land? && JobOf(s, e.c).at == Lookup(s, a) && a in s.conns then (if JobOf(s, e.c).Acquiring? then 1 else -1) else 0
  }

  lemma CellDo(s: State, e: Event, a: string)
    requires WellFormed(s) && Can(s, e) && a in Do(s, e).list
    ensures a in Do(s, e).conns && Do(s, e).conns[a] < |Do(s, e).heap|
    ensures Do(s, e).list == if e.Replace? then e.addrs else s.list
    ensures a !in s.list ==> Do(s, e).heap[Do(s, e).conns[a]] == 0
    ensures a in s.list ==> a in s.conns && s.conns[a] < |s.heap|
    ensures a in s.list ==> Do(s, e).heap[Do(s, e).conns[a]] == s.heap[s.conns[a]] + Moves(s, e, a)
    ensures Moves(s, e, a) != 0 ==> JobOf(s, e.c).addr == a
  {
    if e.Land? {
      assert SoundFetch(s, JobOf(s, e.c));
    }
  }

  /**
   * A listed address's counter is what was acquired less what was released since it last entered; no
   * update is lost.
   */
  lemma {:induction false} CountConserved(list: seq<string>, es: seq<Event>, a: string)
    requires a in After(list, es).list
    ensures a in After(list, es).conns && After(list, es).conns[a] < |After(list, es).heap|
    ensures After(list, es).heap[After(list, es).conns[a]] == Net(list, es, a)
  {
    hide WellFormed, Bump, Do;
    WellFormedAfter(list, es);
    ListedCell(After(list, es), a);
    if es == [] {
      StartCounts(list, a);
    } else {
      var init, e := es[..|es| - 1], es[|es| - 1];
      var s := After(list, init);
      WellFormedAfter(list, init);
      if Can(s, e) {
        CellDo(s, e, a);
      }
      if a in s.list {
        CountConserved(list, init, a);
        if e.Land? {
          AlwaysTimely(list, init, e.c);
        }
      }
    }
  }

  // ---- An address that is never dropped

  /** Jobs whose acquire of a has landed and whose release has not. */
  function Held(s: State, a: string): set<Client> {
    set c | c in s.jobs && (s.jobs[c].Open? || s.jobs[c].Releasing?) && s.jobs[c].addr == a
  }

  /** No replacement of the list leaves a out. */
  predicate Keeps(es: seq<Event>, a: string) {
    forall i :: 0 <= i < |es| && es[i].Replace? ==> a in es[i].addrs
  }

  predicate NeverDropped(list: seq<string>, es: seq<Event>, a: string) {
    a in list && Keeps(es, a)
  }

  /** The counter of a is the number of its open holds. */
  predicate CountsHolds(s: State, a: string) {
    a in s.conns && s.conns[a] < |s.heap| && s.heap[s.conns[a]] == |Held(s, a)|
  }

  /** Besides, every job of a midway is about to move that very counter. */
  ghost predicate Keeping(s: State, a: string) {
    && CountsHolds(s, a)
    && forall c :: Midway(JobOf(s, c)) && JobOf(s, c).addr == a ==> JobOf(s, c).at == Found(s.conns[a])
  }

  lemma HeldDo(s: State, e: Event, a: string)
    requires Can(s, e)
    ensures var t := Do(s, e);
      if e.Land? && JobOf(s, e.c).addr == a then
        if JobOf(s, e.c).Acquiring?
        then e.c !in Held(s, a) && Held(t, a) == Held(s, a) + {e.c}
        else e.c in Held(s, a) && Held(t, a) == Held(s, a) - {e.c}
      else Held(t, a) == Held(s, a)
  {}

  lemma KeepingDo(s: State, e: Event, a: string)
    requires WellFormed(s) && Keeping(s, a) && Can(s, e)
    requires e.Replace? ==> a in e.addrs
    ensures Keeping(Do(s, e), a)
  {
    hide Held;
    HeldDo(s, e, a);
    var t := Do(s, e);
    if e.Land? {
      assert SoundFetch(s, JobOf(s, e.c));
    }
    forall c | Midway(JobOf(t, c)) && JobOf(t, c).addr == a ensures JobOf(t, c).at == Found(t.conns[a]) {
      assert JobOf(t, c) == JobOf(s, c) || (e == Fetch(c) && JobOf(t, c).at == Lookup(s, a));
    }
  }

  /** With a kept throughout, its counter is the number of open holds, so it is zero once all is quiet. */
  lemma {:induction false} CountIsHolds(list: seq<string>, es: seq<Event>, a: string)
    requires NeverDropped(list, es, a)
    ensures Keeping(After(list, es), a)
    ensures (forall c :: JobOf(After(list, es), c).Idle?) ==> After(list, es).heap[After(list, es).conns[a]] == 0
  {
    if es == [] {
      assert Held(Start(list), a) == {};
    } else {
      var init, e := es[..|es| - 1], es[|es| - 1];
      CountIsHolds(list, init, a);
      WellFormedAfter(list, init);
      if Can(After(list, init), e) {
        KeepingDo(After(list, init), e, a);
      }
      assert (forall c :: JobOf(After(list, es), c).Idle?) ==> Held(After(list, es), a) == {} by {
        forall c | c in Held(After(list, es), a) ensures !JobOf(After(list, es), c).Idle? {}
      }
    }
  }

  /**
   * Holds the present counter of a never saw: those open when a was listed anew, and later landings on
   * an older counter.
   */
  function Uncounted(list: seq<string>, es: seq<Event>, a: string): int {
    if es == [] then 0
    else
      var init, e := es[..|es| - 1], es[|es| - 1];
      var s, n := After(list, init), Uncounted(list, init, a);
      match e
      case Replace(addrs) => if a !in addrs then 0 else if a in s.list then n else |Held(s, a)|
      case Land(c) =>
        var j := JobOf(s, c);
        if Midway(j) && j.addr == a && FetchTime(list, init, c) < Entered(list, init, a)
        then n + if j.Acquiring? then 1 else -1
        else n
      case _ => n
  }

  lemma {:induction false} NetAgainstHolds(list: seq<string>, es: seq<Event>, a: string)
    requires a in After(list, es).list
    ensures Net(list, es, a) == |Held(After(list, es), a)| - Uncounted(list, es, a)
  {
    hide Held;
    if es == [] {
      NothingHeld(list, a);
    } else {
      var init, e := es[..|es| - 1], es[|es| - 1];
      var s := After(list, init);
      if a in s.list {
        NetAgainstHolds(list, init, a);
      }
      if Can(s, e) {
        HeldDo(s, e, a);
      }
    }
  }

  lemma NothingHeld(list: seq<string>, a: string)
    ensures Held(Start(list), a) == {}
  {}

  /** The counter of a listed address falls short of its open holds by those it never saw. */
  lemma ShortOfHolds(list: seq<string>, es: seq<Event>, a: string)
    requires a in After(list, es).list
    ensures var s := After(list, es);
      && a in s.conns && s.conns[a] < |s.heap|
      && s.heap[s.conns[a]] == |Held(s, a)| - Uncounted(list, es, a)
  {
    CountConserved(list, es, a);
    NetAgainstHolds(list, es, a);
  }

  // ---- An address that is listed anew

  /** A job of a that is about to be, or still is, a hold. */
  predicate Engaged(j: Job, a: string) {
    (j.Acquiring? || j.Open? || j.Releasing?) && j.addr == a
  }

  /** What holds of the new counter at the moment of the relisting. */
  lemma RelistStep(s: State, addrs: seq<string>, a: string)
    requires WellFormed(s) && a !in s.list && a in addrs
    ensures var t := Do(s, Replace(addrs));
      && t.jobs == s.jobs && WellFormed(t)
      && a in t.conns && |s.heap| <= t.conns[a] < |t.heap| && t.heap[t.conns[a]] == 0
  {
    WellFormedDo(s, Replace(addrs));
  }

  lemma IdleRelistKeeps(s: State, addrs: seq<string>, a: string)
    requires WellFormed(s) && a !in s.list && a in addrs
    requires forall c :: !Engaged(JobOf(s, c), a)
    ensures Keeping(Do(s, Replace(addrs)), a)
  {
    hide Do;
    RelistStep(s, addrs, a);
    var t := Do(s, Replace(addrs));
    forall c ensures JobOf(t, c) == JobOf(s, c) && !Engaged(JobOf(t, c), a) {}
    assert Held(t, a) == {} by {
      forall c | c in Held(t, a) ensures Engaged(JobOf(t, c), a) {}
    }
  }

  /** A hold that outlived the drop is not in the new counter, at once or as soon as its acquire lands. */
  lemma EngagedRelistFails(s: State, addrs: seq<string>, a: string, c: Client)
    requires WellFormed(s) && a !in s.list && a in addrs && Engaged(JobOf(s, c), a)
    ensures var t := Do(s, Replace(addrs));
      !CountsHolds(t, a) || (Can(t, Land(c)) && !CountsHolds(Do(t, Land(c)), a))
  {
    RelistStep(s, addrs, a);
    var t := Do(s, Replace(addrs));
    assert JobOf(t, c) == JobOf(s, c);
    if JobOf(s, c).Acquiring? {
      assert SoundFetch(s, JobOf(s, c));
      assert c in Held(Do(t, Land(c)), a);
    } else {
      assert c in Held(t, a);
    }
  }

  lemma {:induction false} KeepingOn(list: seq<string>, es: seq<Event>, more: seq<Event>, a: string)
    requires Keeping(After(list, es), a) && Keeps(more, a)
    ensures Keeping(After(list, es + more), a)
    decreases |more|
  {
    hide Keeping, WellFormed, Do, Can;
    if more == [] {
      assert es + more == es;
    } else {
      var n := |more| - 1;
      KeepingOn(list, es, more[..n], a);
      WellFormedAfter(list, es + more[..n]);
      assert es + more == es + more[..n] + [more[n]];
      if Can(After(list, es + more[..n]), more[n]) {
        AfterOne(list, es + more[..n], more[n]);
        KeepingDo(After(list, es + more[..n]), more[n], a);
      } else {
        assert (es + more)[..|es| + n] == es + more[..n];
      }
    }
  }

  /**
   * When an address that is not listed is listed again, its counter is the number of its open holds for
   * as long as it is kept, whatever happens, exactly when no job of that address is acquiring, open or
   * releasing at that moment.
   */
  lemma RelistedCountsHoldsIff(list: seq<string>, es: seq<Event>, addrs: seq<string>, a: string)
    requires a !in After(list, es).list && a in addrs
    ensures (forall more :: Keeps(more, a) ==> CountsHolds(After(list, es + [Replace(addrs)] + more), a)) <==>
      (forall c :: !Engaged(JobOf(After(list, es), c), a))
  {
    hide WellFormed, Do, Engaged, CountsHolds, Keeping;
    var s, relisted := After(list, es), es + [Replace(addrs)];
    WellFormedAfter(list, es);
    AfterOne(list, es, Replace(addrs));
    if c :| Engaged(JobOf(s, c), a) {
      EngagedRelistFails(s, addrs, a, c);
      assert relisted + [] == relisted && Keeps([], a);
      if Can(After(list, relisted), Land(c)) {
        AfterOne(list, relisted, Land(c));
        assert Keeps([Land(c)], a);
      }
    } else {
      IdleRelistKeeps(s, addrs, a);
      forall more | Keeps(more, a) ensures CountsHolds(After(list, relisted + more), a) {
        KeepingOn(list, relisted, more, a);
        KeepingCounts(After(list, relisted + more), a);
      }
    }
  }

  lemma KeepingCounts(s: State, a: string)
    requires Keeping(s, a)
    ensures CountsHolds(s, a)
  {}

  lemma AfterOne(list: seq<string>, es: seq<Event>, e: Event)
    requires Can(After(list, es), e)
    ensures After(list, es + [e]) == Do(After(list, es), e)
  {
    assert (es + [e])[..|es|] == es;
  }

  /**
   * The failure in one sequence of events: a connection that outlives a drop is released on the new
   * counter.
   */
  lemma NegativeAfterDrop()
    ensures var s := After(["a"], OpenOne + [Replace([]), Replace(["a"])] + CloseOne);
      && Held(s, "a") == {}
      && "a" in s.conns && s.conns["a"] < |s.heap| && s.heap[s.conns["a"]] == -1
  {
    var list, es := ["a"], OpenOne + [Replace([]), Replace(["a"])];
    OpenOneEnds();
    AfterOne(list, OpenOne, Replace([]));
    AfterOne(list, OpenOne + [Replace([])], Replace(["a"]));
    assert OpenOne + [Replace([])] + [Replace(["a"])] == es;
    assert After(list, es) == State([1, 0], ["a"], map["a" := 1], map[0 := Open("a")]);
    AfterOne(list, es, Fetch(0));
    AfterOne(list, es + [Fetch(0)], Land(0));
    assert es + [Fetch(0)] + [Land(0)] == es + CloseOne;
    assert After(list, es + CloseOne) == State([1, -1], ["a"], map["a" := 1], map[0 := Idle]);
  }

  const OpenOne: seq<Event> := [Choose(0, "a"), Fetch(0), Land(0)]
  const CloseOne: seq<Event> := [Fetch(0), Land(0)]

  lemma OpenOneEnds()
    ensures After(["a"], OpenOne) == State([1], ["a"], map["a" := 0], map[0 := Open("a")])
  {
    var list := ["a"];
    AfterOne(list, [], Choose(0, "a"));
    AfterOne(list, [Choose(0, "a")], Fetch(0));
    AfterOne(list, [Choose(0, "a"), Fetch(0)], Land(0));
    assert [Choose(0, "a")] == [] + [Choose(0, "a")];
    assert OpenOne == [Choose(0, "a"), Fetch(0)] + [Land(0)];
    assert After(list, [Choose(0, "a"), Fetch(0)]) == State([0], ["a"], map["a" := 0], map[0 := Acquiring("a", Found(0))]);
  }
}
