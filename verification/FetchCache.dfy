// The polite cached fetch (packages/core/src/fetch.ts): any number of workers, one advisory lock
// per host, a cache row per URL, and a stamp per host that spaces requests. Time is the database's
// clock in microseconds; intervals are milliseconds.
module FetchCache {
  import opened Wrappers

  /** What `(url_hash, method)` keys: a resource, on the host its lock and its interval go by. */
  datatype Resource = Resource(host: string, path: string)

  datatype Domain = Domain(intervalMs: nat, last: Option<nat>)

  /** How far a miss has come. From `Locked` on its transaction holds the host's lock. */
  datatype Phase =
    | Queued
    | Locked
    | Missed
    | Owing(at: nat, waitMs: nat)
    | Stamped(stamp: nat)
    | Requested(stamp: nat, started: nat)

  datatype Fetch = Fetch(resource: Resource, ttl: nat, intervalMs: nat, phase: Phase)

  /** A request whose transaction committed. */
  datatype Request = Request(resource: Resource, stamp: nat, started: nat)

  datatype State = State(
    now: nat,
    rows: map<Resource, nat>,          // expires_at of the stored row
    domains: map<string, Domain>,
    fetches: map<nat, Fetch>,          // by worker
    requests: seq<Request>)

  function Fresh(): State { State(0, map[], map[], map[], []) }

  /** `FETCH_CACHED_STATEMENT` finds the row. */
  predicate Cached(s: State, resource: Resource) { resource in s.rows && s.rows[resource] > s.now }

  predicate Holds(s: State, w: nat) { w in s.fetches && !s.fetches[w].phase.Queued? }

  ghost predicate HostFree(s: State, host: string) {
    forall w {:trigger Holds(s, w)} | Holds(s, w) :: s.fetches[w].resource.host != host
  }

  /** The host's row once the upsert that keeps an existing one has run. */
  function DomainOf(s: State, f: Fetch): Domain {
    if f.resource.host in s.domains then s.domains[f.resource.host] else Domain(f.intervalMs, None)
  }

  /** What the host is still owed, in microseconds. */
  function Owed(d: Domain, at: nat): nat {
    if d.last.Some? && d.intervalMs * 1000 > at - d.last.value && at >= d.last.value
    then d.intervalMs * 1000 - (at - d.last.value) else 0
  }

  /** `::bigint` rounds to the nearest millisecond. */
  function WaitMs(d: Domain, at: nat): nat { (Owed(d, at) + 500) / 1000 }

  datatype Event =
    | Arrive(w: nat, resource: Resource, ttl: nat, intervalMs: nat)
    | TakeLock(w: nat)
    | Recheck(w: nat)
    | AskWait(w: nat)
    | Stamp(w: nat)
    | Send(w: nat)
    | Commit(w: nat)
    | Rollback(w: nat)
    | Tick(us: nat)

  function InPhase(s: State, w: nat, phase: Phase): State
    requires w in s.fetches
  {
    s.(fetches := s.fetches[w := s.fetches[w].(phase := phase)])
  }

  function Gone(s: State, w: nat): State { s.(fetches := s.fetches - {w}) }

  predicate At(s: State, w: nat) { w in s.fetches }

  /** The row, the stamp and the request become visible together. */
  function Committed(s: State, w: nat): State
    requires w in s.fetches && s.fetches[w].phase.Requested?
  {
    var f := s.fetches[w];
    Gone(s, w).(rows := s.rows[f.resource := s.now + f.ttl],
                domains := s.domains[f.resource.host := DomainOf(s, f).(last := Some(f.phase.stamp))],
                requests := s.requests + [Request(f.resource, f.phase.stamp, f.phase.started)])
  }

  ghost function Next(s: State, event: Event): State {
    match event
    case Arrive(w, resource, ttl, intervalMs) =>
      if w in s.fetches || Cached(s, resource) then s
      else s.(fetches := s.fetches[w := Fetch(resource, ttl, intervalMs, Queued)])
    case TakeLock(w) =>
      if w in s.fetches && s.fetches[w].phase.Queued? && HostFree(s, s.fetches[w].resource.host)
      then InPhase(s, w, Locked) else s
    case Recheck(w) =>
      if w !in s.fetches || !s.fetches[w].phase.Locked? then s
      else if Cached(s, s.fetches[w].resource) then Gone(s, w)
      else InPhase(s, w, Missed)
    case AskWait(w) =>
      if w in s.fetches && s.fetches[w].phase.Missed?
      then InPhase(s, w, Owing(s.now, WaitMs(DomainOf(s, s.fetches[w]), s.now))) else s
    case Stamp(w) =>
      if w in s.fetches && s.fetches[w].phase.Owing? && s.now >= s.fetches[w].phase.at + s.fetches[w].phase.waitMs * 1000
      then InPhase(s, w, Stamped(s.now)) else s
    case Send(w) =>
      if w in s.fetches && s.fetches[w].phase.Stamped?
      then InPhase(s, w, Requested(s.fetches[w].phase.stamp, s.now)) else s
    case Commit(w) => if w in s.fetches && s.fetches[w].phase.Requested? then Committed(s, w) else s
    case Rollback(w) => Gone(s, w)
    case Tick(us) => s.(now := s.now + us)
  }

  ghost function Run(events: seq<Event>): State
    decreases |events|
  {
    if events == [] then Fresh() else Next(Run(events[..|events| - 1]), events[|events| - 1])
  }

  // ----- rounding -----

  /** The wait falls short of what is owed by less than half a millisecond, and by exactly this. */
  lemma WaitFallsShort(d: Domain, at: nat)
    ensures var owed, wait := Owed(d, at), WaitMs(d, at) * 1000;
            wait + 499 >= owed && (wait >= owed <==> owed % 1000 == 0 || owed % 1000 >= 500) &&
            (wait < owed ==> owed - wait == owed % 1000)
  {
  }

  /** A stamp made this long after the host's last keeps its interval to within the rounding. */
  predicate Spaced(d: Domain, stamp: nat) {
    d.last.Some? ==> d.last.value <= stamp && stamp + 499 >= d.last.value + d.intervalMs * 1000
  }

  // ----- what every state keeps -----

  predicate Exclusive(s: State, v: nat, w: nat) {
    (Holds(s, v) && Holds(s, w) && s.fetches[v].resource.host == s.fetches[w].resource.host) ==> v == w
  }

  /** Every request the host has committed had started by then. */
  ghost predicate Behind(s: State, host: string, at: nat) {
    forall i | 0 <= i < |s.requests| && s.requests[i].resource.host == host :: s.requests[i].started <= at
  }

  ghost predicate FetchOk(s: State, w: nat)
    requires w in s.fetches
  {
    var f := s.fetches[w];
    match f.phase
    case Queued => true
    case Locked => true
    case Missed => !Cached(s, f.resource)
    case Owing(at, waitMs) =>
      !Cached(s, f.resource) && at <= s.now && waitMs == WaitMs(DomainOf(s, f), at) && Reached(DomainOf(s, f), at) &&
      Behind(s, f.resource.host, at)
    case Stamped(stamp) =>
      !Cached(s, f.resource) && stamp <= s.now && Spaced(DomainOf(s, f), stamp) && Behind(s, f.resource.host, stamp)
    case Requested(stamp, started) =>
      stamp <= started <= s.now && Spaced(DomainOf(s, f), stamp) && Behind(s, f.resource.host, stamp)
  }

  /** The host was last reached before then. */
  predicate Reached(d: Domain, at: nat) { d.last.Some? ==> d.last.value <= at }

  predicate DomainOk(s: State, host: string)
    requires host in s.domains
  {
    Reached(s.domains[host], s.now)
  }

  predicate RequestOk(s: State, r: Request) {
    r.resource.host in s.domains && s.domains[r.resource.host].last.Some? &&
    r.stamp <= s.domains[r.resource.host].last.value && r.stamp <= r.started <= s.now
  }

  /** Of two committed requests to one host the later is stamped after the earlier started, and an interval after its stamp. */
  predicate Apart(s: State, i: nat, j: nat)
    requires i < |s.requests| && j < |s.requests|
  {
    (i < j && s.requests[i].resource.host == s.requests[j].resource.host && s.requests[i].resource.host in s.domains) ==>
      s.requests[j].stamp + 499 >= s.requests[i].stamp + s.domains[s.requests[i].resource.host].intervalMs * 1000 &&
      s.requests[j].stamp >= s.requests[i].started
  }

  ghost predicate Polite(s: State) {
    (forall v, w {:trigger Exclusive(s, v, w)} :: Exclusive(s, v, w)) &&
    (forall w {:trigger FetchOk(s, w)} | w in s.fetches :: FetchOk(s, w)) &&
    (forall h {:trigger DomainOk(s, h)} | h in s.domains :: DomainOk(s, h)) &&
    (forall i {:trigger s.requests[i]} | 0 <= i < |s.requests| :: RequestOk(s, s.requests[i])) &&
    (forall i, j {:trigger Apart(s, i, j)} | 0 <= i < |s.requests| && 0 <= j < |s.requests| :: Apart(s, i, j))
  }

  /** One fetch moved on, or none did, and nothing was stored. */
  lemma MoveKeepsPolite(s: State, s': State, w: nat)
    requires Polite(s) && s' == s.(fetches := s'.fetches) && s'.fetches - {w} == s.fetches - {w}
    requires w in s'.fetches ==> FetchOk(s', w)
    requires Holds(s', w) ==>
               (Holds(s, w) && s.fetches[w].resource == s'.fetches[w].resource) ||
               HostFree(s, s'.fetches[w].resource.host)
    ensures Polite(s')
  {
    forall v | v != w ensures v in s'.fetches <==> v in s.fetches {
      assert v in s.fetches - {w} <==> v in s'.fetches - {w};
    }
    forall v | v in s'.fetches && v != w ensures s'.fetches[v] == s.fetches[v] {
      assert (s.fetches - {w})[v] == (s'.fetches - {w})[v];
    }
    forall v | v in s'.fetches ensures FetchOk(s', v) { assert v != w ==> FetchOk(s, v); }
    forall v, u ensures Exclusive(s', v, u) {
      assert Exclusive(s, v, u);
      assert v != w ==> (Holds(s', v) <==> Holds(s, v));
      assert u != w ==> (Holds(s', u) <==> Holds(s, u));
    }
    forall h | h in s'.domains ensures DomainOk(s', h) { assert DomainOk(s, h); }
    forall i | 0 <= i < |s'.requests| ensures RequestOk(s', s'.requests[i]) { assert RequestOk(s, s.requests[i]); }
    forall i, j | 0 <= i < |s'.requests| && 0 <= j < |s'.requests| ensures Apart(s', i, j) { assert Apart(s, i, j); }
  }

  lemma TickKeepsPolite(s: State, us: nat)
    requires Polite(s)
    ensures Polite(Next(s, Tick(us)))
  {
    var s' := Next(s, Tick(us));
    forall v, u ensures Exclusive(s', v, u) { assert Exclusive(s, v, u); assert Holds(s', v) == Holds(s, v) && Holds(s', u) == Holds(s, u); }
    forall v | v in s'.fetches ensures FetchOk(s', v) { assert FetchOk(s, v); }
    forall h | h in s'.domains ensures DomainOk(s', h) { assert DomainOk(s, h); }
    forall i | 0 <= i < |s'.requests| ensures RequestOk(s', s'.requests[i]) { assert RequestOk(s, s.requests[i]); }
    forall i, j | 0 <= i < |s'.requests| && 0 <= j < |s'.requests| ensures Apart(s', i, j) { assert Apart(s, i, j); }
  }

  /** A commit touches its own host only, which nobody else is past the queue for. */
  lemma CommitKeepsPolite(s: State, w: nat)
    requires Polite(s) && w in s.fetches && s.fetches[w].phase.Requested?
    ensures Polite(Committed(s, w))
  {
    var s', f := Committed(s, w), s.fetches[w];
    assert FetchOk(s, w);
    forall v, u ensures Exclusive(s', v, u) {
      assert Exclusive(s, v, u);
      assert Holds(s', v) ==> Holds(s, v);
      assert Holds(s', u) ==> Holds(s, u);
    }
    forall v | v in s'.fetches ensures FetchOk(s', v) {
      assert FetchOk(s, v) && Exclusive(s, v, w);
    }
    forall h | h in s'.domains ensures DomainOk(s', h) { assert h in s.domains ==> DomainOk(s, h); }
    forall i | 0 <= i < |s'.requests| ensures RequestOk(s', s'.requests[i]) {
      if i < |s.requests| { assert RequestOk(s, s.requests[i]); }
    }
    forall i, j | 0 <= i < |s'.requests| && 0 <= j < |s'.requests| ensures Apart(s', i, j) {
      if i < |s.requests| {
        assert RequestOk(s, s.requests[i]);
        if j < |s.requests| { assert Apart(s, i, j); }
      }
    }
  }

  lemma AnyMoveKeepsPolite(s: State, event: Event)
    requires Polite(s) && !event.Tick? && !event.Commit?
    ensures Polite(Next(s, event))
  {
    assert event.w in s.fetches ==> FetchOk(s, event.w);
    if event.w in s.fetches {
      var d := DomainOf(s, s.fetches[event.w]);
      if s.fetches[event.w].resource.host in s.domains { assert DomainOk(s, s.fetches[event.w].resource.host); }
      if s.fetches[event.w].phase.Owing? { WaitFallsShort(d, s.fetches[event.w].phase.at); }
    }
    MoveKeepsPolite(s, Next(s, event), event.w);
  }

  lemma {:induction false} RunsArePolite(events: seq<Event>)
    ensures Polite(Run(events))
    decreases |events|
  {
    if events != [] {
      var s := Run(events[..|events| - 1]);
      RunsArePolite(events[..|events| - 1]);
      match events[|events| - 1] {
        case Tick(us) => TickKeepsPolite(s, us);
        case Commit(w) => if w in s.fetches && s.fetches[w].phase.Requested? { CommitKeepsPolite(s, w); }
        case event => AnyMoveKeepsPolite(s, event);
      }
    }
  }

  /** How long after a request's start the host's next one may start, by the interval and the request's own lag. */
  function Gap(intervalMs: nat, lag: nat): nat {
    if lag + 499 < intervalMs * 1000 then intervalMs * 1000 - 499 - lag else 0
  }

  /**
   * Committed requests to one host start in turn, an interval apart, less the rounding of the wait
   * and however long the earlier one took from its stamp to its start.
   */
  lemma RequestsAreSpaced(events: seq<Event>, i: nat, j: nat)
    requires var s := Run(events); i < j < |s.requests| && s.requests[i].resource.host == s.requests[j].resource.host
    ensures var s := Run(events);
            var first, second := s.requests[i], s.requests[j];
            first.resource.host in s.domains && first.stamp <= first.started &&
            second.started >= first.started + Gap(s.domains[first.resource.host].intervalMs, first.started - first.stamp)
  {
    var s := Run(events);
    RunsArePolite(events);
    assert RequestOk(s, s.requests[i]) && RequestOk(s, s.requests[j]) && Apart(s, i, j);
  }

  /** No request is sent while a stored row for its resource is inside its expiry. */
  lemma CachedIsNotFetched(events: seq<Event>, w: nat)
    requires Next(Run(events), Send(w)) != Run(events)
    ensures var s := Run(events);
            w in s.fetches && s.fetches[w].phase.Stamped? &&
            !(s.fetches[w].resource in s.rows && s.rows[s.fetches[w].resource] > s.now)
  {
    RunsArePolite(events);
    assert FetchOk(Run(events), w);
  }

  /** Nor do two workers ever have a request to one host under way together. */
  lemma OneRequestPerHost(events: seq<Event>, v: nat, w: nat)
    requires var s := Run(events); v in s.fetches && w in s.fetches && s.fetches[v].phase.Requested? && s.fetches[w].phase.Requested?
    requires Run(events).fetches[v].resource.host == Run(events).fetches[w].resource.host
    ensures v == w
  {
    RunsArePolite(events);
    assert Exclusive(Run(events), v, w);
  }

  // ----- one miss, start to finish -----

  /** A miss that waits no longer than it has to, whose request starts `lag` after its stamp. */
  function Fetched(s: State, resource: Resource, ttl: nat, intervalMs: nat, lag: nat): State {
    var d := DomainOf(s, Fetch(resource, ttl, intervalMs, Locked));
    var stamp := s.now + WaitMs(d, s.now) * 1000;
    s.(now := stamp + lag, rows := s.rows[resource := stamp + lag + ttl],
       domains := s.domains[resource.host := d.(last := Some(stamp))],
       requests := s.requests + [Request(resource, stamp, stamp + lag)])
  }

  /** One event more, from any reached state. */
  lemma Play(events: seq<Event>, event: Event) returns (longer: seq<Event>)
    ensures events <= longer && Run(longer) == Next(Run(events), event)
  {
    longer := events + [event];
    assert longer[..|events|] == events;
  }

  /** A worker past its queue, waiting as long as it was told to. */
  function Waiting(s: State, w: nat, resource: Resource, ttl: nat, intervalMs: nat): State {
    var wait := WaitMs(DomainOf(s, Fetch(resource, ttl, intervalMs, Locked)), s.now);
    s.(fetches := s.fetches[w := Fetch(resource, ttl, intervalMs, Owing(s.now, wait))])
  }

  /** Nobody is at the host, the row is missing or expired, and a new worker comes. */
  ghost predicate CanFetch(s: State, w: nat, resource: Resource) {
    w !in s.fetches && HostFree(s, resource.host) && !(resource in s.rows && s.rows[resource] > s.now)
  }

  lemma MissWaits(s: State, w: nat, resource: Resource, ttl: nat, intervalMs: nat)
    requires CanFetch(s, w, resource)
    ensures Next(Next(Next(Next(s, Arrive(w, resource, ttl, intervalMs)), TakeLock(w)), Recheck(w)), AskWait(w)) ==
            Waiting(s, w, resource, ttl, intervalMs)
  {
    var queued := Next(s, Arrive(w, resource, ttl, intervalMs));
    assert queued == s.(fetches := s.fetches[w := Fetch(resource, ttl, intervalMs, Queued)]);
    forall v | Holds(queued, v) ensures queued.fetches[v].resource.host != resource.host { assert Holds(s, v); }
    var locked := Next(queued, TakeLock(w));
    assert locked == s.(fetches := s.fetches[w := Fetch(resource, ttl, intervalMs, Locked)]);
    var missed := Next(locked, Recheck(w));
    assert missed == s.(fetches := s.fetches[w := Fetch(resource, ttl, intervalMs, Missed)]);
    assert Next(missed, AskWait(w)).fetches == Waiting(s, w, resource, ttl, intervalMs).fetches;
  }

  lemma PlayMiss(events: seq<Event>, w: nat, resource: Resource, ttl: nat, intervalMs: nat) returns (longer: seq<Event>)
    requires CanFetch(Run(events), w, resource)
    ensures events <= longer && Run(longer) == Waiting(Run(events), w, resource, ttl, intervalMs)
  {
    MissWaits(Run(events), w, resource, ttl, intervalMs);
    longer := Play(events, Arrive(w, resource, ttl, intervalMs));
    longer := Play(longer, TakeLock(w));
    longer := Play(longer, Recheck(w));
    longer := Play(longer, AskWait(w));
  }

  /** A worker whose wait is over. */
  function Ready(s: State, w: nat, resource: Resource, ttl: nat, intervalMs: nat): State {
    var stamp := s.now + WaitMs(DomainOf(s, Fetch(resource, ttl, intervalMs, Locked)), s.now) * 1000;
    s.(now := stamp, fetches := s.fetches[w := Fetch(resource, ttl, intervalMs, Stamped(stamp))])
  }

  lemma WaitingIsReady(s: State, w: nat, resource: Resource, ttl: nat, intervalMs: nat)
    ensures var waiting := Waiting(s, w, resource, ttl, intervalMs);
            Next(Next(waiting, Tick(waiting.fetches[w].phase.waitMs * 1000)), Stamp(w)) == Ready(s, w, resource, ttl, intervalMs)
  {
    var waiting, ready := Waiting(s, w, resource, ttl, intervalMs), Ready(s, w, resource, ttl, intervalMs);
    assert waiting.fetches[w := ready.fetches[w]] == ready.fetches;
  }

  /** The request starts, comes back, and commits. */
  lemma CommittedIsFetched(s: State, w: nat, resource: Resource, ttl: nat, intervalMs: nat, lag: nat)
    requires w !in s.fetches
    ensures Next(Next(Next(Ready(s, w, resource, ttl, intervalMs), Tick(lag)), Send(w)), Commit(w)) ==
            Fetched(s, resource, ttl, intervalMs, lag)
  {
    var r := Ready(s, w, resource, ttl, intervalMs);
    var sent := Next(Next(r, Tick(lag)), Send(w));
    assert sent.fetches == s.fetches[w := Fetch(resource, ttl, intervalMs, Requested(r.now, r.now + lag))];
    assert sent.fetches - {w} == s.fetches;
  }

  /** Its wait is over and the host is stamped. */
  lemma PlayWait(events: seq<Event>, w: nat, resource: Resource, ttl: nat, intervalMs: nat) returns (longer: seq<Event>)
    requires CanFetch(Run(events), w, resource)
    ensures events <= longer && Run(longer) == Ready(Run(events), w, resource, ttl, intervalMs)
  {
    var waiting := Waiting(Run(events), w, resource, ttl, intervalMs);
    WaitingIsReady(Run(events), w, resource, ttl, intervalMs);
    longer := PlayMiss(events, w, resource, ttl, intervalMs);
    longer := Play(longer, Tick(waiting.fetches[w].phase.waitMs * 1000));
    longer := Play(longer, Stamp(w));
  }

  /** A miss with nobody at its host plays out so, whoever is at the others. */
  lemma PlayFetch(events: seq<Event>, w: nat, resource: Resource, ttl: nat, intervalMs: nat, lag: nat)
    returns (longer: seq<Event>)
    requires CanFetch(Run(events), w, resource)
    ensures events <= longer && Run(longer) == Fetched(Run(events), resource, ttl, intervalMs, lag)
  {
    CommittedIsFetched(Run(events), w, resource, ttl, intervalMs, lag);
    longer := PlayWait(events, w, resource, ttl, intervalMs);
    longer := Play(longer, Tick(lag));
    longer := Play(longer, Send(w));
    longer := Play(longer, Commit(w));
  }

  /**
   * A row that is missing or past its expiry is fetched again: from any state of any run with nobody at
   * its host, the next worker to come commits a request for it and stores a row that lives its time.
   */
  lemma ExpiredIsFetched(events: seq<Event>, w: nat, resource: Resource, ttl: nat, intervalMs: nat, lag: nat)
    returns (longer: seq<Event>)
    requires var s := Run(events); w !in s.fetches && !(resource in s.rows && s.rows[resource] > s.now)
    requires var s := Run(events); forall v | v in s.fetches && s.fetches[v].resource.host == resource.host :: s.fetches[v].phase.Queued?
    ensures events <= longer
    ensures var s, s' := Run(events), Run(longer);
            |s'.requests| == |s.requests| + 1 && s'.requests[..|s.requests|] == s.requests &&
            s'.requests[|s.requests|].resource == resource && s'.requests[|s.requests|].started >= s.now &&
            resource in s'.rows && s'.rows[resource] == s'.now + ttl && s'.fetches == s.fetches
  {
    longer := PlayFetch(events, w, resource, ttl, intervalMs, lag);
  }

  /**
   * And no later: for every interval and every lag, some run's two requests to one host start
   * exactly so far apart.
   */
  lemma SpacingFallsShort(intervalMs: nat, lag: nat) returns (events: seq<Event>)
    ensures var s := Run(events);
            |s.requests| == 2 && s.requests[0].resource.host == s.requests[1].resource.host &&
            s.requests[0].resource.host in s.domains && s.domains[s.requests[0].resource.host].intervalMs == intervalMs &&
            s.requests[0].started == s.requests[0].stamp + lag &&
            s.requests[1].started == s.requests[0].started + Gap(intervalMs, lag)
  {
    var a, b := Resource("host", "a"), Resource("host", "b");
    events := PlayFetch([], 0, a, 0, intervalMs, lag);
    events := Play(events, Tick(Gap(intervalMs, lag)));
    assert WaitMs(Run(events).domains["host"], Run(events).now) == 0;
    events := PlayFetch(events, 0, b, 0, intervalMs, 0);
  }

  /** The tables as one worker drives them. */
  class Fetcher {
    var now: nat
    var rows: map<Resource, nat>
    var domains: map<string, Domain>
    ghost var requests: seq<Request>

    ghost function View(): State
      reads this
    {
      State(now, rows, domains, map[], requests)
    }

    constructor ()
      ensures View() == Fresh()
    {
      now, rows, domains, requests := 0, map[], map[], [];
    }

    /**
     * `fetchGet` with nobody else at the host: a stored row answers for itself; a miss waits, stamps,
     * requests and writes; and a request that fails leaves no stamp and no row.
     */
    method FetchGet(resource: Resource, ttl: nat, intervalMs: nat, lag: nat, fails: bool) returns (hit: bool)
      modifies this
      ensures hit <==> resource in old(rows) && old(rows)[resource] > old(now)
      ensures hit ==> View() == old(View())
      ensures !hit && !fails ==> View() == Fetched(old(View()), resource, ttl, intervalMs, lag)
      ensures !hit && fails ==> rows == old(rows) && domains == old(domains) && requests == old(requests)
      ensures !hit && !fails ==>
                var host, domains0 := resource.host, old(domains);
                host in domains && domains[host].last.Some? && domains == domains0[host := domains[host]] &&
                domains[host].intervalMs == (if host in domains0 then domains0[host].intervalMs else intervalMs) &&
                var stamp := domains[host].last.value;
                stamp >= old(now) && now == stamp + lag && rows == old(rows)[resource := now + ttl] &&
                requests == old(requests) + [Request(resource, stamp, now)]
      ensures !hit && !fails ==>
                var host, domains0, now0 := resource.host, old(domains), old(now);
                host in domains && domains[host].last.Some? &&
                var stamp := domains[host].last.value;
                if host in domains0 && domains0[host].last.Some? && domains0[host].last.value <= now0
                then var due := domains0[host].last.value + domains0[host].intervalMs * 1000;
                     stamp + 499 >= due && (stamp == now0 || stamp <= due + 500) && (due <= now0 ==> stamp == now0)
                else stamp == now0
    {
      if resource in rows && rows[resource] > now { return true; }
      var begunRows, begunDomains := rows, domains;
      var host := resource.host;
      if host !in domains { domains := domains[host := Domain(intervalMs, None)]; }
      var owed := WaitMs(domains[host], now);
      if owed > 0 { now := now + owed * 1000; }
      var stamp := now;
      domains := domains[host := domains[host].(last := Some(stamp))];
      now := now + lag;
      if fails {
        rows, domains := begunRows, begunDomains;
        return false;
      }
      requests := requests + [Request(resource, stamp, now)];
      rows := rows[resource := now + ttl];
      return false;
    }
  }
}
