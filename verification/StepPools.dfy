// The step pool's fence: per-checkout wrappers over pooled connections, the lease that holds a
// connection's tag, and the transactions that tag, run and hand back.
module StepPools {
  import opened Wrappers

  /** One checkout: the wrapper `fenceClient` makes, known by the lease it minted. */
  datatype Checkout = Checkout(client: nat, released: bool)

  /** A statement that reached a connection. */
  datatype Forwarded = Forwarded(client: nat, lease: nat, write: bool)

  datatype State = State(
    known: set<nat>,                   // open connections
    idle: set<nat>,                    // those the pool has in hand
    checkouts: map<nat, Checkout>,     // by lease
    tagged: map<nat, nat>,             // connection to the lease holding its tag
    forwarded: seq<Forwarded>,
    returned: multiset<nat>)           // calls of the pool's own release, by lease

  function Fresh(): State { State({}, {}, map[], map[], [], multiset{}) }

  predicate Tagged(s: State, lease: nat) {
    lease in s.checkouts && s.checkouts[lease].client in s.tagged && s.tagged[s.checkouts[lease].client] == lease
  }

  predicate Open(s: State, lease: nat) { lease in s.checkouts && !s.checkouts[lease].released }

  datatype Event =
    | Connect(client: nat, lease: nat)
    | Tag(lease: nat)
    | Query(lease: nat, write: bool)
    | Release(lease: nat, broken: bool)

  /** The pool leases an idle connection, or opens one. */
  predicate CanConnect(s: State, client: nat, lease: nat) {
    lease !in s.checkouts && (client in s.idle || client !in s.known)
  }

  function Connected(s: State, client: nat, lease: nat): State {
    s.(known := s.known + {client}, idle := s.idle - {client}, checkouts := s.checkouts[lease := Checkout(client, false)])
  }

  /** `release`: idempotent, untags what this checkout tagged, and a broken connection is not kept. */
  function Released(s: State, lease: nat, broken: bool): State {
    if !Open(s, lease) then s
    else
      var client := s.checkouts[lease].client;
      s.(checkouts := s.checkouts[lease := Checkout(client, true)],
         tagged := if Tagged(s, lease) then s.tagged - {client} else s.tagged,
         idle := if broken then s.idle else s.idle + {client},
         known := if broken then s.known - {client} else s.known,
         returned := s.returned[lease := s.returned[lease] + 1])
  }

  predicate Refused(s: State, lease: nat, write: bool) { write && !Tagged(s, lease) }

  /** A refused statement hands the connection back; any other reaches it, open checkout or not. */
  function Queried(s: State, lease: nat, write: bool): State {
    if lease !in s.checkouts then s
    else if Refused(s, lease, write) then Released(s, lease, false)
    else s.(forwarded := s.forwarded + [Forwarded(s.checkouts[lease].client, lease, write)])
  }

  function Next(s: State, event: Event): State {
    match event
    case Connect(client, lease) => if CanConnect(s, client, lease) then Connected(s, client, lease) else s
    case Tag(lease) => if lease in s.checkouts then s.(tagged := s.tagged[s.checkouts[lease].client := lease]) else s
    case Query(lease, write) => Queried(s, lease, write)
    case Release(lease, broken) => Released(s, lease, broken)
  }

  function Run(events: seq<Event>): State
    decreases |events|
  {
    if events == [] then Fresh() else Next(Run(events[..|events| - 1]), events[|events| - 1])
  }

  /** Only an open checkout is ever tagged, as `tx` tags the one it just made. */
  predicate TagsOpen(events: seq<Event>) {
    forall i {:trigger events[i]} | 0 <= i < |events| && events[i].Tag? :: Open(Run(events[..i]), events[i].lease)
  }

  /** An open checkout has its connection to itself. */
  predicate Exclusive(s: State, lease: nat, other: nat) {
    Open(s, lease) && Open(s, other) && s.checkouts[lease].client == s.checkouts[other].client ==> lease == other
  }

  predicate CheckoutOk(s: State, lease: nat)
    requires lease in s.checkouts
  {
    s.returned[lease] == (if s.checkouts[lease].released then 1 else 0) &&
    (Open(s, lease) ==> s.checkouts[lease].client in s.known - s.idle)
  }

  predicate TagOk(s: State, client: nat)
    requires client in s.tagged
  {
    Open(s, s.tagged[client]) && s.checkouts[s.tagged[client]].client == client
  }

  ghost predicate Leased(s: State) {
    s.idle <= s.known &&
    (forall l {:trigger CheckoutOk(s, l)} | l in s.checkouts :: CheckoutOk(s, l)) &&
    (forall l {:trigger s.returned[l]} | l !in s.checkouts :: s.returned[l] == 0) &&
    (forall l, m {:trigger Exclusive(s, l, m)} :: Exclusive(s, l, m))
  }

  ghost predicate Fenced(s: State) {
    forall c {:trigger TagOk(s, c)} | c in s.tagged :: TagOk(s, c)
  }

  lemma ReleaseKeepsLeased(s: State, lease: nat, broken: bool)
    requires Leased(s)
    ensures Leased(Released(s, lease, broken))
  {
    var s' := Released(s, lease, broken);
    if !Open(s, lease) { return; }
    assert CheckoutOk(s, lease);
    forall l | l !in s'.checkouts ensures s'.returned[l] == 0 { assert s.returned[l] == 0; }
    forall l | l in s'.checkouts ensures CheckoutOk(s', l) {
      assert CheckoutOk(s, l) && Exclusive(s, l, lease);
    }
    forall l, m ensures Exclusive(s', l, m) { assert Exclusive(s, l, m); }
  }

  lemma StepKeepsLeased(s: State, event: Event)
    requires Leased(s)
    ensures Leased(Next(s, event))
  {
    var s' := Next(s, event);
    match event {
      case Release(lease, broken) => ReleaseKeepsLeased(s, lease, broken); return;
      case Query(lease, write) => if Refused(s, lease, write) { ReleaseKeepsLeased(s, lease, false); return; }
      case _ =>
    }
    forall l | l in s'.checkouts ensures CheckoutOk(s', l) { assert l in s.checkouts ==> CheckoutOk(s, l); }
    forall l, m ensures Exclusive(s', l, m) {
      assert Exclusive(s, l, m);
      assert (l in s.checkouts ==> CheckoutOk(s, l)) && (m in s.checkouts ==> CheckoutOk(s, m));
    }
  }

  lemma ReleaseKeepsFenced(s: State, lease: nat, broken: bool)
    requires Fenced(s)
    ensures Fenced(Released(s, lease, broken))
  {
    var s' := Released(s, lease, broken);
    forall c | c in s'.tagged ensures TagOk(s', c) { assert TagOk(s, c); }
  }

  lemma StepKeepsFenced(s: State, event: Event)
    requires Fenced(s) && (event.Tag? ==> Open(s, event.lease))
    ensures Fenced(Next(s, event))
  {
    var s' := Next(s, event);
    match event {
      case Release(lease, broken) => ReleaseKeepsFenced(s, lease, broken); return;
      case Query(lease, write) => if Refused(s, lease, write) { ReleaseKeepsFenced(s, lease, false); return; }
      case _ =>
    }
    forall c | c in s'.tagged ensures TagOk(s', c) { assert c in s.tagged ==> TagOk(s, c); }
  }

  lemma {:induction false} RunsAreLeased(events: seq<Event>)
    ensures Leased(Run(events))
    ensures TagsOpen(events) ==> Fenced(Run(events))
    decreases |events|
  {
    if events != [] {
      var before, last := events[..|events| - 1], events[|events| - 1];
      RunsAreLeased(before);
      StepKeepsLeased(Run(before), last);
      if TagsOpen(events) {
        forall i | 0 <= i < |before| && before[i].Tag? ensures Open(Run(before[..i]), before[i].lease) {
          assert before[i] == events[i] && before[..i] == events[..i];
        }
        StepKeepsFenced(Run(before), last);
      }
    }
  }

  /**
   * A write reaches a connection only from the open checkout that holds its tag, which has the
   * connection to itself: not from another checkout of the pool, nor from a handle kept past its
   * own transaction.
   */
  lemma WritesComeFromTheTagHolder(events: seq<Event>, lease: nat)
    requires TagsOpen(events) && Queried(Run(events), lease, true).forwarded != Run(events).forwarded
    ensures var s := Run(events);
            Open(s, lease) && Tagged(s, lease) && s.checkouts[lease].client !in s.idle &&
            Queried(s, lease, true).forwarded == s.forwarded + [Forwarded(s.checkouts[lease].client, lease, true)] &&
            forall other | Open(s, other) && s.checkouts[other].client == s.checkouts[lease].client :: other == lease
  {
    var s := Run(events);
    RunsAreLeased(events);
    assert TagOk(s, s.checkouts[lease].client) && CheckoutOk(s, lease);
    forall other | Open(s, other) && s.checkouts[other].client == s.checkouts[lease].client ensures other == lease {
      assert Exclusive(s, lease, other);
    }
  }

  /** A checkout gives its connection back at most once, however often it is released or refused. */
  lemma {:induction false} ReturnedAtMostOnce(events: seq<Event>, lease: nat)
    ensures Run(events).returned[lease] <= 1
    ensures Run(events).returned[lease] == 1 <==> lease in Run(events).checkouts && Run(events).checkouts[lease].released
  {
    RunsAreLeased(events);
    assert lease in Run(events).checkouts ==> CheckoutOk(Run(events), lease);
  }

  /** The wrapper itself does not stop a tag on a closed checkout; what keeps it out is `tx`. */
  lemma LateTagWrites() returns (events: seq<Event>)
    ensures !TagsOpen(events)
    ensures var s := Run(events); !Open(s, 0) && Queried(s, 0, true).forwarded != s.forwarded
  {
    events := [Connect(7, 0), Release(0, false), Tag(0)];
    assert events[..2] == [Connect(7, 0), Release(0, false)] && events[..2][..1] == [Connect(7, 0)];
    assert events[..1] == [Connect(7, 0)] && events[..1][..0] == [];
    assert Run(events[..1]) == Connected(Fresh(), 7, 0);
    assert Run(events[..2]) == Released(Run(events[..1]), 0, false);
    assert events[2].Tag? && !Open(Run(events[..2]), 0);
  }

  // ----- the pool itself -----

  /** `ctx.tx` around its caller's statements: `BEGIN`, the fence, the work, `COMMIT`. */
  function Script(work: seq<bool>): seq<bool> { [true, true] + work + [true] }

  function Sent(client: nat, lease: nat, statements: seq<bool>): seq<Forwarded> {
    seq(|statements|, i requires 0 <= i < |statements| => Forwarded(client, lease, statements[i]))
  }

  /** The statements of a transaction that fails at one of them, with its `ROLLBACK`; all of them otherwise. */
  function Attempted(work: seq<bool>, failsAt: Option<nat>): seq<bool> {
    if failsAt.Some? && failsAt.value < |Script(work)| then Script(work)[..failsAt.value + 1] + [true] else Script(work)
  }

  /** A second release changes nothing, and no other checkout or tag is touched. */
  lemma ReleasesNoOther(s: State, lease: nat, broken: bool)
    requires lease in s.checkouts
    ensures var s' := Released(s, lease, broken);
            (forall again :: Released(s', lease, again) == s') &&
            forall other | other != lease ::
              (Open(s', other) <==> Open(s, other)) && (Tagged(s', other) <==> Tagged(s, other))
  {
  }

  /** One by one: `BEGIN` and the fence first, then the work, and `COMMIT` or `ROLLBACK` last. */
  lemma AttemptedByStatement(work: seq<bool>, failsAt: Option<nat>)
    ensures var statements, fails := Attempted(work, failsAt), failsAt.Some? && failsAt.value < |work| + 3;
            |statements| == (if fails then failsAt.value + 2 else |work| + 3) &&
            forall k | 0 <= k < |statements| ::
              statements[k] == (k < 2 || k == |statements| - 1 || k - 2 >= |work| || work[k - 2])
  {
  }

  class StepPool {
    var known: set<nat>
    var idle: set<nat>
    var checkouts: map<nat, Checkout>
    var tagged: map<nat, nat>
    ghost var forwarded: seq<Forwarded>
    ghost var returned: multiset<nat>

    ghost function View(): State
      reads this
    {
      State(known, idle, checkouts, tagged, forwarded, returned)
    }

    constructor ()
      ensures View() == Fresh()
    {
      known, idle, checkouts, tagged := {}, {}, map[], map[];
      forwarded, returned := [], multiset{};
    }

    method Connect(client: nat, lease: nat)
      requires CanConnect(View(), client, lease)
      modifies this
      ensures View() == Next(old(View()), Event.Connect(client, lease))
    {
      known, idle, checkouts := known + {client}, idle - {client}, checkouts[lease := Checkout(client, false)];
    }

    method TagForTransaction(lease: nat)
      requires lease in checkouts
      modifies `tagged
      ensures View() == Next(old(View()), Tag(lease))
    {
      tagged := tagged[checkouts[lease].client := lease];
    }

    /** The statements of `release`. */
    method HandBack(lease: nat, broken: bool)
      requires lease in checkouts
      modifies this
      ensures View() == Released(old(View()), lease, broken)
    {
      if checkouts[lease].released { return; }
      var client := checkouts[lease].client;
      checkouts := checkouts[lease := Checkout(client, true)];
      if client in tagged && tagged[client] == lease { tagged := tagged - {client}; }
      if broken { known := known - {client}; } else { idle := idle + {client}; }
      returned := returned[lease := returned[lease] + 1];
    }

    /**
     * `release`: the checkout is over and its tag gone, whatever happened to it before; a second one
     * changes nothing, and no other checkout, tag or return is touched.
     */
    method Release(lease: nat, broken: bool)
      requires lease in checkouts
      modifies this
      ensures View() == Released(old(View()), lease, broken)
      ensures lease in checkouts && checkouts[lease].released && checkouts[lease].client == old(checkouts)[lease].client
      ensures !old(checkouts)[lease].released ==>
                var client := old(checkouts)[lease].client;
                returned == old(returned)[lease := old(returned)[lease] + 1] &&
                checkouts == old(checkouts)[lease := Checkout(client, true)] &&
                tagged == (if client in old(tagged) && old(tagged)[client] == lease then old(tagged) - {client} else old(tagged)) &&
                if broken then known == old(known) - {client} && idle == old(idle)
                else known == old(known) && idle == old(idle) + {client}
      ensures old(checkouts)[lease].released ==> View() == old(View())
      ensures forall again :: Released(View(), lease, again) == View()
      ensures forall other | other != lease ::
                (Open(View(), other) <==> Open(old(View()), other)) && (Tagged(View(), other) <==> Tagged(old(View()), other))
      ensures forwarded == old(forwarded)
      ensures Fenced(old(View())) ==> Fenced(View())
    {
      ghost var before := View();
      HandBack(lease, broken);
      ReleasesNoOther(before, lease, broken);
      if Fenced(before) { ReleaseKeepsFenced(before, lease, broken); }
    }

    /**
     * `client.query`: `UnfencedWrite` is thrown exactly when the statement writes and the checkout
     * does not hold its connection's tag. Then nothing is sent and the checkout is over; otherwise
     * this statement is sent and nothing else moves.
     */
    method Query(lease: nat, write: bool) returns (refused: bool)
      requires lease in checkouts
      modifies this
      ensures View() == Queried(old(View()), lease, write)
      ensures refused <==> write && !(checkouts[lease].client in old(tagged) && old(tagged)[checkouts[lease].client] == lease)
      ensures checkouts[lease].client == old(checkouts)[lease].client
      ensures refused ==> forwarded == old(forwarded) && checkouts[lease].released
      ensures refused ==> returned[lease] == old(returned)[lease] + if old(checkouts)[lease].released then 0 else 1
      ensures !refused ==> View() == old(View()).(forwarded := forwarded)
      ensures !refused ==> forwarded == old(forwarded) + [Forwarded(checkouts[lease].client, lease, write)]
      ensures Fenced(old(View())) ==> Fenced(View())
    {
      var client := checkouts[lease].client;
      refused := write && !(client in tagged && tagged[client] == lease);
      if refused {
        Release(lease, false);
      } else {
        ghost var before := View();
        forwarded := forwarded + [Forwarded(client, lease, write)];
        if Fenced(before) {
          forall c | c in tagged ensures TagOk(View(), c) { assert TagOk(before, c); }
        }
      }
    }

    /** `pool.query`: a write is refused before anything is checked out; a read has a checkout of its own. */
    method PoolQuery(client: nat, lease: nat, write: bool) returns (refused: bool)
      requires CanConnect(View(), client, lease) && Fenced(View())
      modifies this
      ensures refused == write
      ensures View() == if write then old(View())
                        else Released(Sending(Connected(old(View()), client, lease), lease, [false]), lease, false)
      ensures write ==> View() == old(View())
      ensures !write ==>
                forwarded == old(forwarded) + [Forwarded(client, lease, false)] && client in idle &&
                checkouts == old(checkouts)[lease := Checkout(client, true)] && tagged == old(tagged) &&
                returned == old(returned)[lease := old(returned)[lease] + 1]
      ensures Fenced(View())
    {
      if write { return true; }
      ghost var before := View();
      assert client in before.tagged ==> TagOk(before, client);
      Connect(client, lease);
      ghost var connected := View();
      refused := Query(lease, false);
      assert Sent(client, lease, [false]) == [Forwarded(client, lease, false)];
      Release(lease, false);
      forall c | c in tagged ensures TagOk(View(), c) { assert TagOk(before, c); }
    }

    /** Statements in turn, up to and including the one that fails. */
    method Send(lease: nat, statements: seq<bool>, failsAt: Option<nat>) returns (failed: bool)
      requires Tagged(View(), lease)
      modifies this
      ensures failed <==> failsAt.Some? && failsAt.value < |statements|
      ensures var attempted := if failed then statements[..failsAt.value + 1] else statements;
              View() == Sending(old(View()), lease, attempted)
    {
      failed := false;
      var k := 0;
      while k < |statements| && !failed
        invariant 0 <= k <= |statements|
        invariant failed ==> failsAt == Some(k - 1)
        invariant !failed ==> failsAt.None? || failsAt.value >= k
        invariant View() == Sending(old(View()), lease, statements[..k])
        decreases |statements| - k
      {
        var refused := Query(lease, statements[k]);
        SendingOneMore(old(View()), lease, statements, k);
        if failsAt == Some(k) { failed := true; }
        k := k + 1;
      }
      if !failed { assert statements[..k] == statements; }
    }

    /** The statements of `tx`. */
    method TxStatements(client: nat, lease: nat, work: seq<bool>, failsAt: Option<nat>, rollbackFails: bool)
      returns (committed: bool)
      requires CanConnect(View(), client, lease) && Fenced(View())
      modifies this
      ensures committed <==> failsAt.None? || failsAt.value >= |Script(work)|
      ensures var begun := Tagging(Connected(old(View()), client, lease), client, lease);
              View() == Released(Sending(begun, lease, Attempted(work, failsAt)), lease, !committed && rollbackFails)
      ensures Fenced(View())
    {
      ghost var before := View();
      Connect(client, lease);
      TagForTransaction(lease);
      ghost var begun := View();
      var failed := Send(lease, Script(work), failsAt);
      committed := !failed;
      if failed {
        var refused := Query(lease, true);
        SendingThen(begun, lease, Script(work)[..failsAt.value + 1], true);
      }
      HandBack(lease, failed && rollbackFails);
      forall c | c in tagged ensures TagOk(View(), c) { assert c in before.tagged ==> TagOk(before, c); }
    }

    /**
     * `tx`: every statement of it reaches the one connection it checked out, under the tag, `BEGIN` and
     * the fence first and `COMMIT` or `ROLLBACK` last; and whatever fails the connection goes back once
     * and untagged, or is destroyed if `ROLLBACK` failed.
     */
    method Tx(client: nat, lease: nat, work: seq<bool>, failsAt: Option<nat>, rollbackFails: bool) returns (committed: bool)
      requires CanConnect(View(), client, lease) && Fenced(View())
      modifies this
      ensures committed <==> failsAt.None? || failsAt.value >= |work| + 3
      ensures var begun := Tagging(Connected(old(View()), client, lease), client, lease);
              View() == Released(Sending(begun, lease, Attempted(work, failsAt)), lease, !committed && rollbackFails)
      ensures Fenced(View())
      ensures checkouts == old(checkouts)[lease := Checkout(client, true)] && tagged == old(tagged) - {client}
      ensures returned == old(returned)[lease := old(returned)[lease] + 1]
      ensures if !committed && rollbackFails then client !in known else client in idle
      ensures |forwarded| == |old(forwarded)| + (if committed then |work| + 3 else failsAt.value + 2)
      ensures forwarded[..|old(forwarded)|] == old(forwarded)
      ensures forall i | |old(forwarded)| <= i < |forwarded| ::
                var k := i - |old(forwarded)|;
                forwarded[i] == Forwarded(client, lease, k < 2 || i == |forwarded| - 1 || k - 2 >= |work| || work[k - 2])
    {
      ghost var before := View();
      committed := TxStatements(client, lease, work, failsAt, rollbackFails);
      AttemptedByStatement(work, failsAt);
      var statements := Attempted(work, failsAt);
      assert forwarded == before.forwarded + Sent(client, lease, statements);
      forall i | |before.forwarded| <= i < |forwarded|
        ensures forwarded[i] == Forwarded(client, lease, statements[i - |before.forwarded|]) {}
    }
  }

  /** Statements that reach a tagged checkout's connection. */
  function Sending(s: State, lease: nat, statements: seq<bool>): State
    requires lease in s.checkouts
  {
    s.(forwarded := s.forwarded + Sent(s.checkouts[lease].client, lease, statements))
  }

  lemma SendingThen(s: State, lease: nat, statements: seq<bool>, write: bool)
    requires Tagged(s, lease)
    ensures Queried(Sending(s, lease, statements), lease, write) == Sending(s, lease, statements + [write])
  {
    var client := s.checkouts[lease].client;
    assert Sent(client, lease, statements + [write]) == Sent(client, lease, statements) + [Forwarded(client, lease, write)];
  }

  lemma SendingOneMore(s: State, lease: nat, statements: seq<bool>, k: nat)
    requires Tagged(s, lease) && k < |statements|
    ensures Queried(Sending(s, lease, statements[..k]), lease, statements[k]) == Sending(s, lease, statements[..k + 1])
  {
    SendingThen(s, lease, statements[..k], statements[k]);
    assert statements[..k + 1] == statements[..k] + [statements[k]];
  }

  function Tagging(s: State, client: nat, lease: nat): State { s.(tagged := s.tagged[client := lease]) }
}
