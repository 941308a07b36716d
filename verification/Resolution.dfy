// Entity resolution of one source, batch by batch (packages/core/src/resolution.ts): the loop over
// scanned rows, each in its own savepoint, and the groups whose first row decides for the rest.
module Resolution {
  import opened Wrappers
  import opened IdOrder
  import opened Sums

  datatype Status = New | Review | Linked | Errored

  /** A source row; `keys` is what `exactValues` makes of its payload, `None` when a key is null. */
  datatype Row = Row(keys: Option<seq<string>>, status: Status, attempts: nat)

  /** Source rows, the record each is linked to, and each record's last source row. */
  datatype Store = Store(rows: map<nat, Row>, links: map<nat, nat>, records: map<nat, nat>)

  /** What the resolver and the queries answer for one row: `exact` and `best` name records. */
  datatype Fate = Fate(exact: Option<nat>, best: Option<nat>, reviewed: bool, updates: bool, creates: Option<nat>)

  datatype Outcome = ToRecord(record: nat) | ToReview | ToError

  datatype Counts = Counts(linkedExact: nat, linkedFuzzy: nat, created: nat, updated: nat, review: nat, error: nat)
  {
    function Total(): nat { linkedExact + linkedFuzzy + created + updated + review + error }

    /** Rows the batch moved out of the scan, or closer to leaving it. */
    function Moved(): nat { Total() - review }
  }

  /** A batch part of the way; `creators` are the rows that made a record of their own. */
  datatype Batch = Batch(store: Store, groups: map<seq<string>, Outcome>, counts: Counts, creators: set<nat>)

  predicate Scannable(store: Store, maxAttempts: nat, id: nat) {
    id in store.rows && store.rows[id].status != Linked && store.rows[id].attempts < maxAttempts
  }

  function WithStatus(store: Store, id: nat, status: Status): Store
    requires id in store.rows
  {
    store.(rows := store.rows[id := store.rows[id].(status := status)])
  }

  function WithLink(store: Store, id: nat, record: nat): Store
    requires id in store.rows
  {
    WithStatus(store, id, Linked).(links := store.links[id := record])
  }

  /** The group an unlinked row decides for, or follows. */
  function GroupOf(store: Store, id: nat): Option<seq<string>>
    requires id in store.rows
  {
    if id in store.links then None else store.rows[id].keys
  }

  function Grouped(b: Batch, group: Option<seq<string>>, outcome: Outcome): Batch {
    if group.Some? then b.(groups := b.groups[group.value := outcome]) else b
  }

  /** A row is linked, parked as it is, or costs an attempt. */
  predicate Spent(b: Batch, b': Batch, id: nat)
    requires id in b.store.rows && id in b'.store.rows
  {
    match b'.store.rows[id].status
    case New => false
    case Linked => b'.counts.Moved() == b.counts.Moved() + 1
    case Review => b'.counts.Moved() == b.counts.Moved() && b'.store.rows[id].attempts == b.store.rows[id].attempts
    case Errored => b'.counts.Moved() == b.counts.Moved() + 1 && b'.store.rows[id].attempts == b.store.rows[id].attempts + 1
  }

  /** The savepoint is rolled back: the row is marked, and nothing else it did is left. */
  function Failed(b: Batch, id: nat): (b': Batch)
    requires id in b.store.rows
    ensures b'.store.rows.Keys == b.store.rows.Keys && b'.counts.Total() == b.counts.Total() + 1 && Spent(b, b', id)
  {
    var row := b.store.rows[id];
    Grouped(b.(store := b.store.(rows := b.store.rows[id := row.(status := Errored, attempts := row.attempts + 1)]),
               counts := b.counts.(error := b.counts.error + 1)),
            GroupOf(b.store, id), ToError)
  }

  /** An existing record takes the row's payload and its link. */
  function Joined(b: Batch, id: nat, record: nat, counts: Counts): (b': Batch)
    requires id in b.store.rows
    ensures b'.store.rows.Keys == b.store.rows.Keys
  {
    Grouped(b.(store := WithLink(b.store, id, record).(records := b.store.records[record := id]), counts := counts),
            GroupOf(b.store, id), ToRecord(record))
  }

  function Parked(b: Batch, id: nat): (b': Batch)
    requires id in b.store.rows
    ensures b'.store.rows.Keys == b.store.rows.Keys && b'.counts.Total() == b.counts.Total() + 1 && Spent(b, b', id)
  {
    Grouped(b.(store := WithStatus(b.store, id, Review), counts := b.counts.(review := b.counts.review + 1)),
            GroupOf(b.store, id), ToReview)
  }

  function Created(b: Batch, id: nat, record: nat): (b': Batch)
    requires id in b.store.rows
    ensures b'.store.rows.Keys == b.store.rows.Keys && b'.counts.Total() == b.counts.Total() + 1 && Spent(b, b', id)
  {
    Joined(b, id, record, b.counts.(created := b.counts.created + 1)).(creators := b.creators + {id})
  }

  /** `resolveRow`: an exact match, else the best fuzzy candidate, else a record of its own. */
  function Resolved(b: Batch, id: nat, fate: Fate, exactKeys: bool): (b': Batch)
    requires id in b.store.rows
    ensures b'.store.rows.Keys == b.store.rows.Keys && b'.counts.Total() == b.counts.Total() + 1 && Spent(b, b', id)
  {
    if exactKeys && b.store.rows[id].keys.Some? && fate.exact.Some? then
      if fate.updates then Joined(b, id, fate.exact.value, b.counts.(linkedExact := b.counts.linkedExact + 1)) else Failed(b, id)
    else if fate.best.Some? then
      if fate.reviewed then Parked(b, id)
      else if fate.updates then Joined(b, id, fate.best.value, b.counts.(linkedFuzzy := b.counts.linkedFuzzy + 1))
      else Failed(b, id)
    else if fate.creates.Some? then Created(b, id, fate.creates.value)
    else Failed(b, id)
  }

  /** A follower takes its leader's outcome, and never its own `update`. */
  function Followed(b: Batch, id: nat, outcome: Outcome): (b': Batch)
    requires id in b.store.rows
    ensures b'.store.rows.Keys == b.store.rows.Keys && b'.counts.Total() == b.counts.Total() + 1 && Spent(b, b', id)
  {
    match outcome
    case ToRecord(record) =>
      b.(store := WithLink(b.store, id, record), counts := b.counts.(linkedExact := b.counts.linkedExact + 1))
    case ToReview =>
      b.(store := WithStatus(b.store, id, Review), counts := b.counts.(review := b.counts.review + 1))
    case ToError => Failed(b, id)
  }

  /** One turn of the loop. */
  function Turn(b: Batch, id: nat, fate: Fate, exactKeys: bool): (b': Batch)
    requires id in b.store.rows
    ensures b'.store.rows.Keys == b.store.rows.Keys && b'.counts.Total() == b.counts.Total() + 1 && Spent(b, b', id)
  {
    var group := GroupOf(b.store, id);
    if id in b.store.links then
      if fate.updates then
        b.(store := WithStatus(b.store, id, Linked).(records := b.store.records[b.store.links[id] := id]),
           counts := b.counts.(updated := b.counts.updated + 1))
      else Failed(b, id)
    else if group.Some? && group.value in b.groups then Followed(b, id, b.groups[group.value])
    else Resolved(b, id, fate, exactKeys)
  }

  function Opened(store: Store): Batch { Batch(store, map[], Counts(0, 0, 0, 0, 0, 0), {}) }

  /** The loop over the scanned rows, in id order. */
  function Turns(store: Store, ids: seq<nat>, fates: nat -> Fate, exactKeys: bool): (b: Batch)
    requires forall id | id in ids :: id in store.rows
    ensures b.store.rows.Keys == store.rows.Keys
    decreases |ids|
  {
    if ids == [] then Opened(store)
    else
      var n := |ids| - 1;
      Turn(Turns(store, ids[..n], fates, exactKeys), ids[n], fates(ids[n]), exactKeys)
  }

  predicate Distinct(ids: seq<nat>) { forall i, j | 0 <= i < j < |ids| :: ids[i] != ids[j] }

  // ----- what a batch keeps -----

  /** A row its group's outcome describes. */
  predicate Shares(b: Batch, id: nat, outcome: Outcome)
    requires id in b.store.rows
  {
    match outcome
    case ToRecord(record) => id in b.store.links && b.store.links[id] == record && b.store.rows[id].status == Linked
    case ToReview => id !in b.store.links && b.store.rows[id].status == Review
    case ToError => id !in b.store.links && b.store.rows[id].status == Errored
  }

  /** A row that was tried ended linked, parked or errored, as the rest of its group did. */
  predicate TriedOk(store: Store, b: Batch, id: nat)
    requires id in store.rows && id in b.store.rows
  {
    if id in store.links then
      id in b.store.links && b.store.links[id] == store.links[id] && id !in b.creators &&
      b.store.rows[id].status in {Linked, Errored}
    else if store.rows[id].keys.Some? then
      store.rows[id].keys.value in b.groups && Shares(b, id, b.groups[store.rows[id].keys.value])
    else
      if b.store.rows[id].status == Linked then id in b.store.links
      else id !in b.store.links && b.store.rows[id].status in {Review, Errored}
  }

  /** A row that was not is as it was. */
  predicate UntriedOk(store: Store, b: Batch, id: nat)
    requires id in store.rows && id in b.store.rows
  {
    b.store.rows[id] == store.rows[id] && id !in b.creators &&
    (id in b.store.links <==> id in store.links) && (id in store.links ==> b.store.links[id] == store.links[id])
  }

  predicate RowOk(store: Store, b: Batch, tried: set<nat>, id: nat)
    requires id in store.rows && id in b.store.rows
  {
    b.store.rows[id].keys == store.rows[id].keys &&
    if id in tried then TriedOk(store, b, id) else UntriedOk(store, b, id)
  }

  /** Two rows of one group never both made a record. */
  predicate OneCreator(store: Store, b: Batch, i: nat, j: nat) {
    (i in b.creators && j in b.creators && i in store.rows && j in store.rows &&
     store.rows[i].keys.Some? && store.rows[i].keys == store.rows[j].keys) ==> i == j
  }

  ghost predicate Kept(store: Store, b: Batch, tried: set<nat>) {
    b.store.rows.Keys == store.rows.Keys && b.creators <= tried &&
    (forall id {:trigger RowOk(store, b, tried, id)} | id in store.rows :: RowOk(store, b, tried, id)) &&
    (forall i, j {:trigger OneCreator(store, b, i, j)} :: OneCreator(store, b, i, j)) &&
    (forall id | id in b.creators :: id in store.rows && id !in store.links) &&
    (forall g | g in b.groups :: exists id :: id in tried && id in store.rows && id !in store.links && store.rows[id].keys == Some(g))
  }

  /** Only this row moved, and only its own group was decided. */
  ghost predicate OthersStay(b: Batch, b': Batch, id: nat) {
    b'.store.rows.Keys == b.store.rows.Keys &&
    (forall i {:trigger b'.store.rows[i]} | i in b.store.rows && i != id :: b'.store.rows[i] == b.store.rows[i]) &&
    (forall i {:trigger i in b'.store.links} | i != id ::
       (i in b'.store.links <==> i in b.store.links) && (i in b.store.links ==> b'.store.links[i] == b.store.links[i])) &&
    (forall g {:trigger g in b'.groups} | id !in b.store.rows || GroupOf(b.store, id) != Some(g) ::
       (g in b'.groups <==> g in b.groups) && (g in b.groups ==> b'.groups[g] == b.groups[g]))
  }

  /** What this row became. */
  predicate Tried(b: Batch, b': Batch, id: nat)
    requires id in b.store.rows && id in b'.store.rows
  {
    b'.store.rows[id].keys == b.store.rows[id].keys &&
    if id in b.store.links then
      id in b'.store.links && b'.store.links[id] == b.store.links[id] && b'.creators == b.creators &&
      b'.store.rows[id].status in {Linked, Errored}
    else if b.store.rows[id].keys.Some? then
      var g := b.store.rows[id].keys.value;
      g in b'.groups && Shares(b', id, b'.groups[g]) &&
      if g in b.groups then b'.groups[g] == b.groups[g] && b'.creators == b.creators
      else b'.creators == b.creators || b'.creators == b.creators + {id}
    else
      (b'.creators == b.creators || b'.creators == b.creators + {id}) &&
      if b'.store.rows[id].status == Linked then id in b'.store.links
      else id !in b'.store.links && b'.store.rows[id].status in {Review, Errored}
  }

  lemma FailedTries(b: Batch, id: nat)
    requires id in b.store.rows
    requires GroupOf(b.store, id).Some? && GroupOf(b.store, id).value in b.groups ==> b.groups[GroupOf(b.store, id).value] == ToError
    ensures OthersStay(b, Failed(b, id), id) && Tried(b, Failed(b, id), id)
  {
  }

  lemma FollowedTries(b: Batch, id: nat)
    requires id in b.store.rows && GroupOf(b.store, id).Some? && GroupOf(b.store, id).value in b.groups
    ensures var b' := Followed(b, id, b.groups[GroupOf(b.store, id).value]); OthersStay(b, b', id) && Tried(b, b', id)
  {
    if b.groups[GroupOf(b.store, id).value] == ToError { FailedTries(b, id); }
  }

  lemma ParkedTries(b: Batch, id: nat)
    requires id in b.store.rows && id !in b.store.links
    requires b.store.rows[id].keys.Some? ==> b.store.rows[id].keys.value !in b.groups
    ensures OthersStay(b, Parked(b, id), id) && Tried(b, Parked(b, id), id)
  {
  }

  lemma JoinedTries(b: Batch, id: nat, record: nat, counts: Counts, creators: set<nat>)
    requires id in b.store.rows && id !in b.store.links
    requires b.store.rows[id].keys.Some? ==> b.store.rows[id].keys.value !in b.groups
    requires creators in {{}, {id}} && counts.Total() == b.counts.Total() + 1
    ensures var b' := Joined(b, id, record, counts).(creators := b.creators + creators);
            OthersStay(b, b', id) && Tried(b, b', id)
  {
  }

  lemma ResolvedTries(b: Batch, id: nat, fate: Fate, exactKeys: bool)
    requires id in b.store.rows && id !in b.store.links
    requires b.store.rows[id].keys.Some? ==> b.store.rows[id].keys.value !in b.groups
    ensures OthersStay(b, Resolved(b, id, fate, exactKeys), id) && Tried(b, Resolved(b, id, fate, exactKeys), id)
  {
    if Resolved(b, id, fate, exactKeys) == Failed(b, id) {
      FailedTries(b, id);
    } else if exactKeys && b.store.rows[id].keys.Some? && fate.exact.Some? {
      JoinedTries(b, id, fate.exact.value, b.counts.(linkedExact := b.counts.linkedExact + 1), {});
    } else if fate.best.Some? && fate.reviewed {
      ParkedTries(b, id);
    } else if fate.best.Some? {
      JoinedTries(b, id, fate.best.value, b.counts.(linkedFuzzy := b.counts.linkedFuzzy + 1), {});
    } else {
      JoinedTries(b, id, fate.creates.value, b.counts.(created := b.counts.created + 1), {id});
    }
  }

  lemma TurnTries(b: Batch, id: nat, fate: Fate, exactKeys: bool)
    requires id in b.store.rows
    ensures OthersStay(b, Turn(b, id, fate, exactKeys), id) && Tried(b, Turn(b, id, fate, exactKeys), id)
  {
    var group := GroupOf(b.store, id);
    if id in b.store.links {
      FailedTries(b, id);
    } else if group.Some? && group.value in b.groups {
      FollowedTries(b, id);
    } else {
      ResolvedTries(b, id, fate, exactKeys);
    }
  }

  lemma TurnKeeps(store: Store, b: Batch, b': Batch, tried: set<nat>, id: nat)
    requires Kept(store, b, tried) && id in store.rows && id !in tried
    requires OthersStay(b, b', id) && Tried(b, b', id)
    ensures Kept(store, b', tried + {id})
  {
    var tried' := tried + {id};
    assert RowOk(store, b, tried, id);
    forall i | i in store.rows ensures RowOk(store, b', tried', i) { assert RowOk(store, b, tried, i); }
    forall i, j ensures OneCreator(store, b', i, j) {
      assert OneCreator(store, b, i, j);
      assert i in store.rows ==> RowOk(store, b, tried, i);
      assert j in store.rows ==> RowOk(store, b, tried, j);
    }
    forall g | g in b'.groups
      ensures exists i :: i in tried' && i in store.rows && i !in store.links && store.rows[i].keys == Some(g)
    {
      if g in b.groups {
        var i :| i in tried && i in store.rows && i !in store.links && store.rows[i].keys == Some(g);
        assert i in tried';
      } else {
        assert id in tried';
      }
    }
  }

  function Elements(ids: seq<nat>): set<nat> { set id | id in ids }

  lemma {:induction false} TurnsKeep(store: Store, ids: seq<nat>, fates: nat -> Fate, exactKeys: bool)
    requires Distinct(ids) && forall id | id in ids :: id in store.rows
    ensures Kept(store, Turns(store, ids, fates, exactKeys), Elements(ids))
    decreases |ids|
  {
    if ids == [] {
      forall id | id in store.rows ensures RowOk(store, Opened(store), {}, id) {}
    } else {
      var n := |ids| - 1;
      TurnsKeep(store, ids[..n], fates, exactKeys);
      assert ids[n] !in Elements(ids[..n]);
      var b := Turns(store, ids[..n], fates, exactKeys);
      TurnTries(b, ids[n], fates(ids[n]), exactKeys);
      TurnKeeps(store, b, Turns(store, ids, fates, exactKeys), Elements(ids[..n]), ids[n]);
      assert ids == ids[..n] + [ids[n]];
      assert Elements(ids[..n]) + {ids[n]} == Elements(ids);
    }
  }

  /** The six counters account for every scanned row, once. */
  lemma {:induction false} CountersAddUp(store: Store, ids: seq<nat>, fates: nat -> Fate, exactKeys: bool)
    requires forall id | id in ids :: id in store.rows
    ensures Turns(store, ids, fates, exactKeys).counts.Total() == |ids|
    decreases |ids|
  {
    if ids != [] { CountersAddUp(store, ids[..|ids| - 1], fates, exactKeys); }
  }

  /** Unlinked rows with one tuple share one fate: if two are linked, it is to one record. */
  lemma TupleSharesRecord(store: Store, ids: seq<nat>, fates: nat -> Fate, exactKeys: bool, i: nat, j: nat)
    requires Distinct(ids) && forall id | id in ids :: id in store.rows
    requires i in ids && j in ids && i !in store.links && j !in store.links
    requires store.rows[i].keys.Some? && store.rows[i].keys == store.rows[j].keys
    ensures var after := Turns(store, ids, fates, exactKeys).store;
            (i in after.links <==> j in after.links) && after.rows[i].status == after.rows[j].status &&
            (i in after.links ==> after.links[i] == after.links[j])
  {
    TurnsKeep(store, ids, fates, exactKeys);
    var b := Turns(store, ids, fates, exactKeys);
    assert RowOk(store, b, Elements(ids), i) && RowOk(store, b, Elements(ids), j);
  }

  /** And at most one of them made a record. */
  lemma TupleCreatesOnce(store: Store, ids: seq<nat>, fates: nat -> Fate, exactKeys: bool, i: nat, j: nat)
    requires Distinct(ids) && forall id | id in ids :: id in store.rows
    requires i in store.rows && j in store.rows && store.rows[i].keys.Some? && store.rows[i].keys == store.rows[j].keys
    requires var creators := Turns(store, ids, fates, exactKeys).creators; i in creators && j in creators
    ensures i == j
  {
    TurnsKeep(store, ids, fates, exactKeys);
    assert OneCreator(store, Turns(store, ids, fates, exactKeys), i, j);
  }

  /** A link that was there is there as it was, and rows the batch did not scan are untouched. */
  lemma LinksAreKept(store: Store, ids: seq<nat>, fates: nat -> Fate, exactKeys: bool, id: nat)
    requires Distinct(ids) && forall id | id in ids :: id in store.rows
    requires id in store.rows
    ensures var after := Turns(store, ids, fates, exactKeys).store;
            (id in store.links ==> id in after.links && after.links[id] == store.links[id]) &&
            (id !in ids ==> after.rows[id] == store.rows[id] && (id in after.links ==> id in store.links))
  {
    TurnsKeep(store, ids, fates, exactKeys);
    assert RowOk(store, Turns(store, ids, fates, exactKeys), Elements(ids), id);
  }

  // ----- whose outcome a row ends with -----

  /** What a row of its own settles on, or `None` when the resolver throws. */
  function Answer(store: Store, id: nat, fate: Fate, exactKeys: bool): Option<Outcome>
    requires id in store.rows
  {
    if exactKeys && store.rows[id].keys.Some? && fate.exact.Some? then
      if fate.updates then Some(ToRecord(fate.exact.value)) else None
    else if fate.best.Some? then
      if fate.reviewed then Some(ToReview) else if fate.updates then Some(ToRecord(fate.best.value)) else None
    else if fate.creates.Some? then Some(ToRecord(fate.creates.value))
    else None
  }

  function Own(store: Store, id: nat, fate: Fate, exactKeys: bool): Outcome
    requires id in store.rows
  {
    var answer := Answer(store, id, fate, exactKeys);
    if answer.Some? then answer.value else ToError
  }

  /** Two rows one group of a batch holds. */
  predicate SameTuple(store: Store, i: nat, j: nat) {
    i in store.rows && j in store.rows && i !in store.links && j !in store.links &&
    store.rows[i].keys.Some? && store.rows[i].keys == store.rows[j].keys
  }

  /** An unlinked row no earlier row of the batch decides for. */
  predicate Leads(store: Store, ids: seq<nat>, k: nat)
    requires k < |ids|
  {
    ids[k] !in store.links && forall i | 0 <= i < k :: !SameTuple(store, ids[i], ids[k])
  }

  /** A leader finds no group of its own decided, so it resolves for itself. */
  lemma LeaderResolves(store: Store, ids: seq<nat>, fates: nat -> Fate, exactKeys: bool, k: nat)
    requires Distinct(ids) && (forall id | id in ids :: id in store.rows) && k < |ids| && Leads(store, ids, k)
    ensures var b := Turns(store, ids[..k], fates, exactKeys);
            Turns(store, ids[..k + 1], fates, exactKeys) == Resolved(b, ids[k], fates(ids[k]), exactKeys) &&
            b.store.rows[ids[k]] == store.rows[ids[k]] && ids[k] !in b.store.links &&
            (store.rows[ids[k]].keys.Some? ==> store.rows[ids[k]].keys.value !in b.groups)
  {
    var b := Turns(store, ids[..k], fates, exactKeys);
    TurnsKeep(store, ids[..k], fates, exactKeys);
    assert ids[k] !in Elements(ids[..k]);
    assert RowOk(store, b, Elements(ids[..k]), ids[k]);
    assert ids[..k + 1][..k] == ids[..k];
    forall i | i in Elements(ids[..k]) && i in store.rows && i !in store.links
      ensures store.rows[ids[k]].keys.None? || store.rows[i].keys != store.rows[ids[k]].keys
    {
      var m :| 0 <= m < k && ids[m] == i;
      assert !SameTuple(store, ids[m], ids[k]);
    }
  }

  lemma ResolvedIsOwn(b: Batch, id: nat, fate: Fate, exactKeys: bool)
    requires id in b.store.rows && id !in b.store.links
    ensures Shares(Resolved(b, id, fate, exactKeys), id, Own(b.store, id, fate, exactKeys))
  {
  }

  /** A turn leaves every other row as it shares. */
  lemma OtherTurnKeepsShare(b: Batch, id: nat, fate: Fate, exactKeys: bool, other: nat, outcome: Outcome)
    requires id in b.store.rows && other in b.store.rows && other != id && Shares(b, other, outcome)
    ensures Shares(Turn(b, id, fate, exactKeys), other, outcome)
  {
    TurnTries(b, id, fate, exactKeys);
  }

  lemma TurnsUnfold(store: Store, ids: seq<nat>, fates: nat -> Fate, exactKeys: bool, m: nat)
    requires (forall id | id in ids :: id in store.rows) && 0 < m <= |ids|
    ensures Turns(store, ids[..m], fates, exactKeys) ==
            Turn(Turns(store, ids[..m - 1], fates, exactKeys), ids[m - 1], fates(ids[m - 1]), exactKeys)
  {
    assert ids[..m][..m - 1] == ids[..m - 1];
  }

  /** Later turns leave a row where its own turn put it. */
  lemma {:induction false} LaterTurnsKeepShare(store: Store, ids: seq<nat>, fates: nat -> Fate, exactKeys: bool,
                                               k: nat, outcome: Outcome, m: nat)
    requires Distinct(ids) && (forall id | id in ids :: id in store.rows) && k < m <= |ids|
    requires Shares(Turns(store, ids[..k + 1], fates, exactKeys), ids[k], outcome)
    ensures Shares(Turns(store, ids[..m], fates, exactKeys), ids[k], outcome)
    decreases m
  {
    if k + 1 < m {
      LaterTurnsKeepShare(store, ids, fates, exactKeys, k, outcome, m - 1);
      OneTurnKeepsShare(store, ids, fates, exactKeys, k, outcome, m);
    }
  }

  lemma OneTurnKeepsShare(store: Store, ids: seq<nat>, fates: nat -> Fate, exactKeys: bool, k: nat, outcome: Outcome, m: nat)
    requires (forall id | id in ids :: id in store.rows) && k + 1 < m <= |ids| && ids[m - 1] != ids[k]
    requires Shares(Turns(store, ids[..m - 1], fates, exactKeys), ids[k], outcome)
    ensures Shares(Turns(store, ids[..m], fates, exactKeys), ids[k], outcome)
  {
    var b := Turns(store, ids[..m - 1], fates, exactKeys);
    TurnsUnfold(store, ids, fates, exactKeys, m);
    OtherTurnKeepsShare(b, ids[m - 1], fates(ids[m - 1]), exactKeys, ids[k], outcome);
  }

  lemma LeaderEndsAsItsOwn(store: Store, ids: seq<nat>, fates: nat -> Fate, exactKeys: bool, k: nat)
    requires Distinct(ids) && (forall id | id in ids :: id in store.rows) && k < |ids| && Leads(store, ids, k)
    ensures Shares(Turns(store, ids, fates, exactKeys), ids[k], Own(store, ids[k], fates(ids[k]), exactKeys))
  {
    LeaderResolves(store, ids, fates, exactKeys, k);
    ResolvedIsOwn(Turns(store, ids[..k], fates, exactKeys), ids[k], fates(ids[k]), exactKeys);
    LaterTurnsKeepShare(store, ids, fates, exactKeys, k, Own(store, ids[k], fates(ids[k]), exactKeys), |ids|);
    assert ids[..|ids|] == ids;
  }

  /** The first row of a row's group in the batch: the row itself unless an earlier one has its tuple. */
  lemma {:induction false} LeaderOf(store: Store, ids: seq<nat>, k: nat) returns (j: nat)
    requires k < |ids| && ids[k] in store.rows && ids[k] !in store.links
    ensures j <= k && Leads(store, ids, j)
    ensures j < k <==> exists i :: 0 <= i < k && SameTuple(store, ids[i], ids[k])
    ensures j < k ==> SameTuple(store, ids[j], ids[k])
    decreases k
  {
    if i :| 0 <= i < k && SameTuple(store, ids[i], ids[k]) {
      j := LeaderOf(store, ids, i);
    } else {
      j := k;
    }
  }

  /**
   * An unlinked row ends with another row's outcome exactly when an earlier unlinked row of the
   * batch has its tuple, and then with that of the first such row; otherwise with its own.
   */
  lemma RowsFollowExactly(store: Store, ids: seq<nat>, fates: nat -> Fate, exactKeys: bool, k: nat) returns (j: nat)
    requires Distinct(ids) && (forall id | id in ids :: id in store.rows) && k < |ids| && ids[k] !in store.links
    ensures j <= k && Leads(store, ids, j) && (j < k <==> exists i :: 0 <= i < k && SameTuple(store, ids[i], ids[k]))
    ensures j < k ==> SameTuple(store, ids[j], ids[k])
    ensures Shares(Turns(store, ids, fates, exactKeys), ids[k], Own(store, ids[j], fates(ids[j]), exactKeys))
  {
    j := LeaderOf(store, ids, k);
    LeaderEndsAsItsOwn(store, ids, fates, exactKeys, j);
    if j < k {
      TurnsKeep(store, ids, fates, exactKeys);
      var b := Turns(store, ids, fates, exactKeys);
      assert RowOk(store, b, Elements(ids), ids[j]) && RowOk(store, b, Elements(ids), ids[k]);
    }
  }

  lemma FirstLeadsAll(store: Store, ids: seq<nat>, first: nat, j: nat)
    requires first < |ids| && j < |ids| && ids[first] !in store.links && Leads(store, ids, j)
    requires forall i | 0 <= i < first :: ids[i] in store.links
    requires ids[first] in store.rows && store.rows[ids[first]].keys == Some([])
    requires ids[j] in store.rows && store.rows[ids[j]].keys == Some([])
    ensures first == j
  {
    if first < j { assert SameTuple(store, ids[first], ids[j]); }
  }

  /** A resolver with no exact keys: every unlinked row of a batch ends with the first one's outcome. */
  lemma NoExactKeysLinkEverythingTogether(store: Store, ids: seq<nat>, fates: nat -> Fate, first: nat, k: nat)
    requires Distinct(ids) && (forall id | id in ids :: id in store.rows)
    requires forall id | id in ids :: store.rows[id].keys == Some([])
    requires first < |ids| && k < |ids| && ids[first] !in store.links && ids[k] !in store.links
    requires forall i | 0 <= i < first :: ids[i] in store.links
    ensures Shares(Turns(store, ids, fates, false), ids[k], Own(store, ids[first], fates(ids[first]), false))
  {
    var j := RowsFollowExactly(store, ids, fates, false, k);
    FirstLeadsAll(store, ids, first, j);
  }

  // ----- the caller's loop ends -----

  /** Attempts a row has left while it can still be scanned. */
  function Weight(store: Store, maxAttempts: nat): nat -> int {
    (id: nat) => if Scannable(store, maxAttempts, id) then maxAttempts - store.rows[id].attempts else 0
  }

  ghost function Left(store: Store, maxAttempts: nat): int { Sum(store.rows.Keys, Weight(store, maxAttempts)) }

  lemma LeftIsNatural(store: Store, maxAttempts: nat)
    ensures 0 <= Left(store, maxAttempts)
  {
    NonNegative(store.rows.Keys, Weight(store, maxAttempts));
  }

  lemma TurnWeighs(b: Batch, id: nat, fate: Fate, exactKeys: bool, maxAttempts: nat)
    requires id in b.store.rows && Scannable(b.store, maxAttempts, id)
    ensures var b' := Turn(b, id, fate, exactKeys);
            Weight(b'.store, maxAttempts)(id) + b'.counts.Moved() <= Weight(b.store, maxAttempts)(id) + b.counts.Moved()
  {
  }

  /** Every row a batch moves costs an attempt that was left. */
  lemma TurnSpends(b: Batch, id: nat, fate: Fate, exactKeys: bool, maxAttempts: nat)
    requires id in b.store.rows && Scannable(b.store, maxAttempts, id)
    ensures var b' := Turn(b, id, fate, exactKeys);
            Left(b'.store, maxAttempts) + b'.counts.Moved() <= Left(b.store, maxAttempts) + b.counts.Moved()
  {
    var b' := Turn(b, id, fate, exactKeys);
    TurnTries(b, id, fate, exactKeys);
    TurnWeighs(b, id, fate, exactKeys, maxAttempts);
    Changed(b.store.rows.Keys, Weight(b.store, maxAttempts), b'.store.rows.Keys, Weight(b'.store, maxAttempts), id);
  }

  lemma {:induction false} BatchSpends(store: Store, ids: seq<nat>, fates: nat -> Fate, exactKeys: bool, maxAttempts: nat)
    requires Distinct(ids) && forall id | id in ids :: id in store.rows && Scannable(store, maxAttempts, id)
    ensures var b := Turns(store, ids, fates, exactKeys);
            Left(b.store, maxAttempts) + b.counts.Moved() <= Left(store, maxAttempts)
    decreases |ids|
  {
    if ids != [] {
      var n := |ids| - 1;
      var b := Turns(store, ids[..n], fates, exactKeys);
      BatchSpends(store, ids[..n], fates, exactKeys, maxAttempts);
      TurnsKeep(store, ids[..n], fates, exactKeys);
      assert ids[n] !in Elements(ids[..n]) && ids[n] in ids;
      assert RowOk(store, b, Elements(ids[..n]), ids[n]);
      TurnSpends(b, ids[n], fates(ids[n]), exactKeys, maxAttempts);
    }
  }

  /** `SCAN_STATEMENT`: the first so many scannable rows, in id order. */
  ghost predicate Scanned(store: Store, maxAttempts: nat, limit: nat, ids: seq<nat>) {
    |ids| <= limit && Ascending(ids) &&
    (forall id | id in ids :: id in store.rows && Scannable(store, maxAttempts, id)) &&
    (forall id, seen | Scannable(store, maxAttempts, id) && id !in ids && seen in ids :: seen < id) &&
    (|ids| < limit ==> forall id | Scannable(store, maxAttempts, id) :: id in ids)
  }

  lemma ScannedByColumns(store: Store, maxAttempts: nat, limit: nat, ids: seq<nat>)
    requires Scanned(store, maxAttempts, limit, ids)
    ensures |ids| <= limit && Ascending(ids)
    ensures forall id | id in ids :: id in store.rows && store.rows[id].status != Linked && store.rows[id].attempts < maxAttempts
    ensures forall id | id in store.rows && store.rows[id].status != Linked && store.rows[id].attempts < maxAttempts && id !in ids ::
              |ids| == limit && forall seen | seen in ids :: seen < id
  {
    forall id | Scannable(store, maxAttempts, id) && id !in ids ensures |ids| == limit && forall seen | seen in ids :: seen < id {}
  }

  /** A full batch goes on while it moved anything. */
  predicate Done(scanned: nat, limit: nat, counts: Counts) {
    scanned < limit || counts.Moved() == 0
  }

  lemma DoneByCounters(scanned: nat, limit: nat, counts: Counts)
    ensures Done(scanned, limit, counts) <==> scanned < limit || counts == Counts(0, 0, 0, 0, counts.review, 0)
  {
  }

  /** Nothing of its own decides the row: a fuzzy candidate was found, and parked for review. */
  predicate Reviewed(store: Store, id: nat, fate: Fate, exactKeys: bool)
    requires id in store.rows
  {
    !(exactKeys && store.rows[id].keys.Some? && fate.exact.Some?) && fate.best.Some? && fate.reviewed
  }

  /** A scanned row is unlinked, and reviewed if it decides for itself. */
  predicate RowReviewed(store: Store, ids: seq<nat>, fates: nat -> Fate, exactKeys: bool, k: nat)
    requires k < |ids| && ids[k] in store.rows
  {
    ids[k] !in store.links && (Leads(store, ids, k) ==> Reviewed(store, ids[k], fates(ids[k]), exactKeys))
  }

  predicate AllReviewed(store: Store, ids: seq<nat>, fates: nat -> Fate, exactKeys: bool)
    requires forall id | id in ids :: id in store.rows
  {
    forall k {:trigger RowReviewed(store, ids, fates, exactKeys, k)} | 0 <= k < |ids| :: RowReviewed(store, ids, fates, exactKeys, k)
  }

  /** The store with the scanned rows parked. */
  function Shelved(store: Store, ids: seq<nat>): Store {
    store.(rows := map id | id in store.rows :: if id in ids then store.rows[id].(status := Review) else store.rows[id])
  }

  /** A batch so far that only parked rows. */
  predicate OnlyParked(store: Store, ids: seq<nat>, b: Batch) {
    b.store == Shelved(store, ids) && b.counts.Moved() == 0 && forall g | g in b.groups :: b.groups[g] == ToReview
  }

  lemma OneMoreShelved(store: Store, ids: seq<nat>)
    requires ids != [] && ids[|ids| - 1] in store.rows
    ensures Shelved(store, ids) == WithStatus(Shelved(store, ids[..|ids| - 1]), ids[|ids| - 1], Review)
  {
    var n := |ids| - 1;
    assert forall id :: id in ids <==> id in ids[..n] || id == ids[n];
  }

  /** While a batch has only parked rows, a turn parks its row or moves it. */
  lemma TurnParksExactly(b: Batch, id: nat, fate: Fate, exactKeys: bool)
    requires id in b.store.rows && b.counts.Moved() == 0 && forall g | g in b.groups :: b.groups[g] == ToReview
    ensures var b', group := Turn(b, id, fate, exactKeys), GroupOf(b.store, id);
            if id !in b.store.links && ((group.Some? && group.value in b.groups) || Reviewed(b.store, id, fate, exactKeys))
            then b'.store == WithStatus(b.store, id, Review) && b'.counts.Moved() == 0 &&
                 forall g | g in b'.groups :: b'.groups[g] == ToReview
            else b'.counts.Moved() > 0
  {
  }

  /** What the last row of a scan meets: its group is decided unless it leads. */
  lemma LastRowMeets(store: Store, ids: seq<nat>, fates: nat -> Fate, exactKeys: bool)
    requires Distinct(ids) && (forall id | id in ids :: id in store.rows) && ids != []
    ensures var n := |ids| - 1; var b := Turns(store, ids[..n], fates, exactKeys);
            b.store.rows[ids[n]] == store.rows[ids[n]] && (ids[n] in b.store.links <==> ids[n] in store.links) &&
            (ids[n] !in store.links ==>
               var keys := store.rows[ids[n]].keys; (Leads(store, ids, n) <==> keys.None? || keys.value !in b.groups))
  {
    var n := |ids| - 1;
    var init, b := ids[..n], Turns(store, ids[..n], fates, exactKeys);
    TurnsKeep(store, init, fates, exactKeys);
    assert ids[n] !in Elements(init) && ids[n] in store.rows;
    assert RowOk(store, b, Elements(init), ids[n]);
    if ids[n] !in store.links {
      if Leads(store, ids, n) {
        LeaderResolves(store, ids, fates, exactKeys, n);
      } else {
        var i :| 0 <= i < n && SameTuple(store, ids[i], ids[n]);
        assert ids[i] == init[i] && ids[i] in Elements(init);
        assert RowOk(store, b, Elements(init), ids[i]);
      }
    }
  }

  lemma PrefixReviewed(store: Store, ids: seq<nat>, fates: nat -> Fate, exactKeys: bool)
    requires (forall id | id in ids :: id in store.rows) && ids != []
    ensures var n := |ids| - 1;
            AllReviewed(store, ids, fates, exactKeys) <==>
              AllReviewed(store, ids[..n], fates, exactKeys) && RowReviewed(store, ids, fates, exactKeys, n)
  {
    var n := |ids| - 1;
    var init := ids[..n];
    forall k | 0 <= k < n
      ensures RowReviewed(store, init, fates, exactKeys, k) == RowReviewed(store, ids, fates, exactKeys, k)
    {
      assert init[k] == ids[k] && init[..k] == ids[..k];
    }
    if AllReviewed(store, init, fates, exactKeys) && RowReviewed(store, ids, fates, exactKeys, n) {
      forall k | 0 <= k < |ids| ensures RowReviewed(store, ids, fates, exactKeys, k) {
        assert k < n ==> RowReviewed(store, init, fates, exactKeys, k);
      }
    }
  }

  lemma LastTurnParks(store: Store, ids: seq<nat>, b: Batch, fates: nat -> Fate, exactKeys: bool)
    requires Distinct(ids) && (forall id | id in ids :: id in store.rows) && ids != []
    requires b == Turns(store, ids[..|ids| - 1], fates, exactKeys)
    requires OnlyParked(store, ids[..|ids| - 1], b) || b.counts.Moved() > 0
    ensures var b' := Turns(store, ids, fates, exactKeys);
            if OnlyParked(store, ids[..|ids| - 1], b) && RowReviewed(store, ids, fates, exactKeys, |ids| - 1)
            then OnlyParked(store, ids, b') else b'.counts.Moved() > 0
  {
    var n := |ids| - 1;
    if OnlyParked(store, ids[..n], b) {
      LastRowMeets(store, ids, fates, exactKeys);
      TurnParksExactly(b, ids[n], fates(ids[n]), exactKeys);
      OneMoreShelved(store, ids);
    }
  }

  lemma NothingShelved(store: Store)
    ensures Shelved(store, []) == store
  {
  }

  lemma NothingMoves(store: Store, fates: nat -> Fate, exactKeys: bool)
    ensures AllReviewed(store, [], fates, exactKeys) && OnlyParked(store, [], Turns(store, [], fates, exactKeys))
  {
    NothingShelved(store);
  }

  /** A batch moves nothing exactly when all its rows are reviewed, and then all it does is park them. */
  lemma {:induction false} MovesNothingExactly(store: Store, ids: seq<nat>, fates: nat -> Fate, exactKeys: bool)
    requires Distinct(ids) && forall id | id in ids :: id in store.rows
    ensures var b := Turns(store, ids, fates, exactKeys);
            if AllReviewed(store, ids, fates, exactKeys) then OnlyParked(store, ids, b) else b.counts.Moved() > 0
    decreases |ids|
  {
    hide AllReviewed;
    hide RowReviewed;
    hide Shelved;
    hide Turns;
    if ids == [] {
      NothingMoves(store, fates, exactKeys);
    } else {
      var init := ids[..|ids| - 1];
      MovesNothingExactly(store, init, fates, exactKeys);
      PrefixReviewed(store, ids, fates, exactKeys);
      LastTurnParks(store, ids, Turns(store, init, fates, exactKeys), fates, exactKeys);
    }
  }

  lemma AscendingIsDistinct(ids: seq<nat>)
    requires Ascending(ids)
    ensures Distinct(ids)
  {
  }

  /**
   * With a scannable row left untried, a batch is the caller's last exactly when every row it
   * scanned is unlinked and reviewed, or follows one that is.
   */
  lemma UntriedExactlyBehindReviews(store: Store, ids: seq<nat>, fates: nat -> Fate, exactKeys: bool,
                                    maxAttempts: nat, limit: nat, id: nat)
    requires Scanned(store, maxAttempts, limit, ids) && Scannable(store, maxAttempts, id) && id !in ids
    ensures Done(|ids|, limit, Turns(store, ids, fates, exactKeys).counts) <==> AllReviewed(store, ids, fates, exactKeys)
    ensures |ids| == limit && forall seen | seen in ids :: seen < id
  {
    AscendingIsDistinct(ids);
    MovesNothingExactly(store, ids, fates, exactKeys);
  }

  lemma {:induction false} DistinctCounts(ids: seq<nat>)
    requires Distinct(ids)
    ensures |Elements(ids)| == |ids|
    decreases |ids|
  {
    if ids != [] {
      var n := |ids| - 1;
      DistinctCounts(ids[..n]);
      assert Elements(ids) == Elements(ids[..n]) + {ids[n]} && ids[n] !in Elements(ids[..n]);
    }
  }

  lemma {:induction false} AscendingIsUnique(a: seq<nat>, b: seq<nat>)
    requires Ascending(a) && Ascending(b) && Elements(a) == Elements(b)
    ensures a == b
    decreases |a|
  {
    assert b != [] ==> b[0] in Elements(b);
    if a != [] {
      var m, n := |a| - 1, |b| - 1;
      assert a[m] in Elements(b);
      assert b[n] in Elements(a) by { assert b[n] in Elements(b); }
      assert a[m] == b[n];
      forall x ensures x in Elements(a[..m]) <==> x in Elements(b[..n]) {
        assert x in Elements(a[..m]) <==> x in Elements(a) && x != a[m];
        assert x in Elements(b[..n]) <==> x in Elements(b) && x != b[n];
      }
      AscendingIsUnique(a[..m], b[..n]);
      assert a == a[..m] + [a[m]] && b == b[..n] + [b[n]];
    }
  }

  lemma ScansAgree(store: Store, maxAttempts: nat, limit: nat, a: seq<nat>, b: seq<nat>)
    requires Scanned(store, maxAttempts, limit, a) && Scanned(store, maxAttempts, limit, b)
    ensures Elements(a) <= Elements(b)
  {
    if x :| x in Elements(a) && x !in Elements(b) {
      assert forall y | y in b :: y < x;
      forall y | y in Elements(b) ensures y in Elements(a) {
        assert y !in a ==> x < y;
      }
      AscendingIsDistinct(a);
      AscendingIsDistinct(b);
      DistinctCounts(a);
      DistinctCounts(b);
      Smaller(Elements(b), Elements(a), x);
      assert false;
    }
  }

  lemma Smaller(a: set<nat>, b: set<nat>, x: nat)
    requires a <= b && x in b && x !in a
    ensures |a| < |b|
  {
    assert a <= b - {x};
    Subset(a, b - {x});
  }

  lemma {:induction false} Subset(a: set<nat>, b: set<nat>)
    requires a <= b
    ensures |a| <= |b|
    decreases a
  {
    if x :| x in a { Subset(a - {x}, b - {x}); }
  }

  /** A scan is decided by the store: the same statement reads the same rows. */
  lemma ScanIsUnique(store: Store, maxAttempts: nat, limit: nat, a: seq<nat>, b: seq<nat>)
    requires Scanned(store, maxAttempts, limit, a) && Scanned(store, maxAttempts, limit, b)
    ensures a == b
  {
    ScansAgree(store, maxAttempts, limit, a, b);
    ScansAgree(store, maxAttempts, limit, b, a);
    AscendingIsUnique(a, b);
  }

  /** Parking the rows of a scan changes neither what is scanned nor what is reviewed, and is done once. */
  lemma ShelvedAgain(store: Store, ids: seq<nat>, fates: nat -> Fate, exactKeys: bool, maxAttempts: nat, limit: nat)
    requires Scanned(store, maxAttempts, limit, ids) && AllReviewed(store, ids, fates, exactKeys)
    ensures var after := Shelved(store, ids);
            Scanned(after, maxAttempts, limit, ids) && AllReviewed(after, ids, fates, exactKeys) && Shelved(after, ids) == after
  {
    var after := Shelved(store, ids);
    assert forall id :: Scannable(after, maxAttempts, id) <==> Scannable(store, maxAttempts, id);
    forall k | 0 <= k < |ids| ensures RowReviewed(after, ids, fates, exactKeys, k) {
      assert RowReviewed(store, ids, fates, exactKeys, k) && (Leads(after, ids, k) <==> Leads(store, ids, k));
    }
  }

  /**
   * And the rows behind it are starved for good: whatever the store, the limit and the attempts,
   * the next scan is the same rows, and with the same answers it leaves the same store.
   */
  lemma ReviewsStarveTheRest(store: Store, ids: seq<nat>, fates: nat -> Fate, exactKeys: bool,
                             maxAttempts: nat, limit: nat, next: seq<nat>)
    requires Scanned(store, maxAttempts, limit, ids) && AllReviewed(store, ids, fates, exactKeys)
    requires Scanned(Turns(store, ids, fates, exactKeys).store, maxAttempts, limit, next)
    ensures var after := Turns(store, ids, fates, exactKeys).store;
            next == ids && AllReviewed(after, next, fates, exactKeys) && Turns(after, next, fates, exactKeys).store == after
  {
    AscendingIsDistinct(ids);
    MovesNothingExactly(store, ids, fates, exactKeys);
    ShelvedAgain(store, ids, fates, exactKeys, maxAttempts, limit);
    ScanIsUnique(Shelved(store, ids), maxAttempts, limit, ids, next);
    MovesNothingExactly(Shelved(store, ids), ids, fates, exactKeys);
  }

  // ----- what the records, the links and the counters say afterwards -----

  /** The record an unlinked row's payload goes to if the row decides for itself, by what it was told. */
  function Taker(store: Store, id: nat, fate: Fate, exactKeys: bool): Option<nat>
    requires id in store.rows
  {
    if exactKeys && store.rows[id].keys.Some? && fate.exact.Some? then if fate.updates then fate.exact else None
    else if fate.best.Some? then if !fate.reviewed && fate.updates then fate.best else None
    else fate.creates
  }

  /** The row's payload goes to this record: a linked row's to its own, a leader's to its taker. */
  predicate Reaches(store: Store, ids: seq<nat>, fates: nat -> Fate, exactKeys: bool, k: nat, record: nat)
    requires k < |ids| && ids[k] in store.rows
  {
    if ids[k] in store.links then fates(ids[k]).updates && store.links[ids[k]] == record
    else Leads(store, ids, k) && Taker(store, ids[k], fates(ids[k]), exactKeys) == Some(record)
  }

  predicate SameRecord(store: Store, after: Store, record: nat) {
    (record in after.records <==> record in store.records) &&
    (record in store.records ==> after.records[record] == store.records[record])
  }

  /** A turn writes the one record its row reaches. */
  lemma TurnWrites(b: Batch, id: nat, fate: Fate, exactKeys: bool, record: nat)
    requires id in b.store.rows
    ensures var after, group := Turn(b, id, fate, exactKeys).store, GroupOf(b.store, id);
            if (if id in b.store.links then fate.updates && b.store.links[id] == record
                else (group.None? || group.value !in b.groups) && Taker(b.store, id, fate, exactKeys) == Some(record))
            then record in after.records && after.records[record] == id
            else SameRecord(b.store, after, record)
  {
    var group := GroupOf(b.store, id);
    if id !in b.store.links && (group.None? || group.value !in b.groups) { ResolvedWrites(b, id, fate, exactKeys, record); }
  }

  lemma ResolvedWrites(b: Batch, id: nat, fate: Fate, exactKeys: bool, record: nat)
    requires id in b.store.rows
    ensures var after := Resolved(b, id, fate, exactKeys).store;
            if Taker(b.store, id, fate, exactKeys) == Some(record) then record in after.records && after.records[record] == id
            else SameRecord(b.store, after, record)
  {
  }

  lemma LastTurnReaches(store: Store, ids: seq<nat>, fates: nat -> Fate, exactKeys: bool, record: nat)
    requires Distinct(ids) && (forall id | id in ids :: id in store.rows) && ids != []
    ensures var n := |ids| - 1;
            var before, after := Turns(store, ids[..n], fates, exactKeys).store, Turns(store, ids, fates, exactKeys).store;
            if Reaches(store, ids, fates, exactKeys, n, record) then record in after.records && after.records[record] == ids[n]
            else SameRecord(before, after, record)
  {
    var n := |ids| - 1;
    var b := Turns(store, ids[..n], fates, exactKeys);
    LastRowMeets(store, ids, fates, exactKeys);
    TurnsKeep(store, ids[..n], fates, exactKeys);
    assert ids[n] !in Elements(ids[..n]) && RowOk(store, b, Elements(ids[..n]), ids[n]);
    TurnWrites(b, ids[n], fates(ids[n]), exactKeys, record);
  }

  lemma ReachesEarlier(store: Store, ids: seq<nat>, fates: nat -> Fate, exactKeys: bool, k: nat, record: nat)
    requires (forall id | id in ids :: id in store.rows) && k < |ids| - 1
    ensures Reaches(store, ids[..|ids| - 1], fates, exactKeys, k, record) == Reaches(store, ids, fates, exactKeys, k, record)
  {
    assert ids[..|ids| - 1][..k] == ids[..k];
    assert forall i | 0 <= i <= k :: ids[..|ids| - 1][i] == ids[i];
  }

  /** No row of the batch from there on reaches the record. */
  ghost predicate UnreachedFrom(store: Store, ids: seq<nat>, fates: nat -> Fate, exactKeys: bool, from: nat, record: nat)
    requires forall id | id in ids :: id in store.rows
  {
    forall k {:trigger Reaches(store, ids, fates, exactKeys, k, record)} | from <= k < |ids| ::
      !Reaches(store, ids, fates, exactKeys, k, record)
  }

  lemma UnreachedEarlier(store: Store, ids: seq<nat>, fates: nat -> Fate, exactKeys: bool, from: nat, record: nat)
    requires (forall id | id in ids :: id in store.rows) && ids != []
    requires UnreachedFrom(store, ids, fates, exactKeys, from, record)
    ensures UnreachedFrom(store, ids[..|ids| - 1], fates, exactKeys, from, record)
  {
    var init := ids[..|ids| - 1];
    forall k | from <= k < |init| ensures !Reaches(store, init, fates, exactKeys, k, record) {
      ReachesEarlier(store, ids, fates, exactKeys, k, record);
    }
  }

  /** A record holds the last row of the batch that reaches it. */
  lemma {:induction false} RecordsHoldTheLastRow(store: Store, ids: seq<nat>, fates: nat -> Fate, exactKeys: bool,
                                                 k: nat, record: nat)
    requires Distinct(ids) && (forall id | id in ids :: id in store.rows) && k < |ids|
    requires Reaches(store, ids, fates, exactKeys, k, record) && UnreachedFrom(store, ids, fates, exactKeys, k + 1, record)
    ensures var after := Turns(store, ids, fates, exactKeys).store; record in after.records && after.records[record] == ids[k]
    decreases |ids|
  {
    var n := |ids| - 1;
    LastTurnReaches(store, ids, fates, exactKeys, record);
    if k < n {
      assert !Reaches(store, ids, fates, exactKeys, n, record);
      ReachesEarlier(store, ids, fates, exactKeys, k, record);
      UnreachedEarlier(store, ids, fates, exactKeys, k + 1, record);
      RecordsHoldTheLastRow(store, ids[..n], fates, exactKeys, k, record);
    }
  }

  /** One that no row reaches is as it was. */
  lemma {:induction false} UnreachedRecordsStay(store: Store, ids: seq<nat>, fates: nat -> Fate, exactKeys: bool, record: nat)
    requires Distinct(ids) && forall id | id in ids :: id in store.rows
    requires UnreachedFrom(store, ids, fates, exactKeys, 0, record)
    ensures SameRecord(store, Turns(store, ids, fates, exactKeys).store, record)
    decreases |ids|
  {
    if ids != [] {
      var n := |ids| - 1;
      LastTurnReaches(store, ids, fates, exactKeys, record);
      assert !Reaches(store, ids, fates, exactKeys, n, record);
      UnreachedEarlier(store, ids, fates, exactKeys, 0, record);
      UnreachedRecordsStay(store, ids[..n], fates, exactKeys, record);
    }
  }

  /** How a row that decides for itself ends: matched exactly, else with its best candidate, else with a record of its own. */
  lemma LeadersSettle(store: Store, ids: seq<nat>, fates: nat -> Fate, exactKeys: bool, k: nat)
    requires Distinct(ids) && (forall id | id in ids :: id in store.rows) && k < |ids| && Leads(store, ids, k)
    ensures var id, after := ids[k], Turns(store, ids, fates, exactKeys).store;
            var fate := fates(id);
            if exactKeys && store.rows[id].keys.Some? && fate.exact.Some? then
              if fate.updates then id in after.links && after.links[id] == fate.exact.value && after.rows[id].status == Linked
              else id !in after.links && after.rows[id].status == Errored
            else if fate.best.Some? then
              if fate.reviewed then id !in after.links && after.rows[id].status == Review
              else if fate.updates then id in after.links && after.links[id] == fate.best.value && after.rows[id].status == Linked
              else id !in after.links && after.rows[id].status == Errored
            else if fate.creates.Some? then
              id in after.links && after.links[id] == fate.creates.value && after.rows[id].status == Linked
            else id !in after.links && after.rows[id].status == Errored
  {
    LeaderEndsAsItsOwn(store, ids, fates, exactKeys, k);
  }

  /** The scanned rows that ended so. */
  function Ended(ids: seq<nat>, after: Store, status: Status): set<nat> {
    set id | id in ids && id in after.rows && after.rows[id].status == status
  }

  /** Leaders that took their best candidate, and leaders that made a record. */
  predicate TookBest(store: Store, ids: seq<nat>, fates: nat -> Fate, exactKeys: bool, k: nat)
    requires k < |ids| && ids[k] in store.rows
  {
    var fate := fates(ids[k]);
    Leads(store, ids, k) && !(exactKeys && store.rows[ids[k]].keys.Some? && fate.exact.Some?) &&
    fate.best.Some? && !fate.reviewed && fate.updates
  }

  predicate MadeOwn(store: Store, ids: seq<nat>, fates: nat -> Fate, exactKeys: bool, k: nat)
    requires k < |ids| && ids[k] in store.rows
  {
    var fate := fates(ids[k]);
    Leads(store, ids, k) && !(exactKeys && store.rows[ids[k]].keys.Some? && fate.exact.Some?) &&
    fate.best.None? && fate.creates.Some?
  }

  function If(b: bool): nat { if b then 1 else 0 }

  /** What one turn adds to the counters, by how its row ends. */
  lemma TurnEnds(b: Batch, id: nat, fate: Fate, exactKeys: bool)
    requires id in b.store.rows
    ensures var b' := Turn(b, id, fate, exactKeys);
            var status := b'.store.rows[id].status;
            status != New && b'.counts.error == b.counts.error + If(status == Errored) &&
            b'.counts.review == b.counts.review + If(status == Review) &&
            b'.store.rows[id].attempts == b.store.rows[id].attempts + If(status == Errored)
  {
    ResolvedEnds(b, id, fate, exactKeys);
  }

  lemma ResolvedEnds(b: Batch, id: nat, fate: Fate, exactKeys: bool)
    requires id in b.store.rows
    ensures var b' := Resolved(b, id, fate, exactKeys);
            var status := b'.store.rows[id].status;
            status != New && b'.counts.error == b.counts.error + If(status == Errored) &&
            b'.counts.review == b.counts.review + If(status == Review) &&
            b'.store.rows[id].attempts == b.store.rows[id].attempts + If(status == Errored)
  {
  }

  /** And by why it does. */
  lemma TurnCounts(b: Batch, id: nat, fate: Fate, exactKeys: bool)
    requires id in b.store.rows
    ensures var b', group := Turn(b, id, fate, exactKeys), GroupOf(b.store, id);
            var leads := id !in b.store.links && (group.None? || group.value !in b.groups);
            var matched := exactKeys && b.store.rows[id].keys.Some? && fate.exact.Some?;
            b'.counts.updated == b.counts.updated + If(id in b.store.links && b'.store.rows[id].status == Linked) &&
            b'.counts.linkedFuzzy ==
              b.counts.linkedFuzzy + If(leads && !matched && fate.best.Some? && !fate.reviewed && fate.updates) &&
            b'.counts.created == b.counts.created + If(leads && !matched && fate.best.None? && fate.creates.Some?)
  {
  }

  lemma OneMore(some: set<nat>, more: set<nat>, x: nat, joins: bool)
    requires x !in some && forall y :: y in more <==> y in some || (joins && y == x)
    ensures |more| == |some| + If(joins)
  {
    assert more == if joins then some + {x} else some;
  }

  /** The last row of a batch moved, and no other. */
  ghost predicate LastMoved(ids: seq<nat>, before: Store, after: Store) {
    Distinct(ids) && ids != [] && (forall id | id in ids :: id in after.rows) && before.rows.Keys == after.rows.Keys &&
    forall id {:trigger after.rows[id]} | id in after.rows && id != ids[|ids| - 1] :: after.rows[id] == before.rows[id]
  }

  lemma LastTurnMoves(store: Store, ids: seq<nat>, fates: nat -> Fate, exactKeys: bool)
    requires Distinct(ids) && (forall id | id in ids :: id in store.rows) && ids != []
    ensures LastMoved(ids, Turns(store, ids[..|ids| - 1], fates, exactKeys).store, Turns(store, ids, fates, exactKeys).store)
  {
    var n := |ids| - 1;
    TurnTries(Turns(store, ids[..n], fates, exactKeys), ids[n], fates(ids[n]), exactKeys);
  }

  lemma LastIsNew(ids: seq<nat>)
    requires Distinct(ids) && ids != []
    ensures ids[|ids| - 1] !in ids[..|ids| - 1]
    ensures forall id :: id in ids <==> id in ids[..|ids| - 1] || id == ids[|ids| - 1]
  {
    assert ids == ids[..|ids| - 1] + [ids[|ids| - 1]];
  }

  /** Earlier rows ended as they had; the last row is one more of its kind. */
  lemma EndedGoesOn(ids: seq<nat>, before: Store, after: Store, status: Status)
    requires LastMoved(ids, before, after)
    ensures |Ended(ids, after, status)| == |Ended(ids[..|ids| - 1], before, status)| + If(after.rows[ids[|ids| - 1]].status == status)
  {
    var n := |ids| - 1;
    LastIsNew(ids);
    OneMore(Ended(ids[..n], before, status), Ended(ids, after, status), ids[n], after.rows[ids[n]].status == status);
  }

  /** The counters say how the scanned rows ended. */
  lemma {:induction false} CountersTellEnds(store: Store, ids: seq<nat>, fates: nat -> Fate, exactKeys: bool)
    requires Distinct(ids) && forall id | id in ids :: id in store.rows
    ensures var b := Turns(store, ids, fates, exactKeys);
            b.counts.error == |Ended(ids, b.store, Errored)| && b.counts.review == |Ended(ids, b.store, Review)| &&
            |ids| == |Ended(ids, b.store, Errored)| + |Ended(ids, b.store, Review)| + |Ended(ids, b.store, Linked)|
    decreases |ids|
  {
    if ids != [] {
      var n := |ids| - 1;
      var b, after := Turns(store, ids[..n], fates, exactKeys), Turns(store, ids, fates, exactKeys).store;
      CountersTellEnds(store, ids[..n], fates, exactKeys);
      TurnEnds(b, ids[n], fates(ids[n]), exactKeys);
      LastTurnMoves(store, ids, fates, exactKeys);
      EndedGoesOn(ids, b.store, after, Errored);
      EndedGoesOn(ids, b.store, after, Review);
      EndedGoesOn(ids, b.store, after, Linked);
    }
  }

  /** An attempt is charged to each row that ended errored, and to no other. */
  lemma {:induction false} ErrorsCostAttempts(store: Store, ids: seq<nat>, fates: nat -> Fate, exactKeys: bool, id: nat)
    requires Distinct(ids) && (forall i | i in ids :: i in store.rows) && id in store.rows
    ensures var after := Turns(store, ids, fates, exactKeys).store;
            after.rows[id].attempts == store.rows[id].attempts + If(id in ids && after.rows[id].status == Errored)
    decreases |ids|
  {
    if ids != [] {
      var n := |ids| - 1;
      ErrorsCostAttempts(store, ids[..n], fates, exactKeys, id);
      TurnEnds(Turns(store, ids[..n], fates, exactKeys), ids[n], fates(ids[n]), exactKeys);
      LastTurnMoves(store, ids, fates, exactKeys);
      LastIsNew(ids);
    }
  }

  function BestTakers(store: Store, ids: seq<nat>, fates: nat -> Fate, exactKeys: bool): set<nat>
    requires forall id | id in ids :: id in store.rows
  {
    set k | 0 <= k < |ids| && TookBest(store, ids, fates, exactKeys, k)
  }

  function OwnMakers(store: Store, ids: seq<nat>, fates: nat -> Fate, exactKeys: bool): set<nat>
    requires forall id | id in ids :: id in store.rows
  {
    set k | 0 <= k < |ids| && MadeOwn(store, ids, fates, exactKeys, k)
  }

  /** Rows that came linked and ended so. */
  function Updated(store: Store, ids: seq<nat>, after: Store): set<nat> {
    set id | id in Ended(ids, after, Linked) && id in store.links
  }

  lemma TakersGoOn(store: Store, ids: seq<nat>, fates: nat -> Fate, exactKeys: bool)
    requires (forall id | id in ids :: id in store.rows) && ids != []
    ensures |BestTakers(store, ids, fates, exactKeys)| ==
            |BestTakers(store, ids[..|ids| - 1], fates, exactKeys)| + If(TookBest(store, ids, fates, exactKeys, |ids| - 1))
  {
    var n := |ids| - 1;
    forall k | 0 <= k < n ensures TookBest(store, ids[..n], fates, exactKeys, k) == TookBest(store, ids, fates, exactKeys, k) {
      LeadsEarlier(store, ids, k);
    }
    OneMore(BestTakers(store, ids[..n], fates, exactKeys), BestTakers(store, ids, fates, exactKeys), n,
            TookBest(store, ids, fates, exactKeys, n));
  }

  lemma MakersGoOn(store: Store, ids: seq<nat>, fates: nat -> Fate, exactKeys: bool)
    requires (forall id | id in ids :: id in store.rows) && ids != []
    ensures |OwnMakers(store, ids, fates, exactKeys)| ==
            |OwnMakers(store, ids[..|ids| - 1], fates, exactKeys)| + If(MadeOwn(store, ids, fates, exactKeys, |ids| - 1))
  {
    var n := |ids| - 1;
    forall k | 0 <= k < n ensures MadeOwn(store, ids[..n], fates, exactKeys, k) == MadeOwn(store, ids, fates, exactKeys, k) {
      LeadsEarlier(store, ids, k);
    }
    OneMore(OwnMakers(store, ids[..n], fates, exactKeys), OwnMakers(store, ids, fates, exactKeys), n,
            MadeOwn(store, ids, fates, exactKeys, n));
  }

  lemma LeadsEarlier(store: Store, ids: seq<nat>, k: nat)
    requires k < |ids| - 1
    ensures Leads(store, ids[..|ids| - 1], k) == Leads(store, ids, k)
  {
    assert forall i | 0 <= i <= k :: ids[..|ids| - 1][i] == ids[i];
  }

  /** And they say why the linked ones were linked: updated, by a best candidate, with a record made for them, or by their tuple. */
  lemma {:induction false} CountersTellWhy(store: Store, ids: seq<nat>, fates: nat -> Fate, exactKeys: bool)
    requires Distinct(ids) && forall id | id in ids :: id in store.rows
    ensures var b := Turns(store, ids, fates, exactKeys);
            b.counts.linkedFuzzy == |BestTakers(store, ids, fates, exactKeys)| &&
            b.counts.created == |OwnMakers(store, ids, fates, exactKeys)| &&
            b.counts.updated == |Updated(store, ids, b.store)|
    decreases |ids|
  {
    if ids != [] {
      var n := |ids| - 1;
      var b, b' := Turns(store, ids[..n], fates, exactKeys), Turns(store, ids, fates, exactKeys);
      CountersTellWhy(store, ids[..n], fates, exactKeys);
      TurnCounts(b, ids[n], fates(ids[n]), exactKeys);
      LastTurnMoves(store, ids, fates, exactKeys);
      LastRowMeets(store, ids, fates, exactKeys);
      TakersGoOn(store, ids, fates, exactKeys);
      MakersGoOn(store, ids, fates, exactKeys);
      UpdatedGoesOn(store, ids, b.store, b'.store);
    }
  }

  lemma UpdatedGoesOn(store: Store, ids: seq<nat>, before: Store, after: Store)
    requires LastMoved(ids, before, after)
    ensures var n := |ids| - 1;
            |Updated(store, ids, after)| ==
              |Updated(store, ids[..n], before)| + If(ids[n] in store.links && after.rows[ids[n]].status == Linked)
  {
    var n := |ids| - 1;
    LastIsNew(ids);
    OneMore(Updated(store, ids[..n], before), Updated(store, ids, after), ids[n],
            ids[n] in store.links && after.rows[ids[n]].status == Linked);
  }

  // ----- the source's own loop -----

  class SourceRecords {
    var rows: map<nat, Row>
    var links: map<nat, nat>
    var records: map<nat, nat>

    ghost function View(): Store
      reads this
    {
      Store(rows, links, records)
    }

    constructor (rows: map<nat, Row>, links: map<nat, nat>, records: map<nat, nat>)
      ensures View() == Store(rows, links, records)
    {
      this.rows, this.links, this.records := rows, links, records;
    }

    method Scan(maxAttempts: nat, limit: nat) returns (ids: seq<nat>)
      ensures Scanned(View(), maxAttempts, limit, ids)
    {
      ids := [];
      var rest := set id | id in rows && rows[id].status != Linked && rows[id].attempts < maxAttempts;
      while rest != {} && |ids| < limit
        invariant |ids| <= limit && Ascending(ids)
        invariant forall id :: Scannable(View(), maxAttempts, id) <==> id in ids || id in rest
        invariant forall seen, id | seen in ids && id in rest :: seen < id
        decreases rest
      {
        var least := First(rest);
        forall k | 0 <= k < |ids| ensures ids[k] < least { assert ids[k] in ids; }
        ids := ids + [least];
        rest := rest - {least};
      }
    }

    /** Links a row to a record. */
    method Link(id: nat, record: nat)
      requires id in rows
      modifies `rows, `links
      ensures View() == WithLink(old(View()), id, record)
    {
      links := links[id := record];
      rows := rows[id := rows[id].(status := Linked)];
    }

    /** `resolveRow`: `None` when the resolver threw, with whatever it had written by then. */
    method ResolveRow(id: nat, fate: Fate, exactKeys: bool, counts: Counts)
      returns (outcome: Option<Outcome>, counts': Counts, creator: bool)
      requires id in rows
      modifies this
      ensures outcome == Answer(old(View()), id, fate, exactKeys)
      ensures var b' := Resolved(Batch(old(View()), map[], counts, {}), id, fate, exactKeys);
              outcome.Some? ==> View() == b'.store && counts' == b'.counts && creator == (id in b'.creators)
      ensures rows.Keys == old(rows.Keys)
    {
      if exactKeys && rows[id].keys.Some? && fate.exact.Some? {
        records := records[fate.exact.value := id];
        if !fate.updates { return None, counts, false; }
        Link(id, fate.exact.value);
        return Some(ToRecord(fate.exact.value)), counts.(linkedExact := counts.linkedExact + 1), false;
      }
      if fate.best.Some? {
        if fate.reviewed {
          rows := rows[id := rows[id].(status := Review)];
          return Some(ToReview), counts.(review := counts.review + 1), false;
        }
        records := records[fate.best.value := id];
        if !fate.updates { return None, counts, false; }
        Link(id, fate.best.value);
        return Some(ToRecord(fate.best.value)), counts.(linkedFuzzy := counts.linkedFuzzy + 1), false;
      }
      if fate.creates.None? { return None, counts, false; }
      records := records[fate.creates.value := id];
      Link(id, fate.creates.value);
      return Some(ToRecord(fate.creates.value)), counts.(created := counts.created + 1), true;
    }

    /** The first row of its group, or a row without one: what it settles on is the group's. */
    method ResolveFirst(id: nat, fate: Fate, exactKeys: bool, groups: map<seq<string>, Outcome>, counts: Counts,
                        ghost creators: set<nat>)
      returns (threw: bool, groups': map<seq<string>, Outcome>, counts': Counts, creator: bool)
      requires id in rows
      modifies this
      ensures threw == Answer(old(View()), id, fate, exactKeys).None?
      ensures !threw ==> Batch(View(), groups', counts', if creator then creators + {id} else creators) ==
                         Resolved(Batch(old(View()), groups, counts, creators), id, fate, exactKeys)
    {
      ghost var before := Batch(View(), groups, counts, creators);
      var group := if id in links then None else rows[id].keys;
      if Answer(before.store, id, fate, exactKeys).Some? { SameResolution(before, id, fate, exactKeys); }
      var outcome: Option<Outcome>;
      outcome, counts', creator := ResolveRow(id, fate, exactKeys, counts);
      threw := outcome.None?;
      groups' := if outcome.Some? && group.Some? then groups[group.value := outcome.value] else groups;
    }

    /** A row that carries a link: its record is updated and the link left alone. */
    method UpdateRow(id: nat, fate: Fate, counts: Counts) returns (threw: bool, counts': Counts)
      requires id in rows && id in links
      modifies this
      ensures threw == !fate.updates && rows.Keys == old(rows.Keys)
      ensures !threw ==> View() == WithStatus(old(View()), id, Linked).(records := old(records)[old(links)[id] := id])
      ensures !threw ==> counts' == counts.(updated := counts.updated + 1)
    {
      records := records[links[id] := id];
      if !fate.updates { return true, counts; }
      rows := rows[id := rows[id].(status := Linked)];
      return false, counts.(updated := counts.updated + 1);
    }

    /** A duplicate within the batch takes its leader's outcome. */
    method FollowLeader(id: nat, outcome: Outcome, counts: Counts) returns (threw: bool, counts': Counts)
      requires id in rows
      modifies this
      ensures threw == outcome.ToError? && rows.Keys == old(rows.Keys)
      ensures var b := Batch(old(View()), map[], counts, {});
              !threw ==> View() == Followed(b, id, outcome).store && counts' == Followed(b, id, outcome).counts
    {
      match outcome {
        case ToRecord(record) =>
          Link(id, record);
          return false, counts.(linkedExact := counts.linkedExact + 1);
        case ToReview =>
          rows := rows[id := rows[id].(status := Review)];
          return false, counts.(review := counts.review + 1);
        case ToError => return true, counts;
      }
    }

    /** The savepoint is rolled back to and the row marked. */
    method RollBack(id: nat, saved: Store)
      requires id in saved.rows
      modifies this
      ensures View() == Failed(Batch(saved, map[], Counts(0, 0, 0, 0, 0, 0), {}), id).store
    {
      rows, links, records := saved.rows, saved.links, saved.records;
      rows := rows[id := rows[id].(status := Errored, attempts := rows[id].attempts + 1)];
    }

    /** One turn of the loop: the row's savepoint, released or rolled back. */
    method TakeTurn(id: nat, fate: Fate, exactKeys: bool, groups: map<seq<string>, Outcome>, counts: Counts,
                    ghost creators: set<nat>)
      returns (groups': map<seq<string>, Outcome>, counts': Counts, creator: bool)
      requires id in rows
      modifies this
      ensures Batch(View(), groups', counts', if creator then creators + {id} else creators) ==
              Turn(Batch(old(View()), groups, counts, creators), id, fate, exactKeys)
    {
      ghost var before := Batch(View(), groups, counts, creators);
      var group := if id in links then None else rows[id].keys;
      var saved := Store(rows, links, records);
      var threw: bool;
      groups', creator := groups, false;
      if id in links {
        threw, counts' := UpdateRow(id, fate, counts);
      } else if group.Some? && group.value in groups {
        threw, counts' := FollowLeader(id, groups[group.value], counts);
      } else {
        threw, groups', counts', creator := ResolveFirst(id, fate, exactKeys, groups, counts, creators);
      }
      if threw {
        RollBack(id, saved);
        counts', creator := counts.(error := counts.error + 1), false;
        groups' := if group.Some? then groups[group.value := ToError] else groups;
        TurnFails(before, id, fate, exactKeys);
      }
    }

    /** One batch, one transaction. */
    method BatchStatements(maxAttempts: nat, limit: nat, fates: nat -> Fate, exactKeys: bool)
      returns (ids: seq<nat>, counts: Counts, done: bool)
      modifies this
      ensures Scanned(old(View()), maxAttempts, limit, ids)
      ensures View() == Turns(old(View()), ids, fates, exactKeys).store
      ensures counts == Turns(old(View()), ids, fates, exactKeys).counts
      ensures done == Done(|ids|, limit, counts)
      ensures Left(View(), maxAttempts) + counts.Moved() <= Left(old(View()), maxAttempts)
    {
      ids := Scan(maxAttempts, limit);
      ghost var before := View();
      var groups: map<seq<string>, Outcome> := map[];
      counts := Counts(0, 0, 0, 0, 0, 0);
      ghost var creators: set<nat> := {};
      for k := 0 to |ids|
        invariant rows.Keys == before.rows.Keys
        invariant Batch(View(), groups, counts, creators) == Turns(before, ids[..k], fates, exactKeys)
      {
        assert ids[..k + 1][..k] == ids[..k] && ids[k] in ids;
        var creator: bool;
        groups, counts, creator := TakeTurn(ids[k], fates(ids[k]), exactKeys, groups, counts, creators);
        if creator { creators := creators + {ids[k]}; }
      }
      assert ids[..|ids|] == ids;
      BatchSpends(before, ids, fates, exactKeys, maxAttempts);
      done := |ids| < limit || counts.Moved() == 0;
    }

    /**
     * `resolveBatch`: the first so many rows, by id, that are not linked and have attempts left, and all of
     * them if the batch is not full; and the answer whether there is anything left for a next one to move.
     */
    method ResolveBatch(maxAttempts: nat, limit: nat, fates: nat -> Fate, exactKeys: bool)
      returns (ids: seq<nat>, counts: Counts, done: bool)
      modifies this
      ensures Scanned(old(View()), maxAttempts, limit, ids)
      ensures View() == Turns(old(View()), ids, fates, exactKeys).store
      ensures counts == Turns(old(View()), ids, fates, exactKeys).counts
      ensures |ids| <= limit && Ascending(ids)
      ensures forall id | id in ids :: id in old(rows) && old(rows)[id].status != Linked && old(rows)[id].attempts < maxAttempts
      ensures forall id | id in old(rows) && old(rows)[id].status != Linked && old(rows)[id].attempts < maxAttempts && id !in ids ::
                |ids| == limit && forall seen | seen in ids :: seen < id
      ensures done <==> |ids| < limit || counts == Counts(0, 0, 0, 0, counts.review, 0)
    {
      ghost var before := View();
      ids, counts, done := BatchStatements(maxAttempts, limit, fates, exactKeys);
      ScannedByColumns(before, maxAttempts, limit, ids);
      DoneByCounters(|ids|, limit, counts);
    }

    /**
     * The caller's loop, with no new source rows: whatever the resolver answers in each batch, it
     * ends; and a last batch short of its limit had scanned every row left to scan.
     */
    method ResolveAll(maxAttempts: nat, limit: nat, fates: (nat, nat) -> Fate, exactKeys: bool)
      returns (last: seq<nat>, ghost start: Store, counts: Counts)
      modifies this
      ensures Scanned(start, maxAttempts, limit, last) && Done(|last|, limit, counts)
      ensures |last| < limit ==> forall id | Scannable(start, maxAttempts, id) :: id in last
      ensures exists batch: nat :: View() == BatchEnd(start, last, fates, batch, exactKeys)
    {
      var batch: nat := 0;
      var done: bool;
      start := View();
      last, counts, done := BatchStatements(maxAttempts, limit, BatchFates(fates, 0), exactKeys);
      LeftIsNatural(View(), maxAttempts);
      while !done
        invariant Scanned(start, maxAttempts, limit, last) && done == Done(|last|, limit, counts)
        invariant View() == BatchEnd(start, last, fates, batch, exactKeys) && 0 <= Left(View(), maxAttempts)
        decreases Left(View(), maxAttempts) + if done then 0 else 1
      {
        batch := batch + 1;
        start := View();
        last, counts, done := BatchStatements(maxAttempts, limit, BatchFates(fates, batch), exactKeys);
        LeftIsNatural(View(), maxAttempts);
      }
    }
  }

  function BatchFates(fates: (nat, nat) -> Fate, batch: nat): nat -> Fate { (id: nat) => fates(batch, id) }

  function BatchEnd(start: Store, ids: seq<nat>, fates: (nat, nat) -> Fate, batch: nat, exactKeys: bool): Store
    requires forall id | id in ids :: id in start.rows
  {
    Turns(start, ids, BatchFates(fates, batch), exactKeys).store
  }

  /** The batch so far has no say in how a row of its own resolves, and its group takes the answer. */
  lemma SameResolution(b: Batch, id: nat, fate: Fate, exactKeys: bool)
    requires id in b.store.rows && Answer(b.store, id, fate, exactKeys).Some?
    ensures var alone, b' := Resolved(Batch(b.store, map[], b.counts, {}), id, fate, exactKeys), Resolved(b, id, fate, exactKeys);
            alone.creators <= {id} &&
            b' == Grouped(b, GroupOf(b.store, id), Answer(b.store, id, fate, exactKeys).value)
                    .(store := alone.store, counts := alone.counts, creators := b.creators + alone.creators)
  {
  }

  /** The turns whose row throws. */
  predicate Throws(b: Batch, id: nat, fate: Fate, exactKeys: bool)
    requires id in b.store.rows
  {
    var group := GroupOf(b.store, id);
    if id in b.store.links then !fate.updates
    else if group.Some? && group.value in b.groups then b.groups[group.value].ToError?
    else Answer(b.store, id, fate, exactKeys).None?
  }

  lemma TurnFails(b: Batch, id: nat, fate: Fate, exactKeys: bool)
    requires id in b.store.rows && Throws(b, id, fate, exactKeys)
    ensures Turn(b, id, fate, exactKeys) == Failed(b, id)
  {
  }

  /** A turn throws exactly when its row ends errored. */
  lemma ErrorsThrow(b: Batch, id: nat, fate: Fate, exactKeys: bool)
    requires id in b.store.rows && Turn(b, id, fate, exactKeys).store.rows[id].status == Errored
    ensures Throws(b, id, fate, exactKeys)
  {
  }

  /** A turn that errors moves its row, its group and the counters, and no link or record. */
  lemma ErrorMovesNothing(b: Batch, id: nat, fate: Fate, exactKeys: bool)
    requires id in b.store.rows
    requires Turn(b, id, fate, exactKeys).store.rows[id].status == Errored
    ensures var b' := Turn(b, id, fate, exactKeys);
            b'.store.links == b.store.links && b'.store.records == b.store.records && b'.creators == b.creators &&
            b'.store.rows[id].attempts == b.store.rows[id].attempts + 1 && b'.counts.error == b.counts.error + 1
  {
    ErrorsThrow(b, id, fate, exactKeys);
    TurnFails(b, id, fate, exactKeys);
  }

  /** Nothing of this row's is in a record, or linked, that was not before. */
  ghost predicate Traceless(store: Store, b: Batch, id: nat) {
    (id in b.store.links <==> id in store.links) && (id in store.links ==> b.store.links[id] == store.links[id]) &&
    id !in b.creators &&
    forall r | r in b.store.records && b.store.records[r] == id :: r in store.records && store.records[r] == id
  }

  lemma JoinedTracesItself(b: Batch, id: nat, record: nat, counts: Counts, other: nat)
    requires id in b.store.rows && other != id && other !in b.creators
    ensures Traceless(b.store, Joined(b, id, record, counts), other)
    ensures Traceless(b.store, Joined(b, id, record, counts).(creators := b.creators + {id}), other)
  {
  }

  lemma ResolvedTracesItself(b: Batch, id: nat, fate: Fate, exactKeys: bool, other: nat)
    requires id in b.store.rows && other != id && other !in b.creators
    ensures Traceless(b.store, Resolved(b, id, fate, exactKeys), other)
  {
    hide Spent;
    hide Joined;
    if exactKeys && b.store.rows[id].keys.Some? && fate.exact.Some? {
      JoinedTracesItself(b, id, fate.exact.value, b.counts.(linkedExact := b.counts.linkedExact + 1), other);
    } else if fate.best.Some? {
      JoinedTracesItself(b, id, fate.best.value, b.counts.(linkedFuzzy := b.counts.linkedFuzzy + 1), other);
    } else if fate.creates.Some? {
      JoinedTracesItself(b, id, fate.creates.value, b.counts.(created := b.counts.created + 1), other);
    }
  }

  /** A turn writes links and records for its own row only. */
  lemma TurnTracesItself(b: Batch, id: nat, fate: Fate, exactKeys: bool, other: nat)
    requires id in b.store.rows && other != id && other !in b.creators
    ensures Traceless(b.store, Turn(b, id, fate, exactKeys), other)
  {
    ResolvedTracesItself(b, id, fate, exactKeys, other);
  }

  /** A row that ended a batch errored leaves no link, no record and no update of one behind. */
  lemma {:induction false} ErrorsLeaveNothing(store: Store, ids: seq<nat>, fates: nat -> Fate, exactKeys: bool, id: nat)
    requires Distinct(ids) && forall i | i in ids :: i in store.rows
    requires id in store.rows && (id in ids ==> Turns(store, ids, fates, exactKeys).store.rows[id].status == Errored)
    ensures Traceless(store, Turns(store, ids, fates, exactKeys), id)
    decreases |ids|
  {
    if ids != [] {
      var n := |ids| - 1;
      var b := Turns(store, ids[..n], fates, exactKeys);
      if ids[n] == id {
        ErrorsLeaveNothing(store, ids[..n], fates, exactKeys, id);
        ErrorMovesNothing(b, id, fates(id), exactKeys);
      } else {
        TurnTries(b, ids[n], fates(ids[n]), exactKeys);
        assert id in ids[..n] ==> id in ids;
        assert id in ids ==> id in ids[..n];
        ErrorsLeaveNothing(store, ids[..n], fates, exactKeys, id);
        TurnTracesItself(b, ids[n], fates(ids[n]), exactKeys, id);
      }
    }
  }
}
