/** The projector's own code: leasing, applying and acknowledging operations,
    and rebuilding the index page by page, while canonical commits interleave
    between its transactions. Every method is a run of the step model. */
module Projector {
  import opened Refs
  import opened ProjectionModel
  import opened ProjectionSafety
  import opened ProjectionRebuild

  /* ---- the enumeration cursor ---- */

  /** fmt.Sprintf("%d:%s", kindOrder, ref) */
  function FormatCursor(k: Key): (c: string)
    ensures c != ""
  {
    Decimal(KindOrder(k.kind)) + ":" + Render(k.ref)
  }

  /* strconv.Atoi restricted to what the caller accepts: any value outside
     0..2 is refused like a malformed one. */
  function ParseKindOrder(s: string): Option<nat> {
    var digits := if s != "" && s[0] == '+' then s[1..] else s;
    if digits == "" then None
    else if forall i :: 0 <= i < |digits| ==> '0' <= digits[i] <= '9' then
      if (forall i :: 0 <= i < |digits| - 1 ==> digits[i] == '0') && digits[|digits| - 1] <= '2'
      then Some((digits[|digits| - 1] as int - '0' as int) as nat) else None
    else if s[0] == '-' && |s| > 1 && (forall i :: 1 <= i < |s| ==> s[i] == '0') then Some(0)
    else None
  }

  function IndexOfColon(s: string): (i: nat)
    ensures i <= |s| && (i < |s| ==> s[i] == ':')
    ensures forall j :: 0 <= j < i ==> s[j] != ':'
  {
    if s == "" || s[0] == ':' then 0 else IndexOfColon(s[1..]) + 1
  }

  datatype Position = Position(kindOrder: int, ref: string)

  /** parseMemoryIndexCursor; None is the invalid-cursor error. */
  function ParseCursor(cursor: string): (r: Option<Position>) {
    if cursor == "" then Some(Position(-1, ""))
    else
      var colon := IndexOfColon(cursor);
      if colon == |cursor| || colon + 1 == |cursor| then None
      else
        var kind := ParseKindOrder(cursor[..colon]);
        if kind.None? then None else Some(Position(kind.value, cursor[colon + 1..]))
  }

  /** The cursor handed out resumes exactly after the last key of its page. */
  lemma CursorRoundTrip(k: Key)
    requires Render(k.ref) != ""
    ensures ParseCursor(FormatCursor(k)) == Some(Position(KindOrder(k.kind), Render(k.ref)))
  {
    var d := KindOrder(k.kind);
    var c := FormatCursor(k);
    assert Decimal(d) == [Digit(d)];
    assert c[0] == Digit(d) && c[1] == ':';
    assert IndexOfColon(c) == 1;
    assert c[..1] == [Digit(d)] && c[2..] == Render(k.ref);
  }

  predicate PositionBefore(p: Position, k: Key) {
    p.kindOrder < KindOrder(k.kind) || (p.kindOrder == KindOrder(k.kind) && Less(p.ref, Render(k.ref)))
  }

  ghost predicate CursorOf(cursor: string, key: Option<Key>) {
    match key
    case None => cursor == ""
    case Some(k) => Render(k.ref) != "" && cursor == FormatCursor(k)
  }

  lemma CursorMeans(cursor: string, key: Option<Key>)
    requires CursorOf(cursor, key)
    ensures ParseCursor(cursor).Some?
    ensures forall k :: PositionBefore(ParseCursor(cursor).value, k) <==> After(key, k)
  {
    if key.Some? {
      CursorRoundTrip(key.value);
    }
  }

  /* ---- enumeration order on canonical keys ---- */

  lemma KeyLessTotal(t: Tables, a: Key, b: Key)
    requires TablesOk(t) && a in CanonKeys(t) && b in CanonKeys(t)
    ensures a == b || KeyLess(a, b) || KeyLess(b, a)
  {
    CanonKeysAreDocuments(t, a);
    CanonKeysAreDocuments(t, b);
    LessTotal(Render(a.ref), Render(b.ref));
    if a.kind == b.kind && Render(a.ref) == Render(b.ref) && a.kind != Episode {
      var va, vb := VersionKey(a.kind, a.ref), VersionKey(b.kind, b.ref);
      assert VersionOk(va, t.versions[va]) && VersionOk(vb, t.versions[vb]);
      VersionNameInjective(a.ref.root, a.ref.number, b.ref.root, b.ref.number);
    }
  }

  ghost predicate IsLeast(keys: set<Key>, k: Key) {
    k in keys && forall j :: j in keys && j != k ==> KeyLess(k, j)
  }

  lemma {:induction false} LeastExists(t: Tables, keys: set<Key>)
    requires TablesOk(t) && keys <= CanonKeys(t) && keys != {}
    ensures exists k :: IsLeast(keys, k)
    decreases |keys|
  {
    var x :| x in keys;
    var rest := keys - {x};
    if rest == {} {
      assert forall j :: j in keys ==> j == x || j in rest;
      assert IsLeast(keys, x);
    } else {
      LeastExists(t, rest);
      var k :| IsLeast(rest, k);
      KeyLessTotal(t, x, k);
      if KeyLess(k, x) {
        assert k in keys;
        forall j | j in keys && j != k ensures KeyLess(k, j) {
          if j != x {
            assert j in rest;
          }
        }
        assert IsLeast(keys, k);
      } else {
        forall j | j in keys && j != x ensures KeyLess(x, j) {
          if j != k {
            KeyLessTransitive(x, k, j);
          }
        }
        assert IsLeast(keys, x);
      }
    }
  }

  lemma CanonKeyIsNamed(t: Tables, k: Key)
    requires TablesOk(t) && k in CanonKeys(t)
    ensures Render(k.ref) != ""
  {
    CanonKeysAreDocuments(t, k);
    if k.kind != Episode {
      var vk := VersionKey(k.kind, k.ref);
      assert VersionOk(vk, t.versions[vk]);
    }
  }

  predicate Rises(page: seq<Key>) {
    forall i, j :: 0 <= i < j < |page| ==> KeyLess(page[i], page[j])
  }

  predicate Precedes(page: seq<Key>, left: set<Key>) {
    forall i, k :: 0 <= i < |page| && k in left ==> KeyLess(page[i], k)
  }

  predicate Splits(keys: set<Key>, page: seq<Key>, left: set<Key>) {
    && (forall i :: 0 <= i < |page| ==> page[i] in keys)
    && (forall k :: k in keys && k !in page ==> k in left)
  }

  lemma TakeLeast(keys: set<Key>, page: seq<Key>, left: set<Key>, k: Key)
    requires Splits(keys, page, left) && Rises(page) && Precedes(page, left) && left <= keys
    requires k in left && forall j :: j in left && j != k ==> KeyLess(k, j)
    ensures Splits(keys, page + [k], left - {k}) && Rises(page + [k]) && Precedes(page + [k], left - {k})
  {
    forall x | x in keys && x !in page + [k] ensures x in left - {k} {
      assert x !in page && x != (page + [k])[|page|];
    }
  }

  /** ORDER BY ... LIMIT: the least `limit` keys in order, and whether any is left. */
  method FirstKeys(t: Tables, keys: set<Key>, limit: nat) returns (page: seq<Key>, hasMore: bool)
    requires TablesOk(t) && keys <= CanonKeys(t)
    ensures |page| <= limit && (hasMore ==> |page| == limit)
    ensures forall i :: 0 <= i < |page| ==> page[i] in keys
    ensures forall i, j :: 0 <= i < j < |page| ==> KeyLess(page[i], page[j])
    ensures forall k :: k in keys && k !in page ==> hasMore && forall i :: 0 <= i < |page| ==> KeyLess(page[i], k)
  {
    page := [];
    var left := keys;
    while |page| < limit && left != {}
      invariant |page| <= limit && left <= keys
      invariant Splits(keys, page, left) && Rises(page) && Precedes(page, left)
      decreases left
    {
      LeastExists(t, left);
      var k :| k in left && forall j :: j in left && j != k ==> KeyLess(k, j);
      TakeLeast(keys, page, left, k);
      page := page + [k];
      left := left - {k};
    }
    hasMore := left != {};
  }

  /* ---- the store's queue and enumeration ---- */

  datatype Faults = Faults(hydrate: bool, write: bool, effect: bool, acknowledge: bool, retry: bool)

  class Store {
    var tables: Tables
    var operations: seq<Operation>

    ghost function View(index: map<Key, Text>, phase: Phase, clean: bool): State
      reads this
    {
      State(tables, operations, index, phase, clean)
    }

    /** enqueueMemoryIndexOperation */
    method EnqueueOperation(action: Action, kind: Kind, ref: DocRef, scope: Scope, identity: Ref, cause: Cause)
      returns (ok: bool)
      modifies this`operations
      ensures ok <==> Enqueue(old(operations), action, kind, ref, scope, identity, cause).Some?
      ensures Some(operations) == (if ok then Enqueue(old(operations), action, kind, ref, scope, identity, cause)
                                   else Some(old(operations)))
    {
      if !IdentityComplete(ref, identity, cause) {
        return false;
      }
      var stream := Stream(scope.tenant, kind, identity);
      var id := OperationId(stream, action, kind, ref, cause);
      var i, sequence := 0, 0;
      while i < |operations|
        invariant 0 <= i <= |operations|
        invariant operations == old(operations)
        invariant sequence == MaxSequence(operations[..i], stream)
        invariant forall j :: 0 <= j < i ==> operations[j].id != id
      {
        if operations[i].id == id {
          return true;
        }
        assert operations[..i + 1][..i] == operations[..i];
        if operations[i].id.stream == stream && operations[i].sequence > sequence {
          sequence := operations[i].sequence;
        }
        i := i + 1;
      }
      assert operations[..i] == operations;
      operations := operations + [Operation(id, sequence + 1, scope, None, 0, 0, 0, false)];
      return true;
    }

    method EnqueueChange(c: Change) returns (ok: bool)
      requires ChangeEnabled(tables, c)
      modifies this`operations
      ensures ok <==> ChangeOps(tables, old(operations), c).Some?
      ensures ok ==> ChangeOps(tables, old(operations), c) == Some(operations)
    {
      match c {
        case LinkEpisode(ref, scope, links, link) =>
          ok := EnqueueOperation(Upsert, Episode, ref, scope, Render(ref), TypedLink(link));
        case Form(kind, root, scope, text) =>
          var v := VersionRef(root, 1);
          ok := EnqueueOperation(Upsert, kind, v, scope, RootOf(Render(v)), NewVersion(v));
        case Revise(kind, ref, text) =>
          var prior := tables.versions[VersionKey(kind, ref)];
          var v := VersionRef(prior.root, prior.number + 1);
          ok := EnqueueOperation(Delete, kind, ref, prior.scope, prior.root, NewVersion(v));
          if ok {
            ok := EnqueueOperation(Upsert, kind, v, prior.scope, prior.root, NewVersion(v));
          }
      }
    }

    /** A canonical transaction of another process. */
    method Apply(c: Change, ghost index: map<Key, Text>, ghost phase: Phase, ghost clean: bool)
      modifies this
      ensures Reaches(old(View(index, phase, clean)), View(index, phase, clean))
      ensures |operations| >= |old(operations)|
    {
      ghost var s := View(index, phase, clean);
      Transact(c, index, phase, clean);
      if Enabled(s, Commit(c)) {
        CommitKeepsRows(s, c);
      }
    }

    /** One canonical transaction; a disabled or failing one is rolled back. */
    method Transact(c: Change, ghost index: map<Key, Text>, ghost phase: Phase, ghost clean: bool)
      modifies this
      ensures Reaches(old(View(index, phase, clean)), View(index, phase, clean))
      ensures var s := old(View(index, phase, clean));
              View(index, phase, clean) == if Enabled(s, Commit(c)) then Do(s, Commit(c)) else s
    {
      ghost var s := View(index, phase, clean);
      ReachesSelf(s);
      var enabled := ChangeEnabled(tables, c);
      if enabled {
        var before := operations;
        var ok := EnqueueChange(c);
        if ok {
          tables := ChangeTables(tables, c);
          ReachesNext(s, s, Commit(c));
        } else {
          operations := before;
        }
      }
    }

    /** The commits of other processes that fall between two of our transactions. */
    method Interleave(changes: seq<Change>, ghost index: map<Key, Text>, ghost phase: Phase, ghost clean: bool)
      modifies this
      ensures Reaches(old(View(index, phase, clean)), View(index, phase, clean))
      ensures |operations| >= |old(operations)| && (changes == [] ==> tables == old(tables))
    {
      var i := 0;
      ghost var s := View(index, phase, clean);
      ReachesSelf(s);
      while i < |changes|
        invariant 0 <= i <= |changes|
        invariant Reaches(s, View(index, phase, clean))
        invariant |operations| >= |old(operations)| && (i == 0 ==> tables == old(tables))
      {
        ghost var mid := View(index, phase, clean);
        Apply(changes[i], index, phase, clean);
        ReachesAll(s, mid, View(index, phase, clean));
        i := i + 1;
      }
    }

    /** LeaseMemoryIndexOperation: the oldest operation that is due and first
        of its stream. */
    method LeaseOperation(now: int, until: int, token: Ref) returns (found: bool, op: nat)
      modifies this`operations
      ensures found <==> exists i: nat :: Leasable(old(operations), i, now)
      ensures found ==> Leasable(old(operations), op, now) && forall i: nat :: i < op ==> !Leasable(old(operations), i, now)
      ensures found ==> operations == old(operations)[op := old(operations)[op].(token := Some(token), leaseUntil := until)]
      ensures !found ==> operations == old(operations)
    {
      op := 0;
      while op < |operations| && !Leasable(operations, op, now)
        invariant op <= |operations|
        invariant forall i: nat :: i < op ==> !Leasable(operations, i, now)
      {
        op := op + 1;
      }
      found := op < |operations|;
      if found {
        operations := operations[op := operations[op].(token := Some(token), leaseUntil := until)];
      }
    }

    /** AcknowledgeMemoryIndexOperation */
    method Acknowledge(op: nat, token: Ref) returns (ok: bool)
      requires op < |operations|
      modifies this`operations
      ensures ok == HoldsLease(old(operations)[op], token)
      ensures operations == if ok then old(operations)[op := old(operations)[op].(acked := true, token := None)]
                            else old(operations)
    {
      var row := operations[op];
      if row.token != Some(token) || row.acked {
        return false;
      }
      operations := operations[op := row.(acked := true, token := None)];
      ok := true;
    }

    /** RetryMemoryIndexOperation */
    method Release(op: nat, token: Ref, notBefore: int) returns (ok: bool)
      requires op < |operations|
      modifies this`operations
      ensures ok == HoldsLease(old(operations)[op], token)
      ensures operations ==
              if ok then
                var row := old(operations)[op];
                old(operations)[op := row.(token := None, notBefore := notBefore, attempts := row.attempts + 1)]
              else old(operations)
    {
      var row := operations[op];
      if row.token != Some(token) || row.acked {
        return false;
      }
      operations := operations[op := row.(token := None, notBefore := notBefore, attempts := row.attempts + 1)];
      ok := true;
    }

    /** The ordered, bounded query of EnumerateMemoryIndexDocuments. */
    method FetchPage(cursor: string, limit: int, ghost after: Option<Key>)
      returns (ok: bool, page: seq<Key>, hasMore: bool)
      requires TablesOk(tables) && CursorOf(cursor, after)
      ensures ok <==> 1 <= limit <= 1000
      ensures ok ==> IsPage(CanonKeys(tables), after, limit, page, hasMore)
      ensures ok && hasMore ==> page != []
      ensures forall i :: 0 <= i < |page| ==> Render(page[i].ref) != ""
    {
      CursorMeans(cursor, after);
      var position := ParseCursor(cursor).value;
      page, hasMore := [], false;
      if limit <= 0 || limit > 1000 {
        return false, [], false;
      }
      ok := true;
      var all := CanonKeys(tables);
      var left := set k | k in all && PositionBefore(position, k);
      page, hasMore := FirstKeys(tables, left, limit);
      forall i | 0 <= i < |page| ensures Render(page[i].ref) != "" {
        CanonKeyIsNamed(tables, page[i]);
      }
    }
  }

  lemma CommitKeepsRows(s: State, c: Change)
    requires Enabled(s, Commit(c))
    ensures |Do(s, Commit(c)).ops| >= |s.ops|
  {
  }

  /** The disposable provider. A call may fail with or without taking effect. */
  class Index {
    var documents: map<Key, Text>

    method Upsert(batch: seq<Document>, ok: bool, written: nat)
      requires written <= |batch| && (ok ==> written == |batch|)
      modifies this
      ensures documents == Write(old(documents), batch[..written])
    {
      var i := 0;
      while i < written
        invariant i <= written
        invariant documents == Write(old(documents), batch[..i])
      {
        documents := documents[batch[i].key := batch[i].text];
        assert batch[..i + 1][..i] == batch[..i];
        i := i + 1;
      }
    }

    method Delete(k: Key, effect: bool)
      modifies this
      ensures documents == if effect then old(documents) - {k} else old(documents)
    {
      if effect {
        documents := documents - {k};
      }
    }

    method Reset(effect: bool)
      modifies this
      ensures documents == if effect then map[] else old(documents)
    {
      if effect {
        documents := map[];
      }
    }
  }

  /** The commits that land before the next read, and those after it. */
  function Batch(commits: seq<seq<Change>>): (r: seq<Change>)
    ensures commits == [] ==> r == []
  {
    if commits == [] then [] else commits[0]
  }

  function Later(commits: seq<seq<Change>>): (r: seq<seq<Change>>)
    ensures |r| <= |commits| && (commits != [] ==> |r| < |commits|)
  {
    if commits == [] then [] else commits[1..]
  }

  datatype Outcome = Nothing | Done | ApplyFailed | AckFailed

  class Projector {
    const store: Store
    const index: Index
    ghost var clean: bool

    ghost function View(phase: Phase): State
      reads this, store, index
    {
      store.View(index.documents, phase, clean)
    }

    constructor (store: Store, index: Index)
      ensures this.store == store && this.index == index && clean
    {
      this.store, this.index, clean := store, index, true;
    }

    /** apply, UPSERT: rehydrate, then write what was read. `between` are the
        commits that land between the read and the write. */
    method ApplyUpsert(op: nat, token: Ref, faults: Faults, between: seq<Change>)
      returns (ok: bool)
      requires op < |store.operations| && store.operations[op].id.action == Upsert
      modifies store, index
      ensures op < |store.operations|
      ensures Reaches(old(View(Leased(op, token))), View(if ok then Applied(op, token) else Failed(op, token)))
    {
      ghost var start := View(Leased(op, token));
      var k := KeyOf(store.operations[op]);
      var found := Canon(store.tables, k);
      ReachesSelf(start);
      ReachesNext(start, start, Hydrate(!faults.hydrate));
      if faults.hydrate || found.None? {
        ok := !faults.hydrate;
        return;
      }
      var d := Document(k, found.value);
      ghost var p := Hydrated(op, token, d);
      store.Interleave(between, index.documents, p, clean);
      ReachesAll(start, Do(start, Hydrate(true)), View(p));
      ghost var s := View(p);
      ok := ValidDocument(d) && !faults.write;
      var effect := ok || (ValidDocument(d) && faults.effect);
      index.Upsert([d], ok, if effect then 1 else 0);
      assert [d][..1] == [d] && Write(s.index, [d]) == Write(s.index, [])[d.key := d.text];
      ReachesNext(start, s, Step.Store(ok, effect));
    }

    /** apply, DELETE */
    method ApplyDelete(op: nat, token: Ref, faults: Faults) returns (ok: bool)
      requires op < |store.operations| && store.operations[op].id.action == Delete
      modifies index
      ensures Reaches(old(View(Leased(op, token))), View(if ok then Applied(op, token) else Failed(op, token)))
    {
      ghost var start := View(Leased(op, token));
      var k := KeyOf(store.operations[op]);
      ok := ValidKey(k) && !faults.write;
      var effect := ok || (ValidKey(k) && faults.effect);
      index.Delete(k, effect);
      ReachesSelf(start);
      ReachesNext(start, start, Remove(ok, effect));
    }

    /** apply, after the commits `before` that land between lease and read. */
    method Run(op: nat, token: Ref, faults: Faults, before: seq<Change>, between: seq<Change>)
      returns (ok: bool)
      requires op < |store.operations|
      modifies store, index
      ensures op < |store.operations|
      ensures Reaches(old(View(Leased(op, token))), View(if ok then Applied(op, token) else Failed(op, token)))
    {
      ghost var start := View(Leased(op, token));
      store.Interleave(before, index.documents, Leased(op, token), clean);
      ghost var s := View(Leased(op, token));
      if store.operations[op].id.action == Delete {
        ok := ApplyDelete(op, token, faults);
      } else {
        ok := ApplyUpsert(op, token, faults, between);
      }
      ReachesAll(start, s, View(if ok then Applied(op, token) else Failed(op, token)));
    }

    /** The acknowledgement, or the retry after a failed apply. */
    method Finish(op: nat, token: Ref, ok: bool, notBefore: int, faults: Faults)
      returns (outcome: Outcome, ghost last: Step)
      requires op < |store.operations|
      modifies store
      ensures outcome != Nothing
      ensures var s := old(View(if ok then Applied(op, token) else Failed(op, token)));
              Enabled(s, last) && Do(s, last) == View(Idle)
      ensures outcome == Done ==> last == Acknowledge && store.operations[op].acked
    {
      if !ok {
        outcome, last := ApplyFailed, Abandon;
        if !faults.retry {
          var _ := store.Release(op, token, notBefore);
          last := Retry(notBefore);
        }
      } else if faults.acknowledge {
        outcome, last := AckFailed, Abandon;
      } else {
        var held := store.Acknowledge(op, token);
        outcome, last := if held then Done else AckFailed, Acknowledge;
      }
    }

    /** ProcessOne: lease, apply, then acknowledge or retry. */
    method ProcessOne(now: int, until: int, token: Ref, notBefore: int, faults: Faults,
                      before: seq<Change>, between: seq<Change>, after: seq<Change>)
      returns (outcome: Outcome)
      modifies store, index
      ensures Reaches(old(View(Idle)), View(Idle))
      ensures outcome == Nothing <==> !exists i: nat :: Leasable(old(store.operations), i, now)
      ensures outcome == Nothing ==> View(Idle) == old(View(Idle))
    {
      ghost var start := View(Idle);
      ReachesSelf(start);
      var found, op := store.LeaseOperation(now, until, token);
      if !found {
        return Nothing;
      }
      ghost var s := View(Leased(op, token));
      ReachesSelf(start);
      ReachesNext(start, start, Lease(op, token, now, until));
      var ok;
      ok := Run(op, token, faults, before, between);
      ghost var p := if ok then Applied(op, token) else Failed(op, token);
      ReachesAll(start, s, View(p));
      s := View(p);
      store.Interleave(after, index.documents, p, clean);
      ReachesAll(start, s, View(p));
      s := View(p);
      ghost var last;
      outcome, last := Finish(op, token, ok, notBefore, faults);
      ReachesNext(start, s, last);
    }

    method Rehydrate(ghost after: Option<Key>, page: seq<Key>, hasMore: bool, i: nat, documents: seq<Document>)
      returns (documents': seq<Document>)
      requires i < |page|
      ensures Reaches(View(Copying(after, page, hasMore, i, documents)), View(Copying(after, page, hasMore, i + 1, documents')))
    {
      ghost var s := View(Copying(after, page, hasMore, i, documents));
      var found := Canon(store.tables, page[i]);
      documents' := if found.Some? then documents + [Document(page[i], found.value)] else documents;
      ReadIs(s, documents');
      ReachesSelf(s);
      ReachesNext(s, s, ReadNext);
    }

    /** One rehydration, after the commits that landed before it. */
    method ReadOne(ghost after: Option<Key>, page: seq<Key>, hasMore: bool, i: nat, documents: seq<Document>,
                   changes: seq<Change>, ghost first: State)
      returns (documents': seq<Document>)
      requires i < |page| && Reaches(first, View(Copying(after, page, hasMore, i, documents)))
      modifies store
      ensures Reaches(first, View(Copying(after, page, hasMore, i + 1, documents')))
      ensures changes == [] ==> store.tables == old(store.tables)
    {
      ghost var p := Copying(after, page, hasMore, i, documents);
      ghost var start := View(p);
      store.Interleave(changes, index.documents, p, clean);
      ghost var s := View(p);
      ReachesAll(first, start, s);
      documents' := Rehydrate(after, page, hasMore, i, documents);
      ReachesAll(first, s, View(Copying(after, page, hasMore, i + 1, documents')));
    }

    /** The per-key reads of one page. `commits` are consumed one batch per read. */
    method ReadPage(ghost after: Option<Key>, page: seq<Key>, hasMore: bool, commits: seq<seq<Change>>)
      returns (documents: seq<Document>, rest: seq<seq<Change>>)
      modifies store
      ensures Reaches(old(View(Copying(after, page, hasMore, 0, []))), View(Copying(after, page, hasMore, |page|, documents)))
      ensures |rest| <= |commits| && (commits == [] ==> store.tables == old(store.tables))
      ensures page != [] && commits != [] ==> |rest| < |commits|
    {
      ghost var start := View(Copying(after, page, hasMore, 0, []));
      rest, documents := commits, [];
      ReachesSelf(start);
      var i := 0;
      while i < |page|
        invariant 0 <= i <= |page|
        invariant Reaches(start, View(Copying(after, page, hasMore, i, documents)))
        invariant |rest| <= |commits| && (commits == [] ==> store.tables == old(store.tables))
        invariant i > 0 && commits != [] ==> |rest| < |commits|
      {
        documents := ReadOne(after, page, hasMore, i, documents, Batch(rest), start);
        rest := Later(rest);
        i := i + 1;
      }
    }

    /** The write of one page, after the commits that landed since its last read.
        A failed write may have stored the first `partial` documents. */
    method WritePage(ghost after: Option<Key>, page: seq<Key>, hasMore: bool, documents: seq<Document>, changes: seq<Change>,
                     fail: bool, partial: nat)
      returns (ok: bool, next: string, ghost last: Option<Key>, ghost written: seq<Document>)
      requires forall i :: 0 <= i < |page| ==> Render(page[i].ref) != ""
      requires Sound(View(Copying(after, page, hasMore, |page|, documents)))
      modifies store, index, this`clean
      ensures Reaches(old(View(Copying(after, page, hasMore, |page|, documents))), View(if ok && next != "" then Fetching(last) else Idle))
      ensures changes == [] ==> store.tables == old(store.tables)
      ensures ok && next != "" ==> page != [] && last == Some(page[|page| - 1]) && CursorOf(next, last)
      ensures clean == (old(clean) || (ok && next == ""))
      ensures !ok ==> CopiedTo(store.tables, store.operations, index.documents, after, written)
    {
      ghost var p := Copying(after, page, hasMore, |page|, documents);
      ghost var start := View(p);
      store.Interleave(changes, index.documents, p, clean);
      ghost var s := View(p);
      ReachesSound(start, s);
      ok, next, last, written := StoreDocuments(after, page, hasMore, documents, fail, partial);
      PageFailed(s, written);
      ReachesAll(start, s, View(if ok && next != "" then Fetching(last) else Idle));
    }

    /** The write itself. */
    method StoreDocuments(ghost after: Option<Key>, page: seq<Key>, hasMore: bool, documents: seq<Document>, fail: bool, partial: nat)
      returns (ok: bool, next: string, ghost last: Option<Key>, ghost written: seq<Document>)
      requires forall i :: 0 <= i < |page| ==> Render(page[i].ref) != ""
      requires hasMore ==> page != []
      modifies index, this`clean
      ensures Reaches(old(View(Copying(after, page, hasMore, |page|, documents))), View(if ok && next != "" then Fetching(last) else Idle))
      ensures ok && next != "" ==> page != [] && last == Some(page[|page| - 1]) && CursorOf(next, last)
      ensures clean == (old(clean) || (ok && next == ""))
      ensures written <= documents && index.documents == Write(old(index.documents), written)
    {
      ghost var s := View(Copying(after, page, hasMore, |page|, documents));
      var valid := forall j :: 0 <= j < |documents| ==> ValidDocument(documents[j]);
      ok := valid && !fail;
      var count := if ok then |documents| else if valid && partial < |documents| then partial else 0;
      StoreReaches(s, ok, count);
      index.Upsert(documents, ok, count);
      next, last, written := "", None, documents[..count];
      if ok && hasMore && |page| > 0 {
        next, last := FormatCursor(page[|page| - 1]), Some(page[|page| - 1]);
      } else if ok {
        clean := true;
      }
    }

    /** The enumeration of one page. */
    method FetchNext(cursor: string, limit: int, ghost after: Option<Key>) returns (ok: bool, page: seq<Key>, hasMore: bool)
      requires TablesOk(store.tables) && CursorOf(cursor, after)
      ensures ok <==> 1 <= limit <= 1000
      ensures Reaches(View(Fetching(after)), View(if ok then Copying(after, page, hasMore, 0, []) else Idle))
      ensures ok && hasMore ==> page != []
      ensures ok ==>
                forall i :: 0 <= i < |page| ==> Render(page[i].ref) != "" && page[i] in CanonKeys(store.tables) && After(after, page[i])
    {
      ghost var start := View(Fetching(after));
      ok, page, hasMore := store.FetchPage(cursor, limit, after);
      ReachesSelf(start);
      if ok {
        ReachesNext(start, start, Fetch(limit, page, hasMore));
      } else {
        ReachesNext(start, start, Abandon);
      }
    }

    /** One page of Rebuild: enumerate, rehydrate each key, write the documents. */
    method CopyPage(cursor: string, limit: int, commits: seq<seq<Change>>, fail: bool, partial: nat, ghost after: Option<Key>)
      returns (ok: bool, next: string, rest: seq<seq<Change>>, ghost last: Option<Key>, ghost written: seq<Document>)
      requires Sound(View(Fetching(after))) && CursorOf(cursor, after)
      modifies store, index, this`clean
      ensures Reaches(old(View(Fetching(after))), View(if ok && next != "" then Fetching(last) else Idle))
      ensures |rest| <= |commits| && (commits == [] ==> store.tables == old(store.tables))
      ensures ok && next != "" ==>
                && CursorOf(next, last) && last.Some? && After(after, last.value)
                && last.value in CanonKeys(old(store.tables)) && (|rest| < |commits| || commits == [])
      ensures clean == (old(clean) || (ok && next == ""))
      ensures !(1 <= limit <= 1000) ==> !ok && index.documents == old(index.documents)
      ensures !ok ==> CopiedTo(store.tables, store.operations, index.documents, after, written)
    {
      ghost var start := View(Fetching(after));
      rest, next, last, written := commits, "", None, [];
      CopiedSoFar(start);
      assert TablesOk(store.tables);
      var page, hasMore;
      ok, page, hasMore := FetchNext(cursor, limit, after);
      if !ok {
        return;
      }
      ghost var s := View(Copying(after, page, hasMore, 0, []));
      var documents;
      documents, rest := ReadPage(after, page, hasMore, commits);
      ghost var p := Copying(after, page, hasMore, |page|, documents);
      ReachesAll(start, s, View(p));
      s := View(p);
      ReachesSound(start, s);
      var changes := Batch(rest);
      rest := Later(rest);
      ok, next, last, written := WritePage(after, page, hasMore, documents, changes, fail, partial);
      ReachesAll(start, s, View(if ok && next != "" then Fetching(last) else Idle));
    }

    /** Rebuild: reset the provider, then copy page after page until the
        enumeration ends. A Rebuild that returns ok leaves every document
        without an unacknowledged operation exactly as the tables have it,
        whatever the index held before. One that fails after its Reset names the
        cursor it stopped at and what its last write still stored: those settled
        documents are right that are not after the cursor or among the written. */
    method Rebuild(limit: int, commits: seq<seq<Change>>, resetFails: bool, resetEffect: bool, failAt: int, partial: nat)
      returns (ok: bool, ghost stop: Option<Key>, ghost written: seq<Document>)
      requires Sound(View(Idle))
      modifies store, index, this`clean
      ensures Reaches(old(View(Idle)), View(Idle)) && Sound(View(Idle))
      ensures ok == clean
      ensures !(1 <= limit <= 1000) || resetFails ==> !ok
      ensures !resetFails && !(1 <= limit <= 1000) ==> index.documents == map[]
      ensures ok ==> forall k :: Pending(store.operations, k) || Agrees(store.tables, index.documents, k)
      ensures !ok && !resetFails ==> CopiedTo(store.tables, store.operations, index.documents, stop, written)
      ensures resetFails ==> index.documents == if resetEffect then map[] else old(index.documents)
    {
      ghost var start := View(Idle);
      stop, written := None, [];
      ghost var reset := Reset(!resetFails, resetEffect || !resetFails);
      index.Reset(resetEffect || !resetFails);
      clean := false;
      ReachesSelf(start);
      ReachesNext(start, start, reset);
      if resetFails {
        ReachesSound(start, View(Idle));
        ok := false;
        return;
      }
      var cursor, rest, pages := "", commits, 0;
      ghost var after: Option<Key> := None;
      while true
        invariant Reaches(start, View(Fetching(after))) && CursorOf(cursor, after)
        invariant !clean && (!(1 <= limit <= 1000) ==> index.documents == map[])
        decreases |rest|, |Left(store.tables, after)|
      {
        ReachesSound(start, View(Fetching(after)));
        ghost var s := View(Fetching(after));
        stop := after;
        ghost var left := Left(store.tables, after);
        var next, more;
        ghost var last;
        ok, next, more, last, written := CopyPage(cursor, limit, rest, pages == failAt, partial, after);
        ReachesAll(start, s, View(if ok && next != "" then Fetching(last) else Idle));
        if !ok || next == "" {
          break;
        }
        CursorMoves(cursor, after, next, last.value);
        if next == cursor {
          assert false;
        }
        if |more| == |rest| {
          CursorAdvances(left, Left(store.tables, last), after, last.value);
        }
        cursor, rest, pages, after := next, more, pages + 1, last;
      }
      ReachesSound(start, View(Idle));
    }
  }

  lemma ReadIs(s: State, documents: seq<Document>)
    requires s.phase.Copying? && s.phase.read < |s.phase.page|
    requires var k := s.phase.page[s.phase.read];
             var found := Canon(s.tables, k);
             documents == if found.Some? then s.phase.documents + [Document(k, found.value)] else s.phase.documents
    ensures Enabled(s, ReadNext) && Do(s, ReadNext) == s.(phase := s.phase.(read := s.phase.read + 1, documents := documents))
  {
  }

  ghost function Left(t: Tables, after: Option<Key>): set<Key> {
    set k | k in CanonKeys(t) && After(after, k)
  }

  /** The "did not advance" error cannot occur: the next cursor is another string. */
  lemma CursorMoves(cursor: string, after: Option<Key>, next: string, last: Key)
    requires CursorOf(cursor, after) && CursorOf(next, Some(last)) && After(after, last)
    ensures next != cursor
  {
    CursorRoundTrip(last);
    if after.Some? && next == cursor {
      CursorRoundTrip(after.value);
      assert KindOrder(after.value.kind) == KindOrder(last.kind) && Render(after.value.ref) == Render(last.ref);
      LessIrreflexive(Render(last.ref));
      assert false;
    }
  }

  /** Moving the cursor to one of the keys left shrinks what is left. */
  lemma CursorAdvances(left: set<Key>, left': set<Key>, after: Option<Key>, last: Key)
    requires forall k :: k in left' ==> KeyLess(last, k)
    requires last in left
    requires forall k :: k in left' && After(after, k) ==> k in left
    requires After(after, last)
    ensures |left'| < |left|
  {
    KeyLessIrreflexive(last);
    forall k | k in left' ensures k in left - {last} {
      if after.Some? {
        KeyLessTransitive(after.value, last, k);
      }
    }
    SubsetSize(left', left - {last});
  }
}
