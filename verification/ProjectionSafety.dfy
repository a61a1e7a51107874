/** The index agrees with the canonical tables in every reachable state, up to
    the documents whose operations are still unacknowledged. */
module ProjectionSafety {
  import opened Refs
  import opened ProjectionModel

  /* ---- invariants ---- */

  ghost predicate VersionOk(vk: VersionKey, row: VersionRow) {
    vk.kind != Episode && row.root != "" && row.number >= 1 && vk.ref == VersionRef(row.root, row.number)
  }

  ghost predicate TablesOk(t: Tables) {
    && (forall r :: r in t.episodes ==> r.EpisodeRef? && r.name != "")
    && (forall vk :: vk in t.versions ==> VersionOk(vk, t.versions[vk]))
    && (forall vk, wk |
          && vk in t.versions && wk in t.versions && vk.kind == wk.kind
          && t.versions[vk].root == t.versions[wk].root && t.versions[vk].active
          :: t.versions[wk].number <= t.versions[vk].number)
  }

  /** The stream identity of a document: the Episode itself, or the version's root. */
  function Identity(r: DocRef): Ref {
    match r case EpisodeRef(name) => name case VersionRef(root, _) => root
  }

  ghost predicate OperationOk(t: Tables, op: Operation) {
    var id := op.id;
    && id.stream == Stream(op.scope.tenant, id.kind, Identity(id.ref))
    && (id.kind == Episode ==>
          && id.action == Upsert
          && id.ref in t.episodes && t.episodes[id.ref].scope == op.scope
          && id.cause.TypedLink? && id.cause.link in t.episodes[id.ref].links)
    && (id.kind != Episode ==>
          && VersionKey(id.kind, id.ref) in t.versions
          && t.versions[VersionKey(id.kind, id.ref)].scope == op.scope
          && (id.action == Delete ==> !t.versions[VersionKey(id.kind, id.ref)].active)
          && id.cause.NewVersion? && VersionKey(id.kind, id.cause.version) in t.versions)
  }

  ghost predicate Ordered(ops: seq<Operation>) {
    forall i, j :: 0 <= i < j < |ops| && ops[i].id.stream == ops[j].id.stream ==>
      ops[i].sequence < ops[j].sequence
  }

  /** Acknowledged operations form a prefix of every stream. */
  ghost predicate AckedPrefix(ops: seq<Operation>) {
    forall i, j :: 0 <= i < j < |ops| && ops[i].id.stream == ops[j].id.stream && ops[j].acked ==> ops[i].acked
  }

  ghost predicate Touches(ops: seq<Operation>, i: int, k: Key) {
    0 <= i < |ops| && KeyOf(ops[i]) == k
  }

  /** Every superseded version is followed in the queue by its DELETE. */
  ghost predicate DeleteQueued(t: Tables, ops: seq<Operation>, vk: VersionKey)
    requires vk in t.versions
  {
    var k := Key(vk.kind, vk.ref, t.versions[vk].scope);
    exists j :: Touches(ops, j, k) && ops[j].id.action == Delete &&
                forall i :: Touches(ops, i, k) && ops[i].id.action == Upsert ==> i < j
  }

  ghost predicate QueueOk(t: Tables, ops: seq<Operation>) {
    && (forall i :: 0 <= i < |ops| ==> OperationOk(t, ops[i]))
    && Ordered(ops) && AckedPrefix(ops)
    && (forall vk :: vk in t.versions && !t.versions[vk].active ==> DeleteQueued(t, ops, vk))
  }

  ghost predicate PendingOther(ops: seq<Operation>, k: Key, except: int) {
    exists i :: Touches(ops, i, k) && i != except && !ops[i].acked
  }

  ghost predicate Pending(ops: seq<Operation>, k: Key) {
    PendingOther(ops, k, -1)
  }

  ghost predicate Agrees(t: Tables, index: map<Key, Text>, k: Key) {
    match Canon(t, k)
    case None => k !in index
    case Some(text) => k in index && index[k] == text
  }

  /** The heart of the projection: a document none of whose operations is
      unacknowledged is exactly what the index holds. */
  ghost predicate Synced(s: State) {
    forall k :: Pending(s.ops, k) || Agrees(s.tables, s.index, k)
  }

  ghost predicate LeaseHeld(ops: seq<Operation>, i: nat, token: Ref) {
    && i < |ops| && HoldsLease(ops[i], token)
    && forall j :: 0 <= j < i && ops[j].id.stream == ops[i].id.stream ==> ops[j].acked
  }

  ghost predicate DocumentOk(t: Tables, ops: seq<Operation>, d: Document) {
    Pending(ops, d.key) || Canon(t, d.key) == Some(d.text)
  }

  /** What a Rebuild has achieved for key `k`, given the keys it is done with. */
  ghost predicate Copied(t: Tables, index: map<Key, Text>, cursor: Option<Key>, k: Key) {
    match Canon(t, k)
    case None => k !in index
    case Some(text) => After(cursor, k) || (k in index && index[k] == text)
  }

  ghost predicate Rebuilt(s: State, cursor: Option<Key>) {
    forall k :: Pending(s.ops, k) || Copied(s.tables, s.index, cursor, k)
  }

  ghost predicate PageOk(t: Tables, ops: seq<Operation>, p: Phase)
    requires p.Copying?
  {
    && p.read <= |p.page|
    && (p.hasMore ==> p.page != [])
    && (forall i, j :: 0 <= i < j < |p.page| ==> KeyLess(p.page[i], p.page[j]))
    // every settled document is behind the cursor, on the page, or beyond it
    && (forall k :: Canon(t, k).Some? && !Pending(ops, k) && After(p.cursor, k) && k !in p.page ==>
          p.hasMore && forall i :: 0 <= i < |p.page| ==> KeyLess(p.page[i], k))
    && (forall i :: 0 <= i < |p.documents| ==> DocumentOk(t, ops, p.documents[i]))
    && (forall i :: 0 <= i < p.read && Canon(t, p.page[i]).Some? && !Pending(ops, p.page[i]) ==>
          exists d :: d in p.documents && d.key == p.page[i])
  }

  ghost predicate PhaseOk(s: State) {
    match s.phase
    case Idle => true
    case Leased(i, token) => LeaseHeld(s.ops, i, token)
    case Failed(i, token) => LeaseHeld(s.ops, i, token)
    case Hydrated(i, token, d) =>
      && LeaseHeld(s.ops, i, token) && d.key == KeyOf(s.ops[i])
      && (PendingOther(s.ops, d.key, i) || Canon(s.tables, d.key) == Some(d.text))
    case Applied(i, token) =>
      && LeaseHeld(s.ops, i, token)
      && (PendingOther(s.ops, KeyOf(s.ops[i]), i) || Agrees(s.tables, s.index, KeyOf(s.ops[i])))
    case Fetching(cursor) => !s.clean && Rebuilt(s, cursor)
    case Copying(cursor, page, hasMore, read, documents) =>
      !s.clean && Rebuilt(s, cursor) && PageOk(s.tables, s.ops, s.phase)
  }

  ghost predicate Inv(s: State) {
    TablesOk(s.tables) && QueueOk(s.tables, s.ops) && PhaseOk(s) && (s.clean ==> Synced(s))
  }

  /* ---- canonical commits ---- */

  /** `after` is `before` with fresh, unacknowledged operations at its end. */
  ghost predicate Extends(before: seq<Operation>, after: seq<Operation>) {
    before <= after && forall i :: |before| <= i < |after| ==> !after[i].acked
  }

  ghost predicate FreshFor(ops: seq<Operation>, n: nat, k: Key) {
    exists i :: n <= i && Touches(ops, i, k) && !ops[i].acked
  }

  lemma PendingExtends(before: seq<Operation>, after: seq<Operation>, k: Key, except: int)
    requires Extends(before, after)
    ensures PendingOther(before, k, except) ==> PendingOther(after, k, except)
    ensures FreshFor(after, |before|, k) && except < |before| ==> PendingOther(after, k, except)
  {
    if PendingOther(before, k, except) {
      var i :| Touches(before, i, k) && i != except && !before[i].acked;
      assert Touches(after, i, k);
    }
    if FreshFor(after, |before|, k) && except < |before| {
      var i :| |before| <= i && Touches(after, i, k) && !after[i].acked;
    }
  }

  /** Appending one operation of a stream keeps the queue in order. */
  lemma AppendKeepsOrder(ops: seq<Operation>, op: Operation)
    requires Ordered(ops) && AckedPrefix(ops)
    requires op.sequence == MaxSequence(ops, op.id.stream) + 1 && !op.acked
    ensures Ordered(ops + [op]) && AckedPrefix(ops + [op])
  {
  }

  /** A tables change that keeps every existing fact keeps every operation. */
  lemma OperationsSurvive(t: Tables, t': Tables, ops: seq<Operation>)
    requires forall i :: 0 <= i < |ops| ==> OperationOk(t, ops[i])
    requires Grows(t, t')
    ensures forall i :: 0 <= i < |ops| ==> OperationOk(t', ops[i])
  {
  }

  lemma DeleteStaysQueued(t: Tables, t': Tables, ops: seq<Operation>, ops': seq<Operation>, vk: VersionKey)
    requires vk in t.versions && vk in t'.versions && t'.versions[vk].scope == t.versions[vk].scope
    requires DeleteQueued(t, ops, vk) && ops <= ops'
    requires forall i :: |ops| <= i < |ops'| ==> KeyOf(ops'[i]) != Key(vk.kind, vk.ref, t.versions[vk].scope)
    ensures DeleteQueued(t', ops', vk)
  {
    var k := Key(vk.kind, vk.ref, t.versions[vk].scope);
    var j :| Touches(ops, j, k) && ops[j].id.action == Delete &&
             forall i :: Touches(ops, i, k) && ops[i].id.action == Upsert ==> i < j;
    assert Touches(ops', j, k);
    forall i | Touches(ops', i, k) && ops'[i].id.action == Upsert ensures i < j {
      assert Touches(ops, i, k);
    }
  }

  /** What every canonical commit does, in terms the phases can use. */
  ghost predicate CommitEffect(t: Tables, ops: seq<Operation>, t': Tables, ops': seq<Operation>) {
    && TablesOk(t') && QueueOk(t', ops') && Extends(ops, ops')
    && forall k :: Canon(t', k) != Canon(t, k) ==> FreshFor(ops', |ops|, k)
  }

  ghost predicate Grows(t: Tables, t': Tables) {
    && (forall r | r in t.episodes ::
          && r in t'.episodes && t'.episodes[r].scope == t.episodes[r].scope
          && t.episodes[r].links <= t'.episodes[r].links)
    && (forall vk | vk in t.versions ::
          && vk in t'.versions && t'.versions[vk].scope == t.versions[vk].scope
          && (!t.versions[vk].active ==> !t'.versions[vk].active))
  }

  /** The queue stays well formed when its new rows do and each version that
      was superseded before is not named again. */
  lemma QueueGrows(t: Tables, t': Tables, ops: seq<Operation>, ops': seq<Operation>)
    requires QueueOk(t, ops) && Grows(t, t') && ops <= ops' && Ordered(ops') && AckedPrefix(ops')
    requires forall i :: |ops| <= i < |ops'| ==> OperationOk(t', ops'[i])
    requires forall vk | vk in t'.versions && !t'.versions[vk].active ::
               || DeleteQueued(t', ops', vk)
               || (&& vk in t.versions && !t.versions[vk].active
                   && forall i :: |ops| <= i < |ops'| ==>
                        ops'[i].id.kind != vk.kind || ops'[i].id.ref != vk.ref)
    ensures QueueOk(t', ops')
  {
    OperationsSurvive(t, t', ops);
    forall vk | vk in t'.versions && !t'.versions[vk].active ensures DeleteQueued(t', ops', vk) {
      if !DeleteQueued(t', ops', vk) {
        DeleteStaysQueued(t, t', ops, ops', vk);
      }
    }
  }

  /** No earlier operation carries the cause of a link that is only now added. */
  lemma LinkNotReplayed(t: Tables, ops: seq<Operation>, c: Change, id: OperationId)
    requires QueueOk(t, ops) && ChangeEnabled(t, c) && c.LinkEpisode?
    requires id.kind == Episode && id.ref == c.ref && id.cause == TypedLink(c.link)
    ensures !HasId(ops, id)
  {
  }

  /** Unless it replays an operation, Enqueue appends one row at the end of its stream. */
  lemma EnqueueAppends(ops: seq<Operation>, action: Action, kind: Kind, ref: DocRef, scope: Scope, identity: Ref,
                       cause: Cause) returns (op: Operation)
    requires Enqueue(ops, action, kind, ref, scope, identity, cause).Some?
    requires !HasId(ops, OperationId(Stream(scope.tenant, kind, identity), action, kind, ref, cause))
    requires Ordered(ops) && AckedPrefix(ops)
    ensures Enqueue(ops, action, kind, ref, scope, identity, cause) == Some(ops + [op])
    ensures op.id == OperationId(Stream(scope.tenant, kind, identity), action, kind, ref, cause)
    ensures op.scope == scope && !op.acked
    ensures Ordered(ops + [op]) && AckedPrefix(ops + [op])
  {
    var id := OperationId(Stream(scope.tenant, kind, identity), action, kind, ref, cause);
    op := Operation(id, MaxSequence(ops, id.stream) + 1, scope, None, 0, 0, 0, false);
    AppendKeepsOrder(ops, op);
  }

  lemma LinkRow(t: Tables, ops: seq<Operation>, c: Change) returns (op: Operation)
    requires QueueOk(t, ops) && ChangeEnabled(t, c) && ChangeOps(t, ops, c).Some? && c.LinkEpisode?
    ensures ChangeOps(t, ops, c).value == ops + [op] && !op.acked
    ensures Ordered(ops + [op]) && AckedPrefix(ops + [op])
    ensures OperationOk(ChangeTables(t, c), op) && KeyOf(op) == Key(Episode, c.ref, c.scope)
  {
    var id := OperationId(Stream(c.scope.tenant, Episode, Render(c.ref)), Upsert, Episode, c.ref, TypedLink(c.link));
    LinkNotReplayed(t, ops, c, id);
    op := EnqueueAppends(ops, Upsert, Episode, c.ref, c.scope, Render(c.ref), TypedLink(c.link));
    assert c.link in ChangeTables(t, c).episodes[c.ref].links;
  }

  lemma LinkEffect(t: Tables, ops: seq<Operation>, c: Change)
    requires TablesOk(t) && QueueOk(t, ops) && ChangeEnabled(t, c) && ChangeOps(t, ops, c).Some?
    requires c.LinkEpisode?
    ensures CommitEffect(t, ops, ChangeTables(t, c), ChangeOps(t, ops, c).value)
  {
    var op := LinkRow(t, ops, c);
    OneRowEffect(t, ChangeTables(t, c), ops, op);
  }

  lemma NewVersionIsFresh(t: Tables, kind: Kind, root: Ref, number: nat)
    requires TablesOk(t) && root != ""
    requires forall vk :: vk in t.versions && vk.kind == kind && t.versions[vk].root == root ==>
               t.versions[vk].number < number
    ensures VersionKey(kind, VersionRef(root, number)) !in t.versions
  {
  }

  /** No earlier operation is caused by a version that does not exist yet. */
  lemma VersionNotReplayed(t: Tables, ops: seq<Operation>, id: OperationId, next: VersionKey)
    requires QueueOk(t, ops) && next !in t.versions
    requires id.kind == next.kind && id.kind != Episode && id.cause == NewVersion(next.ref)
    ensures !HasId(ops, id)
  {
  }

  lemma FormTables(t: Tables, c: Change)
    requires TablesOk(t) && ChangeEnabled(t, c) && c.Form?
    ensures TablesOk(ChangeTables(t, c)) && Grows(t, ChangeTables(t, c))
    ensures VersionKey(c.kind, VersionRef(c.root, 1)) !in t.versions
  {
    NewVersionIsFresh(t, c.kind, c.root, 1);
  }

  lemma FormRow(t: Tables, ops: seq<Operation>, c: Change) returns (op: Operation)
    requires TablesOk(t) && QueueOk(t, ops) && ChangeEnabled(t, c) && ChangeOps(t, ops, c).Some?
    requires c.Form?
    ensures ChangeOps(t, ops, c).value == ops + [op] && !op.acked
    ensures Ordered(ops + [op]) && AckedPrefix(ops + [op])
    ensures OperationOk(ChangeTables(t, c), op) && KeyOf(op) == Key(c.kind, VersionRef(c.root, 1), c.scope)
  {
    var v := VersionRef(c.root, 1);
    FormTables(t, c);
    RootOfVersionName(c.root, 1);
    var id := OperationId(Stream(c.scope.tenant, c.kind, c.root), Upsert, c.kind, v, NewVersion(v));
    VersionNotReplayed(t, ops, id, VersionKey(c.kind, v));
    op := EnqueueAppends(ops, Upsert, c.kind, v, c.scope, c.root, NewVersion(v));
  }

  lemma FormChanges(t: Tables, c: Change, k: Key)
    requires TablesOk(t) && ChangeEnabled(t, c) && c.Form?
    ensures Canon(ChangeTables(t, c), k) != Canon(t, k) ==> k == Key(c.kind, VersionRef(c.root, 1), c.scope)
  {
    FormTables(t, c);
  }

  /** One appended row accounts for the one document that changed. */
  lemma OneRowEffect(t: Tables, t': Tables, ops: seq<Operation>, op: Operation)
    requires QueueOk(t, ops) && TablesOk(t') && Grows(t, t')
    requires Ordered(ops + [op]) && AckedPrefix(ops + [op]) && !op.acked && OperationOk(t', op)
    requires op.id.kind != Episode ==> VersionKey(op.id.kind, op.id.ref) !in t.versions
    requires forall vk :: vk in t'.versions && !t'.versions[vk].active ==> vk in t.versions && !t.versions[vk].active
    requires forall vk :: vk in t'.versions ==> vk.kind != Episode
    requires forall k :: Canon(t', k) != Canon(t, k) ==> k == KeyOf(op)
    ensures CommitEffect(t, ops, t', ops + [op])
  {
    QueueGrows(t, t', ops, ops + [op]);
    assert Touches(ops + [op], |ops|, KeyOf(op));
  }

  lemma FormEffectOf(t: Tables, ops: seq<Operation>, c: Change, op: Operation)
    requires TablesOk(t) && QueueOk(t, ops) && ChangeEnabled(t, c) && c.Form?
    requires Ordered(ops + [op]) && AckedPrefix(ops + [op]) && !op.acked
    requires OperationOk(ChangeTables(t, c), op) && KeyOf(op) == Key(c.kind, VersionRef(c.root, 1), c.scope)
    ensures CommitEffect(t, ops, ChangeTables(t, c), ops + [op])
  {
    FormTables(t, c);
    forall k ensures Canon(ChangeTables(t, c), k) != Canon(t, k) ==> k == KeyOf(op) {
      FormChanges(t, c, k);
    }
    OneRowEffect(t, ChangeTables(t, c), ops, op);
  }

  lemma FormEffect(t: Tables, ops: seq<Operation>, c: Change)
    requires TablesOk(t) && QueueOk(t, ops) && ChangeEnabled(t, c) && ChangeOps(t, ops, c).Some?
    requires c.Form?
    ensures CommitEffect(t, ops, ChangeTables(t, c), ChangeOps(t, ops, c).value)
  {
    var op := FormRow(t, ops, c);
    FormEffectOf(t, ops, c, op);
  }

  lemma ReviseTables(t: Tables, c: Change)
    requires TablesOk(t) && ChangeEnabled(t, c) && c.Revise?
    ensures TablesOk(ChangeTables(t, c)) && Grows(t, ChangeTables(t, c))
    ensures var prior := t.versions[VersionKey(c.kind, c.ref)];
            VersionKey(c.kind, VersionRef(prior.root, prior.number + 1)) !in t.versions
  {
    var prior := t.versions[VersionKey(c.kind, c.ref)];
    assert VersionOk(VersionKey(c.kind, c.ref), prior);
    NewVersionIsFresh(t, c.kind, prior.root, prior.number + 1);
    RevisedTables(t, ChangeTables(t, c), VersionKey(c.kind, c.ref), VersionKey(c.kind, VersionRef(prior.root, prior.number + 1)), c.text);
  }

  lemma RevisedTables(t: Tables, t': Tables, old': VersionKey, next: VersionKey, text: string)
    requires TablesOk(t) && old' in t.versions && t.versions[old'].active && next !in t.versions
    requires var prior := t.versions[old'];
             && next == VersionKey(old'.kind, VersionRef(prior.root, prior.number + 1))
             && t' == t.(versions := t.versions[old' := prior.(active := false)]
                                       [next := VersionRow(prior.root, prior.number + 1, prior.scope, text, true)])
    ensures TablesOk(t')
  {
    assert VersionOk(old', t.versions[old']);
    forall vk, wk |
      && vk in t'.versions && wk in t'.versions && vk.kind == wk.kind
      && t'.versions[vk].root == t'.versions[wk].root && t'.versions[vk].active
      ensures t'.versions[wk].number <= t'.versions[vk].number
    {
      if vk != next {
        // another active version of this root would be the one just superseded
        assert VersionOk(vk, t.versions[vk]);
      }
    }
  }

  /** The two rows a revision appends: DELETE of the old version, then UPSERT
      of the new one, on the stream of their common root. */
  ghost predicate RevisionRows(prior: VersionRow, kind: Kind, ref: DocRef, v: DocRef, del: Operation, ups: Operation) {
    var stream := Stream(prior.scope.tenant, kind, prior.root);
    && del.id == OperationId(stream, Delete, kind, ref, NewVersion(v)) && del.scope == prior.scope && !del.acked
    && ups.id == OperationId(stream, Upsert, kind, v, NewVersion(v)) && ups.scope == prior.scope && !ups.acked
  }

  lemma ReviseRows(t: Tables, ops: seq<Operation>, prior: VersionRow, kind: Kind, ref: DocRef, v: DocRef)
    returns (del: Operation, ups: Operation)
    requires QueueOk(t, ops) && kind != Episode && VersionKey(kind, v) !in t.versions
    requires Render(ref) != "" && Render(v) != "" && prior.root != ""
    ensures Enqueue(ops, Delete, kind, ref, prior.scope, prior.root, NewVersion(v)) == Some(ops + [del])
    ensures Enqueue(ops + [del], Upsert, kind, v, prior.scope, prior.root, NewVersion(v)) == Some(ops + [del] + [ups])
    ensures Ordered(ops + [del] + [ups]) && AckedPrefix(ops + [del] + [ups])
    ensures RevisionRows(prior, kind, ref, v, del, ups)
  {
    var stream := Stream(prior.scope.tenant, kind, prior.root);
    VersionNotReplayed(t, ops, OperationId(stream, Delete, kind, ref, NewVersion(v)), VersionKey(kind, v));
    VersionNotReplayed(t, ops, OperationId(stream, Upsert, kind, v, NewVersion(v)), VersionKey(kind, v));
    del := EnqueueAppends(ops, Delete, kind, ref, prior.scope, prior.root, NewVersion(v));
    ups := EnqueueAppends(ops + [del], Upsert, kind, v, prior.scope, prior.root, NewVersion(v));
  }

  lemma RevisionRowsOk(t: Tables, c: Change, del: Operation, ups: Operation)
    requires TablesOk(t) && ChangeEnabled(t, c) && c.Revise?
    requires var prior := t.versions[VersionKey(c.kind, c.ref)];
             RevisionRows(prior, c.kind, c.ref, VersionRef(prior.root, prior.number + 1), del, ups)
    ensures OperationOk(ChangeTables(t, c), del) && OperationOk(ChangeTables(t, c), ups)
    ensures del.id.ref != ups.id.ref && VersionKey(ups.id.kind, ups.id.ref) !in t.versions
    ensures forall k :: Canon(ChangeTables(t, c), k) != Canon(t, k) ==> k == KeyOf(del) || k == KeyOf(ups)
  {
    ReviseTables(t, c);
    var prior := t.versions[VersionKey(c.kind, c.ref)];
    assert VersionOk(VersionKey(c.kind, c.ref), prior);
    forall k ensures Canon(ChangeTables(t, c), k) != Canon(t, k) ==> k == KeyOf(del) || k == KeyOf(ups) {
      ReviseChanges(t, c, k);
    }
  }

  lemma ReviseChanges(t: Tables, c: Change, k: Key)
    requires ChangeEnabled(t, c) && c.Revise?
    requires var prior := t.versions[VersionKey(c.kind, c.ref)];
             c.kind != Episode && VersionKey(c.kind, VersionRef(prior.root, prior.number + 1)) !in t.versions
    ensures var prior := t.versions[VersionKey(c.kind, c.ref)];
            Canon(ChangeTables(t, c), k) != Canon(t, k) ==>
              k == Key(c.kind, c.ref, prior.scope) || k == Key(c.kind, VersionRef(prior.root, prior.number + 1), prior.scope)
  {
  }

  lemma TwoRowQueue(t: Tables, t': Tables, ops: seq<Operation>, del: Operation, ups: Operation)
    requires QueueOk(t, ops) && Grows(t, t')
    requires Ordered(ops + [del] + [ups]) && AckedPrefix(ops + [del] + [ups])
    requires OperationOk(t', del) && OperationOk(t', ups)
    requires del.id.kind == ups.id.kind != Episode && del.id.ref != ups.id.ref
    requires del.id.action == Delete && VersionKey(ups.id.kind, ups.id.ref) !in t.versions
    requires forall vk :: vk in t'.versions && !t'.versions[vk].active ==>
               vk == VersionKey(del.id.kind, del.id.ref) || (vk in t.versions && !t.versions[vk].active)
    requires VersionKey(del.id.kind, del.id.ref) in t.versions && t.versions[VersionKey(del.id.kind, del.id.ref)].active
    ensures QueueOk(t', ops + [del] + [ups])
  {
    DeleteIsLast(t', ops, del, ups);
    QueueGrows(t, t', ops, ops + [del] + [ups]);
  }

  lemma TwoRowExtends(ops: seq<Operation>, del: Operation, ups: Operation)
    requires !del.acked && !ups.acked
    ensures Extends(ops, ops + [del] + [ups])
    ensures FreshFor(ops + [del] + [ups], |ops|, KeyOf(del)) && FreshFor(ops + [del] + [ups], |ops|, KeyOf(ups))
  {
    var ops' := ops + [del] + [ups];
    assert ops'[|ops|] == del && ops'[|ops| + 1] == ups;
    assert Touches(ops', |ops|, KeyOf(del)) && Touches(ops', |ops| + 1, KeyOf(ups));
  }

  lemma DeleteIsLast(t: Tables, ops: seq<Operation>, del: Operation, ups: Operation)
    requires OperationOk(t, del) && del.id.kind != Episode && del.id.action == Delete && del.id.ref != ups.id.ref
    ensures DeleteQueued(t, ops + [del] + [ups], VersionKey(del.id.kind, del.id.ref))
  {
    var ops' := ops + [del] + [ups];
    assert ops'[|ops|] == del && ops'[|ops| + 1] == ups;
    assert Touches(ops', |ops|, KeyOf(del));
    assert forall i :: Touches(ops', i, KeyOf(del)) && ops'[i].id.action == Upsert ==> i < |ops|;
  }

  lemma RevisionQueue(t: Tables, ops: seq<Operation>, c: Change, del: Operation, ups: Operation)
    requires TablesOk(t) && QueueOk(t, ops) && ChangeEnabled(t, c) && c.Revise?
    requires Ordered(ops + [del] + [ups]) && AckedPrefix(ops + [del] + [ups])
    requires var prior := t.versions[VersionKey(c.kind, c.ref)];
             RevisionRows(prior, c.kind, c.ref, VersionRef(prior.root, prior.number + 1), del, ups)
    ensures QueueOk(ChangeTables(t, c), ops + [del] + [ups])
  {
    ReviseTables(t, c);
    RevisionRowsOk(t, c, del, ups);
    TwoRowQueue(t, ChangeTables(t, c), ops, del, ups);
  }

  lemma ReviseEffectOf(t: Tables, ops: seq<Operation>, c: Change, del: Operation, ups: Operation)
    requires TablesOk(t) && QueueOk(t, ops) && ChangeEnabled(t, c) && c.Revise?
    requires Ordered(ops + [del] + [ups]) && AckedPrefix(ops + [del] + [ups])
    requires var prior := t.versions[VersionKey(c.kind, c.ref)];
             RevisionRows(prior, c.kind, c.ref, VersionRef(prior.root, prior.number + 1), del, ups)
    ensures CommitEffect(t, ops, ChangeTables(t, c), ops + [del] + [ups])
  {
    ReviseTables(t, c);
    RevisionRowsOk(t, c, del, ups);
    RevisionQueue(t, ops, c, del, ups);
    TwoRowExtends(ops, del, ups);
    var t', ops' := ChangeTables(t, c), ops + [del] + [ups];
    assert forall k :: Canon(t', k) != Canon(t, k) ==> FreshFor(ops', |ops|, k);
  }

  lemma ReviseEffect(t: Tables, ops: seq<Operation>, c: Change)
    requires TablesOk(t) && QueueOk(t, ops) && ChangeEnabled(t, c) && ChangeOps(t, ops, c).Some?
    requires c.Revise?
    ensures CommitEffect(t, ops, ChangeTables(t, c), ChangeOps(t, ops, c).value)
  {
    var del, ups := ReviseOps(t, ops, c);
    ReviseEffectOf(t, ops, c, del, ups);
  }

  lemma ReviseOps(t: Tables, ops: seq<Operation>, c: Change) returns (del: Operation, ups: Operation)
    requires TablesOk(t) && QueueOk(t, ops) && ChangeEnabled(t, c) && ChangeOps(t, ops, c).Some? && c.Revise?
    ensures ChangeOps(t, ops, c) == Some(ops + [del] + [ups]) && Ordered(ops + [del] + [ups]) && AckedPrefix(ops + [del] + [ups])
    ensures var prior := t.versions[VersionKey(c.kind, c.ref)];
            RevisionRows(prior, c.kind, c.ref, VersionRef(prior.root, prior.number + 1), del, ups)
  {
    ReviseTables(t, c);
    var prior := t.versions[VersionKey(c.kind, c.ref)];
    assert VersionOk(VersionKey(c.kind, c.ref), prior);
    del, ups := ReviseRows(t, ops, prior, c.kind, c.ref, VersionRef(prior.root, prior.number + 1));
  }

  lemma CommitPreserves(s: State, c: Change)
    requires Inv(s) && Enabled(s, Commit(c))
    ensures Inv(Do(s, Commit(c)))
  {
    CommitEffects(s, c);
    EffectKeepsPhase(s, Do(s, Commit(c)));
  }

  lemma CommitEffects(s: State, c: Change)
    requires Inv(s) && Enabled(s, Commit(c))
    ensures CommitEffect(s.tables, s.ops, Do(s, Commit(c)).tables, Do(s, Commit(c)).ops)
  {
    match c {
      case LinkEpisode(_, _, _, _) => LinkEffect(s.tables, s.ops, c);
      case Form(_, _, _, _) => FormEffect(s.tables, s.ops, c);
      case Revise(_, _, _) => ReviseEffect(s.tables, s.ops, c);
    }
  }

  /** An unchanged document keeps what was known of it; a changed one is pending. */
  lemma EffectKeepsPhase(s: State, s': State)
    requires Inv(s) && CommitEffect(s.tables, s.ops, s'.tables, s'.ops)
    requires s' == s.(tables := s'.tables, ops := s'.ops)
    ensures PhaseOk(s') && (s'.clean ==> Synced(s'))
  {
    EffectPending(s.tables, s.ops, s'.tables, s'.ops);
    if s.clean {
      PendingKeepsSync(s, s');
    }
    PendingKeepsPhase(s, s');
  }

  /** Whatever a commit changed is pending, for every operation in hand too. */
  ghost predicate StillPending(t: Tables, ops: seq<Operation>, t': Tables, ops': seq<Operation>) {
    && Extends(ops, ops')
    && (forall k, e: int :: e < |ops| ==> (PendingOther(ops, k, e) ==> PendingOther(ops', k, e)))
    && (forall k, e: int :: e < |ops| ==> Canon(t', k) == Canon(t, k) || PendingOther(ops', k, e))
    && (forall k :: Pending(ops, k) ==> Pending(ops', k))
    && (forall k :: Canon(t', k) == Canon(t, k) || Pending(ops', k))
  }

  lemma EffectPending(t: Tables, ops: seq<Operation>, t': Tables, ops': seq<Operation>)
    requires CommitEffect(t, ops, t', ops')
    ensures StillPending(t, ops, t', ops')
  {
    forall k, e: int | e < |ops|
      ensures PendingOther(ops, k, e) ==> PendingOther(ops', k, e)
      ensures Canon(t', k) == Canon(t, k) || PendingOther(ops', k, e)
    {
      PendingExtends(ops, ops', k, e);
    }
    forall k
      ensures Pending(ops, k) ==> Pending(ops', k)
      ensures Canon(t', k) == Canon(t, k) || Pending(ops', k)
    {
      PendingExtends(ops, ops', k, -1);
    }
  }

  lemma PendingKeepsSync(s: State, s': State)
    requires Synced(s) && StillPending(s.tables, s.ops, s'.tables, s'.ops) && s'.index == s.index
    ensures Synced(s')
  {
  }

  lemma PendingKeepsPhase(s: State, s': State)
    requires PhaseOk(s) && StillPending(s.tables, s.ops, s'.tables, s'.ops) && s' == s.(tables := s'.tables, ops := s'.ops)
    ensures PhaseOk(s')
  {
  }

  /* ---- projector steps ---- */

  /** Replacing one row without changing its identity or its mark. */
  lemma RowUpdateKeepsQueue(t: Tables, ops: seq<Operation>, i: nat, op: Operation)
    requires QueueOk(t, ops) && i < |ops|
    requires op.id == ops[i].id && op.sequence == ops[i].sequence && op.scope == ops[i].scope
    requires op.acked == ops[i].acked ||
             (op.acked && forall j :: 0 <= j < i && ops[j].id.stream == ops[i].id.stream ==> ops[j].acked)
    ensures QueueOk(t, ops[i := op])
    ensures forall j, k :: Touches(ops, j, k) <==> Touches(ops[i := op], j, k)
  {
    var ops' := ops[i := op];
    forall vk | vk in t.versions && !t.versions[vk].active ensures DeleteQueued(t, ops', vk) {
      var k := Key(vk.kind, vk.ref, t.versions[vk].scope);
      var j :| Touches(ops, j, k) && ops[j].id.action == Delete &&
               forall i :: Touches(ops, i, k) && ops[i].id.action == Upsert ==> i < j;
      assert Touches(ops', j, k);
      forall i | Touches(ops', i, k) && ops'[i].id.action == Upsert ensures i < j {
        assert Touches(ops, i, k);
      }
    }
  }

  /** A leased operation is the first unacknowledged one of its stream. */
  lemma LeasableIsFirst(ops: seq<Operation>, i: nat, now: int)
    requires Ordered(ops) && Leasable(ops, i, now)
    ensures forall j :: 0 <= j < i && ops[j].id.stream == ops[i].id.stream ==> ops[j].acked
  {
  }

  /** An UPSERT whose document is gone is followed by an unacknowledged DELETE. */
  lemma MissingDocumentIsDeleted(s: State, i: nat)
    requires Inv(s) && i < |s.ops| && !s.ops[i].acked && s.ops[i].id.action == Upsert
    requires Canon(s.tables, KeyOf(s.ops[i])).None?
    ensures PendingOther(s.ops, KeyOf(s.ops[i]), i)
  {
    var k := KeyOf(s.ops[i]);
    assert OperationOk(s.tables, s.ops[i]);
    var vk := VersionKey(k.kind, k.ref);
    assert DeleteQueued(s.tables, s.ops, vk);
    var j :| Touches(s.ops, j, k) && s.ops[j].id.action == Delete &&
             forall i :: Touches(s.ops, i, k) && s.ops[i].id.action == Upsert ==> i < j;
    assert Touches(s.ops, i, k);
    assert OperationOk(s.tables, s.ops[j]);
    assert !s.ops[j].acked;
  }

  /** A DELETE names a document that is canonical no more. */
  lemma DeletedIsGone(s: State, i: nat)
    requires Inv(s) && i < |s.ops| && s.ops[i].id.action == Delete
    ensures Canon(s.tables, KeyOf(s.ops[i])).None?
  {
    assert OperationOk(s.tables, s.ops[i]);
  }

  lemma LeasePreserves(s: State, i: nat, token: Ref, now: int, until: int)
    requires Inv(s) && Enabled(s, Lease(i, token, now, until))
    ensures Inv(Do(s, Lease(i, token, now, until)))
  {
    var s' := Do(s, Lease(i, token, now, until));
    RowUpdateKeepsQueue(s.tables, s.ops, i, s'.ops[i]);
    LeasableIsFirst(s.ops, i, now);
    SamePending(s.ops, s'.ops);
  }

  /** Rows that keep identity and mark leave every key as pending as it was. */
  lemma SamePending(ops: seq<Operation>, ops': seq<Operation>)
    requires |ops| == |ops'|
    requires forall j, k :: Touches(ops, j, k) <==> Touches(ops', j, k)
    requires forall j :: 0 <= j < |ops| ==> ops[j].acked == ops'[j].acked
    ensures forall k, e :: PendingOther(ops, k, e) <==> PendingOther(ops', k, e)
  {
    forall k, e ensures PendingOther(ops, k, e) <==> PendingOther(ops', k, e) {
      if PendingOther(ops, k, e) {
        var i :| Touches(ops, i, k) && i != e && !ops[i].acked;
        assert Touches(ops', i, k);
      }
      if PendingOther(ops', k, e) {
        var i :| Touches(ops', i, k) && i != e && !ops'[i].acked;
        assert Touches(ops, i, k);
      }
    }
  }

  lemma HydratePreserves(s: State, ok: bool)
    requires Inv(s) && Enabled(s, Hydrate(ok))
    ensures Inv(Do(s, Hydrate(ok)))
  {
    if ok && Canon(s.tables, KeyOf(s.ops[s.phase.op])).None? {
      MissingDocumentIsDeleted(s, s.phase.op);
    }
  }

  /** While its operation is unacknowledged, the written key is pending. */
  lemma WriteKeepsSynced(s: State, s': State, k: Key)
    requires s.clean ==> Synced(s)
    requires s'.tables == s.tables && s'.ops == s.ops && s'.clean == s.clean && Pending(s.ops, k)
    requires forall x :: x != k ==> (x in s'.index <==> x in s.index)
    requires forall x :: x != k && x in s.index ==> s'.index[x] == s.index[x]
    ensures s'.clean ==> Synced(s')
  {
    if s.clean {
      forall x ensures Pending(s'.ops, x) || Agrees(s'.tables, s'.index, x) {
        if x != k {
          assert Pending(s.ops, x) || Agrees(s.tables, s.index, x);
        }
      }
    }
  }

  lemma StorePreserves(s: State, ok: bool, effect: bool)
    requires Inv(s) && Enabled(s, Store(ok, effect))
    ensures Inv(Do(s, Store(ok, effect)))
  {
    var k := KeyOf(s.ops[s.phase.op]);
    assert Touches(s.ops, s.phase.op, k);
    WriteKeepsSynced(s, Do(s, Store(ok, effect)), k);
  }

  lemma RemovePreserves(s: State, ok: bool, effect: bool)
    requires Inv(s) && Enabled(s, Remove(ok, effect))
    ensures Inv(Do(s, Remove(ok, effect)))
  {
    var k := KeyOf(s.ops[s.phase.op]);
    assert Touches(s.ops, s.phase.op, k);
    DeletedIsGone(s, s.phase.op);
    WriteKeepsSynced(s, Do(s, Remove(ok, effect)), k);
  }

  lemma AcknowledgePreserves(s: State)
    requires Inv(s) && Enabled(s, Acknowledge)
    ensures Inv(Do(s, Acknowledge))
  {
    var s' := Do(s, Acknowledge);
    var i := s.phase.op;
    RowUpdateKeepsQueue(s.tables, s.ops, i, s'.ops[i]);
    if s.clean {
      forall k ensures Pending(s'.ops, k) || Agrees(s'.tables, s'.index, k) {
        if k == KeyOf(s.ops[i]) {
          if PendingOther(s.ops, k, i) {
            var j :| Touches(s.ops, j, k) && j != i && !s.ops[j].acked;
            assert Touches(s'.ops, j, k);
          }
        } else if Pending(s.ops, k) {
          var j :| Touches(s.ops, j, k) && j != -1 && !s.ops[j].acked;
          assert Touches(s'.ops, j, k);
        }
      }
    }
  }

  lemma RetryPreserves(s: State, notBefore: int)
    requires Inv(s) && Enabled(s, Retry(notBefore))
    ensures Inv(Do(s, Retry(notBefore)))
  {
    var s' := Do(s, Retry(notBefore));
    RowUpdateKeepsQueue(s.tables, s.ops, s.phase.op, s'.ops[s.phase.op]);
    SamePending(s.ops, s'.ops);
  }

  /* ---- rebuild ---- */

  lemma FetchPreserves(s: State, limit: int, page: seq<Key>, hasMore: bool)
    requires Inv(s) && Enabled(s, Fetch(limit, page, hasMore))
    ensures Inv(Do(s, Fetch(limit, page, hasMore)))
  {
    forall k ensures k in CanonKeys(s.tables) <==> Canon(s.tables, k).Some? {
      CanonKeysAreDocuments(s.tables, k);
    }
  }

  lemma ReadPreserves(s: State)
    requires Inv(s) && Enabled(s, ReadNext)
    ensures Inv(Do(s, ReadNext))
  {
    var s' := Do(s, ReadNext);
    var p, p' := s.phase, s'.phase;
    forall i | 0 <= i < p'.read && Canon(s.tables, p'.page[i]).Some? && !Pending(s.ops, p'.page[i])
      ensures exists d :: d in p'.documents && d.key == p'.page[i]
    {
      if i < p.read {
        StillRead(p.documents, p'.documents, p.page[i]);
      } else {
        assert p'.documents[|p.documents|] in p'.documents;
      }
    }
  }

  lemma StillRead(documents: seq<Document>, documents': seq<Document>, k: Key)
    requires documents <= documents' && exists d :: d in documents && d.key == k
    ensures exists d :: d in documents' && d.key == k
  {
    var d :| d in documents && d.key == k;
    assert d in documents';
  }

  ghost predicate Writes(documents: seq<Document>, k: Key) {
    exists i :: 0 <= i < |documents| && documents[i].key == k
  }

  /** A settled document that no page entry names is behind the cursor or beyond the page. */
  lemma UnwrittenIsElsewhere(s: State, k: Key)
    requires s.phase.Copying? && s.phase.read == |s.phase.page|
    requires Copied(s.tables, s.index, s.phase.cursor, k) && PageOk(s.tables, s.ops, s.phase)
    requires !Pending(s.ops, k) && !Writes(s.phase.documents, k) && Canon(s.tables, k).Some?
    ensures
      || (k in s.index && Canon(s.tables, k) == Some(s.index[k]))
      || (s.phase.hasMore && KeyLess(s.phase.page[|s.phase.page| - 1], k))
  {
  }

  /** Writing a page settles every canonical key up to the page's last one. */
  lemma StorePageSettles(s: State, k: Key)
    requires s.phase.Copying? && s.phase.read == |s.phase.page|
    requires Copied(s.tables, s.index, s.phase.cursor, k) && PageOk(s.tables, s.ops, s.phase)
    requires !Pending(s.ops, k)
    ensures
      var index := Write(s.index, s.phase.documents);
      match Canon(s.tables, k)
      case None => k !in index
      case Some(text) =>
        || (k in index && index[k] == text)
        || (s.phase.hasMore && KeyLess(s.phase.page[|s.phase.page| - 1], k))
  {
    var p := s.phase;
    if Writes(p.documents, k) {
      forall i | 0 <= i < |p.documents| && p.documents[i].key == k
        ensures Canon(s.tables, k) == Some(p.documents[i].text)
      {
        assert DocumentOk(s.tables, s.ops, p.documents[i]);
      }
      WriteSettles(s.index, p.documents, k, Canon(s.tables, k));
    } else {
      if Canon(s.tables, k).Some? {
        UnwrittenIsElsewhere(s, k);
      }
    }
  }

  lemma {:induction false} WriteSettles(index: map<Key, Text>, documents: seq<Document>, k: Key, c: Option<Text>)
    requires Writes(documents, k)
    requires forall i :: 0 <= i < |documents| && documents[i].key == k ==> c == Some(documents[i].text)
    ensures k in Write(index, documents) && c == Some(Write(index, documents)[k])
  {
    var n := |documents| - 1;
    if documents[n].key != k {
      var i :| 0 <= i < |documents| && documents[i].key == k;
      assert documents[..n][i].key == k;
      WriteSettles(index, documents[..n], k, c);
    }
    WriteLast(index, documents, k);
  }

  lemma WriteLast(index: map<Key, Text>, documents: seq<Document>, k: Key)
    requires documents != []
    ensures var last := documents[|documents| - 1];
            var before := Write(index, documents[..|documents| - 1]);
            && (last.key == k ==> k in Write(index, documents) && Write(index, documents)[k] == last.text)
            && (last.key != k && k in before ==> k in Write(index, documents) && Write(index, documents)[k] == before[k])
  {
  }

  lemma StorePagePreserves(s: State, ok: bool, written: nat)
    requires Inv(s) && Enabled(s, StorePage(ok, written))
    ensures Inv(Do(s, StorePage(ok, written)))
  {
    var s' := Do(s, StorePage(ok, written));
    if ok {
      assert s.phase.documents[..written] == s.phase.documents;
      forall k | !Pending(s.ops, k)
        ensures s'.phase.Fetching? ==> Copied(s'.tables, s'.index, s'.phase.cursor, k)
        ensures s'.clean ==> Agrees(s'.tables, s'.index, k)
      {
        StorePageSettles(s, k);
      }
    }
  }

  /* ---- every run ---- */

  lemma StepPreserves(s: State, step: Step)
    requires Inv(s) && Enabled(s, step)
    ensures Inv(Do(s, step))
  {
    match step {
      case Commit(c) => CommitPreserves(s, c);
      case Lease(i, token, now, until) => LeasePreserves(s, i, token, now, until);
      case Hydrate(ok) => HydratePreserves(s, ok);
      case Store(ok, effect) => StorePreserves(s, ok, effect);
      case Remove(ok, effect) => RemovePreserves(s, ok, effect);
      case Acknowledge => AcknowledgePreserves(s);
      case Retry(notBefore) => RetryPreserves(s, notBefore);
      case Abandon =>
      case Reset(_, _) =>
      case Fetch(limit, page, hasMore) => FetchPreserves(s, limit, page, hasMore);
      case ReadNext => ReadPreserves(s);
      case StorePage(ok, written) => StorePagePreserves(s, ok, written);
    }
  }

  lemma {:induction false} RunPreserves(s: State, steps: seq<Step>, s': State)
    requires Inv(s) && Runs(s, steps, s')
    ensures Inv(s')
    decreases |steps|
  {
    if steps != [] {
      StepPreserves(s, steps[0]);
      RunPreserves(Do(s, steps[0]), steps[1..], s');
    }
  }

  /** Some run of the model leads from one state to the other. */
  ghost predicate Reaches(a: State, b: State) {
    exists steps :: Runs(a, steps, b)
  }

  lemma ReachesSelf(a: State)
    ensures Reaches(a, a)
  {
    assert Runs(a, [], a);
  }

  lemma ReachesBefore(a: State, step: Step, c: State)
    requires Enabled(a, step) && Reaches(Do(a, step), c)
    ensures Reaches(a, c)
  {
    var more :| Runs(Do(a, step), more, c);
    assert ([step] + more)[1..] == more;
    assert Runs(a, [step] + more, c);
  }

  lemma {:induction false} RunThenReach(a: State, first: seq<Step>, b: State, c: State)
    requires Runs(a, first, b) && Reaches(b, c)
    ensures Reaches(a, c)
    decreases |first|
  {
    if first != [] {
      RunThenReach(Do(a, first[0]), first[1..], b, c);
      ReachesBefore(a, first[0], c);
    }
  }

  lemma ReachesAll(a: State, b: State, c: State)
    requires Reaches(a, b) && Reaches(b, c)
    ensures Reaches(a, c)
  {
    var first :| Runs(a, first, b);
    RunThenReach(a, first, b, c);
  }

  lemma ReachesNext(a: State, b: State, step: Step)
    requires Reaches(a, b) && Enabled(b, step)
    ensures Reaches(a, Do(b, step))
  {
    ReachesSelf(Do(b, step));
    ReachesBefore(b, step, Do(b, step));
    ReachesAll(a, b, Do(b, step));
  }

  lemma ReachesInv(a: State, b: State)
    requires Inv(a) && Reaches(a, b)
    ensures Inv(b)
  {
    var steps :| Runs(a, steps, b);
    RunPreserves(a, steps, b);
  }

  /** In every reachable state the index holds, for each document with no
      unacknowledged operation, exactly its canonical text or its absence;
      sequences rise within a stream in the order of its rows, and acknowledged
      operations form a prefix of it. */
  lemma ReachableIsSynced(s: State)
    requires Reachable(s)
    ensures s.clean ==> Synced(s)
    ensures forall i, j :: 0 <= i < j < |s.ops| && s.ops[i].id.stream == s.ops[j].id.stream ==> s.ops[i].sequence < s.ops[j].sequence
    ensures forall i, j |
              && 0 <= i < |s.ops| && 0 <= j < |s.ops| && s.ops[i].id.stream == s.ops[j].id.stream
              && s.ops[i].sequence < s.ops[j].sequence && s.ops[j].acked
              :: s.ops[i].acked
  {
    ReachesInv(Init(), s);
    AckedBySequence(s.ops);
  }

  lemma AckedBySequence(ops: seq<Operation>)
    requires Ordered(ops) && AckedPrefix(ops)
    ensures forall i, j |
              && 0 <= i < |ops| && 0 <= j < |ops| && ops[i].id.stream == ops[j].id.stream
              && ops[i].sequence < ops[j].sequence && ops[j].acked
              :: ops[i].acked
  {
  }

  ghost predicate Quiescent(s: State) {
    forall i :: 0 <= i < |s.ops| ==> s.ops[i].acked
  }

  /** Quiescence: the index is exactly the active canonical documents with
      their current text. */
  lemma QuiescentIndexIsCanonical(s: State)
    requires Reachable(s) && Quiescent(s) && s.clean
    ensures s.index.Keys == CanonKeys(s.tables)
    ensures forall k :: k in s.index ==> Canon(s.tables, k) == Some(s.index[k])
  {
    ReachableIsSynced(s);
    forall k ensures Agrees(s.tables, s.index, k) {
      assert Pending(s.ops, k) || Agrees(s.tables, s.index, k);
    }
    forall k
      ensures k in s.index <==> k in CanonKeys(s.tables)
      ensures k in s.index ==> Canon(s.tables, k) == Some(s.index[k])
    {
      assert Agrees(s.tables, s.index, k);
      CanonKeysAreDocuments(s.tables, k);
    }
  }

  /** The Rebuild proviso is needed: a Rebuild that stops after its Reset leaves
      a quiescent queue beside an empty index. */
  lemma AbandonedRebuildLosesDocuments() returns (s: State)
    ensures Reachable(s) && Quiescent(s) && s.phase.Idle? && !s.clean
    ensures s.index.Keys != CanonKeys(s.tables)
  {
    var k := Key(Disposition, VersionRef("seed", 1), Scope("tenant", "agent", ""));
    var copied := OneDocumentCopied(k);
    var reset := Do(copied, Reset(true, true));
    ReachesNext(Init(), copied, Reset(true, true));
    ReachesNext(Init(), reset, Abandon);
    s := Do(reset, Abandon);
    CanonKeysAreDocuments(s.tables, k);
  }

  /** One formed Disposition, with its operation queued. */
  lemma OneFormed() returns (s: State, k: Key)
    ensures var form := Commit(Form(Disposition, "seed", Scope("tenant", "agent", ""), "text"));
            Enabled(Init(), form) && Do(Init(), form) == s
    ensures k == Key(Disposition, VersionRef("seed", 1), Scope("tenant", "agent", "")) && Canon(s.tables, k) == Some(Plain("text"))
    ensures |s.ops| == 1 && KeyOf(s.ops[0]) == k && Leasable(s.ops, 0, 0) && s.ops[0].id.action == Upsert
    ensures s.phase == Idle && s.clean
  {
    var scope := Scope("tenant", "agent", "");
    RootOfVersionName("seed", 1);
    s := Do(Init(), Commit(Form(Disposition, "seed", scope, "text")));
    k := Key(Disposition, VersionRef("seed", 1), scope);
  }

  /** The operation is leased and its document read. */
  lemma OneHydrated(s: State, k: Key) returns (s': State)
    requires |s.ops| == 1 && KeyOf(s.ops[0]) == k && Leasable(s.ops, 0, 0) && s.ops[0].id.action == Upsert
    requires s.phase == Idle && s.clean && Canon(s.tables, k) == Some(Plain("text")) && Reaches(Init(), s)
    ensures Reaches(Init(), s') && s'.tables == s.tables && s'.clean && |s'.ops| == 1 && HoldsLease(s'.ops[0], "token")
    ensures s'.phase == Hydrated(0, "token", Document(k, Plain("text")))
  {
    var leased := Do(s, Lease(0, "token", 0, 30));
    ReachesNext(Init(), s, Lease(0, "token", 0, 30));
    ReachesNext(Init(), leased, Hydrate(true));
    s' := Do(leased, Hydrate(true));
  }

  /** The document is written and the operation acknowledged. */
  lemma OneApplied(s: State, k: Key) returns (s': State)
    requires |s.ops| == 1 && HoldsLease(s.ops[0], "token") && s.phase == Hydrated(0, "token", Document(k, Plain("text")))
    requires k == Key(Disposition, VersionRef("seed", 1), Scope("tenant", "agent", "")) && s.clean && Reaches(Init(), s)
    ensures Reaches(Init(), s') && s'.tables == s.tables && Quiescent(s') && s'.phase.Idle? && s'.clean
  {
    NamesHaveNoSpace();
    var stored := Do(s, Store(true, true));
    ReachesNext(Init(), s, Store(true, true));
    ReachesNext(Init(), stored, Acknowledge);
    s' := Do(stored, Acknowledge);
  }

  lemma OneDocumentCopied(k: Key) returns (s: State)
    requires k == Key(Disposition, VersionRef("seed", 1), Scope("tenant", "agent", ""))
    ensures Reaches(Init(), s) && Quiescent(s) && s.phase.Idle? && s.clean && Canon(s.tables, k) == Some(Plain("text"))
  {
    ReachesSelf(Init());
    var formed, _ := OneFormed();
    ReachesNext(Init(), Init(), Commit(Form(Disposition, "seed", Scope("tenant", "agent", ""), "text")));
    var hydrated := OneHydrated(formed, k);
    s := OneApplied(hydrated, k);
  }

  lemma NamesHaveNoSpace()
    ensures NoSpace("tenant") && NoSpace("agent") && NoSpace("") && !Blank("text") && NoSpace(VersionName("seed", 1))
  {
    assert "text"[0] == 't';
    var v := VersionName("seed", 1);
    assert Decimal(1) == [Digit(1)] == "1";
    assert v == "seed@1";
  }
}
