/** The canonical tables, the durable operation queue and the disposable index
    of the MemoryIndex projection, with one atomic step per transaction. */
module ProjectionModel {
  import opened Refs

  datatype Kind = Episode | Recollection | Disposition
  datatype Scope = Scope(tenant: Ref, agent: Ref, relationship: Ref)
  /** A document ref: an Episode's own ref, or "root@number" of a version. */
  datatype DocRef = EpisodeRef(name: Ref) | VersionRef(root: Ref, number: nat)

  function Render(r: DocRef): Ref {
    match r case EpisodeRef(name) => name case VersionRef(root, number) => VersionName(root, number)
  }

  datatype Key = Key(kind: Kind, ref: DocRef, scope: Scope)

  datatype Role = Situation | AgentAct | Outcome
  datatype Link = Link(role: Role, source: Ref)
  datatype EpisodeRow = EpisodeRow(scope: Scope, links: set<Link>)
  datatype VersionKey = VersionKey(kind: Kind, ref: DocRef)
  datatype VersionRow = VersionRow(root: Ref, number: nat, scope: Scope, text: string, active: bool)

  /** Sources are immutable, so an Episode's rendered text is a function of its
      ref and links; prompt rendering itself stays abstract. */
  datatype Text = Rendered(ref: DocRef, links: set<Link>) | Plain(text: string)
  datatype Document = Document(key: Key, text: Text)


  /* ---- canonical documents ---- */

  datatype Tables = Tables(episodes: map<DocRef, EpisodeRow>, versions: map<VersionKey, VersionRow>)

  /** MemoryIndexDocument: rehydrate one key from the canonical tables. */
  function Canon(t: Tables, k: Key): (text: Option<Text>) {
    if k.kind == Episode then
      if k.ref in t.episodes && t.episodes[k.ref].scope == k.scope
      then Some(Rendered(k.ref, t.episodes[k.ref].links)) else None
    else
      var vk := VersionKey(k.kind, k.ref);
      if vk in t.versions && t.versions[vk].active && t.versions[vk].scope == k.scope
      then Some(Plain(t.versions[vk].text)) else None
  }

  function EpisodeKeys(t: Tables): set<Key> {
    set r | r in t.episodes :: Key(Episode, r, t.episodes[r].scope)
  }

  function VersionKeys(t: Tables): set<Key> {
    set vk | vk in t.versions && t.versions[vk].active && vk.kind != Episode
      :: Key(vk.kind, vk.ref, t.versions[vk].scope)
  }

  /** The union that the enumeration query orders and pages. */
  function CanonKeys(t: Tables): set<Key> {
    EpisodeKeys(t) + VersionKeys(t)
  }

  lemma CanonKeysAreDocuments(t: Tables, k: Key)
    ensures k in CanonKeys(t) <==> Canon(t, k).Some?
  {
    if k.kind == Episode {
      if Canon(t, k).Some? {
        assert k == Key(Episode, k.ref, t.episodes[k.ref].scope);
      }
    } else if Canon(t, k).Some? {
      var vk := VersionKey(k.kind, k.ref);
      assert vk in t.versions && t.versions[vk].active && vk.kind != Episode;
      assert k == Key(vk.kind, vk.ref, t.versions[vk].scope);
    }
  }

  /* ---- the operation queue ---- */

  datatype Action = Upsert | Delete
  datatype Stream = Stream(tenant: Ref, kind: Kind, identity: Ref)
  /** The preimage of operation_id: SHA-256 is taken to be collision-free. */
  datatype OperationId = OperationId(stream: Stream, action: Action, kind: Kind, ref: DocRef, cause: Cause)
  datatype Cause = TypedLink(link: Link) | NewVersion(version: DocRef)
  datatype Operation = Operation(
    id: OperationId, sequence: nat, scope: Scope,
    token: Option<Ref>, leaseUntil: int, notBefore: int, attempts: nat, acked: bool)

  function KeyOf(op: Operation): Key {
    Key(op.id.kind, op.id.ref, op.scope)
  }

  function MaxSequence(ops: seq<Operation>, stream: Stream): (m: nat)
    ensures forall i :: 0 <= i < |ops| && ops[i].id.stream == stream ==> ops[i].sequence <= m
  {
    if ops == [] then 0
    else
      var last := ops[|ops| - 1];
      var rest := MaxSequence(ops[..|ops| - 1], stream);
      if last.id.stream == stream && last.sequence > rest then last.sequence else rest
  }

  predicate HasId(ops: seq<Operation>, id: OperationId) {
    exists i :: 0 <= i < |ops| && ops[i].id == id
  }

  predicate IdentityComplete(ref: DocRef, identity: Ref, cause: Cause) {
    && Render(ref) != "" && identity != ""
    && (if cause.TypedLink? then cause.link.source != "" else Render(cause.version) != "")
  }

  /** enqueueMemoryIndexOperation; None aborts the surrounding transaction. */
  function Enqueue(ops: seq<Operation>, action: Action, kind: Kind, ref: DocRef, scope: Scope,
                   identity: Ref, cause: Cause): (r: Option<seq<Operation>>)
  {
    if !IdentityComplete(ref, identity, cause) then None
    else
      var stream := Stream(scope.tenant, kind, identity);
      var id := OperationId(stream, action, kind, ref, cause);
      if HasId(ops, id) then Some(ops)
      else Some(ops + [Operation(id, MaxSequence(ops, stream) + 1, scope, None, 0, 0, 0, false)])
  }

  /* ---- canonical commits and what they enqueue ---- */

  datatype Change =
    /** appendLinkAndMaterialize reported a change for `link`: either the group
        just materialized with `links`, or one link was appended. */
    | LinkEpisode(ref: DocRef, scope: Scope, links: set<Link>, link: Link)
    | Form(kind: Kind, root: Ref, scope: Scope, text: string)
    | Revise(kind: Kind, ref: DocRef, text: string)

  predicate ChangeEnabled(t: Tables, c: Change) {
    match c
    case LinkEpisode(ref, scope, links, link) =>
      ref.EpisodeRef? &&
      if ref in t.episodes
      then scope == t.episodes[ref].scope && link !in t.episodes[ref].links && link.role == Outcome
      else link in links
    case Form(kind, root, scope, text) =>
      && kind != Episode && root != ""
      && (forall vk :: vk in t.versions && vk.kind == kind ==> t.versions[vk].root != root)
    case Revise(kind, ref, text) =>
      && VersionKey(kind, ref) in t.versions && t.versions[VersionKey(kind, ref)].active
  }

  function ChangeTables(t: Tables, c: Change): Tables
    requires ChangeEnabled(t, c)
  {
    match c
    case LinkEpisode(ref, scope, links, link) =>
      var row := if ref in t.episodes
                 then EpisodeRow(scope, t.episodes[ref].links + {link}) else EpisodeRow(scope, links);
      t.(episodes := t.episodes[ref := row])
    case Form(kind, root, scope, text) =>
      t.(versions := t.versions[VersionKey(kind, VersionRef(root, 1)) := VersionRow(root, 1, scope, text, true)])
    case Revise(kind, ref, text) =>
      var prior := t.versions[VersionKey(kind, ref)];
      var next := VersionKey(kind, VersionRef(prior.root, prior.number + 1));
      t.(versions := t.versions[VersionKey(kind, ref) := prior.(active := false)]
                     [next := VersionRow(prior.root, prior.number + 1, prior.scope, text, true)])
  }

  function ChangeOps(t: Tables, ops: seq<Operation>, c: Change): Option<seq<Operation>>
    requires ChangeEnabled(t, c)
  {
    match c
    case LinkEpisode(ref, scope, links, link) =>
      Enqueue(ops, Upsert, Episode, ref, scope, Render(ref), TypedLink(link))
    case Form(kind, root, scope, text) =>
      var v := VersionRef(root, 1);
      Enqueue(ops, Upsert, kind, v, scope, RootOf(Render(v)), NewVersion(v))
    case Revise(kind, ref, text) =>
      var prior := t.versions[VersionKey(kind, ref)];
      var v := VersionRef(prior.root, prior.number + 1);
      var deleted := Enqueue(ops, Delete, kind, ref, prior.scope, prior.root, NewVersion(v));
      if deleted.None? then None
      else Enqueue(deleted.value, Upsert, kind, v, prior.scope, prior.root, NewVersion(v))
  }

  /* ---- the projector ---- */

  /** What the single Projector, serialised by its mutex, is in the middle of. */
  datatype Phase =
    | Idle
    | Leased(op: nat, token: Ref)
    | Hydrated(op: nat, token: Ref, document: Document)
    | Applied(op: nat, token: Ref)
    | Failed(op: nat, token: Ref)
    | Fetching(cursor: Option<Key>)
    | Copying(cursor: Option<Key>, page: seq<Key>, hasMore: bool, read: nat, documents: seq<Document>)

  datatype State = State(
    tables: Tables, ops: seq<Operation>, index: map<Key, Text>, phase: Phase,
    /** False from a Rebuild's Reset until a Rebuild completes. */
    clean: bool)

  function Init(): State {
    State(Tables(map[], map[]), [], map[], Idle, true)
  }

  predicate ValidProjectionRef(ref: string, emptyAllowed: bool) {
    (emptyAllowed || ref != "") && NoSpace(ref)
  }

  predicate ValidKey(k: Key) {
    && ValidProjectionRef(Render(k.ref), false)
    && ValidProjectionRef(k.scope.tenant, false) && ValidProjectionRef(k.scope.agent, false)
    && ValidProjectionRef(k.scope.relationship, true)
  }

  predicate ValidDocument(d: Document) {
    ValidKey(d.key) && (d.text.Plain? ==> !Blank(d.text.text))
  }

  /** The lease query: unacknowledged, due, not leased, first of its stream. */
  predicate Leasable(ops: seq<Operation>, i: nat, now: int) {
    && i < |ops| && !ops[i].acked && ops[i].notBefore <= now
    && (ops[i].token.None? || ops[i].leaseUntil <= now)
    && !exists j ::
         && 0 <= j < |ops| && ops[j].id.stream == ops[i].id.stream
         && ops[j].sequence < ops[i].sequence && !ops[j].acked
  }

  /** (kind_order, document_ref) order of the enumeration. */
  predicate KeyLess(a: Key, b: Key) {
    KindOrder(a.kind) < KindOrder(b.kind) || (a.kind == b.kind && Less(Render(a.ref), Render(b.ref)))
  }

  function KindOrder(k: Kind): nat {
    match k case Episode => 0 case Recollection => 1 case Disposition => 2
  }

  predicate After(cursor: Option<Key>, k: Key) {
    cursor.Some? ==> KeyLess(cursor.value, k)
  }

  /** One page: the first `limit` keys after the cursor in order, and whether
      more follow. */
  predicate IsPage(keys: set<Key>, cursor: Option<Key>, limit: int, page: seq<Key>, hasMore: bool) {
    && 1 <= limit && |page| <= limit && (hasMore ==> |page| == limit)
    && (forall i :: 0 <= i < |page| ==> page[i] in keys && After(cursor, page[i]))
    && (forall i, j :: 0 <= i < j < |page| ==> KeyLess(page[i], page[j]))
    && (forall k :: k in keys && After(cursor, k) && k !in page ==>
          hasMore && forall i :: 0 <= i < |page| ==> KeyLess(page[i], k))
  }

  function Write(index: map<Key, Text>, documents: seq<Document>): (r: map<Key, Text>)
    ensures forall k :: (forall i :: 0 <= i < |documents| ==> documents[i].key != k) ==>
              (k in r <==> k in index) && (k in index ==> r[k] == index[k])
  {
    if documents == [] then index
    else
      var last := documents[|documents| - 1];
      Write(index, documents[..|documents| - 1])[last.key := last.text]
  }

  datatype Step =
    | Commit(change: Change)
    | Lease(op: nat, token: Ref, now: int, until: int)
    | Hydrate(ok: bool)
    /** An index mutation may fail, with or without having taken effect. */
    | Store(ok: bool, effect: bool)
    | Remove(ok: bool, effect: bool)
    | Acknowledge
    | Retry(notBefore: int)
    /** The process stopped, or a storage call failed: nothing more is written. */
    | Abandon
    | Reset(ok: bool, effect: bool)
    | Fetch(limit: int, page: seq<Key>, hasMore: bool)
    | ReadNext
    | StorePage(ok: bool, written: nat)

  predicate Enabled(s: State, step: Step) {
    match step
    case Commit(c) => ChangeEnabled(s.tables, c) && ChangeOps(s.tables, s.ops, c).Some?
    case Lease(i, token, now, until) => s.phase.Idle? && Leasable(s.ops, i, now)
    case Hydrate(_) => s.phase.Leased? && s.phase.op < |s.ops| && s.ops[s.phase.op].id.action == Upsert
    case Store(ok, effect) =>
      s.phase.Hydrated? && (ok ==> ValidDocument(s.phase.document) && effect) &&
      (effect ==> ValidDocument(s.phase.document))
    case Remove(ok, effect) =>
      && s.phase.Leased? && s.phase.op < |s.ops| && s.ops[s.phase.op].id.action == Delete
      && (ok ==> effect) && (effect ==> ValidKey(KeyOf(s.ops[s.phase.op])))
    case Acknowledge => s.phase.Applied? && s.phase.op < |s.ops|
    case Retry(_) => s.phase.Failed? && s.phase.op < |s.ops|
    case Abandon => true
    case Reset(ok, effect) => s.phase.Idle? && (ok ==> effect)
    case Fetch(limit, page, hasMore) =>
      s.phase.Fetching? && 1 <= limit <= 1000 && IsPage(CanonKeys(s.tables), s.phase.cursor, limit, page, hasMore)
    case ReadNext => s.phase.Copying? && s.phase.read < |s.phase.page|
    case StorePage(ok, written) =>
      && s.phase.Copying? && s.phase.read == |s.phase.page| && written <= |s.phase.documents|
      && (ok ==> written == |s.phase.documents|)
      && (ok || written > 0 ==> forall i :: 0 <= i < |s.phase.documents| ==> ValidDocument(s.phase.documents[i]))
  }

  /** acknowledge and retry match on (operation_id, lease_token) and an unset
      acknowledged_at; otherwise they report a lost lease and change nothing. */
  predicate HoldsLease(op: Operation, token: Ref) {
    op.token == Some(token) && !op.acked
  }

  function Do(s: State, step: Step): State
    requires Enabled(s, step)
  {
    match step
    case Commit(c) =>
      s.(tables := ChangeTables(s.tables, c), ops := ChangeOps(s.tables, s.ops, c).value)
    case Lease(i, token, now, until) =>
      s.(ops := s.ops[i := s.ops[i].(token := Some(token), leaseUntil := until)], phase := Leased(i, token))
    case Hydrate(ok) =>
      var k := KeyOf(s.ops[s.phase.op]);
      var found := Canon(s.tables, k);
      s.(phase := if !ok then Failed(s.phase.op, s.phase.token)
                  else if found.None? then Applied(s.phase.op, s.phase.token)
                  else Hydrated(s.phase.op, s.phase.token, Document(k, found.value)))
    case Store(ok, effect) =>
      var d := s.phase.document;
      s.(index := if effect then s.index[d.key := d.text] else s.index,
         phase := if ok then Applied(s.phase.op, s.phase.token) else Failed(s.phase.op, s.phase.token))
    case Remove(ok, effect) =>
      s.(index := if effect then s.index - {KeyOf(s.ops[s.phase.op])} else s.index,
         phase := if ok then Applied(s.phase.op, s.phase.token) else Failed(s.phase.op, s.phase.token))
    case Acknowledge =>
      var op := s.ops[s.phase.op];
      s.(ops := if HoldsLease(op, s.phase.token)
                then s.ops[s.phase.op := op.(acked := true, token := None)] else s.ops, phase := Idle)
    case Retry(notBefore) =>
      var op := s.ops[s.phase.op];
      s.(ops := if HoldsLease(op, s.phase.token)
                then s.ops[s.phase.op := op.(token := None, notBefore := notBefore, attempts := op.attempts + 1)]
                else s.ops, phase := Idle)
    case Abandon => s.(phase := Idle)
    case Reset(ok, effect) =>
      s.(index := if effect then map[] else s.index, clean := false,
         phase := if ok then Fetching(None) else Idle)
    case Fetch(limit, page, hasMore) =>
      s.(phase := Copying(s.phase.cursor, page, hasMore, 0, []))
    case ReadNext =>
      var k := s.phase.page[s.phase.read];
      var found := Canon(s.tables, k);
      s.(phase := s.phase.(read := s.phase.read + 1,
           documents := if found.None? then s.phase.documents
                        else s.phase.documents + [Document(k, found.value)]))
    case StorePage(ok, written) =>
      var index := Write(s.index, s.phase.documents[..written]);
      if !ok then s.(index := index, phase := Idle)
      else if s.phase.hasMore && |s.phase.page| > 0 then
        s.(index := index, phase := Fetching(Some(s.phase.page[|s.phase.page| - 1])))
      else s.(index := index, phase := Idle, clean := true)
  }

  predicate Runs(s: State, steps: seq<Step>, s': State)
    decreases |steps|
  {
    if steps == [] then s == s'
    else Enabled(s, steps[0]) && Runs(Do(s, steps[0]), steps[1..], s')
  }

  ghost predicate Reachable(s: State) {
    exists steps :: Runs(Init(), steps, s)
  }
}
