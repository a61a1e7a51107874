/** What the index holds while a Rebuild is under way, and exactly what a Rebuild
    that breaks off leaves missing. */
module ProjectionRebuild {
  import opened Refs
  import opened ProjectionModel
  import opened ProjectionSafety

  /* ---- the enumeration order ---- */

  lemma KeyLessTransitive(a: Key, b: Key, c: Key)
    requires KeyLess(a, b) && KeyLess(b, c)
    ensures KeyLess(a, c)
  {
    if a.kind == b.kind == c.kind {
      LessTransitive(Render(a.ref), Render(b.ref), Render(c.ref));
    }
  }

  lemma KeyLessIrreflexive(a: Key)
    ensures !KeyLess(a, a)
  {
    LessIrreflexive(Render(a.ref));
  }

  lemma AfterLater(cursor: Option<Key>, last: Key, k: Key)
    requires After(cursor, last) && KeyLess(last, k)
    ensures After(cursor, k)
  {
    if cursor.Some? {
      KeyLessTransitive(cursor.value, last, k);
    }
  }

  /* ---- nothing is written beyond the cursor ---- */

  predicate Rising(page: seq<Key>) {
    forall i, j :: 0 <= i < j < |page| ==> KeyLess(page[i], page[j])
  }

  ghost predicate Behind(index: map<Key, Text>, cursor: Option<Key>) {
    forall k | k in index :: !After(cursor, k)
  }

  predicate OnPage(documents: seq<Document>, page: seq<Key>) {
    forall i :: 0 <= i < |documents| ==> documents[i].key in page
  }

  /** While a Rebuild copies, the index holds nothing after its cursor, and the
      page in hand lies after it. */
  ghost predicate ScanOk(s: State) {
    match s.phase
    case Fetching(cursor) => Behind(s.index, cursor)
    case Copying(cursor, page, _, _, documents) =>
      && Behind(s.index, cursor) && Rising(page) && OnPage(documents, page)
      && forall i :: 0 <= i < |page| ==> After(cursor, page[i])
    case _ => true
  }

  lemma NotAfterLast(page: seq<Key>, k: Key)
    requires page != [] && Rising(page) && k in page
    ensures !KeyLess(page[|page| - 1], k)
  {
    var i :| 0 <= i < |page| && page[i] == k;
    KeyLessIrreflexive(k);
    if KeyLess(page[|page| - 1], k) && i < |page| - 1 {
      KeyLessTransitive(k, page[|page| - 1], k);
    }
  }

  /** Writing a page moves the cursor over all that was written. */
  lemma PageMovesCursor(index: map<Key, Text>, cursor: Option<Key>, page: seq<Key>, documents: seq<Document>)
    requires Behind(index, cursor) && page != [] && Rising(page) && OnPage(documents, page)
    requires forall i :: 0 <= i < |page| ==> After(cursor, page[i])
    ensures Behind(Write(index, documents), Some(page[|page| - 1]))
  {
    var last := page[|page| - 1];
    forall k | k in Write(index, documents) ensures !KeyLess(last, k) {
      if Writes(documents, k) {
        NotAfterLast(page, k);
      } else if KeyLess(last, k) {
        AfterLater(cursor, last, k);
      }
    }
  }

  /** What a page write leaves. */
  function Stored(s: State, ok: bool, count: nat): State
    requires s.phase.Copying? && count <= |s.phase.documents|
  {
    var more, page := ok && s.phase.hasMore && s.phase.page != [], s.phase.page;
    s.(index := Write(s.index, s.phase.documents[..count]), clean := s.clean || (ok && !more),
       phase := if more then Fetching(Some(page[|page| - 1])) else Idle)
  }

  lemma StoreIs(s: State, ok: bool, count: nat)
    requires s.phase.Copying? && count <= |s.phase.documents| && Enabled(s, StorePage(ok, count))
    ensures Do(s, StorePage(ok, count)) == Stored(s, ok, count)
  {
  }

  lemma StoreReaches(s: State, ok: bool, count: nat)
    requires s.phase.Copying? && s.phase.read == |s.phase.page| && count <= |s.phase.documents| && (ok ==> count == |s.phase.documents|)
    requires ok || count > 0 ==> forall i :: 0 <= i < |s.phase.documents| ==> ValidDocument(s.phase.documents[i])
    ensures Reaches(s, Stored(s, ok, count))
  {
    StoreIs(s, ok, count);
    ReachesSelf(s);
    ReachesNext(s, s, StorePage(ok, count));
  }

  lemma StorePageScan(s: State, ok: bool, written: nat)
    requires ScanOk(s) && Enabled(s, StorePage(ok, written))
    ensures ScanOk(Do(s, StorePage(ok, written)))
  {
    StoreIs(s, ok, written);
    StoredScan(s, ok, written);
  }

  lemma StoredScan(s: State, ok: bool, written: nat)
    requires ScanOk(s) && s.phase.Copying? && written <= |s.phase.documents| && (ok ==> written == |s.phase.documents|)
    ensures ScanOk(Stored(s, ok, written))
  {
    if ok && s.phase.hasMore && s.phase.page != [] {
      assert s.phase.documents[..written] == s.phase.documents;
      PageMovesCursor(s.index, s.phase.cursor, s.phase.page, s.phase.documents);
    }
  }

  lemma ScanStep(s: State, step: Step)
    requires ScanOk(s) && Enabled(s, step)
    ensures ScanOk(Do(s, step))
  {
    if step.StorePage? {
      StorePageScan(s, step.ok, step.written);
    }
  }

  lemma {:induction false} RunKeepsScan(s: State, steps: seq<Step>, s': State)
    requires ScanOk(s) && Runs(s, steps, s')
    ensures ScanOk(s')
    decreases |steps|
  {
    if steps != [] {
      ScanStep(s, steps[0]);
      RunKeepsScan(Do(s, steps[0]), steps[1..], s');
    }
  }

  lemma ReachesScan(a: State, b: State)
    requires ScanOk(a) && Reaches(a, b)
    ensures ScanOk(b)
  {
    var steps :| Runs(a, steps, b);
    RunKeepsScan(a, steps, b);
  }

  ghost predicate Sound(s: State) {
    var whole := Inv(s) && ScanOk(s);
    whole
  }

  lemma ReachesSound(a: State, b: State)
    requires Sound(a) && Reaches(a, b)
    ensures Sound(b)
  {
    ReachesInv(a, b);
    ReachesScan(a, b);
  }

  lemma ReachableSound(s: State)
    requires Reachable(s)
    ensures Sound(s)
  {
    ReachesSound(Init(), s);
  }

  /* ---- what a Rebuild that breaks off has achieved ---- */

  /** The settled keys that agree are exactly those not canonical, not after the
      cursor, or among the documents of the last, partial write. */
  ghost predicate CopiedTo(t: Tables, ops: seq<Operation>, index: map<Key, Text>, cursor: Option<Key>, written: seq<Document>) {
    forall k :: Pending(ops, k) || (Agrees(t, index, k) <==> Reached(t, cursor, written, k))
  }

  ghost predicate Reached(t: Tables, cursor: Option<Key>, written: seq<Document>, k: Key) {
    Canon(t, k).None? || !After(cursor, k) || Writes(written, k)
  }

  lemma CopiedSoFar(s: State)
    requires Sound(s) && (s.phase.Fetching? || s.phase.Copying?)
    ensures CopiedTo(s.tables, s.ops, s.index, s.phase.cursor, [])
  {
    forall k ensures Pending(s.ops, k) || (Agrees(s.tables, s.index, k) <==> Reached(s.tables, s.phase.cursor, [], k)) {
      assert Pending(s.ops, k) || Copied(s.tables, s.index, s.phase.cursor, k);
    }
  }

  lemma PartialWrite(s: State, documents: seq<Document>, k: Key)
    requires Sound(s) && s.phase.Copying? && documents <= s.phase.documents && !Pending(s.ops, k)
    ensures Agrees(s.tables, Write(s.index, documents), k) <==> Reached(s.tables, s.phase.cursor, documents, k)
  {
    if Writes(documents, k) {
      WrittenAgrees(s, documents, k);
    } else {
      Unwritten(s.index, documents, k);
      assert Copied(s.tables, s.index, s.phase.cursor, k);
    }
  }

  lemma Unwritten(index: map<Key, Text>, documents: seq<Document>, k: Key)
    requires !Writes(documents, k)
    ensures (k in Write(index, documents) <==> k in index) && (k in index ==> Write(index, documents)[k] == index[k])
  {
  }

  /** A failed write of a page stored a prefix of its documents. */
  lemma PageFailed(s: State, documents: seq<Document>)
    requires Sound(s) && s.phase.Copying? && documents <= s.phase.documents
    ensures CopiedTo(s.tables, s.ops, Write(s.index, documents), s.phase.cursor, documents)
  {
    forall k | !Pending(s.ops, k)
      ensures Agrees(s.tables, Write(s.index, documents), k) <==> Reached(s.tables, s.phase.cursor, documents, k)
    {
      PartialWrite(s, documents, k);
    }
  }

  /** The index is exactly the canonical documents. */
  ghost predicate Canonical(t: Tables, index: map<Key, Text>) {
    index.Keys == CanonKeys(t) && forall k | k in index :: Canon(t, k) == Some(index[k])
  }

  lemma CanonicalMeans(t: Tables, index: map<Key, Text>)
    ensures Canonical(t, index) <==> forall k :: Agrees(t, index, k)
  {
    forall k ensures k in CanonKeys(t) <==> Canon(t, k).Some? {
      CanonKeysAreDocuments(t, k);
    }
    if Canonical(t, index) {
      forall k ensures Agrees(t, index, k) {
        assert k in index <==> k in CanonKeys(t);
      }
    }
    if forall k :: Agrees(t, index, k) {
      forall k ensures (k in index <==> k in CanonKeys(t)) && (k in index ==> Canon(t, k) == Some(index[k])) {
        assert Agrees(t, index, k);
      }
    }
  }

  lemma SettledIff(t: Tables, ops: seq<Operation>, index: map<Key, Text>, cursor: Option<Key>, written: seq<Document>)
    requires CopiedTo(t, ops, index, cursor, written) && forall i :: 0 <= i < |ops| ==> ops[i].acked
    ensures Canonical(t, index) <==> forall k | k in CanonKeys(t) :: After(cursor, k) ==> Writes(written, k)
  {
    CanonicalMeans(t, index);
    forall k ensures Agrees(t, index, k) <==> (k in CanonKeys(t) ==> After(cursor, k) ==> Writes(written, k)) {
      CanonKeysAreDocuments(t, k);
      assert !Pending(ops, k);
    }
  }

  /** A Rebuild that breaks off between two of its calls, with nothing outstanding,
      leaves the index canonical if and only if no canonical document lies after
      its cursor. */
  lemma BrokenOffRebuildIff(s: State)
    requires Reachable(s) && Quiescent(s) && (s.phase.Fetching? || s.phase.Copying?)
    ensures var s' := Do(s, Abandon);
            && s'.phase.Idle? && Quiescent(s')
            && (Canonical(s'.tables, s'.index) <==> forall k | k in CanonKeys(s.tables) :: !After(s.phase.cursor, k))
  {
    ReachableSound(s);
    CopiedSoFar(s);
    SettledIff(s.tables, s.ops, s.index, s.phase.cursor, []);
    assert forall k :: !Writes([], k);
  }

  /** A page write that failed after its first `written` documents: canonical if and
      only if every canonical document after the cursor is among them. */
  lemma FailedPageIff(s: State, written: nat)
    requires Reachable(s) && Quiescent(s) && Enabled(s, StorePage(false, written))
    ensures var s' := Do(s, StorePage(false, written));
            && s'.phase.Idle? && Quiescent(s')
            && (Canonical(s'.tables, s'.index) <==>
                forall k | k in CanonKeys(s.tables) :: After(s.phase.cursor, k) ==> Writes(s.phase.documents[..written], k))
  {
    ReachableSound(s);
    PageFailed(s, s.phase.documents[..written]);
    SettledIff(s.tables, s.ops, Write(s.index, s.phase.documents[..written]), s.phase.cursor, s.phase.documents[..written]);
  }

  /** A Reset that reports failure: canonical if and only if it had no effect, or
      there is nothing to hold. */
  lemma FailedResetIff(s: State, effect: bool)
    requires Reachable(s) && Quiescent(s) && s.clean && s.phase.Idle?
    ensures var s' := Do(s, Reset(false, effect));
            && s'.phase.Idle? && Quiescent(s') && (Canonical(s'.tables, s'.index) <==> !effect || CanonKeys(s.tables) == {})
  {
    QuiescentIndexIsCanonical(s);
    ResetIs(s, effect);
    EmptyIndexIff(s.tables);
  }

  lemma ResetIs(s: State, effect: bool)
    requires s.phase.Idle?
    ensures Enabled(s, Reset(false, effect))
    ensures Do(s, Reset(false, effect)) == s.(index := if effect then map[] else s.index, clean := false)
  {
  }

  lemma EmptyIndexIff(t: Tables)
    ensures Canonical(t, map[]) <==> CanonKeys(t) == {}
  {
  }

  /* ---- over whole runs ---- */

  /** The documents a Reset removed and nothing has written or superseded since. */
  ghost function WipedBy(s: State, step: Step, wiped: set<Key>): set<Key>
    requires Enabled(s, step)
  {
    match step
    case Commit(c) => wiped * CanonKeys(ChangeTables(s.tables, c))
    case Store(_, effect) => if effect then wiped - {s.phase.document.key} else wiped
    case Remove(_, effect) => if effect then wiped - {KeyOf(s.ops[s.phase.op])} else wiped
    case Reset(_, effect) => if effect then CanonKeys(s.tables) else wiped
    case StorePage(_, written) => set k | k in wiped && !Writes(s.phase.documents[..written], k)
    case _ => wiped
  }

  ghost function Wiped(s: State, steps: seq<Step>, wiped: set<Key>): set<Key>
    decreases |steps|
  {
    if steps == [] || !Enabled(s, steps[0]) then wiped
    else Wiped(Do(s, steps[0]), steps[1..], WipedBy(s, steps[0], wiped))
  }

  ghost predicate Accounted(s: State, wiped: set<Key>, k: Key) {
    && (k in wiped ==> Canon(s.tables, k).Some? && k !in s.index)
    && (Pending(s.ops, k) || k in wiped || Agrees(s.tables, s.index, k))
  }

  /** Every settled key that disagrees is one that was wiped. */
  ghost predicate WipedOk(s: State, wiped: set<Key>) {
    forall k :: Accounted(s, wiped, k)
  }

  /** A commit changes no index entry, and what it changes canonically is pending. */
  lemma CommitWiped(s: State, c: Change, wiped: set<Key>)
    requires Inv(s) && Enabled(s, Commit(c)) && WipedOk(s, wiped)
    ensures WipedOk(Do(s, Commit(c)), WipedBy(s, Commit(c), wiped))
  {
    var s' := Do(s, Commit(c));
    CommitEffects(s, c);
    EffectPending(s.tables, s.ops, s'.tables, s'.ops);
    forall k ensures Accounted(s', WipedBy(s, Commit(c), wiped), k) {
      assert Accounted(s, wiped, k);
      CanonKeysAreDocuments(s'.tables, k);
    }
  }

  /** One key is written or removed while its operation is unacknowledged. */
  lemma OneKeyWiped(s: State, s': State, k: Key, wiped: set<Key>)
    requires WipedOk(s, wiped) && s'.tables == s.tables && s'.ops == s.ops && Pending(s.ops, k)
    requires forall x :: x != k ==> (x in s'.index <==> x in s.index)
    requires forall x :: x != k && x in s.index ==> s'.index[x] == s.index[x]
    ensures WipedOk(s', wiped - {k})
  {
    forall x ensures Accounted(s', wiped - {k}, x) {
      assert Accounted(s, wiped, x);
    }
  }

  lemma ApplyWiped(s: State, step: Step, wiped: set<Key>)
    requires Inv(s) && Enabled(s, step) && WipedOk(s, wiped) && (step.Store? || step.Remove?)
    ensures WipedOk(Do(s, step), WipedBy(s, step, wiped))
  {
    var k := KeyOf(s.ops[s.phase.op]);
    assert Touches(s.ops, s.phase.op, k);
    if step.effect {
      OneKeyWiped(s, Do(s, step), k, wiped);
    } else {
      SameWiped(s, Do(s, step), wiped);
    }
  }

  lemma SameWiped(s: State, s': State, wiped: set<Key>)
    requires WipedOk(s, wiped) && s'.tables == s.tables && s'.index == s.index
    requires forall k :: Pending(s.ops, k) ==> Pending(s'.ops, k) || k in wiped || Agrees(s.tables, s.index, k)
    ensures WipedOk(s', wiped)
  {
    forall k ensures Accounted(s', wiped, k) {
      assert Accounted(s, wiped, k);
    }
  }

  /** Acknowledging settles one key, which then agrees. */
  lemma AcknowledgeWiped(s: State, wiped: set<Key>)
    requires Inv(s) && Enabled(s, Acknowledge) && WipedOk(s, wiped)
    ensures WipedOk(Do(s, Acknowledge), wiped)
  {
    var s', i := Do(s, Acknowledge), s.phase.op;
    RowUpdateKeepsQueue(s.tables, s.ops, i, s'.ops[i]);
    forall k | Pending(s.ops, k) ensures Pending(s'.ops, k) || Agrees(s.tables, s.index, k) {
      if k != KeyOf(s.ops[i]) || PendingOther(s.ops, k, i) {
        StaysPending(s.ops, s'.ops, i, k);
      }
    }
    SameWiped(s, s', wiped);
  }

  lemma StaysPending(ops: seq<Operation>, ops': seq<Operation>, i: nat, k: Key)
    requires |ops'| == |ops| && i < |ops| && (forall j, x :: Touches(ops, j, x) <==> Touches(ops', j, x))
    requires forall j :: 0 <= j < |ops| && j != i ==> ops'[j] == ops[j]
    requires Pending(ops, k) && (k != KeyOf(ops[i]) || PendingOther(ops, k, i))
    ensures Pending(ops', k)
  {
    var j :| Touches(ops, j, k) && !ops[j].acked && j != i;
    assert Touches(ops', j, k) && !ops'[j].acked;
  }

  lemma RowWiped(s: State, step: Step, wiped: set<Key>)
    requires Inv(s) && Enabled(s, step) && WipedOk(s, wiped) && (step.Lease? || step.Retry?)
    ensures WipedOk(Do(s, step), wiped)
  {
    var s' := Do(s, step);
    var i := if step.Lease? then step.op else s.phase.op;
    RowUpdateKeepsQueue(s.tables, s.ops, i, s'.ops[i]);
    SamePending(s.ops, s'.ops);
    SameWiped(s, s', wiped);
  }

  lemma ResetWiped(s: State, ok: bool, wiped: set<Key>)
    requires Enabled(s, Reset(ok, true))
    ensures WipedOk(Do(s, Reset(ok, true)), CanonKeys(s.tables))
  {
    forall k ensures Accounted(Do(s, Reset(ok, true)), CanonKeys(s.tables), k) {
      CanonKeysAreDocuments(s.tables, k);
    }
  }

  lemma PageWiped(s: State, ok: bool, written: nat, wiped: set<Key>)
    requires Inv(s) && Enabled(s, StorePage(ok, written)) && WipedOk(s, wiped)
    ensures WipedOk(Do(s, StorePage(ok, written)), WipedBy(s, StorePage(ok, written), wiped))
  {
    var s', documents := Do(s, StorePage(ok, written)), s.phase.documents[..written];
    forall k ensures Accounted(s', WipedBy(s, StorePage(ok, written), wiped), k) {
      assert Accounted(s, wiped, k);
      if Writes(documents, k) && !Pending(s.ops, k) {
        WrittenAgrees(s, documents, k);
      } else if !Writes(documents, k) {
        Unwritten(s.index, documents, k);
      }
    }
  }

  lemma WrittenAgrees(s: State, documents: seq<Document>, k: Key)
    requires Inv(s) && s.phase.Copying? && documents <= s.phase.documents && Writes(documents, k) && !Pending(s.ops, k)
    ensures Agrees(s.tables, Write(s.index, documents), k)
  {
    forall i | 0 <= i < |documents| && documents[i].key == k ensures Canon(s.tables, k) == Some(documents[i].text) {
      assert DocumentOk(s.tables, s.ops, s.phase.documents[i]);
    }
    WriteSettles(s.index, documents, k, Canon(s.tables, k));
  }

  lemma StepWiped(s: State, step: Step, wiped: set<Key>)
    requires Inv(s) && Enabled(s, step) && WipedOk(s, wiped)
    ensures WipedOk(Do(s, step), WipedBy(s, step, wiped))
  {
    match step
    case Commit(c) => CommitWiped(s, c, wiped);
    case Store(_, _) => ApplyWiped(s, step, wiped);
    case Remove(_, _) => ApplyWiped(s, step, wiped);
    case Acknowledge => AcknowledgeWiped(s, wiped);
    case Lease(_, _, _, _) => RowWiped(s, step, wiped);
    case Retry(_) => RowWiped(s, step, wiped);
    case Reset(ok, effect) =>
      if effect {
        ResetWiped(s, ok, wiped);
      } else {
        SameWiped(s, Do(s, step), wiped);
      }
    case StorePage(ok, written) => PageWiped(s, ok, written, wiped);
    case _ => SameWiped(s, Do(s, step), wiped);
  }

  lemma {:induction false} RunWiped(s: State, steps: seq<Step>, s': State, wiped: set<Key>)
    requires Inv(s) && Runs(s, steps, s') && WipedOk(s, wiped)
    ensures Inv(s') && WipedOk(s', Wiped(s, steps, wiped))
    decreases |steps|
  {
    if steps != [] {
      StepPreserves(s, steps[0]);
      StepWiped(s, steps[0], wiped);
      RunWiped(Do(s, steps[0]), steps[1..], s', WipedBy(s, steps[0], wiped));
    }
  }

  /** Over every run, whatever failed or broke off: once nothing is outstanding the
      index holds current texts only, of exactly the canonical documents that no
      Reset wiped for good; it is canonical if and only if there is none such. */
  lemma QuiescentIndexIff(steps: seq<Step>, s: State)
    requires Runs(Init(), steps, s) && Quiescent(s)
    ensures s.index.Keys == CanonKeys(s.tables) - Wiped(Init(), steps, {})
    ensures forall k | k in s.index :: Canon(s.tables, k) == Some(s.index[k])
    ensures Canonical(s.tables, s.index) <==> Wiped(Init(), steps, {}) == {}
  {
    RunWiped(Init(), steps, s, {});
    WipedMeans(s, Wiped(Init(), steps, {}));
  }

  lemma WipedMeans(s: State, wiped: set<Key>)
    requires WipedOk(s, wiped) && Quiescent(s)
    ensures s.index.Keys == CanonKeys(s.tables) - wiped && wiped <= CanonKeys(s.tables)
    ensures forall k | k in s.index :: Canon(s.tables, k) == Some(s.index[k])
  {
    forall k
      ensures k in s.index <==> k in CanonKeys(s.tables) && k !in wiped
      ensures k in s.index ==> Canon(s.tables, k) == Some(s.index[k])
      ensures k in wiped ==> k in CanonKeys(s.tables)
    {
      assert Accounted(s, wiped, k) && !Pending(s.ops, k);
      CanonKeysAreDocuments(s.tables, k);
    }
  }
}
