/** The canonical tables and the transactions that change them: Observe, Select,
    Deliver, report an Outcome, and consolidate a window in a snapshot and a
    commit. References are structured values: what the program hashes is the
    reference itself. */
module LifecycleModel {
  import opened Refs
  import opened Causal

  datatype OutcomeKey = OutcomeKey(group: Group, source: Ref, key: Ref)
  datatype DeliveryKey = DeliveryKey(tenant: Ref, key: Ref)
  datatype ReceiptKey = ReceiptKey(tenant: Ref, job: Ref)

  datatype Application = Self | Other | Relation | SituationScope | UnknownApplication

  /** A Seed or Recollection: the fields its formation ref hashes. */
  datatype Root =
    | Seed(owner: Owner, job: Ref, text: string, episodes: seq<Group>, outcomes: seq<OutcomeKey>)
    | Recollection(owner: Owner, job: Ref, application: Application, text: string, episodes: seq<Group>)

  datatype Version = Version(root: Root, number: nat)

  /** Anything a caller can name: a version, an Episode, an Outcome, or a ref
      Core did not issue. */
  datatype MemoryRef = V(version: Version) | E(episode: Group) | O(outcome: OutcomeKey) | Foreign(ref: Ref)

  datatype VersionRow = VersionRow(text: string, application: Application, active: bool, job: Ref, at: nat)

  datatype BasisRole = Formation | Revision | Reenactment | Inhibition | Support
  datatype Basis = Basis(version: Version, episode: Group, role: BasisRole)
  datatype OutcomeBasis = OutcomeBasis(version: Version, outcome: OutcomeKey, role: BasisRole)

  /* ---- contexts, deliveries, outcomes ---- */

  datatype Norm = Norm(ref: MemoryRef, text: string)
  datatype SelectRequest = SelectRequest(run: Run, situations: seq<Ref>, constitution: Option<Norm>, maxBytes: nat)
  /** An activation: the version, its candidate's text and application as ranked,
      and the Situation it answered. */
  datatype Pick = Pick(version: Version, query: Ref, text: string, application: Application)
  /** The row frozen for it; the text stays in the version tables. */
  datatype Item = Item(version: Version, query: Ref)
  datatype Exhibit = Exhibit(episode: Group, text: string)
  datatype ContextRow = ContextRow(request: SelectRequest, items: seq<Item>, evidence: seq<Exhibit>, at: nat)

  datatype Memory = Memory(ref: MemoryRef, text: string, application: Application)
  datatype MemoryContext = MemoryContext(
    request: SelectRequest, constitution: Option<Norm>,
    recollections: seq<Memory>, dispositions: seq<Memory>, evidence: seq<Exhibit>)

  datatype DeliveryRow = DeliveryRow(run: Run, context: SelectRequest, memories: set<MemoryRef>, at: nat)
  datatype OutcomeRow = OutcomeRow(deliveries: set<DeliveryKey>, related: set<Ref>, at: nat)

  datatype Window = Window(job: Ref, episodes: seq<Group>, outcomes: seq<OutcomeKey>)
  datatype Receipt = Receipt(recollections: set<Version>, dispositions: set<Version>)

  datatype Tables = Tables(
    sources: Sources,
    /** Every link with the transaction that inserted it. */
    links: map<Link, nat>,
    contexts: map<Run, ContextRow>,
    deliveries: map<DeliveryKey, DeliveryRow>,
    outcomes: map<OutcomeKey, OutcomeRow>,
    versions: map<Version, VersionRow>,
    basis: set<Basis>, outcomeBasis: set<OutcomeBasis>,
    receipts: map<ReceiptKey, Window>,
    /** History: what the caller first received. */
    returned: map<ReceiptKey, Receipt>, shown: map<Run, MemoryContext>,
    now: nat)

  function Empty(): Tables {
    Tables(map[], map[], map[], map[], map[], map[], {}, {}, map[], map[], map[], 0)
  }

  /* ---- intake ---- */

  function Stamp(t: Tables, links: set<Link>): map<Link, nat> {
    map l | l in links :: if l in t.links then t.links[l] else t.now
  }

  function ObserveTx(t: Tables, e: Event, b: Binding): Option<Tables> {
    var r := Observe(t.sources, t.links.Keys, e, b);
    if r.Err? then None
    else Some(t.(sources := r.value.sources, links := Stamp(t, r.value.links), now := t.now + 1))
  }

  /* ---- SelectMemory ---- */

  predicate Visible(run: Run, v: Version) {
    || v.root.owner == run.owner
    || (run.owner.relationship && v.root.owner == Owner(false, run.owner.tenant, run.owner.agent, ""))
  }

  function ItemMemory(t: Tables, v: Version): Memory
    requires v in t.versions
  {
    Memory(V(v), t.versions[v].text,
           if v.root.Recollection? then t.versions[v].application else if v.root.owner.relationship then Relation else Self)
  }

  function Memories(t: Tables, items: seq<Item>, seeds: bool): seq<Memory>
    requires forall i :: 0 <= i < |items| ==> items[i].version in t.versions
  {
    if items == [] then []
    else
      var n := |items| - 1;
      var before := Memories(t, items[..n], seeds);
      if items[n].version.root.Seed? == seeds then before + [ItemMemory(t, items[n].version)] else before
  }

  /** The frozen rows read back against the version tables. */
  function ReadContext(t: Tables, r: SelectRequest, items: seq<Item>, evidence: seq<Exhibit>): MemoryContext
    requires forall i :: 0 <= i < |items| ==> items[i].version in t.versions
  {
    MemoryContext(r, r.constitution, Memories(t, items, false), Memories(t, items, true), evidence)
  }

  function Rows(picks: seq<Pick>): (items: seq<Item>)
    ensures |items| == |picks|
    ensures forall i :: 0 <= i < |picks| ==> items[i] == Item(picks[i].version, picks[i].query)
  {
    seq(|picks|, i requires 0 <= i < |picks| => Item(picks[i].version, picks[i].query))
  }

  function Activated(picks: seq<Pick>, seeds: bool): seq<Memory> {
    if picks == [] then []
    else
      var n := |picks| - 1;
      var before := Activated(picks[..n], seeds);
      if picks[n].version.root.Seed? == seeds then before + [Memory(V(picks[n].version), picks[n].text, picks[n].application)] else before
  }

  /** buildMemoryContext: from the activations and their candidates alone. */
  function BuildContext(r: SelectRequest, picks: seq<Pick>, evidence: seq<Exhibit>): MemoryContext {
    MemoryContext(r, r.constitution, Activated(picks, false), Activated(picks, true), evidence)
  }

  /** claimSemanticMemoryRef over a context: no ref carries two kinds. A version
      ref and an Episode ref are never equal, so only the Constitution can clash. */
  predicate Unambiguous(r: SelectRequest, items: seq<Item>, evidence: seq<Exhibit>) {
    r.constitution.Some? ==>
      && (forall i :: 0 <= i < |items| ==> V(items[i].version) != r.constitution.value.ref)
      && (forall i :: 0 <= i < |evidence| ==> E(evidence[i].episode) != r.constitution.value.ref)
  }

  predicate DistinctItems(items: seq<Item>) {
    forall i, j :: 0 <= i < j < |items| ==> items[i].version != items[j].version
  }

  /** The selection is any ranking of active visible versions for the request's
      Situations; the ranking itself is the Selection module's subject. */
  predicate Selectable(t: Tables, r: SelectRequest, picks: seq<Pick>, evidence: seq<Exhibit>) {
    && (forall i :: 0 <= i < |r.situations| ==> SourceKey(r.run.owner, r.run.session, r.situations[i]) in t.sources)
    && DistinctItems(Rows(picks))
    && (forall i :: 0 <= i < |picks| ==>
          && picks[i].version in t.versions && t.versions[picks[i].version].active && IsCandidate(t, picks[i])
          && Visible(r.run, picks[i].version) && picks[i].query in r.situations)
    && (forall i :: 0 <= i < |evidence| ==> Materialized(t.links.Keys, evidence[i].episode))
    && Unambiguous(r, Rows(picks), evidence)
  }

  /** loadRecollectionCandidates and loadDispositionCandidates. */
  predicate IsCandidate(t: Tables, p: Pick)
    requires p.version in t.versions
  {
    && p.text == t.versions[p.version].text
    && p.application == (if p.version.root.Seed? then (if p.version.root.owner.relationship then Relation else Self)
                         else t.versions[p.version].application)
  }

  datatype Loaded = Fresh | Conflict | Ambiguous | Frozen(context: MemoryContext)

  /** loadMemoryContext: rebuild the frozen context from its item rows and the
      version tables. */
  function LoadContext(t: Tables, r: SelectRequest): Loaded {
    if r.run !in t.contexts then Fresh
    else
      var row := t.contexts[r.run];
      if row.request != r then Conflict
      else if !(forall i :: 0 <= i < |row.items| ==> row.items[i].version in t.versions) then Conflict
      else if !Unambiguous(row.request, row.items, row.evidence) then Ambiguous
      else Frozen(ReadContext(t, row.request, row.items, row.evidence))
  }

  function SelectTx(t: Tables, r: SelectRequest, picks: seq<Pick>, evidence: seq<Exhibit>): Option<Tables> {
    if !LoadContext(t, r).Fresh? || !Selectable(t, r, picks, evidence) then None
    else Some(t.(contexts := t.contexts[r.run := ContextRow(r, Rows(picks), evidence, t.now)],
                 shown := t.shown[r.run := BuildContext(r, picks, evidence)], now := t.now + 1))
  }

  /* ---- RecordMemoryDelivery ---- */

  predicate Acted(t: Tables, run: Run) {
    exists l :: l in t.links && l.group.run == run && l.role == AgentAct
  }

  predicate Deliverable(row: ContextRow, m: MemoryRef) {
    || (row.request.constitution.Some? && m == row.request.constitution.value.ref)
    || (exists i :: 0 <= i < |row.items| && m == V(row.items[i].version))
    || (exists i :: 0 <= i < |row.evidence| && m == E(row.evidence[i].episode))
  }

  predicate CanDeliver(t: Tables, run: Run, context: SelectRequest, memories: set<MemoryRef>) {
    && memories != {} && !Acted(t, run)
    && run in t.contexts && t.contexts[run].request == context
    && forall m | m in memories :: Deliverable(t.contexts[run], m)
  }

  function DeliverTx(t: Tables, key: Ref, run: Run, context: SelectRequest, memories: set<MemoryRef>): Option<Tables> {
    var k := DeliveryKey(run.owner.tenant, key);
    if k in t.deliveries || !CanDeliver(t, run, context, memories) then None
    else Some(t.(deliveries := t.deliveries[k := DeliveryRow(run, context, memories, t.now)], now := t.now + 1))
  }

  /* ---- ReportOutcome ---- */

  /** validateOutcomeBindings */
  predicate BindingsOk(t: Tables, g: Group, deliveries: set<DeliveryKey>, related: set<Ref>) {
    && (forall d | d in deliveries :: d in t.deliveries && t.deliveries[d].run == g.run)
    && (forall r | r in related :: exists l :: l in t.links && l.group == g && l.source == r)
    && (deliveries != {} ==> exists r | r in related :: Link(g, r, AgentAct) in t.links)
  }

  predicate OutcomeKeyUsed(t: Tables, tenant: Ref, key: Ref) {
    exists o :: o in t.outcomes && o.group.run.owner.tenant == tenant && o.key == key
  }

  function OutcomeTx(t: Tables, key: Ref, e: Event, run: Ref, group: Ref, deliveries: set<DeliveryKey>, related: set<Ref>): Option<Tables> {
    var b := Binding(run, group, OutcomeRole);
    var g := GroupOf(e, b);
    if !Complete(b) || OutcomeKeyUsed(t, e.key.owner.tenant, key) || !BindingsOk(t, g, deliveries, related) then None
    else
      var r := Observe(t.sources, t.links.Keys, e, b);
      if r.Err? then None
      else Some(t.(sources := r.value.sources, links := Stamp(t, r.value.links),
                   outcomes := t.outcomes[OutcomeKey(g, e.key.ref, key) := OutcomeRow(deliveries, related, t.now)],
                   now := t.now + 1))
  }

  /* ---- loading a window ---- */

  function SourceOf(g: Group, ref: Ref): SourceKey {
    SourceKey(g.run.owner, g.run.session, ref)
  }

  /** episodeHasFormationRoles */
  predicate FormationRoles(t: Tables, g: Group) {
    exists s, a | s in t.links && a in t.links ::
      && Gate(t.links.Keys, g, s.source, a.source)
      && SourceOf(g, s.source) in t.sources && SourceOf(g, a.source) in t.sources
      && t.sources[SourceOf(g, a.source)].actor == AgentActor && t.sources[SourceOf(g, a.source)].actorRef == g.run.owner.agent
  }

  /** episodeHasSituationActor */
  predicate SituationBy(t: Tables, g: Group, userOnly: bool) {
    exists l :: l in t.links && l.group == g && l.role == Situation && SourceOf(g, l.source) in t.sources
        && var a := t.sources[SourceOf(g, l.source)].actor; a != AgentActor && a != UnknownActor && (!userOnly || a == User)
  }

  predicate Unique<T(==)>(s: seq<T>) {
    forall i, j :: 0 <= i < j < |s| ==> s[i] != s[j]
  }

  /** loadConsolidationEpisodes and the checks ConsolidateWindow starts with. */
  predicate WindowOk(t: Tables, w: Window) {
    && w.episodes != [] && Unique(w.episodes) && Unique(w.outcomes)
    && (forall i :: 0 <= i < |w.episodes| ==> FormationRoles(t, w.episodes[i]) && w.episodes[i].run.owner == w.episodes[0].run.owner)
  }

  function OwnerOf(w: Window): Owner
    requires w.episodes != []
  {
    w.episodes[0].run.owner
  }

  /* ---- feedback state ---- */

  /** The version was frozen in the run's context for a Situation of this
      Episode, and delivered to the run by `d`. */
  predicate Chain(t: Tables, v: Version, g: Group, d: DeliveryKey) {
    && d in t.deliveries && t.deliveries[d].run == g.run && V(v) in t.deliveries[d].memories
    && g.run in t.contexts && t.contexts[g.run].request == t.deliveries[d].context
    && exists i :: 0 <= i < |t.contexts[g.run].items| && t.contexts[g.run].items[i].version == v
                   && Link(g, t.contexts[g.run].items[i].query, Situation) in t.links
  }

  function ChainReceipts(t: Tables, v: Version, g: Group): set<DeliveryKey> {
    set d | d in t.deliveries && Chain(t, v, g, d)
  }

  function BasisIn(t: Tables, v: Version, roles: set<BasisRole>): set<Group> {
    set b | b in t.basis && b.version == v && b.role in roles :: b.episode
  }

  function OutcomesIn(t: Tables, v: Version, role: BasisRole): set<OutcomeKey> {
    set b | b in t.outcomeBasis && b.version == v && b.role == role :: b.outcome
  }

  function Anchors(t: Tables, v: Version): set<Group> {
    BasisIn(t, v, {Formation, Revision})
  }

  function Consumed(t: Tables, v: Version): set<Group> {
    BasisIn(t, v, {Reenactment, Inhibition})
  }

  datatype Target = Target(
    text: string, episodes: set<Group>, direct: set<Group>, receipts: map<Group, set<DeliveryKey>>,
    outcomes: set<OutcomeKey>, anchors: set<Group>, basis: set<Basis>, outcomeBasis: set<OutcomeBasis>)

  type Targets = map<Version, Target>

  predicate ActiveSeed(t: Tables, v: Version) {
    v in t.versions && v.root.Seed? && t.versions[v].active
  }

  /** Window Episodes through which the version was delivered and that it has not
      already consumed. */
  function FeedbackEpisodes(t: Tables, w: Window, v: Version): set<Group> {
    set g | g in w.episodes && ChainReceipts(t, v, g) != {} && g !in Consumed(t, v)
  }

  predicate NonAgentOutcome(t: Tables, o: OutcomeKey) {
    SourceOf(o.group, o.source) in t.sources && t.sources[SourceOf(o.group, o.source)].actor != AgentActor
  }

  predicate ExternalOutcome(t: Tables, o: OutcomeKey) {
    NonAgentOutcome(t, o) && t.sources[SourceOf(o.group, o.source)].actor != UnknownActor
  }

  /** The Outcomes attributed to a delivery that fed the version. */
  function FeedbackOutcomes(t: Tables, w: Window, v: Version): set<OutcomeKey> {
    set o | o in w.outcomes && o in t.outcomes && o.group in FeedbackEpisodes(t, w, v) && NonAgentOutcome(t, o)
            && t.outcomes[o].deliveries * ChainReceipts(t, v, o.group) != {}
  }

  function DirectEpisodes(t: Tables, w: Window): set<Group> {
    set g | g in w.episodes && SituationBy(t, g, true)
  }

  function LoadTarget(t: Tables, w: Window, hints: set<Version>, v: Version): Target
    requires v in t.versions && w.episodes != []
  {
    var eps := FeedbackEpisodes(t, w, v);
    Target(t.versions[v].text, eps,
           if v in hints && v.root.owner == OwnerOf(w) then DirectEpisodes(t, w) else {},
           map g | g in eps :: ChainReceipts(t, v, g),
           FeedbackOutcomes(t, w, v), Anchors(t, v),
           set b | b in t.basis && b.version == v, set b | b in t.outcomeBasis && b.version == v)
  }

  /** Versions delivered through a window Episode, and, when the window carries a
      user Situation, the offered active Dispositions of the owner. */
  function TargetVersions(t: Tables, w: Window, hints: set<Version>): set<Version> {
    set v | v in t.versions && ActiveSeed(t, v)
            && ((exists g :: g in w.episodes && v.root.owner.tenant == g.run.owner.tenant && ChainReceipts(t, v, g) != {})
                || (v in hints && DirectEpisodes(t, w) != {}))
  }

  predicate AnchorsLoad(t: Tables, v: Version) {
    forall g | g in Anchors(t, v) :: FormationRoles(t, g) && g.run.owner == v.root.owner
  }

  predicate WindowOutcomesOk(t: Tables, w: Window)
    requires w.episodes != []
  {
    forall i :: 0 <= i < |w.outcomes| ==>
      w.outcomes[i] in t.outcomes && w.outcomes[i].group.run.owner == OwnerOf(w) && w.outcomes[i].group in w.episodes
  }

  /** The dispositions offered to the Worker: any active ones of the owner. */
  predicate HintsOk(t: Tables, owner: Owner, hints: set<Version>) {
    forall v | v in hints :: ActiveSeed(t, v) && v.root.owner == owner
  }

  /** loadFeedbackState; None is ErrInvalidWindow. */
  function LoadFeedback(t: Tables, w: Window, hints: set<Version>): Option<Targets>
    requires w.episodes != []
  {
    var vs := TargetVersions(t, w, hints);
    if !(forall v | v in vs :: AnchorsLoad(t, v)) || !WindowOutcomesOk(t, w) then None
    else Some(map v | v in vs :: LoadTarget(t, w, hints, v))
  }

  /* ---- Recollections offered to the Worker ---- */

  datatype Recalled = Recalled(text: string, application: Application, basis: set<Basis>)

  predicate RecalledOk(t: Tables, owner: Owner, recalled: set<Version>) {
    forall v | v in recalled :: v in t.versions && v.root.Recollection? && t.versions[v].active && v.root.owner == owner
  }

  function LoadRecalled(t: Tables, recalled: set<Version>): map<Version, Recalled> {
    map v | v in recalled && v in t.versions ::
      Recalled(t.versions[v].text, t.versions[v].application, set b | b in t.basis && b.version == v)
  }

  /* ---- what the Worker sees ---- */

  datatype Pair = Pair(episode: Group, outcome: OutcomeKey)

  /** Oracle choices of one snapshot or commit: what ranking and the semantic
      index offered. */
  datatype Offer = Offer(hints: set<Version>, recalled: set<Version>, related: set<Group>, focus: seq<Pair>)

  predicate UniqueFormationOutcome(t: Tables, g: Group, o: OutcomeKey) {
    && o in t.outcomes && o.group == g && FormationOutcome(t, o)
    && forall other | other in t.outcomes && other.group == g && FormationOutcome(t, other) :: other == o
  }

  predicate FormationOutcome(t: Tables, o: OutcomeKey) {
    && SourceOf(o.group, o.source) in t.sources
    && var s := t.sources[SourceOf(o.group, o.source)]; s.actor != AgentActor && s.actor != UnknownActor && !Blank(s.text)
  }

  /** loadDispositionFormationPairs: a current anchor and at most two candidates
      from other sessions, each with its one non-Agent Outcome. */
  predicate FocusOk(t: Tables, w: Window, focus: seq<Pair>)
    requires w.episodes != []
  {
    && |focus| <= 3
    && (focus != [] ==> focus[0].episode in w.episodes && focus[0].outcome in w.outcomes)
    && (forall i :: 0 <= i < |focus| ==>
          && FormationRoles(t, focus[i].episode) && SituationBy(t, focus[i].episode, false)
          && focus[i].episode.run.owner == OwnerOf(w) && focus[i].episode.run.session != ""
          && UniqueFormationOutcome(t, focus[i].episode, focus[i].outcome))
    && (forall i, j :: 0 <= i < j < |focus| ==> focus[i].episode.run.session != focus[j].episode.run.session)
  }

  predicate OfferOk(t: Tables, w: Window, offer: Offer)
    requires w.episodes != []
  {
    && HintsOk(t, OwnerOf(w), offer.hints) && RecalledOk(t, OwnerOf(w), offer.recalled)
    && (forall g | g in offer.related :: FormationRoles(t, g) && g.run.owner == OwnerOf(w))
    && FocusOk(t, w, offer.focus)
  }

  function Citable(w: Window, offer: Offer): set<Group> {
    (set g | g in w.episodes) + offer.related + set p | p in offer.focus :: p.episode
  }

  function CitableOutcomes(w: Window, offer: Offer): set<OutcomeKey> {
    (set o | o in w.outcomes) + set p | p in offer.focus :: p.outcome
  }

  /** The rendered request, as the sources it is rendered from. */
  datatype Request = Request(
    window: Window, sources: map<Link, Source>, related: set<Group>, outcomes: map<OutcomeKey, Source>,
    targets: set<Version>, hints: map<Version, string>, recalled: set<Version>, focus: seq<Pair>)

  function Render(t: Tables, w: Window, offer: Offer, targets: Targets): Request {
    var seen := Citable(w, offer) + set v, g | v in targets && g in targets[v].anchors :: g;
    Request(w,
            map l | l in t.links && l.group in seen && l.role != OutcomeRole && SourceOf(l.group, l.source) in t.sources
              :: t.sources[SourceOf(l.group, l.source)],
            offer.related,
            map o | o in CitableOutcomes(w, offer) && SourceOf(o.group, o.source) in t.sources :: t.sources[SourceOf(o.group, o.source)],
            targets.Keys, map v | v in offer.hints && v in t.versions :: t.versions[v].text, offer.recalled, offer.focus)
  }

  /** Everything the snapshot read that the commit compares. */
  datatype Snapshot = Snapshot(targets: Targets, recalled: map<Version, Recalled>, request: Request)

  function TakeSnapshot(t: Tables, w: Window, offer: Offer): (r: Option<Snapshot>)
    ensures r.Some? ==> w.episodes != []
  {
    if !WindowOk(t, w) || !OfferOk(t, w, offer) then None
    else
      var targets := LoadFeedback(t, w, offer.hints);
      if targets.None? then None
      else Some(Snapshot(targets.value, LoadRecalled(t, offer.recalled), Render(t, w, offer, targets.value)))
  }

  /* ---- changes ---- */

  datatype Operation = TextOp | Adapt | Keep | Reenact | Inhibit | UnknownOperation
  datatype TargetName = NewRecollection | NewDisposition | Existing(ref: MemoryRef)
  datatype Change = Change(target: TargetName, op: Operation, application: Application, text: string, basis: seq<MemoryRef>)

  function DispositionApplication(owner: Owner): Application {
    if owner.relationship then Relation else Self
  }

  /* The cited Episodes, and the cited Outcomes, in sorted order in the program;
     here in citation order. */
  function CitedEpisodes(refs: seq<MemoryRef>): seq<Group> {
    if refs == [] then []
    else
      var n := |refs| - 1;
      CitedEpisodes(refs[..n]) + if refs[n].E? then [refs[n].episode] else []
  }

  function CitedOutcomes(refs: seq<MemoryRef>): seq<OutcomeKey> {
    if refs == [] then []
    else
      var n := |refs| - 1;
      CitedOutcomes(refs[..n]) + if refs[n].O? then [refs[n].outcome] else []
  }

  predicate OnlyEvidence(refs: seq<MemoryRef>) {
    forall i :: 0 <= i < |refs| ==> refs[i].E? || refs[i].O?
  }

  predicate OnlyEpisodes(refs: seq<MemoryRef>, allowed: set<Group>) {
    forall i :: 0 <= i < |refs| ==> refs[i].E? && refs[i].episode in allowed
  }

  predicate CitesCurrent(refs: seq<MemoryRef>, current: set<Group>) {
    exists i :: 0 <= i < |refs| && refs[i].E? && refs[i].episode in current
  }

  /** eligibleFormationBasis: two Episodes or more, over two sessions or more,
      with no session-scoped source linked twice among them. */
  predicate FormationBasis(t: Tables, eps: seq<Group>) {
    FormationShape(eps) && Experienced(t, eps) && SourcesDiffer(t, eps)
  }

  predicate FormationShape(eps: seq<Group>) {
    && |eps| >= 2 && Unique(eps)
    && exists i, j :: 0 <= i < |eps| && 0 <= j < |eps| && eps[i].run.session != eps[j].run.session
  }

  predicate Experienced(t: Tables, eps: seq<Group>) {
    forall i :: 0 <= i < |eps| ==> FormationRoles(t, eps[i]) && SituationBy(t, eps[i], false)
  }

  predicate SourcesDiffer(t: Tables, eps: seq<Group>) {
    forall l, m | l in t.links && m in t.links && l != m && l.group in eps && m.group in eps ::
      !(l.group.run.session == m.group.run.session && l.source == m.source)
  }

  /** eligibleDispositionFormationBasis */
  predicate DispositionBasis(t: Tables, refs: seq<MemoryRef>, episodes: set<Group>, outcomes: set<OutcomeKey>) {
    && Unique(refs) && OnlyEvidence(refs)
    && (forall i :: 0 <= i < |refs| && refs[i].E? ==> refs[i].episode in episodes)
    && (forall i :: 0 <= i < |refs| && refs[i].O? ==>
          && refs[i].outcome in outcomes && ExternalOutcome(t, refs[i].outcome)
          && refs[i].outcome.group in CitedEpisodes(refs))
    && FormationBasis(t, CitedEpisodes(refs))
  }

  /** eligibleAdaptationBasis: one current Episode with a user Situation. */
  predicate AdaptationBasis(t: Tables, refs: seq<MemoryRef>, current: set<Group>) {
    |refs| == 1 && refs[0].E? && refs[0].episode in current && SituationBy(t, refs[0].episode, true)
  }

  function Alternating(focus: seq<Pair>): seq<MemoryRef> {
    if focus == [] then []
    else
      var n := |focus| - 1;
      Alternating(focus[..n]) + [E(focus[n].episode), O(focus[n].outcome)]
  }

  /** classifyFeedbackBasis and exactFeedbackEpisodeOutcomeMatch. */
  predicate FeedbackBasis(target: Target, refs: seq<MemoryRef>, allowAnchors: bool) {
    && (forall i :: 0 <= i < |refs| ==>
          || (refs[i].E? && (refs[i].episode in target.episodes || (allowAnchors && refs[i].episode in target.anchors)))
          || (refs[i].O? && refs[i].outcome in target.outcomes))
    && CitedOutcomes(refs) != []
    && (exists i :: 0 <= i < |refs| && refs[i].E? && refs[i].episode in target.episodes)
    && (forall i :: 0 <= i < |refs| && refs[i].O? ==> E(refs[i].outcome.group) in refs)
    && (forall i :: 0 <= i < |refs| && refs[i].E? && refs[i].episode in target.episodes ==>
          exists j :: 0 <= j < |refs| && refs[j].O? && refs[j].outcome.group == refs[i].episode)
  }

  /** What a commit decided on: the window and everything loaded for it. */
  datatype Desk = Desk(window: Window, targets: Targets, recalled: map<Version, Recalled>, offer: Offer)

  function Current(d: Desk): set<Group> {
    set g | g in d.window.episodes
  }

  predicate ValidNewDisposition(t: Tables, d: Desk, c: Change)
    requires d.window.episodes != []
  {
    && c.application == DispositionApplication(OwnerOf(d.window)) && !Blank(c.text) && CitesCurrent(c.basis, Current(d))
    && match c.op
       case Adapt => AdaptationBasis(t, c.basis, Current(d))
       case TextOp =>
         && DispositionBasis(t, c.basis, Citable(d.window, d.offer), CitableOutcomes(d.window, d.offer))
         && (d.offer.focus != [] ==> |d.offer.focus| >= 2 && c.basis == Alternating(d.offer.focus))
       case _ => false
  }

  predicate ValidDispositionChange(t: Tables, d: Desk, v: Version, c: Change)
    requires d.window.episodes != [] && v in d.targets
  {
    var target := d.targets[v];
    && c.application == DispositionApplication(v.root.owner)
    && match c.op
       case Adapt =>
         && |c.basis| == 1 && v.root.owner == OwnerOf(d.window) && !Blank(c.text) && CitesCurrent(c.basis, target.direct)
         && (forall i :: 0 <= i < |c.basis| ==>
               c.basis[i].E? && (c.basis[i].episode in Citable(d.window, d.offer) || (target.episodes != {} && c.basis[i].episode in target.anchors)))
       case Reenact => c.basis != [] && OnlyEpisodes(c.basis, target.episodes)
       case Inhibit => FeedbackBasis(target, c.basis, false)
       case TextOp => FeedbackBasis(target, c.basis, true) && !Blank(c.text)
       case _ => false
  }

  predicate ValidRecollectionChange(d: Desk, v: Version, c: Change)
    requires v in d.recalled
  {
    && c.application == d.recalled[v].application
    && c.basis != [] && OnlyEpisodes(c.basis, Citable(d.window, d.offer)) && CitesCurrent(c.basis, Current(d))
    && (c.op == Keep || (c.op == TextOp && !Blank(c.text)))
  }

  /** One element of validConsolidationChanges. */
  predicate ValidChange(t: Tables, d: Desk, c: Change)
    requires d.window.episodes != []
  {
    && Unique(c.basis)
    && match c.target
       case NewRecollection =>
         && c.op == TextOp && !Blank(c.text) && c.application != UnknownApplication
         && c.basis != [] && OnlyEpisodes(c.basis, Citable(d.window, d.offer)) && CitesCurrent(c.basis, Current(d))
       case NewDisposition => ValidNewDisposition(t, d, c)
       case Existing(ref) =>
         && ref.V?
         && (ref.version in d.recalled || ref.version in d.targets)
         && (if ref.version in d.recalled then ValidRecollectionChange(d, ref.version, c)
             else ValidDispositionChange(t, d, ref.version, c))
  }

  /** validConsolidationChanges: every change, and no existing target twice. */
  predicate ValidChanges(t: Tables, d: Desk, changes: seq<Change>)
    requires d.window.episodes != []
  {
    && (forall i :: 0 <= i < |changes| ==> ValidChange(t, d, changes[i]))
    && (forall i, j :: 0 <= i < j < |changes| && changes[i].target.Existing? ==> changes[i].target != changes[j].target)
  }

  /* ---- applying changes ---- */

  datatype Applied = Applied(tables: Tables, receipt: Receipt)

  predicate TextTaken(t: Tables, owner: Owner, seed: bool, application: Application, text: string, except: set<Version>) {
    exists v :: v in t.versions && t.versions[v].active && v.root.owner == owner && v.root.Seed? == seed && v !in except
                && (seed || t.versions[v].application == application) && t.versions[v].text == text
  }

  function Links(v: Version, eps: seq<Group>, role: BasisRole): set<Basis> {
    set g | g in eps :: Basis(v, g, role)
  }

  function OutcomeLinks(v: Version, outs: seq<OutcomeKey>, role: BasisRole): set<OutcomeBasis> {
    set o | o in outs :: OutcomeBasis(v, o, role)
  }

  function Note(r: Receipt, v: Version): Receipt {
    if v.root.Seed? then r.(dispositions := r.dispositions + {v}) else r.(recollections := r.recollections + {v})
  }

  /** Insert a first version; None is a primary-key violation. */
  function Form(a: Applied, root: Root, text: string, application: Application, outs: seq<OutcomeKey>): Option<Applied> {
    var t, v := a.tables, Version(root, 1);
    if v in t.versions then None
    else Some(Applied(
      t.(versions := t.versions[v := VersionRow(text, application, true, root.job, t.now)],
         basis := t.basis + Links(v, root.episodes, Formation), outcomeBasis := t.outcomeBasis + OutcomeLinks(v, outs, Formation)),
      Note(a.receipt, v)))
  }

  /** Supersede and insert; None is ErrWindowStale or a primary-key violation. */
  function Revise(a: Applied, v: Version, text: string, job: Ref, eps: seq<Group>, outs: seq<OutcomeKey>): Option<Applied> {
    var t, next := a.tables, Version(v.root, v.number + 1);
    if v !in t.versions || !t.versions[v].active || next in t.versions then None
    else Some(Applied(
      t.(versions := t.versions[v := t.versions[v].(active := false)]
                       [next := VersionRow(text, t.versions[v].application, true, job, t.now)],
         basis := t.basis + Links(next, eps, Revision), outcomeBasis := t.outcomeBasis + OutcomeLinks(next, outs, Revision)),
      Note(a.receipt, next)))
  }

  /** applyReenactment: one Episode per run that has not contributed yet. */
  function ReenactAll(t: Tables, v: Version, eps: seq<Group>): Tables {
    if eps == [] then t
    else
      var n := |eps| - 1;
      var t' := ReenactAll(t, v, eps[..n]);
      if exists g :: g in BasisIn(t', v, {Reenactment}) && g.run == eps[n].run then t'
      else t'.(basis := t'.basis + {Basis(v, eps[n], Reenactment)})
  }

  function ApplyNew(a: Applied, d: Desk, c: Change): Option<Applied>
    requires d.window.episodes != []
  {
    var owner, text, eps := OwnerOf(d.window), Trim(c.text), CitedEpisodes(c.basis);
    if c.target == NewRecollection then
      if TextTaken(a.tables, owner, false, c.application, text, {}) then Some(a)
      else Form(a, Recollection(owner, d.window.job, c.application, text, eps), text, c.application, [])
    else
      var outs := if c.op == Adapt then [] else CitedOutcomes(c.basis);
      if TextTaken(a.tables, owner, true, Self, text, {}) then Some(a)
      else Form(a, Seed(owner, d.window.job, text, eps, outs), text, DispositionApplication(owner), outs)
  }

  function ApplyRecollection(a: Applied, d: Desk, v: Version, c: Change): Option<Applied>
    requires v in d.recalled
  {
    var eps, text := CitedEpisodes(c.basis), Trim(c.text);
    if c.op == Keep then Some(a.(tables := a.tables.(basis := a.tables.basis + Links(v, eps, Support))))
    else if text == "" || text == d.recalled[v].text || TextTaken(a.tables, v.root.owner, false, d.recalled[v].application, text, {v})
    then Some(a)
    else Revise(a, v, text, d.window.job, eps, [])
  }

  /** An Episode already standing behind the version rejects the whole change. */
  function ApplyReenact(a: Applied, v: Version, eps: seq<Group>): Applied {
    if exists b :: b in a.tables.basis && b.version == v && b.episode in eps then a
    else a.(tables := ReenactAll(a.tables, v, eps))
  }

  function ApplyInhibit(a: Applied, v: Version, eps: seq<Group>, outs: seq<OutcomeKey>): Applied {
    a.(tables := a.tables.(basis := a.tables.basis + Links(v, eps, Inhibition),
                           outcomeBasis := a.tables.outcomeBasis + OutcomeLinks(v, outs, Inhibition)))
  }

  function ApplyRevision(a: Applied, d: Desk, v: Version, c: Change): Option<Applied>
    requires v in d.targets
  {
    if c.text == "" || c.text == d.targets[v].text || TextTaken(a.tables, v.root.owner, true, Self, c.text, {v}) then Some(a)
    else Revise(a, v, c.text, d.window.job, CitedEpisodes(c.basis), if c.op == Adapt then [] else CitedOutcomes(c.basis))
  }

  function ApplyDisposition(a: Applied, d: Desk, v: Version, c: Change): Option<Applied>
    requires v in d.targets
  {
    match c.op
    case Reenact => Some(ApplyReenact(a, v, CitedEpisodes(c.basis)))
    case Inhibit => Some(ApplyInhibit(a, v, CitedEpisodes(c.basis), CitedOutcomes(c.basis)))
    case _ => ApplyRevision(a, d, v, c)
  }

  function ApplyChange(a: Applied, d: Desk, c: Change): Option<Applied>
    requires d.window.episodes != []
  {
    match c.target
    case Existing(ref) =>
      if ref.V? && ref.version in d.recalled then ApplyRecollection(a, d, ref.version, c)
      else if ref.V? && ref.version in d.targets then ApplyDisposition(a, d, ref.version, c)
      else Some(a)
    case _ => ApplyNew(a, d, c)
  }

  function ApplyAll(a: Applied, d: Desk, changes: seq<Change>): Option<Applied>
    requires d.window.episodes != []
    decreases |changes|
  {
    if changes == [] then Some(a)
    else
      var n := |changes| - 1;
      var before := ApplyAll(a, d, changes[..n]);
      if before.None? then None else ApplyChange(before.value, d, changes[n])
  }

  /* ---- the commit ---- */

  /** loadConsolidationReceipt: rebuilt from the version tables by origin job. */
  function RebuildReceipt(t: Tables, key: ReceiptKey): Receipt {
    Receipt(set v | v in t.versions && v.root.Recollection? && v.root.owner.tenant == key.tenant && t.versions[v].job == key.job,
            set v | v in t.versions && v.root.Seed? && v.root.owner.tenant == key.tenant && t.versions[v].job == key.job)
  }

  datatype Committed = Done(tables: Tables) | Replayed(receipt: Receipt) | WindowConflict | InvalidWindow | Stale | Aborted

  function KeyOf(w: Window): ReceiptKey
    requires w.episodes != []
  {
    ReceiptKey(OwnerOf(w).tenant, w.job)
  }

  /** Everything before the Worker's changes are looked at; None is to go on. */
  function Examine(t: Tables, w: Window, offer: Offer, snap: Snapshot): (r: Option<Committed>)
    ensures r.None? ==> w.episodes != []
  {
    if w.episodes == [] then Some(InvalidWindow)
    else if KeyOf(w) in t.receipts then
      Some(if t.receipts[KeyOf(w)] == w then Replayed(RebuildReceipt(t, KeyOf(w))) else WindowConflict)
    else
      var loaded := TakeSnapshot(t, w, offer);
      if loaded.None? then Some(InvalidWindow) else if loaded.value != snap then Some(Stale) else None
  }

  /** ConsolidateWindow up to its first receipt look-up; None is to go on. */
  function FirstLook(t: Tables, w: Window): Option<Committed> {
    if !WindowOk(t, w) then Some(InvalidWindow)
    else if KeyOf(w) in t.receipts then
      Some(if t.receipts[KeyOf(w)] == w then Replayed(RebuildReceipt(t, KeyOf(w))) else WindowConflict)
    else None
  }

  /** A batch with any invalid change is applied as an empty one. */
  function Chosen(t: Tables, d: Desk, changes: seq<Change>): seq<Change>
    requires d.window.episodes != []
  {
    if ValidChanges(t, d, changes) then changes else []
  }

  /** The commit's last inserts: the receipt row, and what the caller receives. */
  function FreezeReceipt(a: Applied, w: Window): Tables
    requires w.episodes != []
  {
    a.tables.(receipts := a.tables.receipts[KeyOf(w) := w], returned := a.tables.returned[KeyOf(w) := a.receipt], now := a.tables.now + 1)
  }

  function CommitTx(t: Tables, w: Window, offer: Offer, snap: Snapshot, changes: seq<Change>): Committed {
    var early := Examine(t, w, offer, snap);
    if early.Some? then early.value
    else
      var d := Desk(w, snap.targets, snap.recalled, offer);
      var applied := ApplyAll(Applied(t, Receipt({}, {})), d, Chosen(t, d, changes));
      if applied.None? then Aborted else Done(FreezeReceipt(applied.value, w))
  }

  /* ---- runs ---- */

  datatype State = State(tables: Tables, snapshots: map<nat, (Window, Snapshot)>)

  datatype Step =
    | ObserveStep(event: Event, binding: Binding)
    | SelectStep(request: SelectRequest, picks: seq<Pick>, evidence: seq<Exhibit>)
    | DeliverStep(key: Ref, run: Run, context: SelectRequest, memories: set<MemoryRef>)
    | OutcomeStep(key: Ref, event: Event, runRef: Ref, group: Ref, deliveries: set<DeliveryKey>, related: set<Ref>)
    | SnapshotStep(pid: nat, window: Window, offer: Offer)
    /** The Worker answered with any changes at all. */
    | CommitStep(pid: nat, offer: Offer, changes: seq<Change>)

  function Settle(t: Tables, r: Option<Tables>): Tables {
    if r.None? then t else r.value
  }

  function CommitResult(t: Tables, r: Committed): Tables {
    if r.Done? then r.tables else t
  }

  /** A failing transaction is rolled back and changes nothing. */
  function TablesAfter(s: State, step: Step): Tables {
    var t := s.tables;
    match step
    case ObserveStep(e, b) => Settle(t, ObserveTx(t, e, b))
    case SelectStep(r, picks, evidence) => Settle(t, SelectTx(t, r, picks, evidence))
    case DeliverStep(key, run, context, memories) => Settle(t, DeliverTx(t, key, run, context, memories))
    case OutcomeStep(key, e, run, group, deliveries, related) => Settle(t, OutcomeTx(t, key, e, run, group, deliveries, related))
    case SnapshotStep(_, _, _) => t
    case CommitStep(pid, offer, changes) =>
      if pid !in s.snapshots then t else CommitResult(t, CommitTx(t, s.snapshots[pid].0, offer, s.snapshots[pid].1, changes))
  }

  function SnapshotsAfter(s: State, step: Step): map<nat, (Window, Snapshot)> {
    match step
    case SnapshotStep(pid, w, offer) =>
      var snap := TakeSnapshot(s.tables, w, offer);
      if snap.None? || KeyOf(w) in s.tables.receipts then s.snapshots else s.snapshots[pid := (w, snap.value)]
    case CommitStep(pid, _, _) => s.snapshots - {pid}
    case _ => s.snapshots
  }

  function Do(s: State, step: Step): State {
    State(TablesAfter(s, step), SnapshotsAfter(s, step))
  }

  ghost predicate Runs(s: State, steps: seq<Step>, s': State)
    decreases |steps|
  {
    if steps == [] then s == s' else Runs(Do(s, steps[0]), steps[1..], s')
  }

  ghost predicate Reachable(s: State) {
    exists steps :: Runs(State(Empty(), map[]), steps, s)
  }
}
