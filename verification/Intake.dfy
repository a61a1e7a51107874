/** The relational intake: cached episode_ref columns instead of recomputation,
    request receipts claimed by idempotency key, and Outcome rows back-filled when
    their group materializes. */
module Intake {
  import opened Refs
  import opened Causal

  datatype RequestKey = RequestKey(tenant: Ref, key: Ref)
  datatype Request = Request(event: Event, binding: Binding)
  datatype ObserveReceipt = ObserveReceipt(source: Ref, episode: Option<Group>)
  datatype Claim = Claim(request: Request, receipt: ObserveReceipt)

  datatype OutcomeId = OutcomeId(group: Group, source: Ref, key: Ref)

  /** `None` is an empty episode_ref. */
  datatype Tables = Tables(
    sources: Sources, links: map<Link, Option<Group>>, episodes: set<Group>,
    outcomes: map<OutcomeId, Option<Group>>, claims: map<RequestKey, Claim>)

  function CachedRef(links: set<Link>, g: Group): Option<Group> {
    if Materialized(links, g) then Some(g) else None
  }

  /** Every cached column says what recomputing the snapshot would say. */
  ghost predicate Cached(t: Tables) {
    forall g :: CachedFor(t, g)
  }

  predicate CachedFor(t: Tables, g: Group) {
    && (g in t.episodes <==> Materialized(t.links.Keys, g))
    && (forall l | l in t.links && l.group == g :: t.links[l] == CachedRef(t.links.Keys, g))
    && (forall o | o in t.outcomes && o.group == g :: t.outcomes[o] == CachedRef(t.links.Keys, g))
  }

  /* ---- admitSource and appendLinkAndMaterialize ---- */

  function AdmitSource(t: Tables, e: Event): Result<Tables> {
    if e.key in t.sources && t.sources[e.key] != e.source then Err(SourceConflict)
    else Ok(t.(sources := t.sources[e.key := e.source]))
  }

  datatype Appended = Appended(tables: Tables, episode: Option<Group>, changed: bool)

  /** INSERT INTO episodes, then UPDATE the group's links and its unbound Outcomes. */
  function Materialize(t: Tables, g: Group): Tables {
    t.(episodes := t.episodes + {g},
       links := map l | l in t.links :: if l.group == g then Some(g) else t.links[l],
       outcomes := map o | o in t.outcomes :: if o.group == g && t.outcomes[o].None? then Some(g) else t.outcomes[o])
  }

  function Append(t: Tables, link: Link): Result<Appended> {
    var g := link.group;
    if g in t.episodes then
      if link in t.links then Ok(Appended(t, Some(g), false))
      else if link.role != OutcomeRole then Err(Sealed)
      else Ok(Appended(t.(links := t.links[link := Some(g)]), Some(g), true))
    else
      var inserted := link !in t.links;
      var t' := if inserted then t.(links := t.links[link := None]) else t;
      if !Materialized(t'.links.Keys, g) then Ok(Appended(t', None, inserted))
      else Ok(Appended(Materialize(t', g), Some(g), true))
  }

  /** The claimed part of Observe, and of ReportOutcome up to its own insert. */
  function Admit(t: Tables, e: Event, b: Binding): Result<Appended> {
    if !ValidEvent(e) then Err(InvalidSource)
    else if !ValidBinding(e, b) then Err(InvalidBinding)
    else
      var admitted := AdmitSource(t, e);
      if admitted.Err? then Err(admitted.error)
      else if !Complete(b) then Ok(Appended(admitted.value, None, false))
      else Append(admitted.value, Link(GroupOf(e, b), e.key.ref, b.role))
  }

  /* ---- refinement ---- */

  lemma OnlyThisGroup(links: set<Link>, link: Link, g: Group)
    requires g != link.group
    ensures Materialized(links + {link}, g) <==> Materialized(links, g)
  {
    if Materialized(links + {link}, g) {
      var s, a :| s in links + {link} && a in links + {link} && Gate(links + {link}, g, s.source, a.source);
      GateMaterializes(links, g, s.source, a.source);
    }
    if Materialized(links, g) {
      MaterializedGrows(links, links + {link}, g);
    }
  }

  /** The rows of other groups are left alone. */
  ghost predicate OthersSame(t: Tables, t': Tables, g: Group) {
    && (forall h | h != g :: h in t'.episodes <==> h in t.episodes)
    && (forall l | l in t'.links && l.group != g :: l in t.links && t'.links[l] == t.links[l])
    && (forall o | o in t'.outcomes && o.group != g :: o in t.outcomes && t'.outcomes[o] == t.outcomes[o])
  }

  lemma OthersCached(t: Tables, t': Tables, link: Link, h: Group)
    requires CachedFor(t, h) && h != link.group && OthersSame(t, t', link.group) && t'.links.Keys == t.links.Keys + {link}
    ensures CachedFor(t', h)
  {
    OnlyThisGroup(t.links.Keys, link, h);
  }

  ghost predicate AppendedOk(t: Tables, link: Link, a: Appended) {
    && a.tables.links.Keys == t.links.Keys + {link} && a.episode == CachedRef(a.tables.links.Keys, link.group)
    && (a.changed <==> link !in t.links) && OthersSame(t, a.tables, link.group) && CachedFor(a.tables, link.group)
    && a.tables.sources == t.sources && a.tables.claims == t.claims && a.tables.outcomes.Keys == t.outcomes.Keys
  }

  /** The group is sealed already. */
  lemma AppendToSealed(t: Tables, link: Link)
    requires CachedFor(t, link.group) && link.group in t.episodes && Append(t, link).Ok?
    ensures AppendedOk(t, link, Append(t, link).value)
  {
    MaterializedGrows(t.links.Keys, t.links.Keys + {link}, link.group);
    if link in t.links {
      assert t.links.Keys + {link} == t.links.Keys;
    }
  }

  /** The group was open; the link may complete it. */
  lemma AppendToOpen(t: Tables, link: Link)
    requires CachedFor(t, link.group) && link.group !in t.episodes
    ensures Append(t, link).Ok? && AppendedOk(t, link, Append(t, link).value)
  {
    var t' := if link in t.links then t else t.(links := t.links[link := None]);
    assert t'.links.Keys == t.links.Keys + {link};
    if Materialized(t'.links.Keys, link.group) {
      MaterializeCaches(t', link.group);
      assert link !in t.links;
    }
  }

  lemma MaterializeCaches(t: Tables, g: Group)
    requires Materialized(t.links.Keys, g)
    requires forall o | o in t.outcomes && o.group == g :: t.outcomes[o].None?
    ensures CachedFor(Materialize(t, g), g) && OthersSame(t, Materialize(t, g), g)
    ensures Materialize(t, g).links.Keys == t.links.Keys && Materialize(t, g).outcomes.Keys == t.outcomes.Keys
  {
  }

  /** Appending through the cache agrees with recomputing: same error, same links,
      same Episode; `changed` is true exactly for a new link; the cache stays exact. */
  lemma AppendRefines(t: Tables, link: Link)
    requires Cached(t)
    ensures Append(t, link).Err? <==> link !in t.links && Materialized(t.links.Keys, link.group) && link.role != OutcomeRole
    ensures Append(t, link).Err? ==> Append(t, link) == Err(Sealed)
    ensures Append(t, link).Ok? ==> AppendedOk(t, link, Append(t, link).value) && Cached(Append(t, link).value.tables)
  {
    assert CachedFor(t, link.group);
    if Append(t, link).Ok? {
      if link.group in t.episodes {
        AppendToSealed(t, link);
      } else {
        AppendToOpen(t, link);
      }
      var t' := Append(t, link).value.tables;
      forall h ensures CachedFor(t', h) {
        if h != link.group {
          OthersCached(t, t', link, h);
        }
      }
    }
  }

  lemma AdmitRefines(t: Tables, e: Event, b: Binding)
    requires Cached(t)
    ensures match Observe(t.sources, t.links.Keys, e, b)
            case Err(error) => Admit(t, e, b) == Err(error)
            case Ok(r) =>
              && Admit(t, e, b).Ok?
              && var a := Admit(t, e, b).value;
                 && a.tables.sources == r.sources && a.tables.links.Keys == r.links && a.episode == r.episode && Cached(a.tables)
                 && a.tables.claims == t.claims && a.tables.outcomes.Keys == t.outcomes.Keys
                 && (Complete(b) ==> (a.changed <==> r.links != t.links.Keys))
  {
    if ValidEvent(e) && ValidBinding(e, b) && AdmitSource(t, e).Ok? {
      var t1 := AdmitSource(t, e).value;
      forall h ensures CachedFor(t1, h) {
        assert CachedFor(t, h);
      }
      if Complete(b) {
        AppendRefines(t1, Link(GroupOf(e, b), e.key.ref, b.role));
      }
    }
  }

  /* ---- idempotent calls ---- */

  datatype Reply = Replied(receipt: ObserveReceipt) | InvalidKey | IdempotencyConflict | Rejected(error: Error)
  datatype Call = Call(tables: Tables, reply: Reply)

  /** Observe: claim the key, or answer from the claim; a failure rolls back. */
  function ObserveCall(t: Tables, key: Ref, e: Event, b: Binding): Call {
    var k := RequestKey(e.key.owner.tenant, key);
    if !ValidStableRef(key) then Call(t, InvalidKey)
    else if !ValidEvent(e) then Call(t, Rejected(InvalidSource))
    else if !ValidBinding(e, b) then Call(t, Rejected(InvalidBinding))
    else if k in t.claims then
      Call(t, if t.claims[k].request == Request(e, b) then Replied(t.claims[k].receipt) else IdempotencyConflict)
    else
      var r := Admit(t, e, b);
      if r.Err? then Call(t, Rejected(r.error))
      else
        var receipt := ObserveReceipt(e.key.ref, r.value.episode);
        Call(r.value.tables.(claims := r.value.tables.claims[k := Claim(Request(e, b), receipt)]), Replied(receipt))
  }

  /** ReportOutcome's intake: link as an Outcome, then insert the Outcome row with
      the Episode just returned. */
  function OutcomeCall(t: Tables, key: Ref, e: Event, run: Ref, group: Ref): Result<Appended> {
    var r := Admit(t, e, Binding(run, group, OutcomeRole));
    if r.Err? || run == "" || group == "" then (if r.Err? then r else Err(InvalidBinding))
    else
      var o := OutcomeId(Group(Run(e.key.owner, e.key.session, run), group), e.key.ref, key);
      Ok(r.value.(tables := r.value.tables.(outcomes := r.value.tables.outcomes[o := r.value.episode])))
  }

  lemma OutcomeRefines(t: Tables, key: Ref, e: Event, run: Ref, group: Ref)
    requires Cached(t) && run != "" && group != ""
    ensures match Observe(t.sources, t.links.Keys, e, Binding(run, group, OutcomeRole))
            case Err(error) => OutcomeCall(t, key, e, run, group) == Err(error)
            case Ok(r) =>
              && OutcomeCall(t, key, e, run, group).Ok?
              && var a := OutcomeCall(t, key, e, run, group).value;
                 a.tables.sources == r.sources && a.tables.links.Keys == r.links && a.episode == r.episode && Cached(a.tables)
  {
    var b := Binding(run, group, OutcomeRole);
    AdmitRefines(t, e, b);
    if Admit(t, e, b).Ok? {
      var a := Admit(t, e, b).value;
      assert a.episode == CachedRef(a.tables.links.Keys, GroupOf(e, b));
      var t' := OutcomeCall(t, key, e, run, group).value.tables;
      forall h ensures CachedFor(t', h) {
        assert CachedFor(a.tables, h);
      }
    }
  }

  /* ---- sequences of calls ---- */

  datatype Command =
    | ObserveCmd(key: Ref, event: Event, binding: Binding)
    | OutcomeCmd(key: Ref, event: Event, run: Ref, group: Ref)

  function Step(t: Tables, c: Command): Tables {
    match c
    case ObserveCmd(key, e, b) => ObserveCall(t, key, e, b).tables
    case OutcomeCmd(key, e, run, group) =>
      var r := OutcomeCall(t, key, e, run, group);
      if r.Ok? then r.value.tables else t
  }

  function After(t: Tables, cs: seq<Command>): Tables
    decreases |cs|
  {
    if cs == [] then t else After(Step(t, cs[0]), cs[1..])
  }

  function Start(): Tables {
    Tables(map[], map[], {}, map[], map[])
  }

  lemma StepKeepsCache(t: Tables, c: Command)
    requires Cached(t)
    ensures Cached(Step(t, c)) && Grows(t, Step(t, c))
  {
    match c
    case ObserveCmd(key, e, b) => ObserveKeepsCache(t, key, e, b);
    case OutcomeCmd(key, e, run, group) =>
      if run != "" && group != "" {
        OutcomeRefines(t, key, e, run, group);
        AdmitGrows(t, e, Binding(run, group, OutcomeRole));
      }
  }

  lemma ObserveKeepsCache(t: Tables, key: Ref, e: Event, b: Binding)
    requires Cached(t)
    ensures var t' := ObserveCall(t, key, e, b).tables;
            Cached(t') && Grows(t, t')
  {
    AdmitGrows(t, e, b);
    forall h ensures CachedFor(ObserveCall(t, key, e, b).tables, h) {
      assert CachedFor(t, h);
      assert Admit(t, e, b).Ok? ==> CachedFor(Admit(t, e, b).value.tables, h);
    }
  }

  /** Links and claims are kept, and a sealed Episode gains only Outcomes. */
  ghost predicate Grows(t: Tables, t': Tables) {
    && t.links.Keys <= t'.links.Keys
    && (forall k | k in t.claims :: k in t'.claims && t'.claims[k] == t.claims[k])
    && (forall l | l in t'.links && l !in t.links && Materialized(t.links.Keys, l.group) :: l.role == OutcomeRole)
  }

  lemma AdmitGrows(t: Tables, e: Event, b: Binding)
    requires Cached(t)
    ensures Admit(t, e, b).Ok? ==>
              && Cached(Admit(t, e, b).value.tables) && Grows(t, Admit(t, e, b).value.tables)
              && Admit(t, e, b).value.tables.claims == t.claims
  {
    AdmitRefines(t, e, b);
    if Observe(t.sources, t.links.Keys, e, b).Ok? {
      ObserveOnlyAdds(t.sources, t.links.Keys, e, b);
    }
  }

  /** After any sequence of calls: cached refs are exact, claimed receipts are
      frozen, and links of a sealed Episode changed only by Outcomes. */
  lemma {:induction false} IntakeStaysExact(t: Tables, cs: seq<Command>)
    requires Cached(t)
    ensures Cached(After(t, cs)) && t.links.Keys <= After(t, cs).links.Keys
    ensures forall k | k in t.claims :: k in After(t, cs).claims && After(t, cs).claims[k] == t.claims[k]
    ensures forall l | l in After(t, cs).links && l !in t.links && Materialized(t.links.Keys, l.group) :: l.role == OutcomeRole
    decreases |cs|
  {
    if cs != [] {
      var t1 := Step(t, cs[0]);
      StepKeepsCache(t, cs[0]);
      IntakeStaysExact(t1, cs[1..]);
      forall l | l in After(t, cs).links && l !in t.links && Materialized(t.links.Keys, l.group) ensures l.role == OutcomeRole {
        MaterializedGrows(t.links.Keys, t1.links.Keys, l.group);
      }
    }
  }

  /** From the empty store every reply is the Ledger's: the receipt names the
      Episode that recomputing the snapshot gives, and errors coincide. */
  lemma IntakeRefinesLedger(cs: seq<Command>, key: Ref, e: Event, b: Binding)
    requires ValidStableRef(key) && RequestKey(e.key.owner.tenant, key) !in After(Start(), cs).claims
    ensures var t := After(Start(), cs);
            match Observe(t.sources, t.links.Keys, e, b)
            case Err(error) => ObserveCall(t, key, e, b) == Call(t, Rejected(error))
            case Ok(r) =>
              var c := ObserveCall(t, key, e, b);
              && c.reply == Replied(ObserveReceipt(e.key.ref, r.episode)) && c.tables.sources == r.sources
              && c.tables.links.Keys == r.links && (forall g :: g in c.tables.episodes <==> Materialized(r.links, g))
  {
    IntakeStaysExact(Start(), cs);
    var t := After(Start(), cs);
    AdmitRefines(t, e, b);
    if Admit(t, e, b).Ok? {
      forall g ensures g in Admit(t, e, b).value.tables.episodes <==> Materialized(Admit(t, e, b).value.tables.links.Keys, g) {
        assert CachedFor(Admit(t, e, b).value.tables, g);
      }
    }
  }

  /** A claimed key answers with its first receipt in every later state, and a
      different request under it always conflicts and changes nothing. */
  lemma ClaimsReplay(t: Tables, key: Ref, e: Event, b: Binding, cs: seq<Command>, e2: Event, b2: Binding)
    requires Cached(t) && ObserveCall(t, key, e, b).reply.Replied? && ValidEvent(e2) && ValidBinding(e2, b2)
    requires e2.key.owner.tenant == e.key.owner.tenant
    ensures var t' := After(ObserveCall(t, key, e, b).tables, cs);
            ObserveCall(t', key, e2, b2) ==
            Call(t', if Request(e2, b2) == Request(e, b) then ObserveCall(t, key, e, b).reply else IdempotencyConflict)
  {
    StepKeepsCache(t, ObserveCmd(key, e, b));
    IntakeStaysExact(ObserveCall(t, key, e, b).tables, cs);
  }

  /* ---- the tables in place ---- */

  class IntakeStore {
    var sources: Sources
    var links: map<Link, Option<Group>>
    var episodes: set<Group>
    var outcomes: map<OutcomeId, Option<Group>>
    var claims: map<RequestKey, Claim>

    function View(): Tables
      reads this
    {
      Tables(sources, links, episodes, outcomes, claims)
    }

    constructor ()
      ensures View() == Start()
    {
      sources, links, episodes, outcomes, claims := map[], map[], {}, map[], map[];
    }

    /** admitSource */
    method AdmitEvent(e: Event) returns (ok: bool)
      modifies this`sources
      ensures ok <==> AdmitSource(old(View()), e).Ok?
      ensures View() == if ok then AdmitSource(old(View()), e).value else old(View())
    {
      ok := e.key !in sources || sources[e.key] == e.source;
      if ok && e.key !in sources {
        sources := sources[e.key := e.source];
      }
      assert e.key in old(sources) && ok ==> old(sources)[e.key := e.source] == old(sources);
    }

    /** appendLinkAndMaterialize */
    method AppendLinkAndMaterialize(link: Link) returns (r: Result<(Option<Group>, bool)>)
      modifies this`links, this`episodes, this`outcomes
      ensures match Append(old(View()), link)
              case Err(error) => r == Err(error) && View() == old(View())
              case Ok(a) => r == Ok((a.episode, a.changed)) && View() == a.tables
    {
      var g := link.group;
      if g in episodes {
        if link in links {
          return Ok((Some(g), false));
        }
        if link.role != OutcomeRole {
          return Err(Sealed);
        }
        links := links[link := Some(g)];
        return Ok((Some(g), true));
      }
      var inserted := link !in links;
      if inserted {
        links := links[link := None];
      }
      var complete := Materialized(links.Keys, g);
      if !complete {
        return Ok((None, inserted));
      }
      episodes := episodes + {g};
      links := map l | l in links :: if l.group == g then Some(g) else links[l];
      outcomes := map o | o in outcomes :: if o.group == g && outcomes[o].None? then Some(g) else outcomes[o];
      r := Ok((Some(g), true));
    }

    /** Observe: one transaction, rolled back on any error. */
    method ObserveEvent(key: Ref, e: Event, b: Binding) returns (reply: Reply)
      modifies this
      ensures Call(View(), reply) == ObserveCall(old(View()), key, e, b)
    {
      var k := RequestKey(e.key.owner.tenant, key);
      var validKey, validEvent, validBinding := ValidStableRef(key), ValidEvent(e), ValidBinding(e, b);
      if !validKey {
        return InvalidKey;
      }
      if !validEvent {
        return Rejected(InvalidSource);
      }
      if !validBinding {
        return Rejected(InvalidBinding);
      }
      if k in claims {
        return if claims[k].request == Request(e, b) then Replied(claims[k].receipt) else IdempotencyConflict;
      }
      var before := sources;
      var admitted := AdmitEvent(e);
      if !admitted {
        return Rejected(SourceConflict);
      }
      var episode: Option<Group> := None;
      if Complete(b) {
        var r := AppendLinkAndMaterialize(Link(GroupOf(e, b), e.key.ref, b.role));
        if r.Err? {
          sources := before;
          return Rejected(r.error);
        }
        episode := r.value.0;
      }
      var receipt := ObserveReceipt(e.key.ref, episode);
      claims := claims[k := Claim(Request(e, b), receipt)];
      reply := Replied(receipt);
    }
  }
}
