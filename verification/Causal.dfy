/** Causal intake as the in-memory Ledger defines it: immutable sources, typed
    links in run/source groups, and Episodes sealed once a Situation and a
    distinct AgentAct are linked. */
module Causal {
  import opened Refs

  datatype Run = Run(owner: Owner, session: Ref, run: Ref)
  /** A stable group. EpisodeRef hashes exactly these fields, so the group is the
      Episode's identity. */
  datatype Group = Group(run: Run, group: Ref)
  datatype Role = Situation | AgentAct | OutcomeRole | UnknownRole
  datatype Actor = AgentActor | User | System | Tool | External | UnknownActor
  datatype Constitution = Constitution(ref: Ref, text: string)

  datatype SourceKey = SourceKey(owner: Owner, session: Ref, ref: Ref)
  datatype Source = Source(actor: Actor, actorRef: Ref, text: string, constitution: Constitution)
  datatype Event = Event(key: SourceKey, source: Source)
  datatype Binding = Binding(run: Ref, group: Ref, role: Role)
  datatype Link = Link(group: Group, source: Ref, role: Role)

  datatype Error = InvalidSource | InvalidBinding | SourceConflict | Sealed
  datatype Result<+T> = Ok(value: T) | Err(error: Error)

  /* ---- Validate ---- */

  predicate ValidConstitution(c: Constitution) {
    && '\0' !in c.ref && '\0' !in c.text && (c.ref == "" <==> c.text == "")
    && (c.ref != "" ==> ValidStableRef(c.ref) && NoSpace(c.ref)) && ByteLength(c.text) <= MaxSourceTextBytes
  }

  predicate ValidEvent(e: Event) {
    && ValidConstitution(e.source.constitution) && ValidStableRef(e.key.ref)
    && ValidOwner(e.key.owner) && ValidOptionalRef(e.key.session)
    && e.source.actor != UnknownActor && ValidStableRef(e.source.actorRef)
    && e.source.text != "" && ByteLength(e.source.text) <= MaxSourceTextBytes
  }

  predicate Complete(b: Binding) {
    b.run != "" && b.group != ""
  }

  predicate ValidBinding(e: Event, b: Binding) {
    && ValidOptionalRef(b.run) && ValidOptionalRef(b.group)
    && (Complete(b) ==>
          && b.role != UnknownRole
          && (b.role == AgentAct ==> e.source.actor == AgentActor && e.source.actorRef == e.key.owner.agent))
  }

  function GroupOf(e: Event, b: Binding): Group {
    Group(Run(e.key.owner, e.key.session, b.run), b.group)
  }

  /* ---- materialization ---- */

  predicate Gate(links: set<Link>, g: Group, situation: Ref, act: Ref) {
    Link(g, situation, Situation) in links && Link(g, act, AgentAct) in links && situation != act
  }

  /** snapshot: the group has a Situation and a distinct AgentAct. */
  predicate Materialized(links: set<Link>, g: Group) {
    exists s, a | s in links && a in links :: Gate(links, g, s.source, a.source)
  }

  lemma GateMaterializes(links: set<Link>, g: Group, situation: Ref, act: Ref)
    requires Gate(links, g, situation, act)
    ensures Materialized(links, g)
  {
    var s, a := Link(g, situation, Situation), Link(g, act, AgentAct);
    assert Gate(links, g, s.source, a.source);
  }

  lemma MaterializedGrows(links: set<Link>, links': set<Link>, g: Group)
    requires links <= links' && Materialized(links, g)
    ensures Materialized(links', g)
  {
    var s, a :| s in links && a in links && Gate(links, g, s.source, a.source);
    assert Gate(links', g, s.source, a.source);
  }

  /** A materialized Episode has an AgentAct in its run. */
  lemma MaterializedHasAct(links: set<Link>, g: Group) returns (act: Link)
    requires Materialized(links, g)
    ensures act in links && act.group == g && act.role == AgentAct
  {
    var s, a :| s in links && a in links && Gate(links, g, s.source, a.source);
    act := Link(g, a.source, AgentAct);
  }

  /* ---- Observe ---- */

  type Sources = map<SourceKey, Source>
  datatype Admitted = Admitted(sources: Sources, links: set<Link>, episode: Option<Group>)

  /** Ledger.Observe. `episode` is the Episode of the binding's group, if it is
      materialized afterwards. */
  function Observe(sources: Sources, links: set<Link>, e: Event, b: Binding): Result<Admitted> {
    if !ValidEvent(e) then Err(InvalidSource)
    else if !ValidBinding(e, b) then Err(InvalidBinding)
    else if e.key in sources && sources[e.key] != e.source then Err(SourceConflict)
    else if !Complete(b) then Ok(Admitted(sources[e.key := e.source], links, None))
    else
      var g := GroupOf(e, b);
      var link := Link(g, e.key.ref, b.role);
      if link !in links && Materialized(links, g) && b.role != OutcomeRole then Err(Sealed)
      else
        var links' := links + {link};
        Ok(Admitted(sources[e.key := e.source], links', if Materialized(links', g) then Some(g) else None))
  }

  /** Nothing admitted is ever changed, and a sealed Episode gains only Outcomes. */
  lemma ObserveOnlyAdds(sources: Sources, links: set<Link>, e: Event, b: Binding)
    requires Observe(sources, links, e, b).Ok?
    ensures var r := Observe(sources, links, e, b).value;
            && links <= r.links && (forall k | k in sources :: k in r.sources && r.sources[k] == sources[k])
            && (forall l | l in r.links && l !in links :: l == Link(GroupOf(e, b), e.key.ref, b.role) && Complete(b))
            && (forall g, l | Materialized(links, g) && l in r.links && l !in links && l.group == g :: l.role == OutcomeRole)
  {
  }
}
