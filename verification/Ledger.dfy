/** The in-memory Ledger: events and groups updated in place, the Episode
    recomputed from its group on every call. */
module Ledger {
  import opened Refs
  import opened Causal
  import opened Ordering

  datatype SourceLink = SourceLink(source: Ref, role: Role)
  /** Links are in role order, then by source ref. */
  datatype Episode = Episode(group: Group, links: seq<SourceLink>)

  function RoleOrder(r: Role): nat {
    match r
    case Situation => 0
    case AgentAct => 1
    case OutcomeRole => 2
    case UnknownRole => 3
  }

  function LinkKey(l: SourceLink): Key {
    [N(RoleOrder(l.role)), S(l.source)]
  }

  lemma LinkKeys(links: seq<SourceLink>)
    requires forall i, j :: 0 <= i < j < |links| ==> links[i] != links[j]
    ensures Shaped(links, LinkKey) && DistinctKeys(links, LinkKey)
  {
    forall i, j | 0 <= i < j < |links| ensures LinkKey(links[i]) != LinkKey(links[j]) {
      assert LinkKey(links[i])[0] == N(RoleOrder(links[i].role)) && LinkKey(links[i])[1] == S(links[i].source);
      assert LinkKey(links[j])[0] == N(RoleOrder(links[j].role)) && LinkKey(links[j])[1] == S(links[j].source);
    }
  }

  predicate Gated(group: set<SourceLink>) {
    exists s, a | s in group && a in group :: s.role == Situation && a.role == AgentAct && s.source != a.source
  }

  /** hasDistinctSituationAndAgentAct */
  method HasDistinct(situations: set<Ref>, acts: set<Ref>) returns (ok: bool)
    ensures ok <==> exists s, a :: s in situations && a in acts && s != a
  {
    var left := situations;
    while left != {}
      invariant left <= situations
      invariant forall s, a :: s in situations && s !in left && a in acts ==> s == a
      decreases left
    {
      var s :| s in left;
      var other := exists a :: a in acts && a != s;
      if other {
        return true;
      }
      left := left - {s};
    }
    ok := false;
  }

  /** snapshot */
  method Snapshot(group: set<SourceLink>) returns (materialized: bool, links: seq<SourceLink>)
    ensures materialized <==> Gated(group)
    ensures materialized ==> Strict(links, LinkKey) && forall l :: l in links <==> l in group
  {
    var situations: set<Ref> := {};
    var acts: set<Ref> := {};
    var listed: seq<SourceLink> := [];
    var left := group;
    while left != {}
      invariant left <= group && forall i, j :: 0 <= i < j < |listed| ==> listed[i] != listed[j]
      invariant forall l :: l in listed <==> l in group && l !in left
      invariant forall r :: r in situations <==> SourceLink(r, Situation) in group && SourceLink(r, Situation) !in left
      invariant forall r :: r in acts <==> SourceLink(r, AgentAct) in group && SourceLink(r, AgentAct) !in left
      decreases left
    {
      var l :| l in left;
      if l.role == Situation {
        situations := situations + {l.source};
      } else if l.role == AgentAct {
        acts := acts + {l.source};
      }
      listed := listed + [l];
      left := left - {l};
    }
    materialized := HasDistinct(situations, acts);
    GatedIff(group, situations, acts);
    LinkKeys(listed);
    links := SortBy(listed, LinkKey);
    SortedLinks(listed, links);
  }

  lemma SortedLinks(listed: seq<SourceLink>, links: seq<SourceLink>)
    requires forall i, j :: 0 <= i < j < |listed| ==> listed[i] != listed[j]
    requires Sorted(links, LinkKey) && multiset(links) == multiset(listed)
    ensures Strict(links, LinkKey)
  {
    StaysDistinct(listed, links);
    LinkKeys(links);
    StrictFromDistinct(links, LinkKey);
  }

  lemma GatedIff(group: set<SourceLink>, situations: set<Ref>, acts: set<Ref>)
    requires forall r :: r in situations <==> SourceLink(r, Situation) in group
    requires forall r :: r in acts <==> SourceLink(r, AgentAct) in group
    ensures Gated(group) <==> exists s, a :: s in situations && a in acts && s != a
  {
    if s, a :| s in situations && a in acts && s != a {
      assert SourceLink(s, Situation) in group && SourceLink(a, AgentAct) in group;
    }
    if Gated(group) {
      var s, a :| s in group && a in group && s.role == Situation && a.role == AgentAct && s.source != a.source;
      assert s == SourceLink(s.source, Situation) && a == SourceLink(a.source, AgentAct);
      assert s.source in situations && a.source in acts;
    }
  }

  function LinksOf(groups: map<Group, set<SourceLink>>): set<Link> {
    set g, l | g in groups && l in groups[g] :: Link(g, l.source, l.role)
  }

  lemma GatedIsMaterialized(groups: map<Group, set<SourceLink>>, g: Group)
    ensures Materialized(LinksOf(groups), g) <==> g in groups && Gated(groups[g])
  {
    var links := LinksOf(groups);
    if Materialized(links, g) {
      var s, a :| s in links && a in links && Gate(links, g, s.source, a.source);
      assert Link(g, s.source, Situation) in links && Link(g, a.source, AgentAct) in links;
      assert SourceLink(s.source, Situation) in groups[g] && SourceLink(a.source, AgentAct) in groups[g];
    }
    if g in groups && Gated(groups[g]) {
      var s, a :| s in groups[g] && a in groups[g] && s.role == Situation && a.role == AgentAct && s.source != a.source;
      assert Link(g, s.source, s.role) in links && Link(g, a.source, a.role) in links;
      GateMaterializes(links, g, s.source, a.source);
    }
  }

  lemma AddedLink(groups: map<Group, set<SourceLink>>, g: Group, l: SourceLink)
    ensures var before := if g in groups then groups[g] else {};
            LinksOf(groups[g := before + {l}]) == LinksOf(groups) + {Link(g, l.source, l.role)}
  {
    var before := if g in groups then groups[g] else {};
    var groups' := groups[g := before + {l}];
    forall k | k in LinksOf(groups) ensures k in LinksOf(groups') {
      assert SourceLink(k.source, k.role) in groups[k.group];
      assert SourceLink(k.source, k.role) in groups'[k.group];
    }
    assert l in groups'[g];
    forall k | k in LinksOf(groups') ensures k in LinksOf(groups) + {Link(g, l.source, l.role)} {
      assert SourceLink(k.source, k.role) in groups'[k.group];
      if SourceLink(k.source, k.role) != l || k.group != g {
        assert k.group in groups && SourceLink(k.source, k.role) in groups[k.group];
      }
    }
  }

  /** The Episode a caller receives: its group and exactly its links, in order. */
  ghost predicate Describes(links: set<Link>, g: Group, e: Episode) {
    e.group == g && Strict(e.links, LinkKey) && forall l :: l in e.links <==> Link(g, l.source, l.role) in links
  }

  class Ledger {
    var events: Sources
    var groups: map<Group, set<SourceLink>>

    constructor ()
      ensures events == map[] && LinksOf(groups) == {}
    {
      events, groups := map[], map[];
    }

    /** Ledger.Observe refines the intake function: the same errors before any
        change, the same tables, and the recomputed Episode. */
    method ObserveEvent(e: Event, b: Binding) returns (r: Result<Option<Episode>>)
      modifies this
      ensures match Observe(old(events), LinksOf(old(groups)), e, b)
              case Err(error) => r == Err(error) && events == old(events) && groups == old(groups)
              case Ok(a) =>
                && events == a.sources && LinksOf(groups) == a.links && r.Ok? && (r.value.Some? <==> a.episode.Some?)
                && (r.value.Some? ==> Describes(LinksOf(groups), a.episode.value, r.value.value))
    {
      var validEvent := ValidEvent(e);
      if !validEvent {
        return Err(InvalidSource);
      }
      var validBinding := ValidBinding(e, b);
      if !validBinding {
        return Err(InvalidBinding);
      }
      if e.key in events && events[e.key] != e.source {
        return Err(SourceConflict);
      }
      var g, link := GroupOf(e, b), SourceLink(e.key.ref, b.role);
      var grouped := Complete(b);
      GatedIsMaterialized(groups, g);
      MemberLink(groups, g, link);
      if grouped && g in groups && link !in groups[g] {
        var materialized, _ := Snapshot(groups[g]);
        if materialized && b.role != OutcomeRole {
          return Err(Sealed);
        }
      }
      events := events[e.key := e.source];
      if !grouped {
        return Ok(None);
      }
      AddedLink(groups, g, link);
      groups := groups[g := (if g in groups then groups[g] else {}) + {link}];
      GatedIsMaterialized(groups, g);
      var materialized, links := Snapshot(groups[g]);
      if materialized {
        Listed(groups, g, links);
        return Ok(Some(Episode(g, links)));
      }
      r := Ok(None);
    }
  }

  lemma MemberLink(groups: map<Group, set<SourceLink>>, g: Group, l: SourceLink)
    ensures Link(g, l.source, l.role) in LinksOf(groups) <==> g in groups && l in groups[g]
  {
    if Link(g, l.source, l.role) in LinksOf(groups) {
      assert SourceLink(l.source, l.role) in groups[g];
    }
  }

  lemma Listed(groups: map<Group, set<SourceLink>>, g: Group, links: seq<SourceLink>)
    requires g in groups && Strict(links, LinkKey) && forall l :: l in links <==> l in groups[g]
    ensures Describes(LinksOf(groups), g, Episode(g, links))
  {
    forall l ensures l in links <==> Link(g, l.source, l.role) in LinksOf(groups) {
      MemberLink(groups, g, l);
    }
  }

  /** The recomputed Episode is a function of the links. */
  lemma DescriptionIsUnique(links: set<Link>, g: Group, x: Episode, y: Episode)
    requires Describes(links, g, x) && Describes(links, g, y)
    ensures x == y
  {
    StrictIsUnique(x.links, y.links, LinkKey);
  }
}
