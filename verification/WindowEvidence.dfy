/** The typed evidence beside a rendered window: assembly by precedence, and the
    exact basis of a focused Disposition formation. */
module WindowEvidence {
  import opened Refs

  datatype Origin = NoOrigin | Current | Related | RevisionAnchor
  datatype FormationRole = NoRole | AnchorRole | CandidateRole | UnknownRole
  datatype EvidenceEpisode = EvidenceEpisode(ref: Ref, session: Ref, origin: Origin, role: FormationRole, sources: seq<string>)
  datatype EvidenceOutcome = EvidenceOutcome(ref: Ref, episode: Ref, actor: string, actorRef: Ref, text: string)
  datatype Evidence = Evidence(episodes: seq<EvidenceEpisode>, outcomes: seq<EvidenceOutcome>)

  /* ---- assembly ---- */

  function Names(s: seq<EvidenceEpisode>): set<Ref> {
    set i | 0 <= i < |s| :: s[i].ref
  }

  /** Append each Episode not yet present, under the given origin. */
  function Adopt(have: seq<EvidenceEpisode>, origin: Origin, more: seq<EvidenceEpisode>): seq<EvidenceEpisode> {
    if more == [] then have
    else
      var n := |more| - 1;
      var before := Adopt(have, origin, more[..n]);
      if more[n].ref in Names(before) then before else before + [more[n].(origin := origin)]
  }

  function Assemble(current: seq<EvidenceEpisode>, related: seq<EvidenceEpisode>, anchors: seq<EvidenceEpisode>, outcomes: seq<EvidenceOutcome>): Evidence {
    Evidence(Adopt(Adopt(Adopt([], Current, current), Related, related), RevisionAnchor, anchors), outcomes)
  }

  predicate DistinctRefs(s: seq<EvidenceEpisode>) {
    forall i, j :: 0 <= i < j < |s| ==> s[i].ref != s[j].ref
  }

  lemma {:induction false} AdoptContents(have: seq<EvidenceEpisode>, origin: Origin, more: seq<EvidenceEpisode>)
    ensures have <= Adopt(have, origin, more)
    ensures Names(Adopt(have, origin, more)) == Names(have) + Names(more)
    ensures DistinctRefs(have) ==> DistinctRefs(Adopt(have, origin, more))
    ensures forall i :: |have| <= i < |Adopt(have, origin, more)| ==>
              Adopt(have, origin, more)[i].origin == origin && Adopt(have, origin, more)[i].ref !in Names(have)
  {
    if more != [] {
      var n := |more| - 1;
      AdoptContents(have, origin, more[..n]);
      var before, after := Adopt(have, origin, more[..n]), Adopt(have, origin, more);
      NamesSnoc(more[..n], more[n]);
      assert more == more[..n] + [more[n]];
      if more[n].ref !in Names(before) {
        NamesSnoc(before, more[n].(origin := origin));
        forall i | 0 <= i < |before| ensures before[i].ref != more[n].ref {
          assert before[i].ref in Names(before);
        }
      }
    }
  }

  lemma NamesSnoc(s: seq<EvidenceEpisode>, e: EvidenceEpisode)
    ensures Names(s + [e]) == Names(s) + {e.ref}
  {
    var all := s + [e];
    assert all[|s|] == e && forall i :: 0 <= i < |s| ==> all[i] == s[i];
  }

  /** Every Episode appears once, as current if it is current, else as related if it
      is related, else as a revision anchor. */
  lemma AssemblePrefersCurrent(current: seq<EvidenceEpisode>, related: seq<EvidenceEpisode>, anchors: seq<EvidenceEpisode>, outcomes: seq<EvidenceOutcome>, i: nat)
    requires i < |Assemble(current, related, anchors, outcomes).episodes|
    ensures var all := Assemble(current, related, anchors, outcomes).episodes;
            && DistinctRefs(all) && Names(all) == Names(current) + Names(related) + Names(anchors)
            && (all[i].origin == Current <==> all[i].ref in Names(current))
            && (all[i].origin == Related <==> all[i].ref in Names(related) && all[i].ref !in Names(current))
            && (all[i].origin == RevisionAnchor <==> all[i].ref !in Names(current) + Names(related))
  {
    var a := Adopt([], Current, current);
    var b := Adopt(a, Related, related);
    var c := Adopt(b, RevisionAnchor, anchors);
    AdoptContents([], Current, current);
    AdoptContents(a, Related, related);
    AdoptContents(b, RevisionAnchor, anchors);
    if i < |a| {
      assert c[i] == b[i] == a[i] && a[i].ref in Names(a);
    } else if i < |b| {
      assert c[i] == b[i] && b[i].ref in Names(b);
    } else {
      assert c[i].ref in Names(c);
    }
  }

  /** AssembleWindowEvidence */
  method AssembleWindowEvidence(current: seq<EvidenceEpisode>, related: seq<EvidenceEpisode>, anchors: seq<EvidenceEpisode>, outcomes: seq<EvidenceOutcome>)
    returns (evidence: Evidence)
    ensures evidence == Assemble(current, related, anchors, outcomes)
  {
    var seen: set<Ref> := {};
    var episodes: seq<EvidenceEpisode> := [];
    episodes, seen := AppendEpisodes(episodes, seen, Current, current);
    episodes, seen := AppendEpisodes(episodes, seen, Related, related);
    episodes, seen := AppendEpisodes(episodes, seen, RevisionAnchor, anchors);
    evidence := Evidence(episodes, outcomes);
  }

  method AppendEpisodes(have: seq<EvidenceEpisode>, known: set<Ref>, origin: Origin, more: seq<EvidenceEpisode>)
    returns (all: seq<EvidenceEpisode>, seen: set<Ref>)
    requires known == Names(have)
    ensures all == Adopt(have, origin, more) && seen == Names(all)
  {
    all, seen := have, known;
    for i := 0 to |more|
      invariant all == Adopt(have, origin, more[..i]) && seen == Names(all)
    {
      assert more[..i + 1][..i] == more[..i];
      if more[i].ref !in seen {
        NamesSnoc(all, more[i].(origin := origin));
        seen := seen + {more[i].ref};
        all := all + [more[i].(origin := origin)];
      }
    }
    assert more[..|more|] == more;
  }

  /* ---- the focused formation ---- */

  /** Core marked exactly one anchor. */
  method HasDispositionFormationAnchor(evidence: Evidence) returns (ok: bool)
    ensures ok <==> |Marked(evidence.episodes, AnchorRole)| == 1
  {
    var anchors := 0;
    for i := 0 to |evidence.episodes|
      invariant anchors == |Marked(evidence.episodes[..i], AnchorRole)|
    {
      assert evidence.episodes[..i + 1][..i] == evidence.episodes[..i];
      if evidence.episodes[i].role == AnchorRole {
        anchors := anchors + 1;
      }
    }
    assert evidence.episodes[..|evidence.episodes|] == evidence.episodes;
    ok := anchors == 1;
  }

  function Marked(s: seq<EvidenceEpisode>, role: FormationRole): seq<EvidenceEpisode> {
    if s == [] then []
    else
      var n := |s| - 1;
      if s[n].role == role then Marked(s[..n], role) + [s[n]] else Marked(s[..n], role)
  }

  /** The Episodes with any formation role, in evidence order. */
  function Focused(s: seq<EvidenceEpisode>): seq<EvidenceEpisode> {
    if s == [] then []
    else
      var n := |s| - 1;
      if s[n].role != NoRole then Focused(s[..n]) + [s[n]] else Focused(s[..n])
  }

  predicate EpisodeOk(e: EvidenceEpisode) {
    && (e.role == AnchorRole || e.role == CandidateRole) && !Blank(e.ref) && !Blank(e.session)
    && (if e.role == AnchorRole then e.origin == Current else e.origin == Current || e.origin == Related)
  }

  /** Each focused Episode is sound; refs and sessions differ; one anchor at most. */
  predicate GoodEpisodes(f: seq<EvidenceEpisode>) {
    && (forall i :: 0 <= i < |f| ==> EpisodeOk(f[i]))
    && (forall i, j :: 0 <= i < j < |f| ==> f[i].ref != f[j].ref && f[i].session != f[j].session
                                            && !(f[i].role == AnchorRole && f[j].role == AnchorRole))
  }

  lemma GoodEpisodesSnoc(f: seq<EvidenceEpisode>, e: EvidenceEpisode)
    ensures GoodEpisodes(f + [e]) <==>
            GoodEpisodes(f) && EpisodeOk(e) &&
            forall i :: 0 <= i < |f| ==> f[i].ref != e.ref && f[i].session != e.session && !(f[i].role == AnchorRole && e.role == AnchorRole)
  {
    var all := f + [e];
    assert all[|f|] == e && forall i :: 0 <= i < |f| ==> all[i] == f[i];
  }

  lemma {:induction false} FocusedGrows(s: seq<EvidenceEpisode>, n: nat)
    requires n <= |s| && GoodEpisodes(Focused(s))
    ensures GoodEpisodes(Focused(s[..n]))
    decreases |s| - n
  {
    if n < |s| {
      var m := |s| - 1;
      if s[m].role != NoRole {
        GoodEpisodesSnoc(Focused(s[..m]), s[m]);
      }
      assert s[..m][..n] == s[..n];
      if n < m {
        FocusedGrows(s[..m], n);
      }
    } else {
      assert s[..n] == s;
    }
  }

  predicate Concerns(o: EvidenceOutcome, refs: set<Ref>) {
    o.episode in refs && o.actor != "agent"
  }

  /** The non-Agent Outcomes of the focused Episodes. */
  function Relevant(outs: seq<EvidenceOutcome>, refs: set<Ref>): seq<EvidenceOutcome> {
    if outs == [] then []
    else
      var n := |outs| - 1;
      if Concerns(outs[n], refs) then Relevant(outs[..n], refs) + [outs[n]] else Relevant(outs[..n], refs)
  }

  predicate OutcomeOk(o: EvidenceOutcome) {
    !Blank(o.ref) && !Blank(o.actor) && !Blank(o.text)
  }

  predicate GoodOutcomes(r: seq<EvidenceOutcome>) {
    && (forall i :: 0 <= i < |r| ==> OutcomeOk(r[i]))
    && (forall i, j :: 0 <= i < j < |r| ==> r[i].episode != r[j].episode && r[i].ref != r[j].ref)
  }

  lemma GoodOutcomesSnoc(r: seq<EvidenceOutcome>, o: EvidenceOutcome)
    ensures GoodOutcomes(r + [o]) <==>
            GoodOutcomes(r) && OutcomeOk(o) && forall i :: 0 <= i < |r| ==> r[i].episode != o.episode && r[i].ref != o.ref
  {
    var all := r + [o];
    assert all[|r|] == o && forall i :: 0 <= i < |r| ==> all[i] == r[i];
  }

  lemma {:induction false} RelevantGrows(outs: seq<EvidenceOutcome>, refs: set<Ref>, n: nat)
    requires n <= |outs| && GoodOutcomes(Relevant(outs, refs))
    ensures GoodOutcomes(Relevant(outs[..n], refs))
    decreases |outs| - n
  {
    if n < |outs| {
      var m := |outs| - 1;
      if Concerns(outs[m], refs) {
        GoodOutcomesSnoc(Relevant(outs[..m], refs), outs[m]);
      }
      assert outs[..m][..n] == outs[..n];
      if n < m {
        RelevantGrows(outs[..m], refs, n);
      }
    } else {
      assert outs[..n] == outs;
    }
  }

  function OutcomeFor(r: seq<EvidenceOutcome>, episode: Ref): Option<EvidenceOutcome> {
    if r == [] then None
    else if r[|r| - 1].episode == episode then Some(r[|r| - 1]) else OutcomeFor(r[..|r| - 1], episode)
  }

  /** The anchor first, then the candidates in evidence order. */
  function Ordered(f: seq<EvidenceEpisode>): seq<EvidenceEpisode> {
    Marked(f, AnchorRole) + Marked(f, CandidateRole)
  }

  /** Every Episode followed by its Outcome; None if one has none. */
  function Pairs(order: seq<EvidenceEpisode>, r: seq<EvidenceOutcome>): Option<seq<Ref>> {
    if order == [] then Some([])
    else
      var n := |order| - 1;
      var before := Pairs(order[..n], r);
      var o := OutcomeFor(r, order[n].ref);
      if before.None? || o.None? then None else Some(before.value + [order[n].ref, o.value.ref])
  }

  /** DispositionFormationBasis as one condition and one list. */
  function FormationBasis(e: Evidence): Option<seq<Ref>> {
    var f := Focused(e.episodes);
    var r := Relevant(e.outcomes, Names(f));
    if GoodEpisodes(f) && Marked(f, AnchorRole) != [] && Marked(f, CandidateRole) != [] && GoodOutcomes(r)
    then Pairs(Ordered(f), r) else None
  }

  /* ---- DispositionFormationBasis as it runs ---- */

  datatype Scan = Scan(anchor: seq<EvidenceEpisode>, candidates: seq<EvidenceEpisode>, refs: set<Ref>, sessions: set<Ref>)

  ghost predicate Scanned(f: seq<EvidenceEpisode>, s: Scan) {
    && s.anchor == Marked(f, AnchorRole) && s.candidates == Marked(f, CandidateRole) && s.refs == Names(f)
    && s.sessions == set i | 0 <= i < |f| :: f[i].session
  }

  lemma ScannedSnoc(f: seq<EvidenceEpisode>, s: Scan, e: EvidenceEpisode)
    requires Scanned(f, s) && (e.role == AnchorRole || e.role == CandidateRole)
    ensures Scanned(f + [e], Scan(if e.role == AnchorRole then s.anchor + [e] else s.anchor,
                                  if e.role == CandidateRole then s.candidates + [e] else s.candidates, s.refs + {e.ref}, s.sessions + {e.session}))
  {
    var all := f + [e];
    assert all[..|all| - 1] == f;
    NamesSnoc(f, e);
    assert all[|f|] == e && forall i :: 0 <= i < |f| ==> all[i] == f[i];
  }

  lemma {:induction false} MarkedContents(f: seq<EvidenceEpisode>, role: FormationRole)
    ensures forall e :: e in Marked(f, role) <==> e in f && e.role == role
  {
    if f != [] {
      var n := |f| - 1;
      MarkedContents(f[..n], role);
      assert f == f[..n] + [f[n]];
    }
  }

  /** What the loop checks of the next Episode is what soundness demands. */
  lemma NextEpisode(f: seq<EvidenceEpisode>, s: Scan, e: EvidenceEpisode)
    requires Scanned(f, s) && GoodEpisodes(f)
    ensures GoodEpisodes(f + [e]) <==>
            EpisodeOk(e) && e.ref !in s.refs && e.session !in s.sessions && (e.role == AnchorRole ==> s.anchor == [])
  {
    GoodEpisodesSnoc(f, e);
    MarkedContents(f, AnchorRole);
    if s.anchor != [] {
      assert s.anchor[0] in s.anchor;
    }
    forall i | 0 <= i < |f| ensures f[i].ref in s.refs && f[i].session in s.sessions && (f[i].role == AnchorRole ==> s.anchor != []) {
      assert f[i] in f;
      assert f[i].role == AnchorRole ==> f[i] in s.anchor;
    }
  }

  /** The first loop. */
  method ScanFocused(episodes: seq<EvidenceEpisode>) returns (ok: bool, s: Scan)
    ensures ok <==> GoodEpisodes(Focused(episodes))
    ensures ok ==> Scanned(Focused(episodes), s)
  {
    s := Scan([], [], {}, {});
    for i := 0 to |episodes|
      invariant GoodEpisodes(Focused(episodes[..i])) && Scanned(Focused(episodes[..i]), s)
    {
      var e := episodes[i];
      assert episodes[..i + 1][..i] == episodes[..i];
      if e.role == NoRole {
        continue;
      }
      NextEpisode(Focused(episodes[..i]), s, e);
      var sound := EpisodeOk(e);
      if !sound || e.ref in s.refs || e.session in s.sessions || (e.role == AnchorRole && s.anchor != []) {
        if GoodEpisodes(Focused(episodes)) {
          FocusedGrows(episodes, i + 1);
        }
        return false, s;
      }
      ScannedSnoc(Focused(episodes[..i]), s, e);
      s := Scan(if e.role == AnchorRole then s.anchor + [e] else s.anchor,
                if e.role == CandidateRole then s.candidates + [e] else s.candidates, s.refs + {e.ref}, s.sessions + {e.session});
    }
    assert episodes[..|episodes|] == episodes;
    ok := true;
  }

  ghost predicate Indexed(r: seq<EvidenceOutcome>, byEpisode: map<Ref, EvidenceOutcome>, seen: set<Ref>) {
    && (forall g :: g in byEpisode <==> OutcomeFor(r, g).Some?) && (forall g :: g in byEpisode ==> OutcomeFor(r, g) == Some(byEpisode[g]))
    && seen == set i | 0 <= i < |r| :: r[i].ref
  }

  lemma IndexedSnoc(r: seq<EvidenceOutcome>, byEpisode: map<Ref, EvidenceOutcome>, seen: set<Ref>, o: EvidenceOutcome)
    requires Indexed(r, byEpisode, seen)
    ensures Indexed(r + [o], byEpisode[o.episode := o], seen + {o.ref})
  {
    var all := r + [o];
    assert all[..|all| - 1] == r && all[|r|] == o;
    assert forall i :: 0 <= i < |r| ==> all[i] == r[i];
  }

  lemma {:induction false} OutcomeForIs(r: seq<EvidenceOutcome>, g: Ref)
    ensures OutcomeFor(r, g).Some? <==> exists i :: 0 <= i < |r| && r[i].episode == g
    ensures OutcomeFor(r, g).Some? ==> OutcomeFor(r, g).value in r && OutcomeFor(r, g).value.episode == g
  {
    if r != [] {
      OutcomeForIs(r[..|r| - 1], g);
    }
  }

  lemma NextOutcome(r: seq<EvidenceOutcome>, byEpisode: map<Ref, EvidenceOutcome>, seen: set<Ref>, o: EvidenceOutcome)
    requires Indexed(r, byEpisode, seen) && GoodOutcomes(r)
    ensures GoodOutcomes(r + [o]) <==> OutcomeOk(o) && o.episode !in byEpisode && o.ref !in seen
  {
    GoodOutcomesSnoc(r, o);
    OutcomeForIs(r, o.episode);
  }

  /** The second loop. */
  method IndexOutcomes(outs: seq<EvidenceOutcome>, refs: set<Ref>) returns (ok: bool, byEpisode: map<Ref, EvidenceOutcome>)
    ensures ok <==> GoodOutcomes(Relevant(outs, refs))
    ensures ok ==> exists seen :: Indexed(Relevant(outs, refs), byEpisode, seen)
  {
    byEpisode := map[];
    var seen: set<Ref> := {};
    for i := 0 to |outs|
      invariant GoodOutcomes(Relevant(outs[..i], refs)) && Indexed(Relevant(outs[..i], refs), byEpisode, seen)
    {
      var o := outs[i];
      assert outs[..i + 1][..i] == outs[..i];
      if o.episode !in refs || o.actor == "agent" {
        continue;
      }
      NextOutcome(Relevant(outs[..i], refs), byEpisode, seen, o);
      var sound := OutcomeOk(o);
      if !sound || o.episode in byEpisode || o.ref in seen {
        if GoodOutcomes(Relevant(outs, refs)) {
          RelevantGrows(outs, refs, i + 1);
        }
        return false, byEpisode;
      }
      IndexedSnoc(Relevant(outs[..i], refs), byEpisode, seen, o);
      byEpisode := byEpisode[o.episode := o];
      seen := seen + {o.ref};
    }
    assert outs[..|outs|] == outs;
    ok := true;
  }

  lemma {:induction false} MissingPair(order: seq<EvidenceEpisode>, r: seq<EvidenceOutcome>, n: nat)
    requires n <= |order| && Pairs(order[..n], r).None?
    ensures Pairs(order, r).None?
    decreases |order| - n
  {
    if n < |order| {
      var m := |order| - 1;
      assert order[..m][..n] == order[..n];
      if n < m {
        MissingPair(order[..m], r, n);
      }
    } else {
      assert order[..n] == order;
    }
  }

  /** The last loop. */
  method PairUp(order: seq<EvidenceEpisode>, byEpisode: map<Ref, EvidenceOutcome>, ghost r: seq<EvidenceOutcome>)
    returns (basis: Option<seq<Ref>>)
    requires exists seen :: Indexed(r, byEpisode, seen)
    ensures basis == Pairs(order, r)
  {
    var listed: seq<Ref> := [];
    for i := 0 to |order|
      invariant Pairs(order[..i], r) == Some(listed)
    {
      assert order[..i + 1][..i] == order[..i];
      if order[i].ref !in byEpisode {
        MissingPair(order, r, i + 1);
        return None;
      }
      listed := listed + [order[i].ref, byEpisode[order[i].ref].ref];
    }
    assert order[..|order|] == order;
    basis := Some(listed);
  }

  /** DispositionFormationBasis: three loops, one basis or none. */
  method DispositionFormationBasis(evidence: Evidence) returns (basis: Option<seq<Ref>>)
    ensures basis == FormationBasis(evidence)
  {
    var ok, scan := ScanFocused(evidence.episodes);
    if !ok || scan.anchor == [] || scan.candidates == [] {
      return None;
    }
    var sound, byEpisode := IndexOutcomes(evidence.outcomes, scan.refs);
    if !sound {
      return None;
    }
    ghost var r := Relevant(evidence.outcomes, scan.refs);
    basis := PairUp(scan.anchor + scan.candidates, byEpisode, r);
  }

  /* ---- what the basis means ---- */

  lemma {:induction false} PairsAlternate(order: seq<EvidenceEpisode>, r: seq<EvidenceOutcome>)
    requires Pairs(order, r).Some?
    ensures |Pairs(order, r).value| == 2 * |order|
    ensures forall i :: 0 <= i < |order| ==>
              && Pairs(order, r).value[2 * i] == order[i].ref && OutcomeFor(r, order[i].ref).Some?
              && Pairs(order, r).value[2 * i + 1] == OutcomeFor(r, order[i].ref).value.ref
  {
    if order != [] {
      var n := |order| - 1;
      PairsAlternate(order[..n], r);
      var before := Pairs(order[..n], r).value;
      forall i | 0 <= i < |order|
        ensures Pairs(order, r).value[2 * i] == order[i].ref && OutcomeFor(r, order[i].ref).Some?
        ensures Pairs(order, r).value[2 * i + 1] == OutcomeFor(r, order[i].ref).value.ref
      {
        if i < n {
          assert Pairs(order, r).value[2 * i] == before[2 * i] && Pairs(order, r).value[2 * i + 1] == before[2 * i + 1];
        }
      }
    }
  }

  lemma {:induction false} RelevantContents(outs: seq<EvidenceOutcome>, refs: set<Ref>)
    ensures forall o :: o in Relevant(outs, refs) <==> o in outs && Concerns(o, refs)
  {
    if outs != [] {
      var n := |outs| - 1;
      RelevantContents(outs[..n], refs);
      assert outs == outs[..n] + [outs[n]];
    }
  }

  lemma {:induction false} FocusedContents(s: seq<EvidenceEpisode>)
    ensures forall e :: e in Focused(s) <==> e in s && e.role != NoRole
  {
    if s != [] {
      var n := |s| - 1;
      FocusedContents(s[..n]);
      assert s == s[..n] + [s[n]];
    }
  }

  ghost predicate PairAt(e: Evidence, basis: seq<Ref>, i: nat)
    requires 2 * i + 1 < |basis|
  {
    exists x, o :: x in e.episodes && o in e.outcomes && basis[2 * i] == x.ref && basis[2 * i + 1] == o.ref && o.episode == x.ref
      && o.actor != "agent" && (if i == 0 then x.role == AnchorRole && x.origin == Current else x.role == CandidateRole)
      && forall other :: other in e.outcomes && other.episode == x.ref && other.actor != "agent" ==> other == o
  }

  /** The basis starts with the current anchor, goes on with candidates, and pairs
      each Episode with its only non-Agent Outcome. */
  lemma FormationBasisMeans(e: Evidence)
    requires FormationBasis(e).Some?
    ensures var basis := FormationBasis(e).value;
            |basis| >= 4 && |basis| % 2 == 0 && forall i :: 0 <= i < |basis| / 2 ==> PairAt(e, basis, i)
  {
    var f := Focused(e.episodes);
    var r := Relevant(e.outcomes, Names(f));
    var order, basis := Ordered(f), FormationBasis(e).value;
    PairsAlternate(order, r);
    OneAnchor(f);
    forall i | 0 <= i < |order| ensures PairAt(e, basis, i) {
      PairIsSound(e, i);
    }
  }

  lemma OneAnchor(f: seq<EvidenceEpisode>)
    requires GoodEpisodes(f)
    ensures |Marked(f, AnchorRole)| <= 1
  {
    MarkedOnce(f, |f|);
    assert f[..|f|] == f;
  }

  lemma {:induction false} MarkedOnce(f: seq<EvidenceEpisode>, n: nat)
    requires GoodEpisodes(f) && n <= |f|
    ensures |Marked(f[..n], AnchorRole)| <= 1
  {
    if n > 0 {
      MarkedOnce(f, n - 1);
      assert f[..n][..n - 1] == f[..n - 1];
      MarkedContents(f[..n - 1], AnchorRole);
      if Marked(f[..n - 1], AnchorRole) != [] {
        var a := Marked(f[..n - 1], AnchorRole)[0];
        assert a in Marked(f[..n - 1], AnchorRole);
        var i :| 0 <= i < n - 1 && f[..n - 1][i] == a;
        assert f[i] == a;
      }
    }
  }

  lemma PairIsSound(e: Evidence, i: nat)
    requires FormationBasis(e).Some? && i < |Ordered(Focused(e.episodes))|
    requires |FormationBasis(e).value| == 2 * |Ordered(Focused(e.episodes))| && |Marked(Focused(e.episodes), AnchorRole)| <= 1
    ensures PairAt(e, FormationBasis(e).value, i)
  {
    var f := Focused(e.episodes);
    var refs := Names(f);
    var r := Relevant(e.outcomes, refs);
    var x := Ordered(f)[i];
    PairsAlternate(Ordered(f), r);
    MarkedContents(f, AnchorRole);
    MarkedContents(f, CandidateRole);
    FocusedContents(e.episodes);
    RelevantContents(e.outcomes, refs);
    OutcomeForIs(r, x.ref);
    var o := OutcomeFor(r, x.ref).value;
    assert x in Ordered(f) && x in f;
    OnlyOutcome(e.outcomes, refs, r, o, x.ref);
    assert i == 0 ==> x in Marked(f, AnchorRole);
    assert i > 0 ==> x in Marked(f, CandidateRole);
    var k :| 0 <= k < |f| && f[k] == x;
    assert EpisodeOk(f[k]);
  }

  lemma OnlyOutcome(outs: seq<EvidenceOutcome>, refs: set<Ref>, r: seq<EvidenceOutcome>, o: EvidenceOutcome, g: Ref)
    requires r == Relevant(outs, refs) && GoodOutcomes(r) && o in r && o.episode == g && g in refs
    ensures forall other :: other in outs && other.episode == g && other.actor != "agent" ==> other == o
  {
    RelevantContents(outs, refs);
    forall other | other in outs && other.episode == g && other.actor != "agent" ensures other == o {
      assert other in r;
      var i :| 0 <= i < |r| && r[i] == other;
      var j :| 0 <= j < |r| && r[j] == o;
    }
  }
}
