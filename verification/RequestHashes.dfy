/** Which requests an idempotency key, a run or a Job takes to be the same: the
    field lists that are hashed, and what they determine. */
module RequestHashes {
  import opened Refs
  import opened Causal
  import opened Ordering
  import opened Framing

  function KindName(o: Owner): string {
    if o.relationship then "relationship" else "agent"
  }

  function ActorName(a: Actor): string {
    match a
    case AgentActor => "agent"
    case User => "user"
    case System => "system"
    case Tool => "tool"
    case External => "external"
    case UnknownActor => ""
  }

  function RoleName(r: Role): string {
    match r
    case Situation => "situation"
    case AgentAct => "agent_act"
    case OutcomeRole => "outcome"
    case UnknownRole => ""
  }

  lemma NamesDiffer(a: Actor, b: Actor, r: Role, q: Role)
    ensures ActorName(a) == ActorName(b) ==> a == b
    ensures RoleName(r) == RoleName(q) ==> r == q
  {
  }

  lemma OwnersAgree(o: Owner, p: Owner)
    requires KindName(o) == KindName(p) && o.tenant == p.tenant && o.agent == p.agent && o.relationshipRef == p.relationshipRef
    ensures o == p
  {
  }

  /* ---- Observe ---- */

  function ObserveFields(e: Event, b: Binding): seq<string> {
    var c := e.source.constitution;
    var plain := c == Constitution("", "");
    [if plain then "observe-request.v1" else "observe-request.v2",
     e.key.ref, KindName(e.key.owner), e.key.owner.tenant, e.key.owner.agent, e.key.owner.relationshipRef, e.key.session,
     ActorName(e.source.actor), e.source.actorRef, e.source.text, b.run, b.group, RoleName(b.role)]
    + if plain then [] else ["constitution.v1", c.ref, c.text]
  }

  /** The hash that claimRequest compares distinguishes every two requests. */
  lemma ObserveFieldsDecide(e: Event, b: Binding, e2: Event, b2: Binding)
    requires ObserveFields(e, b) == ObserveFields(e2, b2)
    ensures e == e2 && b == b2
  {
    var f, g := ObserveFields(e, b), ObserveFields(e2, b2);
    assert f[1] == g[1] && f[2] == g[2] && f[3] == g[3] && f[4] == g[4] && f[5] == g[5] && f[6] == g[6];
    assert f[7] == g[7] && f[8] == g[8] && f[9] == g[9] && f[10] == g[10] && f[11] == g[11] && f[12] == g[12];
    OwnersAgree(e.key.owner, e2.key.owner);
    NamesDiffer(e.source.actor, e2.source.actor, b.role, b2.role);
    if |f| == 16 {
      assert f[14] == g[14] && f[15] == g[15];
    }
  }

  lemma ObserveHashDecides(e: Event, b: Binding, e2: Event, b2: Binding)
    requires Storable(ObserveFields(e, b)) && Storable(ObserveFields(e2, b2))
    ensures Hash(ObserveFields(e, b)) == Hash(ObserveFields(e2, b2)) <==> e == e2 && b == b2
  {
    HashDecides(ObserveFields(e, b), ObserveFields(e2, b2));
    if ObserveFields(e, b) == ObserveFields(e2, b2) {
      ObserveFieldsDecide(e, b, e2, b2);
    }
  }

  /* ---- Select ---- */

  datatype SelectRequest = SelectRequest(owner: Owner, session: Ref, run: Ref, constitution: Constitution, situations: seq<Ref>, maxBytes: nat)

  function SelectBase(r: SelectRequest): seq<string> {
    ["memory-context-request.v2", KindName(r.owner), r.owner.tenant, r.owner.agent, r.owner.relationshipRef, r.session, r.run,
     r.constitution.ref, r.constitution.text] + r.situations
  }

  function SelectFields(r: SelectRequest): seq<string> {
    if r.maxBytes == 0 then SelectBase(r)
    else ["memory-context-request.episode-evidence.v1", Decimal(r.maxBytes)] + SelectBase(r)
  }

  lemma SelectBaseDecides(r: SelectRequest, q: SelectRequest)
    requires SelectBase(r) == SelectBase(q)
    ensures r.(maxBytes := q.maxBytes) == q
  {
    var f, g := SelectBase(r), SelectBase(q);
    assert f[1] == g[1] && f[2] == g[2] && f[3] == g[3] && f[4] == g[4];
    assert f[5] == g[5] && f[6] == g[6] && f[7] == g[7] && f[8] == g[8];
    OwnersAgree(r.owner, q.owner);
    assert f[9..] == r.situations && g[9..] == q.situations;
  }

  /** Two Select requests have one hash only if they are the same; a request with
      an evidence budget never coincides with one without. */
  lemma SelectFieldsDecide(r: SelectRequest, q: SelectRequest)
    ensures SelectFields(r) == SelectFields(q) <==> r == q
  {
    if SelectFields(r) == SelectFields(q) {
      var f, g := SelectFields(r), SelectFields(q);
      assert f[0] == g[0];
      if r.maxBytes != 0 {
        assert f[1] == g[1];
        DecimalInjective(r.maxBytes, q.maxBytes);
        assert f[2..] == SelectBase(r) && g[2..] == SelectBase(q);
      }
      SelectBaseDecides(r, q);
    }
  }

  lemma SelectHashDecides(r: SelectRequest, q: SelectRequest)
    requires Storable(SelectFields(r)) && Storable(SelectFields(q))
    ensures Hash(SelectFields(r)) == Hash(SelectFields(q)) <==> r == q
  {
    HashDecides(SelectFields(r), SelectFields(q));
    SelectFieldsDecide(r, q);
  }

  /* ---- Delivery ---- */

  datatype Delivery = Delivery(owner: Owner, session: Ref, run: Ref, context: Ref, refs: seq<Ref>)

  function RefKey(r: Ref): Key {
    [S(r)]
  }

  /** sortedRefs of refs without repetition. */
  ghost predicate SortedRefs(refs: seq<Ref>, sorted: seq<Ref>) {
    Strict(sorted, RefKey) && forall r :: r in sorted <==> r in refs
  }

  predicate Unrepeated(refs: seq<Ref>) {
    forall i, j :: 0 <= i < j < |refs| ==> refs[i] != refs[j]
  }

  method SortRefs(refs: seq<Ref>) returns (sorted: seq<Ref>)
    requires Unrepeated(refs)
    ensures SortedRefs(refs, sorted)
  {
    sorted := SortBy(refs, RefKey);
    StaysDistinct(refs, sorted);
    forall i, j | 0 <= i < j < |sorted| ensures RefKey(sorted[i]) != RefKey(sorted[j]) {
      assert RefKey(sorted[i])[0] != RefKey(sorted[j])[0];
    }
    StrictFromDistinct(sorted, RefKey);
  }

  function DeliveryFields(d: Delivery, sorted: seq<Ref>): seq<string> {
    ["memory-delivery.v2", KindName(d.owner), d.owner.tenant, d.owner.agent, d.owner.relationshipRef, d.session, d.run, d.context] + sorted
  }

  /** Two deliveries have one hash exactly when they differ at most in the order of
      their refs. */
  lemma DeliveryFieldsDecide(d: Delivery, x: seq<Ref>, e: Delivery, y: seq<Ref>)
    requires SortedRefs(d.refs, x) && SortedRefs(e.refs, y)
    ensures DeliveryFields(d, x) == DeliveryFields(e, y) <==> d == e.(refs := d.refs) && forall r :: r in d.refs <==> r in e.refs
  {
    var f, g := DeliveryFields(d, x), DeliveryFields(e, y);
    if f == g {
      assert f[1] == g[1] && f[2] == g[2] && f[3] == g[3] && f[4] == g[4] && f[5] == g[5] && f[6] == g[6] && f[7] == g[7];
      OwnersAgree(d.owner, e.owner);
      assert f[8..] == x && g[8..] == y;
    }
    if forall r :: r in d.refs <==> r in e.refs {
      StrictIsUnique(x, y, RefKey);
    }
  }

  lemma DeliveryHashDecides(d: Delivery, x: seq<Ref>, e: Delivery, y: seq<Ref>)
    requires SortedRefs(d.refs, x) && SortedRefs(e.refs, y) && Storable(DeliveryFields(d, x)) && Storable(DeliveryFields(e, y))
    ensures Hash(DeliveryFields(d, x)) == Hash(DeliveryFields(e, y)) <==> d == e.(refs := d.refs) && forall r :: r in d.refs <==> r in e.refs
  {
    HashDecides(DeliveryFields(d, x), DeliveryFields(e, y));
    DeliveryFieldsDecide(d, x, e, y);
  }

  /* ---- consolidation windows ---- */

  datatype WindowRequest = WindowRequest(owner: Owner, episodes: seq<Ref>, outcomes: seq<Ref>)

  function WindowFields(w: WindowRequest): seq<string> {
    ["consolidation-window.v2", KindName(w.owner), w.owner.tenant, w.owner.agent, w.owner.relationshipRef]
    + w.episodes + ["outcomes"] + w.outcomes
  }

  lemma {:induction false} MarkerSplits(a: seq<string>, b: seq<string>, x: seq<string>, y: seq<string>, marker: string)
    requires marker !in a && marker !in x && a + [marker] + b == x + [marker] + y
    ensures a == x && b == y
    decreases |a|
  {
    var l, r := a + [marker] + b, x + [marker] + y;
    assert a != [] ==> a[0] in a && l[0] == a[0];
    assert x != [] ==> x[0] in x && r[0] == x[0];
    assert a == [] ==> l[0] == marker;
    assert x == [] ==> r[0] == marker;
    if a == [] {
      assert l[1..] == b && r[1..] == y;
    } else {
      assert l[1..] == a[1..] + [marker] + b && r[1..] == x[1..] + [marker] + y;
      MarkerSplits(a[1..], b, x[1..], y, marker);
      assert a == [a[0]] + a[1..] && x == [x[0]] + x[1..];
    }
  }

  /** Episode refs are derived as "episode_" and the digest of the group's fields, and
      a window's Episodes are loaded by their refs before its hash is used. */
  predicate EpisodeShaped(ref: Ref) {
    "episode_" <= ref
  }

  predicate EpisodesShaped(w: WindowRequest) {
    forall i :: 0 <= i < |w.episodes| ==> EpisodeShaped(w.episodes[i])
  }

  lemma NoMarker(w: WindowRequest)
    requires EpisodesShaped(w)
    ensures "outcomes" !in w.episodes
  {
    forall i | 0 <= i < |w.episodes| ensures w.episodes[i] != "outcomes" {
      assert EpisodeShaped(w.episodes[i]) && w.episodes[i][0] == "episode_"[0] == 'e';
      assert "outcomes"[0] == 'o';
    }
  }

  /** The fields of a window determine it, because no Episode ref is the bare marker
      word. */
  lemma WindowFieldsDecide(w: WindowRequest, v: WindowRequest)
    requires EpisodesShaped(w) && EpisodesShaped(v)
    ensures WindowFields(w) == WindowFields(v) <==> w == v
  {
    var f, g := WindowFields(w), WindowFields(v);
    if f == g {
      assert f[1] == g[1] && f[2] == g[2] && f[3] == g[3] && f[4] == g[4];
      OwnersAgree(w.owner, v.owner);
      assert f[5..] == w.episodes + ["outcomes"] + w.outcomes && g[5..] == v.episodes + ["outcomes"] + v.outcomes;
      NoMarker(w);
      NoMarker(v);
      MarkerSplits(w.episodes, w.outcomes, v.episodes, v.outcomes, "outcomes");
    }
  }

  /** Two windows have one hash exactly when they are equal. */
  lemma WindowHashDecides(w: WindowRequest, v: WindowRequest)
    requires EpisodesShaped(w) && EpisodesShaped(v) && Storable(WindowFields(w)) && Storable(WindowFields(v))
    ensures Hash(WindowFields(w)) == Hash(WindowFields(v)) <==> w == v
  {
    HashDecides(WindowFields(w), WindowFields(v));
    WindowFieldsDecide(w, v);
  }

  /** The framing relies on that shape: among lists of arbitrary words two different
      ones share their fields. */
  lemma MarkerIsNeeded()
    ensures exists w, v :: w != v && WindowFields(w) == WindowFields(v)
  {
    var o := Owner(false, "t", "a", "");
    var w, v := WindowRequest(o, ["e", "outcomes"], []), WindowRequest(o, ["e"], ["outcomes"]);
    assert WindowFields(w) == WindowFields(v);
    assert w.episodes != v.episodes by {
      assert |w.episodes| == 2 && |v.episodes| == 1;
    }
  }
}
