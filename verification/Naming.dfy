/** The refs the program derives: a prefix and the digest of an identity's fields.
    They name Episodes, Outcomes and memories injectively. */
module Naming {
  import opened Refs
  import opened Causal
  import opened Framing
  import opened LifecycleModel
  import RequestHashes
  import LifecycleJobs
  import LifecycleProjection
  import LifecycleQueue

  /* ---- hex ---- */

  function HexDigit(d: nat): (c: char)
    requires d < 16
    ensures c != '-'
  {
    if d < 10 then (d + '0' as int) as char else (d - 10 + 'a' as int) as char
  }

  /** hex.EncodeToString */
  function Hex(b: Bytes): (s: string)
    ensures |s| == 2 * |b| && '-' !in s
  {
    if b == [] then "" else [HexDigit(b[0] / 16), HexDigit(b[0] % 16)] + Hex(b[1..])
  }

  lemma DigitInjective(d: nat, e: nat)
    requires d < 16 && e < 16 && HexDigit(d) == HexDigit(e)
    ensures d == e
  {
  }

  lemma {:induction false} HexInjective(a: Bytes, b: Bytes)
    requires Hex(a) == Hex(b)
    ensures a == b
    decreases |a|
  {
    if a != [] && b != [] {
      var x, y := Hex(a), Hex(b);
      assert x[0] == HexDigit(a[0] / 16) && x[1] == HexDigit(a[0] % 16) && x[2..] == Hex(a[1..]);
      assert y[0] == HexDigit(b[0] / 16) && y[1] == HexDigit(b[0] % 16) && y[2..] == Hex(b[1..]);
      DigitInjective(a[0] / 16, b[0] / 16);
      DigitInjective(a[0] % 16, b[0] % 16);
      HexInjective(a[1..], b[1..]);
      assert a == [a[0]] + a[1..] && b == [b[0]] + b[1..];
    }
  }

  /* ---- refs ---- */

  /* Identities with a field of 2^64 bytes or more never occur; they are quoted so
     that the naming is total. */
  function QuoteOne(s: string): string {
    if s == "" then ";" else "." + [s[0]] + QuoteOne(s[1..])
  }

  function Quote(fields: seq<string>): string {
    if fields == [] then "" else QuoteOne(fields[0]) + Quote(fields[1..])
  }

  lemma {:induction false} QuoteOneInjective(s: string, t: string, x: string, y: string)
    requires QuoteOne(s) + x == QuoteOne(t) + y
    ensures s == t && x == y
    decreases |s|
  {
    var l, r := QuoteOne(s) + x, QuoteOne(t) + y;
    assert s == "" ==> l[0] == ';';
    assert t == "" ==> r[0] == ';';
    assert s != "" ==> l[0] == '.' && l[1] == s[0] && l[2..] == QuoteOne(s[1..]) + x;
    assert t != "" ==> r[0] == '.' && r[1] == t[0] && r[2..] == QuoteOne(t[1..]) + y;
    if s != "" {
      QuoteOneInjective(s[1..], t[1..], x, y);
      assert s == [s[0]] + s[1..] && t == [t[0]] + t[1..];
    } else {
      assert l[1..] == x && r[1..] == y;
    }
  }

  lemma {:induction false} QuoteInjective(f: seq<string>, g: seq<string>)
    requires Quote(f) == Quote(g)
    ensures f == g
    decreases |f|
  {
    if f != [] && g != [] {
      QuoteOneInjective(f[0], g[0], Quote(f[1..]), Quote(g[1..]));
      QuoteInjective(f[1..], g[1..]);
      assert f == [f[0]] + f[1..] && g == [g[0]] + g[1..];
    } else {
      QuoteEmpty(f);
      QuoteEmpty(g);
    }
  }

  lemma QuoteEmpty(f: seq<string>)
    ensures Quote(f) == "" <==> f == []
  {
  }

  /** prefix + hex of the hash of the fields */
  function RefFor(prefix: string, fields: seq<string>): (r: Ref)
    ensures prefix <= r
  {
    if Storable(fields) then prefix + Hex(Hash(fields)) else prefix + ("-" + Quote(fields))
  }

  lemma SamePrefix(prefix: string, x: string, y: string)
    requires prefix + x == prefix + y
    ensures x == y
  {
    assert (prefix + x)[|prefix|..] == x && (prefix + y)[|prefix|..] == y;
  }

  lemma RefForInjective(prefix: string, f: seq<string>, g: seq<string>)
    requires RefFor(prefix, f) == RefFor(prefix, g)
    ensures f == g
  {
    var x := if Storable(f) then Hex(Hash(f)) else "-" + Quote(f);
    var y := if Storable(g) then Hex(Hash(g)) else "-" + Quote(g);
    SamePrefix(prefix, x, y);
    assert Storable(f) <==> '-' !in x by {
      assert !Storable(f) ==> x[0] == '-';
    }
    assert Storable(g) <==> '-' !in y by {
      assert !Storable(g) ==> y[0] == '-';
    }
    if Storable(f) {
      HexInjective(Hash(f), Hash(g));
      HashDecides(f, g);
    } else {
      SamePrefix("-", Quote(f), Quote(g));
      QuoteInjective(f, g);
    }
  }

  /* ---- Episodes and Outcomes ---- */

  function OwnerFields(o: Owner): seq<string> {
    [RequestHashes.KindName(o), o.tenant, o.agent, o.relationshipRef]
  }

  lemma OwnerDecided(o: Owner, p: Owner)
    requires OwnerFields(o) == OwnerFields(p)
    ensures o == p
  {
    var f, g := OwnerFields(o), OwnerFields(p);
    assert f[0] == g[0] && f[1] == g[1] && f[2] == g[2] && f[3] == g[3];
    RequestHashes.OwnersAgree(o, p);
  }

  function GroupFields(g: Group): (f: seq<string>)
    ensures |f| == 7
  {
    OwnerFields(g.run.owner) + [g.run.session, g.run.run, g.group]
  }

  lemma GroupDecided(g: Group, h: Group)
    requires GroupFields(g) == GroupFields(h)
    ensures g == h
  {
    var x, y := GroupFields(g), GroupFields(h);
    assert x[..4] == OwnerFields(g.run.owner) && y[..4] == OwnerFields(h.run.owner);
    OwnerDecided(g.run.owner, h.run.owner);
    assert x[4] == y[4] && x[5] == y[5] && x[6] == y[6];
  }

  /** EpisodeRef */
  function EpisodeName(g: Group): (r: Ref)
    ensures RequestHashes.EpisodeShaped(r)
  {
    RefFor("episode_", ["episode.v1"] + GroupFields(g))
  }

  lemma EpisodeNameInjective(g: Group, h: Group)
    requires EpisodeName(g) == EpisodeName(h)
    ensures g == h
  {
    var x, y := ["episode.v1"] + GroupFields(g), ["episode.v1"] + GroupFields(h);
    RefForInjective("episode_", x, y);
    assert x[1..] == GroupFields(g) && y[1..] == GroupFields(h);
    GroupDecided(g, h);
  }

  /** outcomeEventRef */
  function OutcomeName(o: OutcomeKey): Ref {
    RefFor("outcome_", ["outcome-event-identity.v1"] + GroupFields(o.group) + [o.source, o.key])
  }

  lemma OutcomeNameInjective(o: OutcomeKey, p: OutcomeKey)
    requires OutcomeName(o) == OutcomeName(p)
    ensures o == p
  {
    var x, y := ["outcome-event-identity.v1"] + GroupFields(o.group) + [o.source, o.key],
                ["outcome-event-identity.v1"] + GroupFields(p.group) + [p.source, p.key];
    RefForInjective("outcome_", x, y);
    assert x[1..8] == GroupFields(o.group) && y[1..8] == GroupFields(p.group);
    assert x[8] == y[8] && x[9] == y[9];
    GroupDecided(o.group, p.group);
  }

  function JobNames(): LifecycleJobs.Names {
    LifecycleJobs.Names(EpisodeName, OutcomeName)
  }

  /** The program's own refs name Episodes and Outcomes injectively. */
  lemma JobNamesAreNamed()
    ensures LifecycleQueue.Named(JobNames())
  {
    forall g, h | EpisodeName(g) == EpisodeName(h) ensures g == h {
      EpisodeNameInjective(g, h);
    }
    forall o, p | OutcomeName(o) == OutcomeName(p) ensures o == p {
      OutcomeNameInjective(o, p);
    }
  }

  /* ---- memories ---- */

  function ApplicationName(a: Application): string {
    match a
    case Self => "SELF"
    case Other => "OTHER"
    case Relation => "RELATION"
    case SituationScope => "SITUATION"
    case UnknownApplication => ""
  }

  lemma ApplicationDecided(a: Application, b: Application)
    requires ApplicationName(a) == ApplicationName(b)
    ensures a == b
  {
  }

  function EpisodeNames(s: seq<Group>): seq<Ref> {
    LifecycleJobs.EpisodeRefs(JobNames(), s)
  }

  function OutcomeNames(s: seq<OutcomeKey>): seq<Ref> {
    LifecycleJobs.OutcomeRefs(JobNames(), s)
  }

  lemma EpisodeNamesDecided(s: seq<Group>, t: seq<Group>)
    requires EpisodeNames(s) == EpisodeNames(t)
    ensures s == t
  {
    var x, y := EpisodeNames(s), EpisodeNames(t);
    forall i | 0 <= i < |s| ensures s[i] == t[i] {
      assert x[i] == y[i];
      EpisodeNameInjective(s[i], t[i]);
    }
  }

  lemma OutcomeNamesDecided(s: seq<OutcomeKey>, t: seq<OutcomeKey>)
    requires OutcomeNames(s) == OutcomeNames(t)
    ensures s == t
  {
    var x, y := OutcomeNames(s), OutcomeNames(t);
    forall i | 0 <= i < |s| ensures s[i] == t[i] {
      assert x[i] == y[i];
      OutcomeNameInjective(s[i], t[i]);
    }
  }

  /** The evidence of a Seed's formation: Episode refs, then, if there are any, the
      marker and the Outcome refs. */
  function SeedEvidence(eps: seq<Group>, outs: seq<OutcomeKey>): seq<string> {
    if outs == [] then EpisodeNames(eps) else EpisodeNames(eps) + ["OUTCOMES"] + OutcomeNames(outs)
  }

  lemma NoOutcomesMarker(eps: seq<Group>)
    ensures "OUTCOMES" !in EpisodeNames(eps)
  {
    forall i | 0 <= i < |eps| ensures EpisodeNames(eps)[i] != "OUTCOMES" {
      assert EpisodeNames(eps)[i] == EpisodeName(eps[i]) && "episode_" <= EpisodeName(eps[i]);
      assert EpisodeName(eps[i])[0] == 'e';
    }
  }

  lemma SeedEvidenceDecided(eps: seq<Group>, outs: seq<OutcomeKey>, eps': seq<Group>, outs': seq<OutcomeKey>)
    requires SeedEvidence(eps, outs) == SeedEvidence(eps', outs')
    ensures eps == eps' && outs == outs'
  {
    NoOutcomesMarker(eps);
    NoOutcomesMarker(eps');
    if outs != [] && outs' != [] {
      RequestHashes.MarkerSplits(EpisodeNames(eps), OutcomeNames(outs), EpisodeNames(eps'), OutcomeNames(outs'), "OUTCOMES");
      OutcomeNamesDecided(outs, outs');
    } else {
      MarkerPresent(eps, outs);
      MarkerPresent(eps', outs');
    }
    EpisodeNamesDecided(eps, eps');
  }

  lemma MarkerPresent(eps: seq<Group>, outs: seq<OutcomeKey>)
    ensures "OUTCOMES" in SeedEvidence(eps, outs) <==> outs != []
  {
    NoOutcomesMarker(eps);
    if outs != [] {
      assert SeedEvidence(eps, outs)[|eps|] == "OUTCOMES";
    }
  }

  /** formationRefs and recollectionFormationRefs */
  function RootFields(r: Root): seq<string> {
    match r
    case Seed(owner, job, text, eps, outs) => ["seed-form.v1"] + OwnerFields(owner) + [job, text] + SeedEvidence(eps, outs)
    case Recollection(owner, job, application, text, eps) =>
      ["recollection-form.v1"] + OwnerFields(owner) + [job, ApplicationName(application), text] + EpisodeNames(eps)
  }

  function RootName(r: Root): Ref {
    RefFor(if r.Seed? then "seed_" else "recollection_", RootFields(r))
  }

  lemma SameParts(tag: string, o: seq<string>, m: seq<string>, e: seq<string>, o': seq<string>, m': seq<string>, e': seq<string>)
    requires |o| == |o'| && |m| == |m'| && [tag] + o + m + e == [tag] + o' + m' + e'
    ensures o == o' && m == m' && e == e'
  {
    var x, y := [tag] + o + m + e, [tag] + o' + m' + e';
    var i, j := 1 + |o|, 1 + |o| + |m|;
    assert o == x[1..i] && o' == y[1..i];
    assert m == x[i..j] && m' == y[i..j];
    assert e == x[j..] && e' == y[j..];
  }

  lemma SeedDecided(r: Root, q: Root)
    requires r.Seed? && q.Seed? && RootFields(r) == RootFields(q)
    ensures r == q
  {
    SameParts("seed-form.v1", OwnerFields(r.owner), [r.job, r.text], SeedEvidence(r.episodes, r.outcomes),
              OwnerFields(q.owner), [q.job, q.text], SeedEvidence(q.episodes, q.outcomes));
    OwnerDecided(r.owner, q.owner);
    assert [r.job, r.text][0] == [q.job, q.text][0] && [r.job, r.text][1] == [q.job, q.text][1];
    SeedEvidenceDecided(r.episodes, r.outcomes, q.episodes, q.outcomes);
  }

  lemma RecollectionDecided(r: Root, q: Root)
    requires r.Recollection? && q.Recollection? && RootFields(r) == RootFields(q)
    ensures r == q
  {
    var m, m' := [r.job, ApplicationName(r.application), r.text], [q.job, ApplicationName(q.application), q.text];
    SameParts("recollection-form.v1", OwnerFields(r.owner), m, EpisodeNames(r.episodes), OwnerFields(q.owner), m', EpisodeNames(q.episodes));
    OwnerDecided(r.owner, q.owner);
    assert m[0] == m'[0] && m[1] == m'[1] && m[2] == m'[2];
    ApplicationDecided(r.application, q.application);
    EpisodeNamesDecided(r.episodes, q.episodes);
  }

  lemma RootNameInjective(r: Root, q: Root)
    requires RootName(r) == RootName(q)
    ensures r == q
  {
    assert RootName(r)[0] == if r.Seed? then 's' else 'r';
    assert RootName(q)[0] == if q.Seed? then 's' else 'r';
    RefForInjective(if r.Seed? then "seed_" else "recollection_", RootFields(r), RootFields(q));
    if r.Seed? {
      SeedDecided(r, q);
    } else {
      RecollectionDecided(r, q);
    }
  }

  function DocumentNames(): LifecycleProjection.Names {
    LifecycleProjection.Names(EpisodeName, RootName)
  }

  /** The program's own refs name documents injectively. */
  lemma DocumentNamesAreGood()
    ensures LifecycleProjection.Good(DocumentNames())
  {
    forall g, h | EpisodeName(g) == EpisodeName(h) ensures g == h {
      EpisodeNameInjective(g, h);
    }
    forall r, q | RootName(r) == RootName(q) ensures r == q {
      RootNameInjective(r, q);
    }
  }

  /* ---- the hash of a receipt ---- */

  function WindowRequestOf(w: Window): RequestHashes.WindowRequest
    requires w.episodes != []
  {
    RequestHashes.WindowRequest(OwnerOf(w), EpisodeNames(w.episodes), OutcomeNames(w.outcomes))
  }

  /** Under one Job, comparing the stored window hash is comparing the windows. */
  lemma ReceiptHashDecides(v: Window, w: Window)
    requires v.episodes != [] && w.episodes != [] && v.job == w.job
    requires Storable(RequestHashes.WindowFields(WindowRequestOf(v))) && Storable(RequestHashes.WindowFields(WindowRequestOf(w)))
    ensures Hash(RequestHashes.WindowFields(WindowRequestOf(v))) == Hash(RequestHashes.WindowFields(WindowRequestOf(w))) <==> v == w
  {
    RequestHashes.WindowHashDecides(WindowRequestOf(v), WindowRequestOf(w));
    if WindowRequestOf(v) == WindowRequestOf(w) {
      EpisodeNamesDecided(v.episodes, w.episodes);
      OutcomeNamesDecided(v.outcomes, w.outcomes);
    }
  }
}
