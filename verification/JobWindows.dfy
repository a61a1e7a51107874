/** How a lease freezes one bounded window out of an owner's collected evidence:
    reference lists, overlap with the previous window, and the Outcome split. */
module JobWindows {
  import opened Refs

  datatype OutcomeRow = OutcomeRow(owner: Owner, episode: Ref)
  type Outcomes = map<Ref, OutcomeRow>

  predicate Unique(s: seq<Ref>) {
    forall i, j :: 0 <= i < j < |s| ==> s[i] != s[j]
  }

  /* ---- appendUniqueRefs ---- */

  function AppendUnique(existing: seq<Ref>, added: seq<Ref>): seq<Ref>
    decreases |added|
  {
    if added == [] then existing
    else
      var ref := added[0];
      AppendUnique(if ref == "" || ref in existing then existing else existing + [ref], added[1..])
  }

  lemma {:induction false} AppendUniqueContents(existing: seq<Ref>, added: seq<Ref>)
    ensures existing <= AppendUnique(existing, added)
    ensures forall r :: r in AppendUnique(existing, added) <==> r in existing || (r in added && r != "")
    ensures Unique(existing) ==> Unique(AppendUnique(existing, added))
    decreases |added|
  {
    if added != [] {
      var ref := added[0];
      var grown := if ref == "" || ref in existing then existing else existing + [ref];
      AppendUniqueContents(grown, added[1..]);
      assert added == [ref] + added[1..];
      assert forall r :: r in added <==> r == ref || r in added[1..];
      assert forall r :: r in grown <==> r in existing || (r == ref && r != "");
    }
  }

  lemma {:induction false} AppendUniqueSnoc(existing: seq<Ref>, added: seq<Ref>, ref: Ref)
    ensures AppendUnique(existing, added + [ref]) ==
            var merged := AppendUnique(existing, added);
            if ref == "" || ref in merged then merged else merged + [ref]
    decreases |added|
  {
    if added == [] {
      assert added + [ref] == [ref];
      assert AppendUnique(existing, [ref]) ==
             AppendUnique(if ref == "" || ref in existing then existing else existing + [ref], [ref][1..]);
    } else {
      var grown := if added[0] == "" || added[0] in existing then existing else existing + [added[0]];
      AppendUniqueSnoc(grown, added[1..], ref);
      assert (added + [ref])[1..] == added[1..] + [ref];
    }
  }

  /** appendUniqueRefs: the merged list, and whether anything was added. */
  method AppendUniqueRefs(existing: seq<Ref>, added: seq<Ref>) returns (result: seq<Ref>, changed: bool)
    ensures result == AppendUnique(existing, added)
    ensures changed <==> result != existing
  {
    result, changed := existing, false;
    var seen := set r | r in existing;
    for i := 0 to |added|
      invariant result == AppendUnique(existing, added[..i])
      invariant seen == set r | r in result
      invariant existing <= result
      invariant changed <==> result != existing
    {
      var ref := added[i];
      AppendUniqueSnoc(existing, added[..i], ref);
      assert added[..i + 1] == added[..i] + [ref];
      if ref != "" && ref !in seen {
        seen := seen + {ref};
        result := result + [ref];
        changed := true;
      }
    }
    assert added[..|added|] == added;
  }

  /* ---- overlap with the previous window ---- */

  function LastN(s: seq<Ref>, n: nat): seq<Ref> {
    if |s| > n then s[|s| - n..] else s
  }

  /** The order-preserving union of the previous tail and the current refs. */
  function Dedup(seen: seq<Ref>, more: seq<Ref>): seq<Ref>
    decreases |more|
  {
    if more == [] then seen
    else Dedup(if more[0] in seen then seen else seen + [more[0]], more[1..])
  }

  lemma {:induction false} DedupContents(seen: seq<Ref>, more: seq<Ref>)
    requires Unique(seen)
    ensures seen <= Dedup(seen, more) && Unique(Dedup(seen, more))
    ensures forall r :: r in Dedup(seen, more) <==> r in seen || r in more
    ensures |Dedup(seen, more)| <= |seen| + |more|
    decreases |more|
  {
    if more != [] {
      var grown := if more[0] in seen then seen else seen + [more[0]];
      DedupContents(grown, more[1..]);
      assert forall r :: r in more <==> r == more[0] || r in more[1..];
      assert forall r :: r in grown <==> r in seen || r == more[0];
    }
  }

  lemma {:induction false} DedupSnoc(seen: seq<Ref>, more: seq<Ref>, ref: Ref)
    ensures Dedup(seen, more + [ref]) ==
            var all := Dedup(seen, more);
            if ref in all then all else all + [ref]
    decreases |more|
  {
    if more == [] {
      assert more + [ref] == [ref];
      assert Dedup(seen, [ref]) == Dedup(if ref in seen then seen else seen + [ref], [ref][1..]);
    } else {
      var grown := if more[0] in seen then seen else seen + [more[0]];
      DedupSnoc(grown, more[1..], ref);
      assert (more + [ref])[1..] == more[1..] + [ref];
    }
  }

  /* ---- partitionConsolidationOutcomes ---- */

  datatype Parts = Parts(selected: seq<Ref>, remainder: seq<Ref>)

  /** None is an error: an Outcome outside the owner or without its Episode. */
  function Partition(table: Outcomes, owner: Owner, collected: seq<Ref>, refs: seq<Ref>, selected: seq<Ref>): Option<Parts>
    decreases |refs|
  {
    if refs == [] then Some(Parts([], []))
    else
      var n := |refs| - 1;
      var rest := Partition(table, owner, collected, refs[..n], selected);
      if rest.None? || refs[n] !in table || table[refs[n]].owner != owner || table[refs[n]].episode !in collected then None
      else if table[refs[n]].episode in selected then Some(rest.value.(selected := rest.value.selected + [refs[n]]))
      else Some(rest.value.(remainder := rest.value.remainder + [refs[n]]))
  }

  /** Every Outcome sits beside its own Episode. */
  predicate Beside(table: Outcomes, owner: Owner, episodes: seq<Ref>, refs: seq<Ref>) {
    forall i :: 0 <= i < |refs| ==>
      refs[i] in table && table[refs[i]].owner == owner && table[refs[i]].episode in episodes
  }

  /** The last Outcome goes to one side; the others are split as without it. */
  lemma PartitionLast(table: Outcomes, owner: Owner, collected: seq<Ref>, refs: seq<Ref>, selected: seq<Ref>)
    requires refs != [] && Beside(table, owner, collected, refs)
    ensures var n := |refs| - 1;
            && Beside(table, owner, collected, refs[..n]) && refs[n] in table
            && (Partition(table, owner, collected, refs[..n], selected).Some? ==>
                  var before := Partition(table, owner, collected, refs[..n], selected).value;
                  Partition(table, owner, collected, refs, selected) ==
                  Some(if table[refs[n]].episode in selected then before.(selected := before.selected + [refs[n]])
                       else before.(remainder := before.remainder + [refs[n]])))
  {
  }

  lemma {:induction false} PartitionSucceeds(table: Outcomes, owner: Owner, collected: seq<Ref>, refs: seq<Ref>, selected: seq<Ref>)
    requires Beside(table, owner, collected, refs)
    ensures Partition(table, owner, collected, refs, selected).Some?
    ensures var p := Partition(table, owner, collected, refs, selected).value; |p.selected| + |p.remainder| == |refs|
    decreases |refs|
  {
    if refs != [] {
      PartitionLast(table, owner, collected, refs, selected);
      PartitionSucceeds(table, owner, collected, refs[..|refs| - 1], selected);
    }
  }

  /** Where the split puts one ref. */
  ghost predicate Parted(table: Outcomes, refs: seq<Ref>, selected: seq<Ref>, p: Parts) {
    && (forall r :: r in refs ==> r in table)
    && (forall r :: r in p.selected <==> r in refs && table[r].episode in selected)
    && (forall r :: r in p.remainder <==> r in refs && table[r].episode !in selected)
  }

  lemma PartedSnoc(table: Outcomes, refs: seq<Ref>, selected: seq<Ref>, p: Parts, ref: Ref)
    requires Parted(table, refs, selected, p) && ref in table
    ensures Parted(table, refs + [ref], selected,
                   if table[ref].episode in selected then p.(selected := p.selected + [ref]) else p.(remainder := p.remainder + [ref]))
  {
  }

  lemma {:induction false} PartitionContents(table: Outcomes, owner: Owner, collected: seq<Ref>, refs: seq<Ref>, selected: seq<Ref>)
    requires Beside(table, owner, collected, refs) && Partition(table, owner, collected, refs, selected).Some?
    ensures Parted(table, refs, selected, Partition(table, owner, collected, refs, selected).value)
    decreases |refs|
  {
    if refs != [] {
      var n := |refs| - 1;
      PartitionLast(table, owner, collected, refs, selected);
      PartitionSucceeds(table, owner, collected, refs[..n], selected);
      PartitionContents(table, owner, collected, refs[..n], selected);
      PartedSnoc(table, refs[..n], selected, Partition(table, owner, collected, refs[..n], selected).value, refs[n]);
      assert refs == refs[..n] + [refs[n]];
    }
  }

  lemma UniqueSnoc(s: seq<Ref>, r: Ref)
    ensures Unique(s + [r]) <==> Unique(s) && r !in s
  {
    var all := s + [r];
    assert all[|s|] == r && forall i :: 0 <= i < |s| ==> all[i] == s[i];
    if Unique(all) {
      forall i | 0 <= i < |s| ensures s[i] != r {
        assert all[i] != all[|s|];
      }
    }
  }

  lemma {:induction false} PartitionUnique(table: Outcomes, owner: Owner, collected: seq<Ref>, refs: seq<Ref>, selected: seq<Ref>)
    requires Beside(table, owner, collected, refs) && Partition(table, owner, collected, refs, selected).Some? && Unique(refs)
    ensures var p := Partition(table, owner, collected, refs, selected).value; Unique(p.selected) && Unique(p.remainder)
    decreases |refs|
  {
    if refs != [] {
      var n := |refs| - 1;
      assert refs == refs[..n] + [refs[n]];
      UniqueSnoc(refs[..n], refs[n]);
      PartitionLast(table, owner, collected, refs, selected);
      PartitionSucceeds(table, owner, collected, refs[..n], selected);
      PartitionUnique(table, owner, collected, refs[..n], selected);
      PartitionContents(table, owner, collected, refs[..n], selected);
      var p := Partition(table, owner, collected, refs[..n], selected).value;
      UniqueSnoc(p.selected, refs[n]);
      UniqueSnoc(p.remainder, refs[n]);
    }
  }

  /** On Outcomes that sit beside their Episodes the checks pass, and the split
      drops nothing, duplicates nothing and follows the Episodes. */
  lemma PartitionSplits(table: Outcomes, owner: Owner, collected: seq<Ref>, refs: seq<Ref>, selected: seq<Ref>)
    requires Beside(table, owner, collected, refs)
    ensures Partition(table, owner, collected, refs, selected).Some?
    ensures var p := Partition(table, owner, collected, refs, selected).value;
            && (forall r :: r in p.selected <==> r in refs && table[r].episode in selected)
            && (forall r :: r in p.remainder <==> r in refs && table[r].episode !in selected)
            && (Unique(refs) ==> Unique(p.selected) && Unique(p.remainder))
            && |p.selected| + |p.remainder| == |refs|
  {
    PartitionSucceeds(table, owner, collected, refs, selected);
    PartitionContents(table, owner, collected, refs, selected);
    if Unique(refs) {
      PartitionUnique(table, owner, collected, refs, selected);
    }
  }

  /** partitionConsolidationOutcomes: succeeds exactly when every Outcome sits
      beside its Episode. */
  method PartitionOutcomes(table: Outcomes, owner: Owner, collected: seq<Ref>, refs: seq<Ref>, selected: seq<Ref>)
    returns (ok: bool, parts: Parts)
    ensures ok <==> Beside(table, owner, collected, refs)
    ensures ok ==> Partition(table, owner, collected, refs, selected) == Some(parts)
    ensures !ok ==> Partition(table, owner, collected, refs, selected).None?
  {
    parts := Parts([], []);
    for i := 0 to |refs|
      invariant Beside(table, owner, collected, refs[..i])
      invariant Partition(table, owner, collected, refs[..i], selected) == Some(parts)
    {
      var ref := refs[i];
      assert refs[..i + 1][..i] == refs[..i];
      if ref !in table || table[ref].owner != owner || table[ref].episode !in collected {
        PartitionFails(table, owner, collected, refs, selected, i + 1);
        return false, parts;
      }
      if table[ref].episode in selected {
        parts := parts.(selected := parts.selected + [ref]);
      } else {
        parts := parts.(remainder := parts.remainder + [ref]);
      }
    }
    assert refs[..|refs|] == refs;
    ok := true;
  }

  lemma {:induction false} PartitionFails(table: Outcomes, owner: Owner, collected: seq<Ref>, refs: seq<Ref>,
                                          selected: seq<Ref>, i: nat)
    requires i <= |refs| && Partition(table, owner, collected, refs[..i], selected).None?
    ensures Partition(table, owner, collected, refs, selected).None?
    decreases |refs|
  {
    if i == |refs| {
      assert refs[..i] == refs;
    } else {
      assert refs[..|refs| - 1][..i] == refs[..i];
      PartitionFails(table, owner, collected, refs[..|refs| - 1], selected, i);
    }
  }

  /* ---- freezing a window ---- */

  datatype Evidence = Evidence(episodes: seq<Ref>, outcomes: seq<Ref>)
  datatype Split = Split(window: Evidence, rest: Evidence)

  predicate EvidenceOk(table: Outcomes, owner: Owner, e: Evidence) {
    && e.episodes != [] && Unique(e.episodes) && "" !in e.episodes
    && Unique(e.outcomes) && "" !in e.outcomes && Beside(table, owner, e.episodes, e.outcomes)
  }

  function Clamp(max: int, overlap: int): int {
    if overlap >= max then max - 1 else overlap
  }

  /** prependPreviousOverlap: the combined Episodes and the overlap's Outcomes. */
  function Prepend(table: Outcomes, owner: Owner, previous: Option<Evidence>, current: seq<Ref>, limit: int): Option<Evidence> {
    if limit <= 0 || previous.None? then Some(Evidence(current, []))
    else
      var tail := LastN(previous.value.episodes, limit);
      var parts := Partition(table, owner, previous.value.episodes, previous.value.outcomes, tail);
      if parts.None? then None else Some(Evidence(Dedup(Dedup([], tail), current), parts.value.selected))
  }

  function Without(refs: seq<Ref>, taken: seq<Ref>): seq<Ref> {
    if refs == [] then []
    else
      var n := |refs| - 1;
      Without(refs[..n], taken) + if refs[n] in taken then [] else [refs[n]]
  }

  function CutWindow(all: seq<Ref>, max: nat): (w: seq<Ref>)
    ensures w <= all && |w| <= max && (|all| <= max ==> w == all)
  {
    if |all| > max then all[..max] else all
  }

  /* Cut the combined Episodes at `max` and split the Outcomes accordingly. */
  function Cut(table: Outcomes, owner: Owner, collected: Evidence, combined: Evidence, max: nat): Option<Split> {
    var all := combined.episodes;
    var window := CutWindow(all, max);
    var parts := Partition(table, owner, all, AppendUnique(combined.outcomes, collected.outcomes), window);
    if parts.None? then None
    else Some(Split(Evidence(window, parts.value.selected),
                    Evidence(Without(collected.episodes, window), parts.value.remainder)))
  }

  /** The freezing branch of LeaseConsolidationJob. */
  function Freeze(table: Outcomes, owner: Owner, collected: Evidence, previous: Option<Evidence>, max: nat, overlap: int): Option<Split> {
    var combined := Prepend(table, owner, previous, collected.episodes, Clamp(max, overlap));
    if combined.None? then None else Cut(table, owner, collected, combined.value, max)
  }

  /* ---- what a freeze guarantees ---- */

  lemma {:induction false} UniqueSize(s: seq<Ref>)
    ensures |set r | r in s| <= |s|
    ensures Unique(s) ==> |set r | r in s| == |s|
  {
    if s != [] {
      var n := |s| - 1;
      UniqueSize(s[..n]);
      var all, rest := set r | r in s, set r | r in s[..n];
      assert s == s[..n] + [s[n]];
      assert all == rest + {s[n]};
      if Unique(s) {
        assert s[n] !in rest;
      }
    }
  }

  lemma UniqueFits(a: seq<Ref>, b: seq<Ref>)
    requires Unique(a) && forall r :: r in a ==> r in b
    ensures |a| <= |b|
  {
    UniqueSize(a);
    UniqueSize(b);
    SubsetSize(set r | r in a, set r | r in b);
  }

  lemma {:induction false} WithoutContents(refs: seq<Ref>, taken: seq<Ref>)
    ensures forall r :: r in Without(refs, taken) <==> r in refs && r !in taken
    ensures Unique(refs) ==> Unique(Without(refs, taken))
  {
    if refs != [] {
      var n := |refs| - 1;
      WithoutContents(refs[..n], taken);
      assert refs == refs[..n] + [refs[n]];
      assert forall r :: r in refs <==> r in refs[..n] || r == refs[n];
      if Unique(refs) {
        assert refs[n] !in refs[..n];
      }
    }
  }

  lemma {:induction false} DedupUnique(seen: seq<Ref>, more: seq<Ref>)
    requires Unique(seen + more)
    ensures Dedup(seen, more) == seen + more
    decreases |more|
  {
    if more != [] {
      forall i | 0 <= i < |seen| ensures seen[i] != more[0] {
        assert (seen + more)[i] == seen[i] && (seen + more)[|seen|] == more[0];
      }
      assert seen + [more[0]] + more[1..] == seen + more;
      DedupUnique(seen + [more[0]], more[1..]);
    } else {
      assert seen + more == seen;
    }
  }

  lemma TailOk(episodes: seq<Ref>, limit: nat)
    requires Unique(episodes)
    ensures var tail := LastN(episodes, limit);
            && |tail| <= limit && Unique(tail) && Dedup([], tail) == tail
            && (forall r :: r in tail ==> r in episodes)
  {
    var tail := LastN(episodes, limit);
    assert [] + tail == tail;
    DedupUnique([], tail);
  }

  /** Prepending keeps everything current, puts at most `limit` old Episodes
      first, and keeps every Outcome beside its Episode. */
  ghost predicate Prepended(table: Outcomes, owner: Owner, current: seq<Ref>, limit: int, e: Evidence) {
    && Unique(e.episodes) && "" !in e.episodes && (forall r :: r in current ==> r in e.episodes)
    && |e.episodes| <= (if limit > 0 then limit else 0) + |current|
    && Unique(e.outcomes) && "" !in e.outcomes && Beside(table, owner, e.episodes, e.outcomes)
    && (forall i :: limit <= i < |e.episodes| && 0 <= i ==> e.episodes[i] in current)
  }

  lemma PrependOk(table: Outcomes, owner: Owner, previous: Option<Evidence>, current: seq<Ref>, limit: int)
    requires Unique(current) && "" !in current
    requires previous.Some? ==> EvidenceOk(table, owner, previous.value)
    ensures Prepend(table, owner, previous, current, limit).Some?
    ensures Prepended(table, owner, current, limit, Prepend(table, owner, previous, current, limit).value)
  {
    if limit > 0 && previous.Some? {
      var tail := LastN(previous.value.episodes, limit);
      TailOk(previous.value.episodes, limit);
      PartitionSplits(table, owner, previous.value.episodes, previous.value.outcomes, tail);
      OverlapOk(table, owner, previous.value, tail, current, limit);
    }
  }

  lemma OverlapOk(table: Outcomes, owner: Owner, previous: Evidence, tail: seq<Ref>, current: seq<Ref>, limit: nat)
    requires Unique(current) && "" !in current && EvidenceOk(table, owner, previous)
    requires |tail| <= limit && Unique(tail) && (forall r :: r in tail ==> r in previous.episodes)
    requires Partition(table, owner, previous.episodes, previous.outcomes, tail).Some?
    ensures Prepended(table, owner, current, limit,
                      Evidence(Dedup(tail, current),
                               Partition(table, owner, previous.episodes, previous.outcomes, tail).value.selected))
  {
    PartitionSplits(table, owner, previous.episodes, previous.outcomes, tail);
    DedupContents(tail, current);
    DedupBeyond(tail, current);
    var outs := Partition(table, owner, previous.episodes, previous.outcomes, tail).value.selected;
    forall i | 0 <= i < |outs|
      ensures outs[i] != "" && outs[i] in table && table[outs[i]].owner == owner
      ensures table[outs[i]].episode in Dedup(tail, current)
    {
      assert outs[i] in outs;
      assert outs[i] in previous.outcomes;
    }
  }

  lemma {:induction false} DedupBeyond(seen: seq<Ref>, more: seq<Ref>)
    ensures |seen| <= |Dedup(seen, more)|
    ensures forall i :: |seen| <= i < |Dedup(seen, more)| ==> Dedup(seen, more)[i] in more
    decreases |more|
  {
    if more != [] {
      var grown := if more[0] in seen then seen else seen + [more[0]];
      DedupBeyond(grown, more[1..]);
      DedupExtends(grown, more[1..]);
    }
  }

  lemma {:induction false} DedupExtends(seen: seq<Ref>, more: seq<Ref>)
    ensures seen <= Dedup(seen, more)
    decreases |more|
  {
    if more != [] {
      DedupExtends(if more[0] in seen then seen else seen + [more[0]], more[1..]);
    }
  }

  lemma CutWindowOk(all: seq<Ref>, current: seq<Ref>, max: nat)
    requires max >= 2 && Unique(all) && current != [] && forall r :: r in current ==> r in all
    ensures CutWindow(all, max) != [] && Unique(CutWindow(all, max)) && forall r :: r in CutWindow(all, max) ==> r in all
  {
    assert current[0] in current && current[0] in all;
  }

  lemma BeyondWindow(all: seq<Ref>, max: nat, r: Ref)
    requires r in all && r !in CutWindow(all, max)
    ensures |all| > max && r in all[max..]
  {
    var i :| 0 <= i < |all| && all[i] == r;
    if |all| > max {
      assert i >= max ==> all[max..][i - max] == r;
    }
  }

  /** What lies beyond the window was collected now, as the overlap is shorter. */
  lemma BeyondIsCurrent(all: seq<Ref>, current: seq<Ref>, max: nat, limit: nat, r: Ref)
    requires limit < max && (forall i :: limit <= i < |all| ==> all[i] in current) && r in all && r !in CutWindow(all, max)
    ensures r in current
  {
    BeyondWindow(all, max, r);
    var i :| 0 <= i < |all[max..]| && all[max..][i] == r;
    assert all[max + i] == r;
  }

  lemma RestFits(all: seq<Ref>, current: seq<Ref>, max: nat, limit: nat)
    requires limit < max && Unique(current) && (forall r :: r in current ==> r in all) && |all| <= limit + |current|
    requires Without(current, CutWindow(all, max)) != []
    ensures |Without(current, CutWindow(all, max))| + (max - limit) <= |current|
  {
    var rest := Without(current, CutWindow(all, max));
    WithoutContents(current, CutWindow(all, max));
    forall r | r in rest ensures |all| > max && r in all[max..] {
      BeyondWindow(all, max, r);
    }
    assert rest[0] in rest;
    UniqueFits(rest, all[max..]);
  }

  /** Cutting the combined Episodes at `max` leaves exactly the collected
      Episodes that did not fit, and strictly fewer than were collected. */
  lemma CutOk(all: seq<Ref>, current: seq<Ref>, max: nat, limit: nat)
    requires 2 <= max && limit < max && Unique(all) && Unique(current) && current != []
    requires (forall r :: r in current ==> r in all) && |all| <= limit + |current|
    requires forall i :: limit <= i < |all| ==> all[i] in current
    ensures var window := CutWindow(all, max);
            window != [] && |window| <= max && Unique(window) && (forall r :: r in window ==> r in all)
    ensures var rest := Without(current, CutWindow(all, max));
            && Unique(rest) && (forall r :: r in rest <==> r in current && r !in CutWindow(all, max))
            && (forall r :: r in all && r !in CutWindow(all, max) ==> r in rest)
            && (rest != [] ==> |rest| + (max - limit) <= |current|)
  {
    CutWindowOk(all, current, max);
    WithoutContents(current, CutWindow(all, max));
    forall r | r in all && r !in CutWindow(all, max) ensures r in Without(current, CutWindow(all, max)) {
      BeyondIsCurrent(all, current, max, limit, r);
    }
    if Without(current, CutWindow(all, max)) != [] {
      RestFits(all, current, max, limit);
    }
  }

  /** Outcomes follow their Episodes to the window or to the remainder. */
  lemma OutcomesFollow(table: Outcomes, owner: Owner, all: seq<Ref>, outs: seq<Ref>, window: seq<Ref>, rest: seq<Ref>)
    requires Beside(table, owner, all, outs) && Unique(outs) && "" !in outs
    requires forall r :: r in all && r !in window ==> r in rest
    ensures Partition(table, owner, all, outs, window).Some?
    ensures var p := Partition(table, owner, all, outs, window).value;
            && Beside(table, owner, window, p.selected) && Unique(p.selected) && "" !in p.selected
            && Beside(table, owner, rest, p.remainder) && Unique(p.remainder) && "" !in p.remainder
            && (forall r :: r in outs ==> r in p.selected || r in p.remainder)
            && (rest == [] ==> p.remainder == [])
  {
    PartitionSplits(table, owner, all, outs, window);
    var p := Partition(table, owner, all, outs, window).value;
    forall i | 0 <= i < |p.selected| ensures p.selected[i] in outs && table[p.selected[i]].episode in window {
      assert p.selected[i] in p.selected;
    }
    forall i | 0 <= i < |p.remainder|
      ensures p.remainder[i] in outs && table[p.remainder[i]].episode in all && table[p.remainder[i]].episode !in window
    {
      assert p.remainder[i] in p.remainder;
    }
    if p.remainder != [] {
      assert table[p.remainder[0]].episode in rest;
    }
  }

  lemma MergedBeside(table: Outcomes, owner: Owner, all: seq<Ref>, first: seq<Ref>, current: seq<Ref>, second: seq<Ref>)
    requires Beside(table, owner, all, first) && Unique(first) && "" !in first
    requires Beside(table, owner, current, second) && "" !in second && (forall r :: r in current ==> r in all)
    ensures var outs := AppendUnique(first, second);
            && Beside(table, owner, all, outs) && Unique(outs) && "" !in outs && (forall r :: r in second ==> r in outs)
  {
    AppendUniqueContents(first, second);
    var outs := AppendUnique(first, second);
    forall i | 0 <= i < |outs| ensures outs[i] in first || outs[i] in second {
      assert outs[i] in outs;
    }
  }

  /** The contract of one freeze: the window is well formed and bounded; nothing
      collected is dropped; what is carried over is again well formed, strictly
      smaller, and has Outcomes only if it has Episodes. */
  ghost predicate FreezeOk(table: Outcomes, owner: Owner, collected: Evidence, max: int, overlap: int, s: Split) {
    && EvidenceOk(table, owner, s.window) && |s.window.episodes| <= max
    && (forall r :: r in s.rest.episodes <==> r in collected.episodes && r !in s.window.episodes)
    && (forall r :: r in collected.outcomes ==> r in s.window.outcomes || r in s.rest.outcomes)
    && (s.rest.episodes == [] ==> s.rest.outcomes == [])
    && (s.rest.episodes != [] ==> EvidenceOk(table, owner, s.rest))
    && (s.rest.episodes != [] ==> |s.rest.episodes| + (max - Clamp(max, overlap)) <= |collected.episodes|)
  }

  lemma LimitIs(max: nat, overlap: nat)
    requires max >= 2
    ensures 0 <= Clamp(max, overlap) < max
  {
  }

  lemma CutSplits(table: Outcomes, owner: Owner, collected: Evidence, combined: Evidence, max: nat, overlap: nat)
    requires max >= 2 && EvidenceOk(table, owner, collected)
    requires Prepended(table, owner, collected.episodes, Clamp(max, overlap), combined)
    ensures Cut(table, owner, collected, combined, max).Some?
    ensures FreezeOk(table, owner, collected, max, overlap, Cut(table, owner, collected, combined, max).value)
  {
    var all := combined.episodes;
    var window := CutWindow(all, max);
    var rest := Without(collected.episodes, window);
    var outs := AppendUnique(combined.outcomes, collected.outcomes);
    LimitIs(max, overlap);
    CutOk(all, collected.episodes, max, Clamp(max, overlap));
    MergedBeside(table, owner, all, combined.outcomes, collected.episodes, collected.outcomes);
    OutcomesFollow(table, owner, all, outs, window, rest);
    SplitOk(table, owner, all, collected, outs, Cut(table, owner, collected, combined, max).value, max, overlap);
  }

  /** The partition checks never fail on well-formed evidence. */
  lemma FreezeSplits(table: Outcomes, owner: Owner, collected: Evidence, previous: Option<Evidence>, max: nat, overlap: nat)
    requires max >= 2 && EvidenceOk(table, owner, collected)
    requires previous.Some? ==> EvidenceOk(table, owner, previous.value)
    ensures Freeze(table, owner, collected, previous, max, overlap).Some?
    ensures FreezeOk(table, owner, collected, max, overlap,
                     Freeze(table, owner, collected, previous, max, overlap).value)
  {
    PrependOk(table, owner, previous, collected.episodes, Clamp(max, overlap));
    CutSplits(table, owner, collected,
              Prepend(table, owner, previous, collected.episodes, Clamp(max, overlap)).value, max, overlap);
  }

  lemma SplitOk(table: Outcomes, owner: Owner, all: seq<Ref>, collected: Evidence, outs: seq<Ref>, s: Split, max: int, overlap: int)
    requires EvidenceOk(table, owner, collected) && "" !in all
    requires s.window.episodes != [] && |s.window.episodes| <= max && Unique(s.window.episodes)
    requires forall r :: r in s.window.episodes ==> r in all
    requires Unique(s.rest.episodes)
    requires forall r :: r in s.rest.episodes <==> r in collected.episodes && r !in s.window.episodes
    requires s.rest.episodes != [] ==> |s.rest.episodes| + (max - Clamp(max, overlap)) <= |collected.episodes|
    requires Beside(table, owner, s.window.episodes, s.window.outcomes) && Unique(s.window.outcomes) && "" !in s.window.outcomes
    requires Beside(table, owner, s.rest.episodes, s.rest.outcomes) && Unique(s.rest.outcomes) && "" !in s.rest.outcomes
    requires forall r :: r in collected.outcomes ==> r in outs
    requires forall r :: r in outs ==> r in s.window.outcomes || r in s.rest.outcomes
    requires s.rest.episodes == [] ==> s.rest.outcomes == []
    ensures FreezeOk(table, owner, collected, max, overlap, s)
  {
  }

  predicate Within(part: Evidence, a: Evidence, b: Option<Evidence>) {
    && (forall r | r in part.episodes :: r in a.episodes || (b.Some? && r in b.value.episodes))
    && (forall r | r in part.outcomes :: r in a.outcomes || (b.Some? && r in b.value.outcomes))
  }

  /** A freeze invents nothing: every ref of the window and of the remainder was
      collected or belonged to the previous window. */
  lemma FreezeInventsNothing(table: Outcomes, owner: Owner, collected: Evidence, previous: Option<Evidence>, max: nat, overlap: nat)
    requires max >= 2 && EvidenceOk(table, owner, collected)
    requires previous.Some? ==> EvidenceOk(table, owner, previous.value)
    requires Freeze(table, owner, collected, previous, max, overlap).Some?
    ensures var s := Freeze(table, owner, collected, previous, max, overlap).value;
            Within(s.window, collected, previous) && Within(s.rest, collected, previous)
  {
    var limit := Clamp(max, overlap);
    PrependOk(table, owner, previous, collected.episodes, limit);
    var combined := Prepend(table, owner, previous, collected.episodes, limit).value;
    PrependWithin(table, owner, previous, collected.episodes, limit);
    CutWithin(table, owner, collected, combined, previous, max);
  }

  lemma PrependWithin(table: Outcomes, owner: Owner, previous: Option<Evidence>, current: seq<Ref>, limit: int)
    requires previous.Some? ==> EvidenceOk(table, owner, previous.value)
    requires Prepend(table, owner, previous, current, limit).Some?
    ensures Within(Prepend(table, owner, previous, current, limit).value, Evidence(current, []), previous)
  {
    if limit > 0 && previous.Some? {
      var tail := LastN(previous.value.episodes, limit);
      TailOk(previous.value.episodes, limit);
      DedupContents(tail, current);
      PartitionSplits(table, owner, previous.value.episodes, previous.value.outcomes, tail);
    }
  }

  lemma CutWithin(table: Outcomes, owner: Owner, collected: Evidence, combined: Evidence, previous: Option<Evidence>, max: nat)
    requires EvidenceOk(table, owner, collected) && Cut(table, owner, collected, combined, max).Some?
    requires Beside(table, owner, combined.episodes, combined.outcomes) && Unique(combined.outcomes) && "" !in combined.outcomes
    requires forall r :: r in collected.episodes ==> r in combined.episodes
    requires Within(combined, Evidence(collected.episodes, []), previous)
    ensures var s := Cut(table, owner, collected, combined, max).value;
            Within(s.window, collected, previous) && Within(s.rest, collected, previous)
  {
    var all := combined.episodes;
    var window := CutWindow(all, max);
    var outs := AppendUnique(combined.outcomes, collected.outcomes);
    AppendUniqueContents(combined.outcomes, collected.outcomes);
    MergedBeside(table, owner, all, combined.outcomes, collected.episodes, collected.outcomes);
    PartitionSplits(table, owner, all, outs, window);
    WithoutContents(collected.episodes, window);
  }
}
