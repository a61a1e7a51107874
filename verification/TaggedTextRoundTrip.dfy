/** Parsing undoes printing, and what is accepted is well formed. */
module TaggedTextRoundTrip {
  import opened Refs
  import opened TaggedText

  /* ---- trimming ---- */

  lemma TrimmedIsFixed(s: string)
    requires Trimmed(s)
    ensures Trim(s) == s
  {
  }

  lemma {:induction false} TrimLeftSuffix(s: string) returns (k: nat)
    ensures k <= |s| && TrimLeft(s) == s[k..]
  {
    if s != "" && IsSpace(s[0]) {
      var j := TrimLeftSuffix(s[1..]);
      k := j + 1;
    } else {
      k := 0;
    }
  }

  /** Trimming cuts at both ends. */
  lemma TrimIsSlice(s: string) returns (i: nat, j: nat)
    ensures i <= j <= |s| && Trim(s) == s[i..j]
  {
    i := TrimLeftSuffix(s);
    j := i + |TrimRight(s[i..])|;
  }

  lemma TrimIsClean(s: string)
    requires '\n' !in s && Trim(s) != ""
    ensures CleanLine(Trim(s))
  {
    var i, j := TrimIsSlice(s);
  }

  /* ---- lines of the grammar ---- */

  lemma {:induction false} BasisEndsAtTarget(refs: seq<string>, tail: seq<string>)
    requires (forall i :: 0 <= i < |refs| ==> refs[i] != "TARGET") && (tail == [] || tail[0] == "TARGET")
    ensures BasisLength(refs + tail) == |refs|
  {
    if refs != [] {
      assert (refs + tail)[0] == refs[0] && (refs + tail)[1..] == refs[1..] + tail;
      BasisEndsAtTarget(refs[1..], tail);
    } else {
      assert refs + tail == tail;
    }
  }

  lemma OperationReads(c: Change)
    requires WellFormed(c)
    ensures OperationLine(c) != "TEXT" && OperationLine(c) != "ADAPT"
    ensures ParseOperation(OperationLine(c)) == Some((c.operation, c.text))
  {
    var line := OperationLine(c);
    if c.operation == "TEXT" {
      assert line == "TEXT " + c.text && line[5..] == c.text;
      TrimmedIsFixed(c.text);
    } else if c.operation == "ADAPT" {
      assert line == "ADAPT " + c.text && line[6..] == c.text && line[0] == 'A';
      TrimmedIsFixed(c.text);
    } else {
      assert line[0] != 'T' && line[0] != 'A';
    }
  }

  lemma BlockReads(c: Change, tail: seq<string>, seen: set<Ref>)
    requires WellFormed(c) && (IsNewTarget(c.target) || c.target !in seen) && (tail == [] || tail[0] == "TARGET")
    ensures ParseBlock(BlockLines(c) + tail, seen) == Some(Block(c, |BlockLines(c)|))
  {
    var lines := BlockLines(c) + tail;
    OperationReads(c);
    BlockLayout(c, tail);
    BasisReads(c, tail);
    assert lines[7..7 + |c.basis|] == c.basis;
  }

  lemma BlockLayout(c: Change, tail: seq<string>)
    ensures var lines := BlockLines(c) + tail;
            && |lines| == 7 + |c.basis| + |tail|
            && lines[0] == "TARGET" && lines[1] == c.target && lines[2] == "APPLICATION" && lines[3] == c.application
            && lines[4] == "CHANGE" && lines[5] == OperationLine(c) && lines[6] == "BASIS" && lines[7..] == c.basis + tail
  {
  }

  lemma BasisReads(c: Change, tail: seq<string>)
    requires WellFormed(c) && (tail == [] || tail[0] == "TARGET")
    ensures BasisLength(c.basis + tail) == |c.basis|
  {
    forall i | 0 <= i < |c.basis| ensures c.basis[i] != "TARGET" {
      assert BasisRef(c.basis[i]);
    }
    BasisEndsAtTarget(c.basis, tail);
  }

  lemma OwnBlockLayout(c: Change, tail: seq<string>)
    ensures var lines := OwnBlockLines(c) + tail;
            && |lines| == 8 + |c.basis| + |tail|
            && lines[0] == "TARGET" && lines[1] == c.target && lines[2] == "APPLICATION" && lines[3] == c.application
            && lines[4] == "CHANGE" && lines[5] == c.operation && lines[6] == c.text && lines[7] == "BASIS" && lines[8..] == c.basis + tail
  {
  }

  /** Whatever the text is, it is not taken for a keyword on its own line. */
  lemma OwnBlockReads(c: Change, tail: seq<string>, seen: set<Ref>)
    requires WellFormed(c) && HasText(c) && (IsNewTarget(c.target) || c.target !in seen) && (tail == [] || tail[0] == "TARGET")
    ensures ParseBlock(OwnBlockLines(c) + tail, seen) == Some(Block(c, |OwnBlockLines(c)|))
  {
    var lines := OwnBlockLines(c) + tail;
    OwnBlockLayout(c, tail);
    BasisReads(c, tail);
    assert lines[8..8 + |c.basis|] == c.basis;
  }

  lemma {:induction false} LinesRoundTrip(cs: seq<Change>, own: seq<bool>, seen: set<Ref>)
    requires |own| == |cs| && WellFormedList(cs, seen)
    ensures ParseLines(PrintLinesAs(cs, own), seen) == Some(cs)
    ensures PrintLinesAs(cs, own) == [] || PrintLinesAs(cs, own)[0] == "TARGET"
    decreases |cs|
  {
    if cs != [] {
      LinesRoundTrip(cs[1..], own[1..], Remember(seen, cs[0].target));
      LinesRead(cs, own, seen);
    }
  }

  lemma LinesRead(cs: seq<Change>, own: seq<bool>, seen: set<Ref>)
    requires |own| == |cs| && cs != [] && WellFormed(cs[0]) && (IsNewTarget(cs[0].target) || cs[0].target !in seen)
    requires var tail := PrintLinesAs(cs[1..], own[1..]);
             (tail == [] || tail[0] == "TARGET") && ParseLines(tail, Remember(seen, cs[0].target)) == Some(cs[1..])
    ensures ParseLines(PrintLinesAs(cs, own), seen) == Some(cs) && PrintLinesAs(cs, own) != [] && PrintLinesAs(cs, own)[0] == "TARGET"
  {
    var block, tail := BlockLinesAs(cs[0], own[0]), PrintLinesAs(cs[1..], own[1..]);
    FirstBlockReads(cs[0], own[0], tail, cs[1..], seen);
    assert [cs[0]] + cs[1..] == cs;
    assert PrintLinesAs(cs, own) == block + tail;
  }

  lemma FirstBlockReads(c: Change, own: bool, tail: seq<string>, rest: seq<Change>, seen: set<Ref>)
    requires WellFormed(c) && (IsNewTarget(c.target) || c.target !in seen) && (tail == [] || tail[0] == "TARGET")
    requires ParseLines(tail, Remember(seen, c.target)) == Some(rest)
    ensures ParseLines(BlockLinesAs(c, own) + tail, seen) == Some([c] + rest)
    ensures BlockLinesAs(c, own) != [] && BlockLinesAs(c, own)[0] == "TARGET"
  {
    EitherBlockReads(c, own, tail, seen);
    ReadsOn(BlockLinesAs(c, own), tail, c, rest, seen);
  }

  lemma EitherBlockReads(c: Change, own: bool, tail: seq<string>, seen: set<Ref>)
    requires WellFormed(c) && (IsNewTarget(c.target) || c.target !in seen) && (tail == [] || tail[0] == "TARGET")
    ensures ParseBlock(BlockLinesAs(c, own) + tail, seen) == Some(Block(c, |BlockLinesAs(c, own)|))
    ensures BlockLinesAs(c, own) != [] && BlockLinesAs(c, own)[0] == "TARGET"
  {
    if own && HasText(c) {
      OwnBlockReads(c, tail, seen);
    } else {
      BlockReads(c, tail, seen);
    }
  }

  lemma ReadsOn(block: seq<string>, tail: seq<string>, c: Change, rest: seq<Change>, seen: set<Ref>)
    requires ParseBlock(block + tail, seen) == Some(Block(c, |block|)) && ParseLines(tail, Remember(seen, c.target)) == Some(rest)
    ensures ParseLines(block + tail, seen) == Some([c] + rest)
  {
    assert (block + tail)[|block|..] == tail;
  }

  /* ---- text and lines ---- */

  predicate CleanLines(lines: seq<string>) {
    forall i :: 0 <= i < |lines| ==> CleanLine(lines[i])
  }

  lemma {:induction false} CleanIsFixed(lines: seq<string>)
    requires CleanLines(lines)
    ensures Clean(lines) == lines
  {
    if lines != [] {
      var n := |lines| - 1;
      CleanIsFixed(lines[..n]);
      TrimmedIsFixed(lines[n]);
      assert lines == lines[..n] + [lines[n]];
    }
  }

  lemma {:induction false} SplitPlain(s: string)
    requires '\n' !in s
    ensures Split(s) == [s]
  {
    if s != "" {
      SplitPlain(s[1..]);
      assert s == [s[0]] + s[1..];
    }
  }

  lemma {:induction false} SplitJoin(s: string, rest: string)
    requires '\n' !in s
    ensures Split(s + "\n" + rest) == [s] + Split(rest)
  {
    var all := s + "\n" + rest;
    if s == "" {
      assert all[0] == '\n' && all[1..] == rest;
    } else {
      SplitJoin(s[1..], rest);
      assert all[0] == s[0] && all[1..] == s[1..] + "\n" + rest;
      var tail := Split(all[1..]);
      assert tail == [s[1..]] + Split(rest);
      assert [s[0]] + s[1..] == s;
    }
  }

  lemma {:induction false} SplitUndoesJoin(lines: seq<string>)
    requires lines != [] && CleanLines(lines)
    ensures Split(Join(lines)) == lines
  {
    if |lines| == 1 {
      SplitPlain(lines[0]);
    } else {
      SplitUndoesJoin(lines[1..]);
      SplitJoin(lines[0], Join(lines[1..]));
      assert lines == [lines[0]] + lines[1..];
    }
  }

  predicate NoCrLf(s: string) {
    forall i :: 0 <= i && i + 1 < |s| ==> !(s[i] == '\r' && s[i + 1] == '\n')
  }

  lemma {:induction false} ReplaceIsIdentity(s: string)
    requires NoCrLf(s)
    ensures ReplaceCrLf(s) == s
  {
    if s != "" {
      assert |s| >= 2 ==> !(s[0] == '\r' && s[0 + 1] == '\n');
      forall i | 0 <= i && i + 1 < |s[1..]| ensures !(s[1..][i] == '\r' && s[1..][i + 1] == '\n') {
        assert s[1..][i] == s[i + 1] && s[1..][i + 1] == s[i + 1 + 1];
      }
      ReplaceIsIdentity(s[1..]);
      assert s == [s[0]] + s[1..];
    }
  }

  /** A join of clean lines starts and ends as its lines do, and no line end meets
      a carriage return. */
  lemma {:induction false} JoinIsTidy(lines: seq<string>)
    requires lines != [] && CleanLines(lines)
    ensures Trimmed(Join(lines)) && NoCrLf(Join(lines)) && Join(lines)[0] == lines[0][0]
  {
    var line := lines[0];
    if |lines| == 1 {
      forall i | 0 <= i && i + 1 < |line| ensures !(line[i] == '\r' && line[i + 1] == '\n') {
        assert line[i + 1] in line;
      }
    } else {
      var rest := Join(lines[1..]);
      JoinIsTidy(lines[1..]);
      JoinTwo(line, rest);
    }
  }

  lemma JoinTwo(line: string, rest: string)
    requires CleanLine(line) && Trimmed(rest) && NoCrLf(rest)
    ensures var all := line + "\n" + rest;
            Trimmed(all) && NoCrLf(all) && all[0] == line[0]
  {
    var all, n := line + "\n" + rest, |line|;
    assert all[n] == '\n' && forall i :: 0 <= i < |rest| ==> all[n + 1 + i] == rest[i];
    forall i | 0 <= i && i + 1 < |all| ensures !(all[i] == '\r' && all[i + 1] == '\n') {
      if i + 1 < n {
        assert all[i + 1] == line[i + 1] && line[i + 1] in line;
      } else if i > n {
        assert all[i] == rest[i - n - 1] && all[i + 1] == rest[i - n - 1 + 1];
      }
    }
  }

  lemma LinesOfJoin(lines: seq<string>)
    requires CleanLines(lines)
    ensures Lines(Join(lines)) == lines
  {
    if lines != [] {
      JoinIsTidy(lines);
      ReplaceIsIdentity(Join(lines));
      TrimmedIsFixed(Join(lines));
      SplitUndoesJoin(lines);
      CleanIsFixed(lines);
    }
  }

  /* ---- printed lines are clean ---- */

  lemma StableIsClean(ref: Ref)
    requires StableRef(ref)
    ensures CleanLine(ref)
  {
    forall i | 0 <= i < |ref| ensures ref[i] != '\n' {
      assert !IsSpace(ref[i]);
    }
  }

  lemma MarkersAreClean()
    ensures CleanLine("TARGET") && CleanLine("APPLICATION") && CleanLine("CHANGE") && CleanLine("BASIS")
  {
  }

  lemma ApplicationIsClean(a: string)
    requires ValidApplication(a)
    ensures CleanLine(a)
  {
  }

  lemma TargetIsClean(target: Ref)
    requires IsNewTarget(target) || ExistingRef(target)
    ensures CleanLine(target)
  {
    if ExistingRef(target) {
      StableIsClean(target);
    }
  }

  lemma BareIsClean(operation: string)
    requires operation == "KEEP" || operation == "REENACT" || operation == "INHIBIT"
    ensures CleanLine(operation)
  {
  }

  lemma OperationIsClean(c: Change)
    requires WellFormed(c)
    ensures CleanLine(OperationLine(c))
  {
    if c.operation == "TEXT" || c.operation == "ADAPT" {
      var line := OperationLine(c);
      assert line[|line| - 1] == c.text[|c.text| - 1];
      assert line == c.operation + " " + c.text;
    } else {
      BareIsClean(c.operation);
    }
  }

  lemma BlockIsClean(c: Change)
    requires WellFormed(c)
    ensures CleanLines(BlockLines(c))
  {
    OperationIsClean(c);
    MarkersAreClean();
    ApplicationIsClean(c.application);
    TargetIsClean(c.target);
    BasisIsClean(c.basis);
    CleanAppend(["TARGET", c.target, "APPLICATION", c.application, "CHANGE", OperationLine(c), "BASIS"], c.basis);
  }

  lemma BasisIsClean(basis: seq<Ref>)
    requires ValidBasis(basis)
    ensures CleanLines(basis)
  {
    forall i | 0 <= i < |basis| ensures CleanLine(basis[i]) {
      StableIsClean(basis[i]);
    }
  }

  lemma CleanAppend(a: seq<string>, b: seq<string>)
    requires CleanLines(a) && CleanLines(b)
    ensures CleanLines(a + b)
  {
  }

  lemma OwnBlockIsClean(c: Change)
    requires WellFormed(c) && HasText(c)
    ensures CleanLines(OwnBlockLines(c))
  {
    MarkersAreClean();
    ApplicationIsClean(c.application);
    TargetIsClean(c.target);
    BasisIsClean(c.basis);
    assert CleanLine("TEXT") && CleanLine("ADAPT");
    CleanAppend(["TARGET", c.target, "APPLICATION", c.application, "CHANGE", c.operation, c.text, "BASIS"], c.basis);
  }

  lemma {:induction false} PrintIsClean(cs: seq<Change>, own: seq<bool>, seen: set<Ref>)
    requires |own| == |cs| && WellFormedList(cs, seen)
    ensures CleanLines(PrintLinesAs(cs, own))
    decreases |cs|
  {
    if cs != [] {
      if own[0] && HasText(cs[0]) {
        OwnBlockIsClean(cs[0]);
      } else {
        BlockIsClean(cs[0]);
      }
      PrintIsClean(cs[1..], own[1..], Remember(seen, cs[0].target));
    }
  }

  /** For every well-formed list, with each text inline or on its own line, parsing
      the print gives the list back, within the size limit. */
  lemma ParseUndoesPrintAs(cs: seq<Change>, own: seq<bool>)
    requires |own| == |cs| && WellFormedList(cs, {}) && ByteLength(PrintAs(cs, own)) <= MaxTaggedTextBytes
    ensures Parse(PrintAs(cs, own)) == Some(cs)
  {
    PrintIsClean(cs, own, {});
    LinesOfJoin(PrintLinesAs(cs, own));
    LinesRoundTrip(cs, own, {});
  }

  /** The inline print is the one with no text on its own line. */
  lemma {:induction false} InlineIsPrint(cs: seq<Change>, own: seq<bool>)
    requires |own| == |cs| && forall i :: 0 <= i < |own| ==> !own[i]
    ensures PrintLinesAs(cs, own) == PrintLines(cs)
    decreases |cs|
  {
    if cs != [] {
      InlineIsPrint(cs[1..], own[1..]);
    }
  }

  /** For every well-formed list within the size limit, parsing its print gives
      the list back. */
  lemma ParseUndoesPrint(cs: seq<Change>)
    requires WellFormedList(cs, {}) && ByteLength(Print(cs)) <= MaxTaggedTextBytes
    ensures Parse(Print(cs)) == Some(cs)
  {
    var inline := seq(|cs|, _ => false);
    InlineIsPrint(cs, inline);
    ParseUndoesPrintAs(cs, inline);
  }

  /* ---- accepted input is well formed ---- */

  lemma {:induction false} CleanGivesClean(raw: seq<string>)
    requires forall i :: 0 <= i < |raw| ==> '\n' !in raw[i]
    ensures CleanLines(Clean(raw))
  {
    if raw != [] {
      var n := |raw| - 1;
      CleanGivesClean(raw[..n]);
      if Trim(raw[n]) != "" {
        TrimIsClean(raw[n]);
      }
    }
  }

  lemma {:induction false} SplitHasNoBreaks(s: string)
    ensures forall i :: 0 <= i < |Split(s)| ==> '\n' !in Split(s)[i]
  {
    if s != "" {
      SplitHasNoBreaks(s[1..]);
      var rest := Split(s[1..]);
      forall i | 0 <= i < |Split(s)| ensures '\n' !in Split(s)[i] {
        if s[0] == '\n' {
          assert i > 0 ==> Split(s)[i] == rest[i - 1];
        } else {
          assert Split(s)[i] == if i == 0 then [s[0]] + rest[0] else rest[i];
        }
      }
    }
  }

  lemma LinesAreClean(text: string)
    ensures CleanLines(Lines(text))
  {
    var t := Trim(ReplaceCrLf(text));
    SplitHasNoBreaks(t);
    CleanGivesClean(Split(t));
  }

  lemma TextOperationIsClean(operation: string, rest: string)
    requires '\n' !in rest && TextOperation(operation, rest).Some?
    ensures CleanLine(TextOperation(operation, rest).value.1)
  {
    TrimIsClean(rest);
  }

  lemma OperationIsWellFormed(line: string)
    requires CleanLine(line) && ParseOperation(line).Some?
    ensures var op := ParseOperation(line).value;
            if op.0 == "TEXT" || op.0 == "ADAPT" then CleanLine(op.1) && ByteLength(op.1) <= MaxChangeTextBytes
            else (op.0 == "KEEP" || op.0 == "REENACT" || op.0 == "INHIBIT") && op.1 == ""
  {
    if HasPrefix(line, "TEXT ") {
      TextOperationIsClean("TEXT", line[5..]);
    } else if HasPrefix(line, "ADAPT ") {
      TextOperationIsClean("ADAPT", line[6..]);
    }
  }

  lemma BlockIsWellFormed(lines: seq<string>, seen: set<Ref>)
    requires CleanLines(lines) && ParseBlock(lines, seen).Some?
    ensures WellFormed(ParseBlock(lines, seen).value.change)
    ensures var c := ParseBlock(lines, seen).value.change; IsNewTarget(c.target) || c.target !in seen
  {
    assert CleanLine(lines[5]) && CleanLine(lines[6]);
    if lines[5] != "TEXT" && lines[5] != "ADAPT" {
      OperationIsWellFormed(lines[5]);
    }
  }

  lemma {:induction false} AcceptedIsWellFormed(lines: seq<string>, seen: set<Ref>)
    requires CleanLines(lines) && ParseLines(lines, seen).Some?
    ensures WellFormedList(ParseLines(lines, seen).value, seen)
    decreases |lines|
  {
    if lines != [] {
      var b := ParseBlock(lines, seen).value;
      BlockIsWellFormed(lines, seen);
      AcceptedIsWellFormed(lines[b.length..], Remember(seen, b.change.target));
    }
  }

  /** Every accepted input yields a well-formed list. */
  lemma ParseIsWellFormed(text: string)
    requires Parse(text).Some?
    ensures WellFormedList(Parse(text).value, {})
  {
    LinesAreClean(text);
    AcceptedIsWellFormed(Lines(text), {});
  }

  /* ---- printing what was parsed is never longer ---- */

  lemma {:induction false} BytesAdd(a: string, b: string)
    ensures ByteLength(a + b) == ByteLength(a) + ByteLength(b)
  {
    if a == "" {
      assert a + b == b;
    } else {
      BytesAdd(a[1..], b);
      assert (a + b)[1..] == a[1..] + b;
    }
  }

  lemma SliceBytes(s: string, i: nat, j: nat)
    requires i <= j <= |s|
    ensures ByteLength(s[i..j]) <= ByteLength(s)
  {
    assert s == s[..i] + s[i..j] + s[j..];
    BytesAdd(s[..i] + s[i..j], s[j..]);
    BytesAdd(s[..i], s[i..j]);
  }

  lemma TrimBytes(s: string)
    ensures ByteLength(Trim(s)) <= ByteLength(s)
  {
    var i, j := TrimIsSlice(s);
    SliceBytes(s, i, j);
  }

  lemma {:induction false} ReplaceBytes(s: string)
    ensures ByteLength(ReplaceCrLf(s)) <= ByteLength(s)
  {
    if |s| >= 2 && s[0] == '\r' && s[1] == '\n' {
      ReplaceBytes(s[2..]);
      assert s[1..][1..] == s[2..];
      assert ReplaceCrLf(s)[1..] == ReplaceCrLf(s[2..]);
    } else if s != "" {
      ReplaceBytes(s[1..]);
      assert ReplaceCrLf(s)[1..] == ReplaceCrLf(s[1..]);
    }
  }

  /** Bytes of the lines, each with its line end. */
  function Weight(lines: seq<string>): nat {
    if lines == [] then 0 else ByteLength(lines[0]) + 1 + Weight(lines[1..])
  }

  lemma {:induction false} WeightAdd(a: seq<string>, b: seq<string>)
    ensures Weight(a + b) == Weight(a) + Weight(b)
  {
    if a == [] {
      assert a + b == b;
    } else {
      WeightAdd(a[1..], b);
      assert (a + b)[1..] == a[1..] + b;
    }
  }

  lemma WeightOne(line: string)
    ensures Weight([line]) == ByteLength(line) + 1
  {
    assert [line][1..] == [];
  }

  lemma {:induction false} JoinBytes(lines: seq<string>)
    requires lines != []
    ensures ByteLength(Join(lines)) + 1 == Weight(lines)
  {
    if |lines| > 1 {
      JoinBytes(lines[1..]);
      BytesAdd(lines[0] + "\n", Join(lines[1..]));
      BytesAdd(lines[0], "\n");
      assert ByteLength("\n") == 1;
    }
  }

  lemma {:induction false} SplitBytes(s: string)
    ensures Weight(Split(s)) == ByteLength(s) + 1
  {
    if s != "" {
      SplitBytes(s[1..]);
      var rest := Split(s[1..]);
      if s[0] == '\n' {
        assert Split(s)[1..] == rest;
      } else {
        assert Split(s)[1..] == rest[1..];
        BytesAdd([s[0]], rest[0]);
        assert ByteLength([s[0]]) == CharBytes(s[0]);
      }
    }
  }

  lemma {:induction false} CleanBytes(raw: seq<string>)
    ensures Weight(Clean(raw)) <= Weight(raw)
  {
    if raw != [] {
      var n := |raw| - 1;
      CleanBytes(raw[..n]);
      assert raw == raw[..n] + [raw[n]];
      WeightAdd(raw[..n], [raw[n]]);
      TrimBytes(raw[n]);
      WeightOne(raw[n]);
      WeightOne(Trim(raw[n]));
      if Trim(raw[n]) != "" {
        WeightAdd(Clean(raw[..n]), [Trim(raw[n])]);
      } else {
        assert Clean(raw) == Clean(raw[..n]);
      }
    }
  }

  lemma LinesBytes(text: string)
    ensures Lines(text) != [] ==> Weight(Lines(text)) <= ByteLength(text) + 1
  {
    var t := Trim(ReplaceCrLf(text));
    ReplaceBytes(text);
    TrimBytes(ReplaceCrLf(text));
    SplitBytes(t);
    CleanBytes(Split(t));
  }

  lemma PrefixBytes(prefix: string, text: string, rest: string)
    requires ByteLength(text) <= ByteLength(rest)
    ensures ByteLength(prefix + text) <= ByteLength(prefix + rest)
  {
    BytesAdd(prefix, text);
    BytesAdd(prefix, rest);
  }

  lemma InlineBytes(operation: string, text: string, line: string, n: nat)
    requires n <= |line| && line[..n] == operation + " " && text == Trim(line[n..])
    ensures ByteLength(operation + " " + text) <= ByteLength(line)
  {
    TrimBytes(line[n..]);
    PrefixBytes(operation + " ", text, line[n..]);
    assert line == line[..n] + line[n..];
  }

  lemma OwnLineBytes(operation: string, text: string)
    ensures ByteLength(operation + " " + text) + 1 == Weight([operation, text])
  {
    BytesAdd(operation + " ", text);
    BytesAdd(operation, " ");
    assert ByteLength(" ") == 1 by {
      assert " "[1..] == "";
    }
    assert [operation, text] == [operation] + [text];
    WeightAdd([operation], [text]);
    WeightOne(operation);
    WeightOne(text);
  }

  lemma OperationLineBytes(line: string, c: Change)
    requires ParseOperation(line) == Some((c.operation, c.text))
    ensures ByteLength(OperationLine(c)) <= ByteLength(line)
  {
    if HasPrefix(line, "TEXT ") {
      assert line[..5] == "TEXT" + " ";
      InlineBytes("TEXT", c.text, line, 5);
    } else if HasPrefix(line, "ADAPT ") {
      assert line[..6] == "ADAPT" + " ";
      InlineBytes("ADAPT", c.text, line, 6);
    }
  }

  lemma OperationBytes(lines: seq<string>, op: (string, string, nat), c: Change)
    requires |lines| >= 8 && BlockOperation(lines) == Some(op) && c.operation == op.0 && c.text == op.1
    ensures ByteLength(OperationLine(c)) + 1 <= Weight(lines[5..op.2])
  {
    if lines[5] == "TEXT" || lines[5] == "ADAPT" {
      assert lines[5..7] == [lines[5], lines[6]];
      OwnLineBytes(lines[5], lines[6]);
    } else {
      assert lines[5..6] == [lines[5]];
      WeightOne(lines[5]);
      OperationLineBytes(lines[5], c);
    }
  }

  lemma ThreeParts(head: seq<string>, a: seq<string>, b: seq<string>, tail: seq<string>)
    requires Weight(a) <= Weight(b)
    ensures Weight(head + a + tail) <= Weight(head + b + tail)
  {
    WeightAdd(head + a, tail);
    WeightAdd(head, a);
    WeightAdd(head + b, tail);
    WeightAdd(head, b);
  }

  lemma BlockParts(lines: seq<string>, seen: set<Ref>)
    requires ParseBlock(lines, seen).Some?
    ensures var b := ParseBlock(lines, seen).value;
            var op := BlockOperation(lines).value;
            && lines[..b.length] == lines[..5] + lines[5..op.2] + (["BASIS"] + b.change.basis)
            && BlockLines(b.change) == lines[..5] + [OperationLine(b.change)] + (["BASIS"] + b.change.basis)
  {
    var b := ParseBlock(lines, seen).value;
    var n := BlockOperation(lines).value.2;
    BlockMarkers(lines, seen);
    BlockTail(lines, seen);
    assert lines[..b.length] == lines[..5] + lines[5..n] + lines[n..b.length];
    assert BlockLines(b.change) ==
           ["TARGET", b.change.target, "APPLICATION", b.change.application, "CHANGE"] + [OperationLine(b.change)] + (["BASIS"] + b.change.basis);
  }

  lemma BlockMarkers(lines: seq<string>, seen: set<Ref>)
    requires ParseBlock(lines, seen).Some?
    ensures var c := ParseBlock(lines, seen).value.change;
            lines[..5] == ["TARGET", c.target, "APPLICATION", c.application, "CHANGE"]
  {
  }

  lemma BlockTail(lines: seq<string>, seen: set<Ref>)
    requires ParseBlock(lines, seen).Some?
    ensures var b, n := ParseBlock(lines, seen).value, BlockOperation(lines).value.2;
            n <= b.length && lines[n..b.length] == ["BASIS"] + b.change.basis
  {
    var b, n := ParseBlock(lines, seen).value, BlockOperation(lines).value.2;
    assert lines[n] == "BASIS" && lines[n + 1..b.length] == b.change.basis;
    assert lines[n..b.length] == [lines[n]] + lines[n + 1..b.length];
  }

  lemma BlockBytes(lines: seq<string>, seen: set<Ref>)
    requires ParseBlock(lines, seen).Some?
    ensures var b := ParseBlock(lines, seen).value;
            Weight(BlockLines(b.change)) <= Weight(lines[..b.length])
  {
    var b := ParseBlock(lines, seen).value;
    var op := BlockOperation(lines).value;
    OperationBytes(lines, op, b.change);
    WeightOne(OperationLine(b.change));
    BlockParts(lines, seen);
    ThreeParts(lines[..5], [OperationLine(b.change)], lines[5..op.2], ["BASIS"] + b.change.basis);
  }

  lemma {:induction false} PrintBytes(lines: seq<string>, seen: set<Ref>)
    requires ParseLines(lines, seen).Some?
    ensures Weight(PrintLines(ParseLines(lines, seen).value)) <= Weight(lines)
    decreases |lines|
  {
    if lines != [] {
      var b := ParseBlock(lines, seen).value;
      BlockBytes(lines, seen);
      var rest := ParseLines(lines[b.length..], Remember(seen, b.change.target)).value;
      PrintBytes(lines[b.length..], Remember(seen, b.change.target));
      WeighOn(lines, b, rest);
    }
  }

  lemma WeighOn(lines: seq<string>, b: Block, rest: seq<Change>)
    requires b.length <= |lines| && Weight(BlockLines(b.change)) <= Weight(lines[..b.length])
    requires Weight(PrintLines(rest)) <= Weight(lines[b.length..])
    ensures Weight(PrintLines([b.change] + rest)) <= Weight(lines)
  {
    assert lines == lines[..b.length] + lines[b.length..];
    WeightAdd(lines[..b.length], lines[b.length..]);
    assert ([b.change] + rest)[1..] == rest;
    WeightAdd(BlockLines(b.change), PrintLines(rest));
  }

  /** What was parsed prints within the limit, so parsing its print gives the same
      list: parse after print after parse is parse. */
  lemma ParsePrintParse(text: string)
    requires Parse(text).Some?
    ensures ByteLength(Print(Parse(text).value)) <= ByteLength(text)
    ensures Parse(Print(Parse(text).value)) == Parse(text)
  {
    var cs := Parse(text).value;
    ParseIsWellFormed(text);
    PrintBytes(Lines(text), {});
    LinesBytes(text);
    if cs != [] {
      JoinBytes(PrintLines(cs));
    }
    ParseUndoesPrint(cs);
  }
}
