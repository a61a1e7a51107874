/** The Worker's tagged text: a line grammar, its parser, and the printer the
    parser undoes. */
module TaggedText {
  import opened Refs

  const NewRecollection := "NEW_RECOLLECTION"
  const NewDisposition := "NEW_DISPOSITION"
  const MaxTaggedTextBytes := 64 * 1024
  const MaxChangeTextBytes := 4 * 1024

  datatype Change = Change(target: Ref, application: string, operation: string, text: string, basis: seq<Ref>)

  /* ---- refs and keywords ---- */

  predicate StableRef(ref: Ref) {
    ref != "" && forall i :: 0 <= i < |ref| ==> !IsSpace(ref[i]) && !IsControl(ref[i])
  }

  predicate IsNewTarget(target: Ref) {
    target == NewRecollection || target == NewDisposition
  }

  predicate ExistingRef(ref: Ref) {
    StableRef(ref) && ref != "NEW"
  }

  predicate BasisRef(ref: Ref) {
    && StableRef(ref) && ref != "TARGET" && ref != "APPLICATION" && ref != "CHANGE" && ref != "BASIS" && ref != "NEW"
    && ref != NewRecollection && ref != NewDisposition
  }

  predicate ValidApplication(a: string) {
    a == "SELF" || a == "OTHER" || a == "RELATION" || a == "SITUATION"
  }

  /* ---- lines ---- */

  /** strings.ReplaceAll(text, "\r\n", "\n") */
  function ReplaceCrLf(s: string): string {
    if |s| >= 2 && s[0] == '\r' && s[1] == '\n' then ['\n'] + ReplaceCrLf(s[2..])
    else if s == [] then []
    else [s[0]] + ReplaceCrLf(s[1..])
  }

  /** strings.Split(s, "\n") */
  function Split(s: string): (r: seq<string>)
    ensures r != []
  {
    if s == [] then [""]
    else
      var rest := Split(s[1..]);
      if s[0] == '\n' then [""] + rest else [[s[0]] + rest[0]] + rest[1..]
  }

  function Clean(raw: seq<string>): seq<string> {
    if raw == [] then []
    else
      var n := |raw| - 1;
      Clean(raw[..n]) + if Trim(raw[n]) != "" then [Trim(raw[n])] else []
  }

  function Lines(text: string): seq<string> {
    var t := Trim(ReplaceCrLf(text));
    if t == "" then [] else Clean(Split(t))
  }

  /* ---- the grammar ---- */

  predicate HasPrefix(line: string, prefix: string) {
    prefix <= line
  }

  /** parseOperation */
  function ParseOperation(line: string): Option<(string, string)> {
    if HasPrefix(line, "TEXT ") then TextOperation("TEXT", line[5..])
    else if HasPrefix(line, "ADAPT ") then TextOperation("ADAPT", line[6..])
    else if line == "KEEP" || line == "REENACT" || line == "INHIBIT" then Some((line, ""))
    else None
  }

  function TextOperation(operation: string, rest: string): Option<(string, string)> {
    var text := Trim(rest);
    if text == "" || ByteLength(text) > MaxChangeTextBytes then None else Some((operation, text))
  }

  /** How many lines of basis follow: up to the next TARGET, or to the end. */
  function BasisLength(lines: seq<string>): (n: nat)
    ensures n <= |lines|
    ensures forall i :: 0 <= i < n ==> lines[i] != "TARGET"
    ensures n < |lines| ==> lines[n] == "TARGET"
  {
    if lines == [] || lines[0] == "TARGET" then 0 else 1 + BasisLength(lines[1..])
  }

  predicate UniqueRefs(refs: seq<Ref>) {
    forall i, j :: 0 <= i < j < |refs| ==> refs[i] != refs[j]
  }

  predicate ValidBasis(refs: seq<Ref>) {
    refs != [] && UniqueRefs(refs) && forall i :: 0 <= i < |refs| ==> BasisRef(refs[i])
  }

  datatype Block = Block(change: Change, length: nat)

  /** The operation line and the text that may stand on a line of its own; the
      third component is where BASIS must be. */
  function BlockOperation(lines: seq<string>): (r: Option<(string, string, nat)>)
    requires |lines| >= 8
    ensures r.Some? ==> 6 <= r.value.2 <= 7
  {
    if lines[5] == "TEXT" || lines[5] == "ADAPT" then
      if ByteLength(lines[6]) > MaxChangeTextBytes then None else Some((lines[5], lines[6], 7))
    else
      var op := ParseOperation(lines[5]);
      if op.None? then None else Some((op.value.0, op.value.1, 6))
  }

  /** The target and the application of a block. */
  predicate HeaderOk(lines: seq<string>, seen: set<Ref>) {
    && |lines| >= 8 && lines[0] == "TARGET" && lines[2] == "APPLICATION" && lines[4] == "CHANGE"
    && (IsNewTarget(lines[1]) || (ExistingRef(lines[1]) && lines[1] !in seen)) && ValidApplication(lines[3])
  }

  /** The operation, the marker and the basis. */
  function BlockBody(lines: seq<string>): (r: Option<Block>)
    requires |lines| >= 8
    ensures r.Some? ==> 8 <= r.value.length <= |lines|
  {
    var op := BlockOperation(lines);
    if op.None? || lines[op.value.2] != "BASIS" then None
    else
      var start := op.value.2 + 1;
      var basis := ParseBasis(lines[start..]);
      if basis.None? then None
      else Some(Block(Change(lines[1], lines[3], op.value.0, op.value.1, basis.value), start + |basis.value|))
  }

  /** One block at the head of `lines`. */
  function ParseBlock(lines: seq<string>, seen: set<Ref>): (r: Option<Block>)
    ensures r.Some? ==> 8 <= r.value.length <= |lines|
  {
    if HeaderOk(lines, seen) then BlockBody(lines) else None
  }

  /** The basis at the head of the lines. */
  function ParseBasis(lines: seq<string>): (r: Option<seq<Ref>>)
    ensures r.Some? ==> 0 < |r.value| <= |lines| && r.value == lines[..|r.value|]
  {
    var n := BasisLength(lines);
    if ValidBasis(lines[..n]) then Some(lines[..n]) else None
  }

  function Remember(seen: set<Ref>, target: Ref): set<Ref> {
    if IsNewTarget(target) then seen else seen + {target}
  }

  function ParseLines(lines: seq<string>, seen: set<Ref>): Option<seq<Change>>
    decreases |lines|
  {
    if lines == [] then Some([])
    else
      var b := ParseBlock(lines, seen);
      if b.None? then None
      else
        var rest := ParseLines(lines[b.value.length..], Remember(seen, b.value.change.target));
        if rest.None? then None else Some([b.value.change] + rest.value)
  }

  /** ParseTaggedText; None is an error. */
  function Parse(text: string): Option<seq<Change>> {
    if ByteLength(text) > MaxTaggedTextBytes then None else ParseLines(Lines(text), {})
  }

  /* ---- the printer ---- */

  function OperationLine(c: Change): string {
    if c.operation == "TEXT" || c.operation == "ADAPT" then c.operation + " " + c.text else c.operation
  }

  function BlockLines(c: Change): (r: seq<string>)
    ensures |r| == 7 + |c.basis|
  {
    ["TARGET", c.target, "APPLICATION", c.application, "CHANGE", OperationLine(c), "BASIS"] + c.basis
  }

  function PrintLines(cs: seq<Change>): seq<string> {
    if cs == [] then [] else BlockLines(cs[0]) + PrintLines(cs[1..])
  }

  /** The other accepted form: a text on a line of its own. */
  predicate HasText(c: Change) {
    c.operation == "TEXT" || c.operation == "ADAPT"
  }

  function OwnBlockLines(c: Change): (r: seq<string>)
    ensures |r| == 8 + |c.basis|
  {
    ["TARGET", c.target, "APPLICATION", c.application, "CHANGE", c.operation, c.text, "BASIS"] + c.basis
  }

  function BlockLinesAs(c: Change, own: bool): seq<string> {
    if own && HasText(c) then OwnBlockLines(c) else BlockLines(c)
  }

  /** Each text inline or on its own line, as `own` says. */
  function PrintLinesAs(cs: seq<Change>, own: seq<bool>): seq<string>
    requires |own| == |cs|
  {
    if cs == [] then [] else BlockLinesAs(cs[0], own[0]) + PrintLinesAs(cs[1..], own[1..])
  }

  function PrintAs(cs: seq<Change>, own: seq<bool>): string
    requires |own| == |cs|
  {
    Join(PrintLinesAs(cs, own))
  }

  /** strings.Join(lines, "\n") */
  function Join(lines: seq<string>): string {
    if lines == [] then "" else if |lines| == 1 then lines[0] else lines[0] + "\n" + Join(lines[1..])
  }

  function Print(cs: seq<Change>): string {
    Join(PrintLines(cs))
  }

  /* ---- well-formed lists ---- */

  predicate Trimmed(s: string) {
    s != "" && !IsSpace(s[0]) && !IsSpace(s[|s| - 1])
  }

  /** A line as the parser sees it. */
  predicate CleanLine(s: string) {
    Trimmed(s) && '\n' !in s
  }

  predicate WellFormed(c: Change) {
    && (IsNewTarget(c.target) || ExistingRef(c.target)) && ValidApplication(c.application) && ValidBasis(c.basis)
    && (if c.operation == "TEXT" || c.operation == "ADAPT" then CleanLine(c.text) && ByteLength(c.text) <= MaxChangeTextBytes
        else (c.operation == "KEEP" || c.operation == "REENACT" || c.operation == "INHIBIT") && c.text == "")
  }

  predicate WellFormedList(cs: seq<Change>, seen: set<Ref>) {
    cs == [] ||
    (WellFormed(cs[0]) && (IsNewTarget(cs[0].target) || cs[0].target !in seen) && WellFormedList(cs[1..], Remember(seen, cs[0].target)))
  }

  /** Said outright: every change is well formed and existing targets differ. */
  lemma {:induction false} WellFormedListMeans(cs: seq<Change>, seen: set<Ref>)
    ensures WellFormedList(cs, seen) <==>
            && (forall i :: 0 <= i < |cs| ==> WellFormed(cs[i]) && (IsNewTarget(cs[i].target) || cs[i].target !in seen))
            && (forall i, j :: 0 <= i < j < |cs| && !IsNewTarget(cs[i].target) ==> cs[i].target != cs[j].target)
  {
    if cs != [] {
      var first, rest := cs[0], cs[1..];
      WellFormedListMeans(rest, Remember(seen, first.target));
      assert cs == [first] + rest;
      if WellFormedList(cs, seen) {
        forall i | 0 <= i < |cs| ensures WellFormed(cs[i]) && (IsNewTarget(cs[i].target) || cs[i].target !in seen) {
          assert i > 0 ==> cs[i] == rest[i - 1];
        }
        forall i, j | 0 <= i < j < |cs| && !IsNewTarget(cs[i].target) ensures cs[i].target != cs[j].target {
          assert cs[j] == rest[j - 1];
          assert i > 0 ==> cs[i] == rest[i - 1];
        }
      }
    }
  }

  /* ---- the parser as it runs ---- */

  lemma {:induction false} CleanSnoc(raw: seq<string>, i: nat)
    requires i < |raw|
    ensures Clean(raw[..i + 1]) == Clean(raw[..i]) + if Trim(raw[i]) != "" then [Trim(raw[i])] else []
  {
    assert raw[..i + 1][..i] == raw[..i];
  }

  method CleanLinesOf(text: string) returns (lines: seq<string>)
    ensures lines == Lines(text)
  {
    var t := Trim(ReplaceCrLf(text));
    lines := [];
    if t == "" {
      return;
    }
    var raw := Split(t);
    for i := 0 to |raw|
      invariant lines == Clean(raw[..i])
    {
      CleanSnoc(raw, i);
      var line := Trim(raw[i]);
      if line != "" {
        lines := lines + [line];
      }
    }
    assert raw[..|raw|] == raw;
  }

  predicate GoodRefs(refs: seq<Ref>) {
    UniqueRefs(refs) && forall i :: 0 <= i < |refs| ==> BasisRef(refs[i])
  }

  lemma GoodSnoc(refs: seq<Ref>, ref: Ref)
    ensures GoodRefs(refs + [ref]) <==> GoodRefs(refs) && BasisRef(ref) && ref !in refs
  {
    var more := refs + [ref];
    assert more[|refs|] == ref && forall i :: 0 <= i < |refs| ==> more[i] == refs[i];
  }

  lemma GoodPrefix(refs: seq<Ref>, n: nat)
    requires n <= |refs| && GoodRefs(refs)
    ensures GoodRefs(refs[..n])
  {
  }

  /** The basis loop: refs up to the next TARGET, each valid and new. */
  method ScanBasis(lines: seq<string>) returns (ok: bool, end: nat)
    ensures ok <==> ValidBasis(lines[..BasisLength(lines)])
    ensures ok ==> end == BasisLength(lines)
  {
    var seen: set<Ref> := {};
    end := 0;
    ghost var basis := lines[..BasisLength(lines)];
    while end < |lines| && lines[end] != "TARGET"
      invariant end <= |basis| && GoodRefs(basis[..end])
      invariant forall r :: r in seen <==> r in basis[..end]
    {
      GoodSnoc(basis[..end], lines[end]);
      assert basis[..end + 1] == basis[..end] + [lines[end]];
      if !BasisRef(lines[end]) || lines[end] in seen {
        if GoodRefs(basis) {
          GoodPrefix(basis, end + 1);
        }
        return false, end;
      }
      seen := seen + {lines[end]};
      end := end + 1;
    }
    assert basis[..end] == basis;
    ok := end > 0;
  }

  /** One turn of the offset loop, on the lines that are left. */
  method ParseOne(lines: seq<string>, existing: set<Ref>) returns (block: Option<Block>)
    ensures block == ParseBlock(lines, existing)
  {
    if |lines| < 8 || lines[0] != "TARGET" || lines[2] != "APPLICATION" || lines[4] != "CHANGE" {
      return None;
    }
    var target, application := lines[1], lines[3];
    var existingRef := ExistingRef(target);
    if !IsNewTarget(target) && (!existingRef || target in existing) {
      return None;
    }
    if !ValidApplication(application) {
      return None;
    }
    block := ReadBody(lines, target, application);
  }

  method ReadBody(lines: seq<string>, target: Ref, application: string) returns (block: Option<Block>)
    requires |lines| >= 8 && target == lines[1] && application == lines[3]
    ensures block == BlockBody(lines)
  {
    var parsed := ReadOperation(lines);
    if parsed.None? || lines[parsed.value.2] != "BASIS" {
      return None;
    }
    var start := parsed.value.2 + 1;
    var basis := ReadBasis(lines[start..]);
    if basis.None? {
      return None;
    }
    block := Some(Block(Change(target, application, parsed.value.0, parsed.value.1, basis.value), start + |basis.value|));
  }

  method ReadBasis(lines: seq<string>) returns (basis: Option<seq<Ref>>)
    ensures basis == ParseBasis(lines)
  {
    var ok, n := ScanBasis(lines);
    if !ok {
      return None;
    }
    basis := Some(lines[..n]);
  }

  method ReadOperation(lines: seq<string>) returns (r: Option<(string, string, nat)>)
    requires |lines| >= 8
    ensures r == BlockOperation(lines)
  {
    var marker := 6;
    var operation := ParseOperation(lines[5]);
    if lines[5] == "TEXT" || lines[5] == "ADAPT" {
      if ByteLength(lines[6]) > MaxChangeTextBytes {
        return None;
      }
      operation := Some((lines[5], lines[6]));
      marker := marker + 1;
    }
    if operation.None? {
      return None;
    }
    r := Some((operation.value.0, operation.value.1, marker));
  }

  /** The changes read so far and what the remaining lines still give make up `all`. */
  ghost predicate Resumes(changes: seq<Change>, rest: seq<string>, seen: set<Ref>, all: Option<seq<Change>>) {
    var more := ParseLines(rest, seen);
    all == if more.None? then None else Some(changes + more.value)
  }

  /** What one block, or none, leaves to be read. */
  lemma BlockStep(changes: seq<Change>, rest: seq<string>, seen: set<Ref>, all: Option<seq<Change>>, block: Option<Block>)
    requires rest != [] && Resumes(changes, rest, seen, all) && block == ParseBlock(rest, seen)
    ensures block.None? ==> all == None
    ensures block.Some? ==>
              var b := block.value;
              0 < b.length <= |rest| && Resumes(changes + [b.change], rest[b.length..], Remember(seen, b.change.target), all)
  {
    if block.Some? {
      var b := block.value;
      var more := ParseLines(rest[b.length..], Remember(seen, b.change.target));
      if more.Some? {
        assert changes + ([b.change] + more.value) == changes + [b.change] + more.value;
      }
    }
  }

  lemma Begins(lines: seq<string>)
    ensures Resumes([], lines, {}, ParseLines(lines, {}))
  {
    var all := ParseLines(lines, {});
    assert all.Some? ==> [] + all.value == all.value;
  }

  lemma Ends(changes: seq<Change>, seen: set<Ref>, all: Option<seq<Change>>)
    requires Resumes(changes, [], seen, all)
    ensures all == Some(changes)
  {
    assert changes + [] == changes;
  }

  /** One turn of the loop: a change is read, or none can be. */
  method NextBlock(rest: seq<string>, existing: set<Ref>, changes: seq<Change>, ghost all: Option<seq<Change>>)
    returns (ok: bool, length: nat, existing': set<Ref>, changes': seq<Change>)
    requires rest != [] && Resumes(changes, rest, existing, all)
    ensures !ok ==> all == None
    ensures ok ==> 0 < length <= |rest| && Resumes(changes', rest[length..], existing', all)
  {
    var block := ParseOne(rest, existing);
    BlockStep(changes, rest, existing, all, block);
    if block.None? {
      return false, 0, existing, changes;
    }
    var b := block.value;
    return true, b.length, Remember(existing, b.change.target), changes + [b.change];
  }

  /** The offset loop with its seen-maps, `rest` being the lines from the offset on. */
  method ParseBlocks(lines: seq<string>) returns (r: Option<seq<Change>>)
    ensures r == ParseLines(lines, {})
  {
    var changes: seq<Change> := [];
    var existing: set<Ref> := {};
    var offset, rest := 0, lines;
    ghost var all := ParseLines(lines, {});
    Begins(lines);
    while offset < |lines|
      invariant offset + |rest| == |lines| && Resumes(changes, rest, existing, all)
      decreases |rest|
    {
      var ok, length;
      ok, length, existing, changes := NextBlock(rest, existing, changes, all);
      if !ok {
        return None;
      }
      offset, rest := offset + length, rest[length..];
    }
    Ends(changes, existing, all);
    r := Some(changes);
  }

  /** ParseTaggedText */
  method ParseTaggedText(text: string) returns (r: Option<seq<Change>>)
    ensures r == Parse(text)
  {
    if ByteLength(text) > MaxTaggedTextBytes {
      return None;
    }
    var lines := CleanLinesOf(text);
    r := ParseBlocks(lines);
  }
}
