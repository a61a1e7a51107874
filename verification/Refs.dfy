/** Stable references: their lexicographic order (the order of ORDER BY and
    sort.Strings), decimal printing, and the "root@number" version refs. */
module Refs {

  type Ref = string

  datatype Option<+T> = None | Some(value: T)

  /** The long-term owner of experience and memory: an Agent, or one of its
      relationships. */
  datatype Owner = Owner(relationship: bool, tenant: Ref, agent: Ref, relationshipRef: Ref)

  /* Lexicographic order on code points. */
  predicate Less(a: string, b: string) {
    if b == [] then false
    else if a == [] then true
    else a[0] < b[0] || (a[0] == b[0] && Less(a[1..], b[1..]))
  }

  lemma {:induction false} LessIrreflexive(a: string)
    ensures !Less(a, a)
  {
    if a != [] {
      LessIrreflexive(a[1..]);
    }
  }

  lemma {:induction false} LessTransitive(a: string, b: string, c: string)
    requires Less(a, b) && Less(b, c)
    ensures Less(a, c)
  {
    if a != [] && a[0] == b[0] && b[0] == c[0] {
      LessTransitive(a[1..], b[1..], c[1..]);
    }
  }

  lemma {:induction false} LessTotal(a: string, b: string)
    ensures a == b || Less(a, b) || Less(b, a)
  {
    if a != [] && b != [] && a[0] == b[0] {
      LessTotal(a[1..], b[1..]);
      assert a == [a[0]] + a[1..] && b == [b[0]] + b[1..];
    }
  }

  lemma LessAsymmetric(a: string, b: string)
    ensures !(Less(a, b) && Less(b, a))
  {
    if Less(a, b) && Less(b, a) {
      LessTransitive(a, b, a);
      LessIrreflexive(a);
    }
  }

  /** Decimal printing of a natural number (strconv.Itoa, %d). */
  function Digit(d: nat): (c: char)
    requires d < 10
    ensures '0' <= c <= '9' && c as int - '0' as int == d
  {
    (d + '0' as int) as char
  }

  function Decimal(n: nat): (s: string)
    ensures s != [] && forall i :: 0 <= i < |s| ==> '0' <= s[i] <= '9'
  {
    if n < 10 then [Digit(n)] else Decimal(n / 10) + [Digit(n % 10)]
  }

  lemma {:induction false} DecimalInjective(m: nat, n: nat)
    requires Decimal(m) == Decimal(n)
    ensures m == n
    decreases m
  {
    var s := Decimal(m);
    assert m >= 10 ==> |Decimal(m / 10)| >= 1;
    assert n >= 10 ==> |Decimal(n / 10)| >= 1;
    assert s[|s| - 1] as int - '0' as int == m % 10 == n % 10;
    if m >= 10 {
      assert n >= 10;
      assert Decimal(m / 10) == s[..|s| - 1] == Decimal(n / 10);
      DecimalInjective(m / 10, n / 10);
    }
  }

  /** fmt.Sprintf("%s@%d", root, number) */
  function VersionName(root: Ref, number: nat): (v: Ref)
    ensures |v| > |root|
  {
    root + "@" + Decimal(number)
  }

  /* strings.LastIndex(s, "@"), or -1. */
  function LastAt(s: string): (i: int)
    ensures -1 <= i < |s|
    ensures 0 <= i ==> s[i] == '@'
    ensures forall j :: i < j < |s| ==> s[j] != '@'
  {
    if s == [] then -1
    else if s[|s| - 1] == '@' then |s| - 1
    else LastAt(s[..|s| - 1])
  }

  /** versionRootRef */
  function RootOf(versionRef: Ref): (root: Ref)
  {
    var separator := LastAt(versionRef);
    if separator > 0 then versionRef[..separator] else versionRef
  }

  /** The stream identity a formation derives from its version ref is the root
      that a later revision names directly. */
  lemma RootOfVersionName(root: Ref, number: nat)
    requires root != ""
    ensures RootOf(VersionName(root, number)) == root
  {
    var v := VersionName(root, number);
    assert v[|root|] == '@';
    assert forall j :: |root| < j < |v| ==> v[j] == Decimal(number)[j - |root| - 1];
    assert LastAt(v) == |root|;
  }

  lemma VersionNameInjective(r1: Ref, n1: nat, r2: Ref, n2: nat)
    requires r1 != "" && r2 != ""
    ensures VersionName(r1, n1) == VersionName(r2, n2) <==> r1 == r2 && n1 == n2
  {
    RootOfVersionName(r1, n1);
    RootOfVersionName(r2, n2);
    if VersionName(r1, n1) == VersionName(r2, n2) {
      assert Decimal(n1) == VersionName(r1, n1)[|r1| + 1..] == Decimal(n2);
      DecimalInjective(n1, n2);
    }
  }

  /** unicode.IsSpace: the White_Space property. */
  predicate IsSpace(c: char) {
    var u := c as int;
    || 9 <= u <= 13 || u == 0x20 || u == 0x85 || u == 0xA0 || u == 0x1680
    || 0x2000 <= u <= 0x200A || u == 0x2028 || u == 0x2029 || u == 0x202F
    || u == 0x205F || u == 0x3000
  }

  /** unicode.IsControl: category Cc. */
  predicate IsControl(c: char) {
    var u := c as int;
    u <= 0x1F || 0x7F <= u <= 0x9F
  }

  predicate NoSpace(s: string) {
    forall i :: 0 <= i < |s| ==> !IsSpace(s[i])
  }

  /** strings.TrimSpace(s) == "" */
  predicate Blank(s: string) {
    forall i :: 0 <= i < |s| ==> IsSpace(s[i])
  }

  function TrimLeft(s: string): (r: string)
    ensures |r| <= |s| && (r != [] ==> !IsSpace(r[0]))
  {
    if s != [] && IsSpace(s[0]) then TrimLeft(s[1..]) else s
  }

  function TrimRight(s: string): (r: string)
    ensures |r| <= |s| && (r != [] ==> !IsSpace(r[|r| - 1]))
    ensures r == s[..|r|]
  {
    if s != [] && IsSpace(s[|s| - 1]) then TrimRight(s[..|s| - 1]) else s
  }

  /** strings.TrimSpace */
  function Trim(s: string): (r: string)
    ensures r != [] ==> !IsSpace(r[0]) && !IsSpace(r[|r| - 1])
  {
    TrimRight(TrimLeft(s))
  }

  lemma {:induction false} SubsetSize<T>(a: set<T>, b: set<T>)
    requires a <= b
    ensures |a| <= |b|
    decreases |a|
  {
    if a != {} {
      var x :| x in a;
      SubsetSize(a - {x}, b - {x});
    }
  }

  /* ---- byte lengths ---- */

  function CharBytes(c: char): (n: nat)
    ensures 1 <= n <= 4
  {
    var u := c as int;
    if u < 0x80 then 1 else if u < 0x800 then 2 else if u < 0x10000 then 3 else 4
  }

  /** len(s): the number of UTF-8 bytes. */
  function ByteLength(s: string): nat {
    if s == [] then 0 else CharBytes(s[0]) + ByteLength(s[1..])
  }

  const MaxStableRefBytes := 384
  const MaxSourceTextBytes := 64 * 1024

  /** ValidStableRef; a Dafny string is always valid UTF-8. */
  predicate ValidStableRef(ref: Ref) {
    ref != "" && ByteLength(ref) <= MaxStableRefBytes
  }

  predicate ValidOptionalRef(ref: Ref) {
    ref == "" || ValidStableRef(ref)
  }

  predicate ValidOwner(o: Owner) {
    && ValidStableRef(o.tenant) && ValidStableRef(o.agent) && ValidOptionalRef(o.relationshipRef)
    && (o.relationship <==> o.relationshipRef != "")
  }
}
