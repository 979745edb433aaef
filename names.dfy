/**
 * Object names the artists give to what they draw: `"{}".format(key)` of an
 * integer key, and the patterns `<mesh>.mesh`, `<mesh>.vertex.<v>`,
 * `<mesh>.edge.<u>-<v>` and `<mesh>.face.<f>`. Host objects are later found
 * again by name, so the lemmas here show that a name determines its key.
 */
module Names {

  predicate IsDigit(c: char) {
    '0' <= c <= '9'
  }

  predicate AllDigits(s: string) {
    forall i :: 0 <= i < |s| ==> IsDigit(s[i])
  }

  function DigitChar(d: nat): (c: char)
    requires d < 10
    ensures IsDigit(c)
  {
    (48 + d) as char
  }

  function DigitValue(c: char): (d: nat)
    requires IsDigit(c)
    ensures d < 10
  {
    c as int - 48
  }

  /** Python's `str` of a non-negative integer: its decimal digits, most significant first. */
  function Decimal(n: nat): (s: string)
    ensures |s| >= 1 && AllDigits(s)
    decreases n
  {
    if n < 10 then [DigitChar(n)] else Decimal(n / 10) + [DigitChar(n % 10)]
  }

  /** Reading a digit string back as a number. */
  function DecimalValue(s: string): nat
    requires AllDigits(s)
    decreases |s|
  {
    if s == [] then 0 else 10 * DecimalValue(s[..|s| - 1]) + DigitValue(s[|s| - 1])
  }

  lemma {:induction false} DecimalRoundTrip(n: nat)
    ensures DecimalValue(Decimal(n)) == n
    decreases n
  {
    if n >= 10 {
      DecimalRoundTrip(n / 10);
      var s := Decimal(n);
      assert s[..|s| - 1] == Decimal(n / 10);
    }
  }

  lemma DecimalInjective(a: nat, b: nat)
    requires Decimal(a) == Decimal(b)
    ensures a == b
  {
    DecimalRoundTrip(a);
    DecimalRoundTrip(b);
  }

  function MeshName(mesh: string): string {
    mesh + ".mesh"
  }

  function VertexName(mesh: string, v: nat): string {
    mesh + ".vertex." + Decimal(v)
  }

  function EdgeName(mesh: string, u: nat, v: nat): string {
    mesh + ".edge." + Decimal(u) + "-" + Decimal(v)
  }

  function FaceName(mesh: string, f: nat): string {
    mesh + ".face." + Decimal(f)
  }

  /** Position of the first '-' in s (or |s| when there is none). */
  function FirstDash(s: string): nat
    decreases |s|
  {
    if s == [] then 0 else if s[0] == '-' then 0 else 1 + FirstDash(s[1..])
  }

  lemma {:induction false} FirstDashAfterDigits(a: string, b: string)
    requires AllDigits(a)
    ensures FirstDash(a + "-" + b) == |a|
    decreases |a|
  {
    if a != [] {
      assert (a + "-" + b)[1..] == a[1..] + "-" + b;
      FirstDashAfterDigits(a[1..], b);
    }
  }

  lemma VertexNameInjective(mesh: string, a: nat, b: nat)
    requires VertexName(mesh, a) == VertexName(mesh, b)
    ensures a == b
  {
    var p := |mesh + ".vertex."|;
    assert VertexName(mesh, a)[p..] == Decimal(a);
    assert VertexName(mesh, b)[p..] == Decimal(b);
    DecimalInjective(a, b);
  }

  lemma FaceNameInjective(mesh: string, a: nat, b: nat)
    requires FaceName(mesh, a) == FaceName(mesh, b)
    ensures a == b
  {
    var p := |mesh + ".face."|;
    assert FaceName(mesh, a)[p..] == Decimal(a);
    assert FaceName(mesh, b)[p..] == Decimal(b);
    DecimalInjective(a, b);
  }

  /** The '-' between the two keys of an edge name is unambiguous, since keys are digits. */
  lemma EdgeNameInjective(mesh: string, u1: nat, v1: nat, u2: nat, v2: nat)
    requires EdgeName(mesh, u1, v1) == EdgeName(mesh, u2, v2)
    ensures u1 == u2 && v1 == v2
  {
    var p := |mesh + ".edge."|;
    var s1 := Decimal(u1) + "-" + Decimal(v1);
    var s2 := Decimal(u2) + "-" + Decimal(v2);
    assert EdgeName(mesh, u1, v1)[p..] == s1;
    assert EdgeName(mesh, u2, v2)[p..] == s2;
    FirstDashAfterDigits(Decimal(u1), Decimal(v1));
    FirstDashAfterDigits(Decimal(u2), Decimal(v2));
    var d := |Decimal(u1)|;
    assert s1[..d] == Decimal(u1) && s2[..d] == Decimal(u2);
    assert s1[d + 1..] == Decimal(v1) && s2[d + 1..] == Decimal(v2);
    DecimalInjective(u1, u2);
    DecimalInjective(v1, v2);
  }

  /**
   * Within one mesh, the consolidated mesh, a vertex, an edge and a face never
   * share a name: the character after `<mesh>.` tells the kinds apart.
   */
  lemma NameKindsDiffer(mesh: string, v: nat, a: nat, b: nat, f: nat)
    ensures MeshName(mesh) != VertexName(mesh, v)
    ensures MeshName(mesh) != EdgeName(mesh, a, b)
    ensures MeshName(mesh) != FaceName(mesh, f)
    ensures VertexName(mesh, v) != EdgeName(mesh, a, b)
    ensures VertexName(mesh, v) != FaceName(mesh, f)
    ensures EdgeName(mesh, a, b) != FaceName(mesh, f)
  {
    var k := |mesh| + 1;
    assert MeshName(mesh)[k] == 'm';
    assert VertexName(mesh, v)[k] == 'v';
    assert EdgeName(mesh, a, b)[k] == 'e';
    assert FaceName(mesh, f)[k] == 'f';
  }
}
