/**
 * Paths as `java.io.File` sees them: the text of the path, with '/' as the
 * name separator. Paths are taken in normal form (no trailing separator).
 */
module Files {
  type Path = string

  const Separator: char := '/'

  /** `File.getName()`: the last name of the path, after its final separator. */
  function FileName(p: Path): string
    decreases |p|
  {
    if p == [] then []
    else if p[|p| - 1] == Separator then []
    else FileName(p[..|p| - 1]) + [p[|p| - 1]]
  }

  /**
   * The name is the longest suffix of the path without a separator: it holds no
   * separator, and it is the whole path or a separator stands right before it.
   */
  lemma {:induction false} FileNameIsLastName(p: Path)
    ensures Separator !in FileName(p)
    ensures |FileName(p)| <= |p| && FileName(p) == p[|p| - |FileName(p)|..]
    ensures |FileName(p)| < |p| ==> p[|p| - |FileName(p)| - 1] == Separator
    decreases |p|
  {
    if p != [] && p[|p| - 1] != Separator {
      var init := p[..|p| - 1];
      FileNameIsLastName(init);
      assert p == init + [p[|p| - 1]];
    }
  }

  /** `new File(parent, child)`: the entry `child` inside directory `parent`. */
  function Child(parent: Path, child: string): Path
  {
    parent + [Separator] + child
  }

  /** The name of `new File(parent, child)` is `child` again. */
  lemma ChildName(parent: Path, child: string)
    requires Separator !in child
    ensures FileName(Child(parent, child)) == child
  {
    var p := Child(parent, child);
    var name := FileName(p);
    FileNameIsLastName(p);
    assert p[|p| - |child|..] == child;
    assert p[|parent|] == Separator;
    assert forall j :: 0 <= j < |name| ==> name[j] == p[|p| - |name| + j];
    assert name == child;
  }

  /** The digit character for a value below ten. */
  function Digit(d: nat): (c: char)
    requires d < 10
    ensures '0' <= c <= '9'
  {
    ('0' as int + d) as char
  }

  /** `Long.toString(n)` for a non-negative `n`: its decimal digits. */
  function Decimal(n: nat): (s: string)
    ensures |s| >= 1
    ensures forall i :: 0 <= i < |s| ==> '0' <= s[i] <= '9'
  {
    if n < 10 then [Digit(n)] else Decimal(n / 10) + [Digit(n % 10)]
  }

  predicate IsDigits(s: string) {
    forall i :: 0 <= i < |s| ==> '0' <= s[i] <= '9'
  }

  /** The number a run of decimal digits denotes, most significant digit first. */
  function ParseDecimal(s: string): nat
    requires IsDigits(s)
  {
    if s == [] then 0
    else ParseDecimal(s[..|s| - 1]) * 10 + (s[|s| - 1] as int - '0' as int)
  }

  /** Reading back the digits `Decimal` writes gives the number again. */
  lemma {:induction false} DecimalRoundTrip(n: nat)
    ensures ParseDecimal(Decimal(n)) == n
  {
    if n >= 10 {
      var s := Decimal(n);
      assert s[..|s| - 1] == Decimal(n / 10);
      DecimalRoundTrip(n / 10);
    }
  }

  /** Different numbers have different decimal forms. */
  lemma DecimalInjective(m: nat, n: nat)
    requires Decimal(m) == Decimal(n)
    ensures m == n
  {
    DecimalRoundTrip(m);
    DecimalRoundTrip(n);
  }
}
