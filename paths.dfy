/** Strings used as paths, with the two path operations the program relies on
    (filepath.IsAbs and filepath.Join, abstracted), the prefix/suffix tests of
    package strings, filepath.Base, and the decimal rendering of a clock value. */
module Paths {

  /** A path is absolute when it starts with a slash. */
  predicate IsAbs(p: string) {
    |p| > 0 && p[0] == '/'
  }

  /** filepath.Join, abstracted as concatenation with a separator. */
  function Join(dir: string, name: string): (p: string)
    ensures IsAbs(dir) ==> IsAbs(p)
    ensures |p| == |dir| + 1 + |name|
  {
    dir + "/" + name
  }

  predicate HasPrefix(s: string, pre: string) {
    |pre| <= |s| && s[..|pre|] == pre
  }

  predicate HasSuffix(s: string, suf: string) {
    |suf| <= |s| && s[|s| - |suf|..] == suf
  }

  /** The last element of a path: everything after the last slash. */
  function Base(p: string): (b: string)
    ensures '/' !in b
    ensures |b| <= |p|
  {
    if p == [] then []
    else if p[|p| - 1] == '/' then []
    else Base(p[..|p| - 1]) + [p[|p| - 1]]
  }

  /** The last element is what ends the path. */
  lemma {:induction false} BaseEndsPath(p: string)
    ensures Base(p) == p[|p| - |Base(p)|..]
  {
    if p != [] && p[|p| - 1] != '/' {
      var init := p[..|p| - 1];
      BaseEndsPath(init);
      assert p[|p| - |Base(p)|..] == init[|init| - |Base(init)|..] + [p[|p| - 1]];
    }
  }

  /** The last element of a joined path is the name that was joined. */
  lemma {:induction false} BaseOfJoin(dir: string, name: string)
    requires '/' !in name
    ensures Base(Join(dir, name)) == name
  {
    if name == [] {
    } else {
      var p := Join(dir, name);
      var init := name[..|name| - 1];
      assert p[..|p| - 1] == Join(dir, init);
      assert p[|p| - 1] == name[|name| - 1];
      BaseOfJoin(dir, init);
      assert name == init + [name[|name| - 1]];
    }
  }

  /** filepath.Dir, abstracted: everything before the last slash. The empty
      string stands for the root, as Join("", name) is "/" + name. */
  function Parent(p: string): (d: string)
    ensures p != [] ==> |d| < |p|
  {
    if p == [] then []
    else if p[|p| - 1] == '/' then p[..|p| - 1]
    else Parent(p[..|p| - 1])
  }

  /** The directory of a joined path is the directory that was joined. */
  lemma {:induction false} ParentOfJoin(dir: string, name: string)
    requires '/' !in name
    ensures Parent(Join(dir, name)) == dir
  {
    var p := Join(dir, name);
    if name == [] {
      assert p[..|p| - 1] == dir;
    } else {
      var init := name[..|name| - 1];
      assert p[..|p| - 1] == Join(dir, init);
      assert name[|name| - 1] in name;
      ParentOfJoin(dir, init);
    }
  }

  function Digit(d: nat): (c: char)
    requires d < 10
    ensures '0' <= c <= '9'
  {
    "0123456789"[d]
  }

  predicate IsDigits(s: string) {
    forall i :: 0 <= i < |s| ==> '0' <= s[i] <= '9'
  }

  /** fmt.Sprintf("%d", n) for a non-negative n: most significant digit first,
      no leading zeros. */
  function Decimal(n: nat): (s: string)
    ensures |s| > 0 && IsDigits(s)
    decreases n
  {
    if n < 10 then [Digit(n)] else Decimal(n / 10) + [Digit(n % 10)]
  }

  /** Reads a string of decimal digits back into a number. */
  function ParseDecimal(s: string): nat
    requires IsDigits(s)
  {
    if s == [] then 0
    else 10 * ParseDecimal(s[..|s| - 1]) + ((s[|s| - 1] as int) - ('0' as int))
  }

  /** Parsing inverts the rendering, so distinct clock values give distinct
      renderings. */
  lemma {:induction false} DecimalRoundTrip(n: nat)
    ensures ParseDecimal(Decimal(n)) == n
    decreases n
  {
    var s := Decimal(n);
    if n < 10 {
      assert s[..|s| - 1] == [];
    } else {
      DecimalRoundTrip(n / 10);
      assert s[..|s| - 1] == Decimal(n / 10);
      assert s[|s| - 1] == Digit(n % 10);
    }
  }

  lemma DecimalInjective(m: nat, n: nat)
    requires Decimal(m) == Decimal(n)
    ensures m == n
  {
    DecimalRoundTrip(m);
    DecimalRoundTrip(n);
  }
}
