/** Tenant name grammars (lifecycle/identifiers.py) and name generation (tenants/legacy.py). */
module Naming {
  import opened Options

  predicate IsLetter(c: char) { 'a' <= c <= 'z' }

  predicate IsDigit(c: char) { '0' <= c <= '9' }

  /** A lower-case letter followed by at most `more` letters, digits and underscores. */
  predicate IsName(s: string, more: nat) {
    && 1 <= |s| <= 1 + more
    && IsLetter(s[0])
    && forall i :: 0 <= i < |s| ==> IsLetter(s[i]) || IsDigit(s[i]) || s[i] == '_'
  }

  predicate ValidDbName(s: string) { IsName(s, 62) }

  predicate ValidSuffix(s: string) { IsName(s, 31) }

  function Decimal(n: nat): (s: string)
    ensures s != "" && forall i :: 0 <= i < |s| ==> IsDigit(s[i])
  {
    (if n < 10 then "" else Decimal(n / 10)) + [('0' as int + n % 10) as char]
  }

  /** The number a string of digits stands for. */
  function ValueOf(s: string): int {
    if s == "" then 0 else 10 * ValueOf(s[..|s| - 1]) + (s[|s| - 1] as int - '0' as int)
  }

  /** A number is written in decimal, without leading zeros. */
  lemma {:induction false} DecimalReadsBack(n: nat)
    ensures ValueOf(Decimal(n)) == n && (Decimal(n)[0] == '0' ==> n == 0)
  {
    var s := Decimal(n);
    assert s[..|s| - 1] == if n < 10 then "" else Decimal(n / 10);
    if n >= 10 { DecimalReadsBack(n / 10); }
  }

  function Slug(suffix: string, number: Option<nat>): string {
    match number
    case None => suffix
    case Some(n) => suffix + "-" + Decimal(n)
  }

  function DbName(suffix: string, number: Option<nat>): string {
    match number
    case None => "hs_" + suffix
    case Some(n) => "hs_" + suffix + "_" + Decimal(n)
  }

  lemma {:induction false} DecimalInjective(m: nat, n: nat)
    requires Decimal(m) == Decimal(n)
    ensures m == n
  {
    var a, b := Decimal(m), Decimal(n);
    assert a[|a| - 1] == ('0' as int + m % 10) as char;
    assert b[|b| - 1] == ('0' as int + n % 10) as char;
    assert m % 10 == n % 10;
    assert a[..|a| - 1] == if m < 10 then "" else Decimal(m / 10);
    assert b[..|b| - 1] == if n < 10 then "" else Decimal(n / 10);
    if m >= 10 && n >= 10 { DecimalInjective(m / 10, n / 10); }
  }

  /** Text before and after the last separator is determined when the tail has no separator. */
  lemma {:induction false} SplitAtLast(a: string, x: string, b: string, y: string, sep: char)
    requires a + [sep] + x == b + [sep] + y
    requires sep !in x && sep !in y
    ensures a == b && x == y
  {
    var s, t := a + [sep] + x, b + [sep] + y;
    assert s[|a|] == sep && t[|b|] == sep;
    assert forall i :: |a| < i < |s| ==> s[i] == x[i - |a| - 1] && x[i - |a| - 1] in x;
    assert forall i :: |b| < i < |t| ==> t[i] == y[i - |b| - 1] && y[i - |b| - 1] in y;
    assert |a| == |b|;
    assert a == s[..|a|] && b == t[..|b|] && x == s[|a| + 1..] && y == t[|b| + 1..];
  }

  lemma DashMarksNumber(a: string, m: Option<nat>)
    requires ValidSuffix(a)
    ensures '-' in Slug(a, m) <==> m.Some?
  {
  }

  /** Distinct requests never get the same slug. */
  lemma SlugsAreDistinct(a: string, m: Option<nat>, b: string, n: Option<nat>)
    requires ValidSuffix(a) && ValidSuffix(b)
    ensures Slug(a, m) == Slug(b, n) <==> a == b && m == n
  {
    DashMarksNumber(a, m);
    DashMarksNumber(b, n);
    if Slug(a, m) == Slug(b, n) {
      if m.Some? && n.Some? {
        SplitAtLast(a, Decimal(m.value), b, Decimal(n.value), '-');
        DecimalInjective(m.value, n.value);
      }
    }
  }

  /** Database names collide exactly when an unnumbered suffix spells out a numbered one. */
  ghost predicate SpellsOut(a: string, m: Option<nat>, b: string, n: Option<nat>) {
    m.None? && n.Some? && a == b + "_" + Decimal(n.value)
  }

  lemma DbNameCollisions(a: string, m: Option<nat>, b: string, n: Option<nat>)
    ensures DbName(a, m) == DbName(b, n) <==>
              (a == b && m == n) || SpellsOut(a, m, b, n) || SpellsOut(b, n, a, m)
  {
    var da, db := DbName(a, m), DbName(b, n);
    assert da[3..] == match m case None => a case Some(k) => a + "_" + Decimal(k);
    assert db[3..] == match n case None => b case Some(k) => b + "_" + Decimal(k);
    assert da == "hs_" + da[3..] && db == "hs_" + db[3..];
    if da == db && m.Some? && n.Some? {
      SplitAtLast(a, Decimal(m.value), b, Decimal(n.value), '_');
      DecimalInjective(m.value, n.value);
    }
  }

  lemma CollisionExample()
    ensures ValidSuffix("a_1") && ValidSuffix("a")
    ensures DbName("a_1", None) == DbName("a", Some(1))
  {
  }

  /** A generated database name is valid exactly when suffix and number together are short enough;
      27 digits are always short enough. */
  lemma GeneratedDbNames(suffix: string, number: Option<nat>)
    requires ValidSuffix(suffix)
    ensures ValidDbName(DbName(suffix, number)) <==> number.None? || |suffix| + |Decimal(number.value)| <= 59
    ensures number.Some? && |Decimal(number.value)| <= 27 ==> ValidDbName(DbName(suffix, number))
  {
  }
}
