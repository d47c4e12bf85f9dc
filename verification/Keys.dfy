/** Step keys (`label`, `label#2`, ...) and artifact addresses (`key@version`):
    both are a name followed by a separator and a decimal number. */
module Keys {
  import opened Prelude

  type Key = string

  // ----- decimal numerals -----

  function Digit(d: nat): (c: char)
    requires d < 10
    ensures '0' <= c <= '9'
  {
    "0123456789"[d]
  }

  function DigitValue(c: char): (d: nat)
    requires '0' <= c <= '9'
    ensures d < 10 && Digit(d) == c
  {
    (c as int) - ('0' as int)
  }

  ghost predicate AllDigits(s: string) {
    forall i :: 0 <= i < |s| ==> '0' <= s[i] <= '9'
  }

  /** The decimal rendering of a number, as an f-string writes it. */
  function Decimal(n: nat): (s: string)
    ensures |s| > 0 && AllDigits(s)
  {
    if n < 10 then [Digit(n)] else Decimal(n / 10) + [Digit(n % 10)]
  }

  /** What `int` reads from a run of decimal digits. */
  function ReadDecimal(s: string): nat
    requires AllDigits(s)
  {
    if s == [] then 0 else 10 * ReadDecimal(Front(s)) + DigitValue(Last(s))
  }

  lemma {:induction false} DecimalRoundTrip(n: nat)
    ensures ReadDecimal(Decimal(n)) == n
  {
    if n < 10 {
      var s := [Digit(n)];
      assert Front(s) == [];
    } else {
      DecimalRoundTrip(n / 10);
      var s := Decimal(n);
      assert Front(s) == Decimal(n / 10) && Last(s) == Digit(n % 10);
    }
  }

  // ----- splitting at the last separator -----

  /** The index of the last occurrence of `sep`, or -1: the split point of `rpartition`. */
  function LastIndexOf(s: string, sep: char): (i: int)
    ensures -1 <= i < |s|
    ensures i >= 0 ==> s[i] == sep
    ensures forall j :: i < j < |s| ==> s[j] != sep
  {
    if s == [] then -1
    else if Last(s) == sep then |s| - 1
    else LastIndexOf(Front(s), sep)
  }

  lemma {:induction false} LastIndexOfSuffixed(name: string, sep: char, suffix: string)
    requires sep !in suffix
    ensures LastIndexOf(name + [sep] + suffix, sep) == |name|
  {
    var s := name + [sep] + suffix;
    if suffix != [] {
      assert Last(s) == Last(suffix) && Last(suffix) in suffix;
      assert Front(s) == name + [sep] + Front(suffix);
      LastIndexOfSuffixed(name, sep, Front(suffix));
    }
  }

  /** A name, a separator and a number can be read back uniquely, whatever the name contains. */
  lemma SuffixInjective(a: string, m: nat, b: string, n: nat, sep: char)
    requires !('0' <= sep <= '9')
    requires a + [sep] + Decimal(m) == b + [sep] + Decimal(n)
    ensures a == b && m == n
  {
    var s, t := a + [sep] + Decimal(m), b + [sep] + Decimal(n);
    LastIndexOfSuffixed(a, sep, Decimal(m));
    LastIndexOfSuffixed(b, sep, Decimal(n));
    assert s[..|a|] == a && t[..|b|] == b;
    assert s[|a| + 1..] == Decimal(m) && t[|b| + 1..] == Decimal(n);
    DecimalRoundTrip(m);
    DecimalRoundTrip(n);
  }

  // ----- step keys -----

  /** The key of the `ordinal`-th request of `label` within one replay pass. */
  function StepKey(name: string, ordinal: nat): (k: Key)
    requires ordinal >= 1
    ensures |name| <= |k| && k[..|name|] == name
    ensures ordinal == 1 ==> k == name
  {
    if ordinal == 1 then name else name + "#" + Decimal(ordinal)
  }

  /** Two different requests get the same key exactly when one label already spells the
      numbered form of the other. */
  lemma StepKeyCollision(a: string, m: nat, b: string, n: nat)
    requires m >= 1 && n >= 1 && (a, m) != (b, n)
    ensures StepKey(a, m) == StepKey(b, n) <==>
            || (m == 1 && n >= 2 && a == b + "#" + Decimal(n))
            || (n == 1 && m >= 2 && b == a + "#" + Decimal(m))
  {
    if m >= 2 && n >= 2 && StepKey(a, m) == StepKey(b, n) {
      SuffixInjective(a, m, b, n, '#');
    }
  }

  /** For labels without `#`, a step key determines its label and ordinal. */
  lemma StepKeyInjective(a: string, m: nat, b: string, n: nat)
    requires m >= 1 && n >= 1 && '#' !in a && '#' !in b
    requires StepKey(a, m) == StepKey(b, n)
    ensures a == b && m == n
  {
    if (a, m) != (b, n) {
      StepKeyCollision(a, m, b, n);
    }
  }

  // ----- artifact references -----

  datatype ParsedRef = ById(id: nat) | ByKey(key: string, version: Option<nat>)

  /** The uuid parser of the standard library: it accepts no string containing `@`. */
  ghost predicate RejectsAt(uuidOf: string -> Option<nat>) {
    forall s :: '@' in s ==> uuidOf(s).None?
  }

  predicate IsDigits(s: string)
    ensures IsDigits(s) <==> s != [] && AllDigits(s)
  {
    s != [] && forall i :: 0 <= i < |s| ==> '0' <= s[i] <= '9'
  }

  function ParseRef(ref: string, uuidOf: string -> Option<nat>): ParsedRef {
    match uuidOf(ref)
    case Some(id) => ById(id)
    case None =>
      var at := LastIndexOf(ref, '@');
      if at >= 0 && IsDigits(ref[at + 1..])
      then ByKey(ref[..at], Some(ReadDecimal(ref[at + 1..])))
      else ByKey(ref, None)
  }

  function Address(key: string, version: nat): string {
    key + "@" + Decimal(version)
  }

  /** Every address reads back as the key and version it was built from: the key may be
      empty or contain `@`. */
  lemma AddressRoundTrip(key: string, version: nat, uuidOf: string -> Option<nat>)
    requires RejectsAt(uuidOf)
    ensures ParseRef(Address(key, version), uuidOf) == ByKey(key, Some(version))
  {
    var ref := Address(key, version);
    assert ref[|key|] == '@';
    LastIndexOfSuffixed(key, '@', Decimal(version));
    assert ref == key + ['@'] + Decimal(version);
    assert ref[..|key|] == key && ref[|key| + 1..] == Decimal(version);
    DecimalRoundTrip(version);
  }

  // ----- order -----

  /** Strings in the order of their characters. */
  predicate Before(a: string, b: string) {
    b != [] && (a == [] || a[0] < b[0] || (a[0] == b[0] && Before(a[1..], b[1..])))
  }

  /** At the first place where two strings differ, the smaller character decides; a prefix goes first. */
  lemma {:induction false} BeforeDecides(a: string, b: string) returns (n: nat)
    requires a != b
    ensures n <= |a| && n <= |b| && a[..n] == b[..n]
    ensures n == |a| || n == |b| || a[n] != b[n]
    ensures Before(a, b) <==> n < |b| && (n == |a| || a[n] < b[n])
    decreases |a|
  {
    if a == [] || b == [] || a[0] != b[0] {
      n := 0;
    } else {
      assert a == [a[0]] + a[1..] && b == [b[0]] + b[1..];
      var m := BeforeDecides(a[1..], b[1..]);
      n := m + 1;
      assert a[..n] == [a[0]] + a[1..][..m] && b[..n] == [b[0]] + b[1..][..m];
    }
  }

  lemma {:induction false} BeforeOrders(a: string, b: string)
    ensures a == b || Before(a, b) || Before(b, a)
    ensures !(Before(a, b) && Before(b, a)) && !Before(a, a)
    decreases |a|
  {
    if a != [] && b != [] && a[0] == b[0] {
      BeforeOrders(a[1..], b[1..]);
      assert a == [a[0]] + a[1..] && b == [b[0]] + b[1..];
    }
    if a != [] {
      BeforeOrders(a[1..], a[1..]);
    }
  }

  lemma {:induction false} BeforeGoesOn(a: string, b: string, c: string)
    requires Before(a, b) && Before(b, c)
    ensures Before(a, c)
    decreases |a|
  {
    if a != [] && a[0] == b[0] == c[0] {
      BeforeGoesOn(a[1..], b[1..], c[1..]);
    }
  }

  /** Comes first in a sorted list of the keys. */
  ghost predicate IsFirst(keys: set<string>, first: string) {
    first in keys && forall k :: k in keys && k != first ==> Before(first, k)
  }

  method First(keys: set<string>) returns (first: string)
    requires keys != {}
    ensures IsFirst(keys, first)
  {
    first :| first in keys;
    var todo := keys - {first};
    while todo != {}
      invariant todo <= keys && first in keys - todo
      invariant IsFirst(keys - todo, first)
    {
      var key :| key in todo;
      BeforeOrders(key, first);
      if Before(key, first) {
        forall k | k in keys - todo && k != first ensures Before(key, k) {
          BeforeGoesOn(key, first, k);
        }
        first := key;
      }
      todo := todo - {key};
    }
    assert keys - todo == keys;
  }
}
