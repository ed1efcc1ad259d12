/** The two orders in which the application compares strings. The default
    `Array.prototype.sort`, which orders date keys, compares character codes;
    `localeCompare`, which orders dates and `HH:MM` times of missions, uses the
    locale's collation, where `-` and `:` come before the digits and the
    digits before every other character. Both put a proper prefix first. */
module StringOrder {
  import opened Base

  datatype Order = CodeUnits | Collation

  /** The weight a character has in an order; distinct characters never
      weigh the same. Under the collation only the characters of date and time
      texts are placed as the locale places them. */
  function Weight(o: Order, c: char): int
  {
    match o
    case CodeUnits => c as int
    case Collation =>
      if c == '-' then 0
      else if c == ':' then 1
      else if IsDigit(c) then 2 + (c as int - '0' as int)
      else 12 + c as int
  }

  predicate Lt(o: Order, a: string, b: string)
  {
    if a == [] then b != []
    else if b == [] then false
    else Weight(o, a[0]) < Weight(o, b[0]) || (a[0] == b[0] && Lt(o, a[1..], b[1..]))
  }

  predicate Le(o: Order, a: string, b: string)
  {
    a == b || Lt(o, a, b)
  }

  /** The order of `sort()` called without a comparator. */
  predicate SortLe(a: string, b: string)
  {
    Le(CodeUnits, a, b)
  }

  /** `a.localeCompare(b)`: negative, zero or positive as the collation
      orders the two texts. */
  function LocaleCompare(a: string, b: string): (c: int)
    ensures c < 0 <==> Lt(Collation, a, b)
    ensures c == 0 <==> a == b
    ensures c > 0 <==> Lt(Collation, b, a)
  {
    LtTrichotomy(Collation, a, b);
    if a == b then 0 else if Lt(Collation, a, b) then -1 else 1
  }

  lemma {:induction false} LtIrreflexive(o: Order, a: string)
    ensures !Lt(o, a, a)
  {
    if a != [] { LtIrreflexive(o, a[1..]); }
  }

  lemma {:induction false} LtTransitive(o: Order, a: string, b: string, c: string)
    requires Lt(o, a, b) && Lt(o, b, c)
    ensures Lt(o, a, c)
  {
    if a != [] && b != [] && c != [] && a[0] == b[0] && b[0] == c[0] {
      LtTransitive(o, a[1..], b[1..], c[1..]);
    }
  }

  lemma {:induction false} LtTrichotomy(o: Order, a: string, b: string)
    ensures a == b || Lt(o, a, b) || Lt(o, b, a)
    ensures !(Lt(o, a, b) && Lt(o, b, a))
  {
    if a != [] && b != [] {
      LtTrichotomy(o, a[1..], b[1..]);
      if a[0] == b[0] && a[1..] == b[1..] {
        assert a == [a[0]] + a[1..] && b == [b[0]] + b[1..];
      }
    }
  }

  lemma LeTotal(o: Order, a: string, b: string)
    ensures Le(o, a, b) || Le(o, b, a)
  {
    LtTrichotomy(o, a, b);
  }

  lemma LeTransitive(o: Order, a: string, b: string, c: string)
    requires Le(o, a, b) && Le(o, b, c)
    ensures Le(o, a, c)
  {
    if a != b && b != c { LtTransitive(o, a, b, c); }
  }

  lemma LeAntisymmetric(o: Order, a: string, b: string)
    requires Le(o, a, b) && Le(o, b, a)
    ensures a == b
  {
    LtTrichotomy(o, a, b);
  }

  /** Texts of one layout: equally long, and wherever they differ both hold a
      digit (two zero-padded `YYYY-MM-DD` dates, two `HH:MM` times). */
  predicate SameLayout(a: string, b: string)
  {
    |a| == |b| && forall i :: 0 <= i < |a| ==> a[i] == b[i] || (IsDigit(a[i]) && IsDigit(b[i]))
  }

  /** On texts of one layout the collation and the code order agree. */
  lemma {:induction false} SameLayoutAgree(a: string, b: string)
    requires SameLayout(a, b)
    ensures Lt(Collation, a, b) <==> Lt(CodeUnits, a, b)
  {
    if a != [] {
      assert SameLayout(a[1..], b[1..]) by {
        forall i | 0 <= i < |a[1..]|
          ensures a[1..][i] == b[1..][i] || (IsDigit(a[1..][i]) && IsDigit(b[1..][i]))
        {
          assert a[1..][i] == a[i + 1] && b[1..][i] == b[i + 1];
        }
      }
      SameLayoutAgree(a[1..], b[1..]);
    }
  }

  /** Without the zero padding they part: the collation puts `1:00` before
      `10:00`, the code order after it. */
  lemma UnpaddedHoursDisagree()
    ensures Lt(Collation, "1:00", "10:00")
    ensures Lt(CodeUnits, "10:00", "1:00")
  {
    assert "1:00"[1..] == ":00" && "10:00"[1..] == "0:00";
    assert Weight(Collation, ':') < Weight(Collation, '0');
    assert Weight(CodeUnits, '0') < Weight(CodeUnits, ':');
  }
}
