/**
 * The order of `ORDER BY o.ort, o.name` in getActivePharmacies: ascending on
 * two text columns, NULL after every text value (PostgreSQL's default for
 * ascending order). The server's collation is not visible; text is compared
 * here by character code, one total order standing for whichever one the
 * server uses.
 */
module Ordering {
  import opened Records

  /** Lexicographic order of strings by character code. */
  predicate StrLe(a: string, b: string)
  {
    |a| == 0 || (|b| > 0 && (a[0] < b[0] || (a[0] == b[0] && StrLe(a[1..], b[1..]))))
  }

  lemma {:induction false} StrLeTotal(a: string, b: string)
    ensures StrLe(a, b) || StrLe(b, a)
  {
    if |a| > 0 && |b| > 0 && a[0] == b[0] {
      StrLeTotal(a[1..], b[1..]);
    }
  }

  lemma {:induction false} StrLeTransitive(a: string, b: string, c: string)
    requires StrLe(a, b) && StrLe(b, c)
    ensures StrLe(a, c)
  {
    if |a| > 0 && a[0] == b[0] && b[0] == c[0] {
      StrLeTransitive(a[1..], b[1..], c[1..]);
    }
  }

  lemma {:induction false} StrLeAntisymmetric(a: string, b: string)
    requires StrLe(a, b) && StrLe(b, a)
    ensures a == b
  {
    if |a| > 0 {
      StrLeAntisymmetric(a[1..], b[1..]);
      assert a == [a[0]] + a[1..] && b == [b[0]] + b[1..];
    }
  }

  /** Ascending order of a text column: text by StrLe, NULL (any value that is not text) last. */
  predicate TextLe(a: Value, b: Value)
  {
    if a.Str? && b.Str? then StrLe(a.s, b.s)
    else if a.Str? then true
    else !b.Str?
  }

  lemma TextLeTotal(a: Value, b: Value)
    ensures TextLe(a, b) || TextLe(b, a)
  {
    if a.Str? && b.Str? {
      StrLeTotal(a.s, b.s);
    }
  }

  /** `ORDER BY ort, name`: by city, and by name among rows of the same city. */
  predicate LocationLe(ort1: Value, name1: Value, ort2: Value, name2: Value)
  {
    TextLe(ort1, ort2) && (TextLe(ort2, ort1) ==> TextLe(name1, name2))
  }

  lemma LocationLeTotal(ort1: Value, name1: Value, ort2: Value, name2: Value)
    ensures LocationLe(ort1, name1, ort2, name2) || LocationLe(ort2, name2, ort1, name1)
  {
    TextLeTotal(ort1, ort2);
    TextLeTotal(name1, name2);
  }
}
