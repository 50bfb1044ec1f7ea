/**
 * Python's `sorted(compartments, key=lambda d: d['type'])` on compartment
 * records whose types are strings: string order is lexicographic by code
 * point, and `sorted` is stable. The sort is written as an insertion sort;
 * any stable sort by the same key yields the same list.
 */
module TypeOrder {
  import opened PyValues

  /** Python's `a < b` on strings. */
  predicate StrLt(a: string, b: string)
    decreases |a|
  {
    |b| > 0 && (|a| == 0 || a[0] < b[0] || (a[0] == b[0] && StrLt(a[1..], b[1..])))
  }

  /** Python's `a <= b` on strings. */
  predicate StrLe(a: string, b: string) {
    !StrLt(b, a)
  }

  lemma {:induction false} StrLtIrreflexive(a: string)
    ensures !StrLt(a, a)
    decreases |a|
  {
    if |a| > 0 { StrLtIrreflexive(a[1..]); }
  }

  lemma {:induction false} StrLtTransitive(a: string, b: string, c: string)
    requires StrLt(a, b) && StrLt(b, c)
    ensures StrLt(a, c)
    decreases |a|
  {
    if |a| > 0 && a[0] == b[0] && b[0] == c[0] {
      StrLtTransitive(a[1..], b[1..], c[1..]);
    }
  }

  lemma {:induction false} StrLtTotal(a: string, b: string)
    requires a != b
    ensures StrLt(a, b) || StrLt(b, a)
    decreases |a|
  {
    if |a| > 0 && |b| > 0 && a[0] == b[0] {
      assert a == [a[0]] + a[1..] && b == [b[0]] + b[1..];
      StrLtTotal(a[1..], b[1..]);
    }
  }

  lemma StrLtAsymmetric(a: string, b: string)
    requires StrLt(a, b)
    ensures !StrLt(b, a)
  {
    if StrLt(b, a) {
      StrLtTransitive(a, b, a);
      StrLtIrreflexive(a);
    }
  }

  /** `<=` on strings is a total preorder: transitive and total. */
  lemma StrLeTransitive(a: string, b: string, c: string)
    requires StrLe(a, b) && StrLe(b, c)
    ensures StrLe(a, c)
  {
    if a != b { StrLtTotal(a, b); }
    if b != c { StrLtTotal(b, c); }
    if a != b && b != c { StrLtTransitive(a, b, c); StrLtAsymmetric(a, c); }
    else if a != b { StrLtAsymmetric(a, c); }
    else if b != c { StrLtAsymmetric(a, c); }
  }

  lemma StrLeTotal(a: string, b: string)
    ensures StrLe(a, b) || StrLe(b, a)
  {
    if a == b { StrLtIrreflexive(a); }
    else { StrLtTotal(a, b); if StrLt(a, b) { StrLtAsymmetric(a, b); } }
  }

  /** The three compartment roles in Python's string order. */
  lemma RoleOrder()
    ensures StrLt("central", "peripheral") && StrLt("peripheral", "subcutaneous")
    ensures StrLt("central", "subcutaneous")
  {
  }

  /** The sort key `d['type']`, read as a string ("" when it is not one). */
  function TypeKey(r: Record): string {
    match Lookup(r, "type")
    case Ok(JStr(s)) => s
    case _ => ""
  }

  ghost predicate SortedByType(s: seq<Record>) {
    forall i, j :: 0 <= i < j < |s| ==> StrLe(TypeKey(s[i]), TypeKey(s[j]))
  }

  /** The records of `s` whose type is `k`, in their order in `s`. */
  function OfType(s: seq<Record>, k: string): seq<Record> {
    if s == [] then []
    else (if TypeKey(s[0]) == k then [s[0]] else []) + OfType(s[1..], k)
  }

  /** Puts `x` before the first record whose type is not smaller than its own. */
  function Insert(x: Record, s: seq<Record>): seq<Record> {
    if s == [] || StrLe(TypeKey(x), TypeKey(s[0])) then [x] + s
    else [s[0]] + Insert(x, s[1..])
  }

  /** The stable sort of `s` by type. */
  function SortByType(s: seq<Record>): seq<Record> {
    if s == [] then [] else Insert(s[0], SortByType(s[1..]))
  }

  lemma {:induction false} InsertMultiset(x: Record, s: seq<Record>)
    ensures multiset(Insert(x, s)) == multiset([x] + s)
  {
    if s != [] && !StrLe(TypeKey(x), TypeKey(s[0])) {
      InsertMultiset(x, s[1..]);
      assert s == [s[0]] + s[1..];
    }
  }

  lemma {:induction false} InsertSorted(x: Record, s: seq<Record>)
    requires SortedByType(s)
    ensures SortedByType(Insert(x, s))
  {
    if s == [] || StrLe(TypeKey(x), TypeKey(s[0])) {
      var r := [x] + s;
      forall i, j | 0 <= i < j < |r| ensures StrLe(TypeKey(r[i]), TypeKey(r[j])) {
        if i == 0 && j > 1 { StrLeTransitive(TypeKey(x), TypeKey(s[0]), TypeKey(s[j - 1])); }
      }
    } else {
      var t := Insert(x, s[1..]);
      InsertSorted(x, s[1..]);
      InsertMultiset(x, s[1..]);
      StrLeTotal(TypeKey(x), TypeKey(s[0]));
      var r := [s[0]] + t;
      forall i, j | 0 <= i < j < |r| ensures StrLe(TypeKey(r[i]), TypeKey(r[j])) {
        if i == 0 {
          assert r[j] in multiset([x] + s[1..]);
          assert r[j] == x || r[j] in s[1..];
          if r[j] != x {
            var m :| 0 <= m < |s[1..]| && s[1..][m] == r[j];
            assert s[m + 1] == r[j];
          }
        }
      }
    }
  }

  /** `sorted` returns the records ordered by type, and a permutation of them. */
  lemma {:induction false} SortByTypeSortedPermutation(s: seq<Record>)
    ensures SortedByType(SortByType(s))
    ensures multiset(SortByType(s)) == multiset(s)
    ensures |SortByType(s)| == |s|
  {
    if s != [] {
      SortByTypeSortedPermutation(s[1..]);
      InsertSorted(s[0], SortByType(s[1..]));
      InsertMultiset(s[0], SortByType(s[1..]));
      assert s == [s[0]] + s[1..];
      assert multiset(SortByType(s)) == multiset(s);
      assert |multiset(SortByType(s))| == |multiset(s)|;
    }
  }

  lemma {:induction false} OfTypeAppend(a: seq<Record>, b: seq<Record>, k: string)
    ensures OfType(a + b, k) == OfType(a, k) + OfType(b, k)
  {
    if a != [] {
      assert (a + b)[1..] == a[1..] + b;
      OfTypeAppend(a[1..], b, k);
    } else {
      assert a + b == b;
    }
  }

  lemma OfTypeCons(x: Record, s: seq<Record>, k: string)
    ensures OfType([x] + s, k) == (if TypeKey(x) == k then [x] else []) + OfType(s, k)
  {
    assert ([x] + s)[1..] == s;
  }

  lemma {:induction false} InsertStable(x: Record, s: seq<Record>, k: string)
    requires SortedByType(s)
    ensures OfType(Insert(x, s), k) == OfType([x] + s, k)
  {
    if s != [] && !StrLe(TypeKey(x), TypeKey(s[0])) {
      var t := s[1..];
      InsertStable(x, t, k);
      StrLtIrreflexive(TypeKey(x));
      var hx := if TypeKey(x) == k then [x] else [];
      var h0 := if TypeKey(s[0]) == k then [s[0]] else [];
      assert hx == [] || h0 == [];
      OfTypeCons(s[0], Insert(x, t), k);
      OfTypeCons(x, t, k);
      OfTypeCons(x, s, k);
      assert s == [s[0]] + t;
      OfTypeCons(s[0], t, k);
      AppendAssoc(h0, hx, OfType(t, k));
      AppendAssoc(hx, h0, OfType(t, k));
      assert h0 + hx == hx + h0;
    }
  }

  /** Stability: records of any one type keep their relative order. */
  lemma {:induction false} SortByTypeStable(s: seq<Record>, k: string)
    ensures OfType(SortByType(s), k) == OfType(s, k)
  {
    if s != [] {
      SortByTypeStable(s[1..], k);
      SortByTypeSortedPermutation(s[1..]);
      InsertStable(s[0], SortByType(s[1..]), k);
      OfTypeAppend([s[0]], SortByType(s[1..]), k);
      OfTypeAppend([s[0]], s[1..], k);
      assert s == [s[0]] + s[1..];
    }
  }

  /** Putting a record in front of three concatenated groups puts it in
      front of the first group. */
  lemma ConsFirstGroup(x: Record, c: seq<Record>, q: seq<Record>, u: seq<Record>)
    ensures [x] + (c + q + u) == ([x] + c) + q + u
  {
    var l := [x] + (c + q + u);
    var r := ([x] + c) + q + u;
    forall i | 0 <= i < |l| ensures l[i] == r[i] {
      if i > 0 { assert l[i] == (c + q + u)[i - 1]; }
    }
    assert |l| == |r|;
  }

  /** One record in front of a list split by role, when no record of a
      smaller role follows it, keeps the list split by role. */
  lemma ConsSplit(x: Record, t: seq<Record>)
    requires t == OfType(t, "central") + OfType(t, "peripheral") + OfType(t, "subcutaneous")
    requires var k := TypeKey(x); k == "central" || k == "peripheral" || k == "subcutaneous"
    requires TypeKey(x) != "central" ==> OfType(t, "central") == []
    requires TypeKey(x) == "subcutaneous" ==> OfType(t, "peripheral") == []
    ensures [x] + t == OfType([x] + t, "central") + OfType([x] + t, "peripheral") + OfType([x] + t, "subcutaneous")
  {
    var k := TypeKey(x);
    if k == "central" {
      ConsCentral(x, t);
    } else if k == "peripheral" {
      assert t == [] + OfType(t, "peripheral") + OfType(t, "subcutaneous");
      ConsPeripheral(x, t);
    } else {
      assert t == [] + [] + OfType(t, "subcutaneous");
      ConsSubcutaneous(x, t);
    }
  }

  lemma ConsCentral(x: Record, t: seq<Record>)
    requires t == OfType(t, "central") + OfType(t, "peripheral") + OfType(t, "subcutaneous")
    requires TypeKey(x) == "central"
    ensures [x] + t == OfType([x] + t, "central") + OfType([x] + t, "peripheral") + OfType([x] + t, "subcutaneous")
  {
    var s := [x] + t;
    assert s[1..] == t;
    var c, q, u := OfType(t, "central"), OfType(t, "peripheral"), OfType(t, "subcutaneous");
    assert OfType(s, "central") == [x] + c;
    assert OfType(s, "peripheral") == q;
    assert OfType(s, "subcutaneous") == u;
    ConsFirstGroup(x, c, q, u);
  }

  lemma ConsPeripheral(x: Record, t: seq<Record>)
    requires t == OfType(t, "peripheral") + OfType(t, "subcutaneous")
    requires TypeKey(x) == "peripheral" && OfType(t, "central") == []
    ensures [x] + t == OfType([x] + t, "central") + OfType([x] + t, "peripheral") + OfType([x] + t, "subcutaneous")
  {
    var s := [x] + t;
    assert s[1..] == t;
    var q, u := OfType(t, "peripheral"), OfType(t, "subcutaneous");
    assert OfType(s, "central") == [];
    assert OfType(s, "peripheral") == [x] + q;
    assert OfType(s, "subcutaneous") == u;
    assert s == [] + ([x] + q) + u;
  }

  lemma ConsSubcutaneous(x: Record, t: seq<Record>)
    requires t == OfType(t, "subcutaneous")
    requires TypeKey(x) == "subcutaneous" && OfType(t, "central") == [] && OfType(t, "peripheral") == []
    ensures [x] + t == OfType([x] + t, "central") + OfType([x] + t, "peripheral") + OfType([x] + t, "subcutaneous")
  {
    var s := [x] + t;
    assert s[1..] == t;
    assert OfType(s, "central") == [];
    assert OfType(s, "peripheral") == [];
    assert OfType(s, "subcutaneous") == [x] + t;
  }
}
