/** Post-processing of the SHAP attribution values (dashboard.py: flattening,
    row assembly and the two top-10 selections). */
module Attribution {
  import opened Wrappers
  import opened Formatting

  /** One SHAP value as it arrives: a number, or a list whose first item is
      the number. */
  datatype ShapEntry = Scalar(x: real) | Nested(items: seq<real>)

  /** Indexing `val[0]` does not raise. */
  predicate Usable(e: ShapEntry) {
    e.Nested? ==> |e.items| > 0
  }

  function Leading(e: ShapEntry): real
    requires Usable(e)
  {
    match e
    case Scalar(x) => x
    case Nested(items) => items[0]
  }

  /** Replaces every list by its first item and keeps scalars; `None` when an
      empty list makes the comprehension raise. */
  function Flatten(entries: seq<ShapEntry>): (r: Option<seq<real>>)
    ensures r.Some? <==> forall i :: 0 <= i < |entries| ==> Usable(entries[i])
    ensures r.Some? ==> |r.value| == |entries|
    ensures r.Some? ==> forall i :: 0 <= i < |entries| ==> r.value[i] == Leading(entries[i])
  {
    if entries == [] then Some([])
    else if !Usable(entries[0]) then None
    else
      match Flatten(entries[1..])
      case None => None
      case Some(rest) => Some([Leading(entries[0])] + rest)
  }

  /** One line of the attribution table: feature name, SHAP value, displayed value. */
  datatype Row = Row(feature: string, shap: real, value: FeatureValue)

  function Min(a: int, b: int): int {
    if a <= b then a else b
  }

  /** `zip(names, shaps, [format_value(v) for v in values])`: index-aligned
      triples, as many as the shortest input. */
  function AssembleRows(names: seq<string>, shaps: seq<real>, values: seq<FeatureValue>): (rows: seq<Row>)
    ensures |rows| == Min(|names|, Min(|shaps|, |values|))
    ensures forall i :: 0 <= i < |rows| ==>
              rows[i] == Row(names[i], shaps[i], FormatValue(values[i]))
  {
    if names == [] || shaps == [] || values == [] then []
    else [Row(names[0], shaps[0], FormatValue(values[0]))] + AssembleRows(names[1..], shaps[1..], values[1..])
  }

  /** The two panels: features that lower the risk and features that raise it. */
  datatype Side = Decrease | Increase

  /** The filter of each panel: strictly negative, respectively strictly positive. */
  predicate Keeps(side: Side, r: Row) {
    match side
    case Decrease => r.shap < 0.0
    case Increase => r.shap > 0.0
  }

  /** The sort key of each panel: ascending SHAP for the decrease panel,
      descending SHAP for the increase panel. Smaller rank = more extreme. */
  function Rank(side: Side, r: Row): real {
    match side
    case Decrease => r.shap
    case Increase => -r.shap
  }

  predicate SortedBy(side: Side, s: seq<Row>) {
    forall i, j :: 0 <= i < j < |s| ==> Rank(side, s[i]) <= Rank(side, s[j])
  }

  /** The rows a panel keeps, each as often as it occurs in the table. */
  function Candidates(side: Side, rows: seq<Row>): (t: seq<Row>)
    ensures forall i :: 0 <= i < |t| ==> Keeps(side, t[i])
    ensures forall r :: multiset(t)[r] == if Keeps(side, r) then multiset(rows)[r] else 0
  {
    if rows == [] then []
    else
      assert rows == [rows[0]] + rows[1..];
      if Keeps(side, rows[0]) then [rows[0]] + Candidates(side, rows[1..])
      else Candidates(side, rows[1..])
  }

  /** No row of `s` is more extreme than `bound`. */
  predicate AtLeast(side: Side, bound: real, s: seq<Row>) {
    forall i :: 0 <= i < |s| ==> bound <= Rank(side, s[i])
  }

  /** A row at least as extreme as every element of a sorted sequence can go in front of it. */
  lemma SortedCons(side: Side, a: Row, s: seq<Row>)
    requires SortedBy(side, s) && AtLeast(side, Rank(side, a), s)
    ensures SortedBy(side, [a] + s)
  {
  }

  /** Inserts `r` before the first element that is not more extreme than it. */
  function Insert(side: Side, r: Row, s: seq<Row>): seq<Row> {
    if s == [] then [r]
    else if Rank(side, r) <= Rank(side, s[0]) then [r] + s
    else [s[0]] + Insert(side, r, s[1..])
  }

  lemma {:induction false} InsertPermutes(side: Side, r: Row, s: seq<Row>)
    ensures multiset(Insert(side, r, s)) == multiset(s) + multiset{r}
  {
    if s != [] && Rank(side, r) > Rank(side, s[0]) {
      InsertPermutes(side, r, s[1..]);
      assert s == [s[0]] + s[1..];
    }
  }

  lemma {:induction false} InsertKeepsBound(side: Side, bound: real, r: Row, s: seq<Row>)
    requires AtLeast(side, bound, s) && bound <= Rank(side, r)
    ensures AtLeast(side, bound, Insert(side, r, s))
  {
    if s != [] && Rank(side, r) > Rank(side, s[0]) {
      InsertKeepsBound(side, bound, r, s[1..]);
    }
  }

  /** Inserting into a sorted sequence keeps it sorted. */
  lemma {:induction false} InsertSorted(side: Side, r: Row, s: seq<Row>)
    requires SortedBy(side, s)
    ensures SortedBy(side, Insert(side, r, s))
  {
    if s == [] {
    } else if Rank(side, r) <= Rank(side, s[0]) {
      SortedCons(side, r, s);
    } else {
      InsertSorted(side, r, s[1..]);
      InsertKeepsBound(side, Rank(side, s[0]), r, s[1..]);
      SortedCons(side, s[0], Insert(side, r, s[1..]));
    }
  }

  lemma TailMultiset(s: seq<Row>)
    requires s != []
    ensures multiset(s) == multiset(s[1..]) + multiset{s[0]}
  {
    assert s == [s[0]] + s[1..];
  }

  /** Sorting by a panel's key. Any order among equal keys is allowed by the
      selection specification below; this one is a single witness. */
  function SortByRank(side: Side, s: seq<Row>): (t: seq<Row>)
    ensures SortedBy(side, t)
    ensures multiset(t) == multiset(s)
  {
    if s == [] then []
    else
      var rest := SortByRank(side, s[1..]);
      InsertSorted(side, s[0], rest);
      InsertPermutes(side, s[0], rest);
      TailMultiset(s);
      Insert(side, s[0], rest)
  }


  /** How many rows each panel shows (`head(10)`). */
  const PanelSize: nat := 10

  /** What a correct panel drawn from the candidate rows `cands` is, whatever
      the sort does with ties: exactly min(k, #candidates) candidates, most
      extreme first, and no candidate left out is more extreme than one shown. */
  ghost predicate IsTopOf(side: Side, cands: multiset<Row>, sel: seq<Row>, k: nat) {
    && |sel| == Min(k, |cands|)
    && multiset(sel) <= cands
    && SortedBy(side, sel)
    && forall x, i :: x in cands - multiset(sel) && 0 <= i < |sel| ==> Rank(side, sel[i]) <= Rank(side, x)
  }

  /** A correct panel for the table `rows`. */
  ghost predicate IsTop(side: Side, rows: seq<Row>, sel: seq<Row>, k: nat) {
    IsTopOf(side, multiset(Candidates(side, rows)), sel, k)
  }

  /** In a sorted sequence, nothing after the first `m` elements is more
      extreme than any of them. */
  lemma {:induction false} SortedPrefixIsExtreme(side: Side, s: seq<Row>, m: nat)
    requires SortedBy(side, s) && m <= |s|
    ensures forall x, i :: x in multiset(s) - multiset(s[..m]) && 0 <= i < m ==> Rank(side, s[i]) <= Rank(side, x)
  {
    assert s == s[..m] + s[m..];
    assert multiset(s) - multiset(s[..m]) == multiset(s[m..]);
    forall x, i | x in multiset(s[m..]) && 0 <= i < m
      ensures Rank(side, s[i]) <= Rank(side, x)
    {
      var j :| m <= j < |s| && s[j] == x;
    }
  }

  /** The first min(k, |s|) elements of a sorted sequence are a correct panel
      drawn from its elements. */
  lemma {:induction false} SortedPrefixIsTop(side: Side, s: seq<Row>, k: nat)
    requires SortedBy(side, s)
    ensures IsTopOf(side, multiset(s), s[..Min(k, |s|)], k)
  {
    var m := Min(k, |s|);
    var sel := s[..m];
    PrefixSubMultiset(s, m);
    assert SortedBy(side, sel) by {
      forall i, j | 0 <= i < j < |sel| ensures Rank(side, sel[i]) <= Rank(side, sel[j]) {
        assert sel[i] == s[i] && sel[j] == s[j];
      }
    }
    assert |multiset(s)| == |s|;
    SortedPrefixIsExtreme(side, s, m);
  }

  /** Filter, sort by the panel's key and keep the first `k`: a correct panel. */
  function Top(side: Side, rows: seq<Row>, k: nat): (t: seq<Row>)
    ensures IsTop(side, rows, t, k)
  {
    var s := SortByRank(side, Candidates(side, rows));
    SortedPrefixIsTop(side, s, k);
    s[..Min(k, |s|)]
  }

  /** Every row a panel shows is a row of the table on that panel's side of zero. */
  lemma {:induction false} TopRowsKeep(side: Side, rows: seq<Row>, sel: seq<Row>, k: nat)
    requires IsTop(side, rows, sel, k)
    ensures forall i :: 0 <= i < |sel| ==> Keeps(side, sel[i]) && sel[i] in rows
  {
  }

  /** The two panels never share a row, a zero SHAP value is in neither
      (everything shown on the left is negative, everything on the right
      positive), and neither shows more than `k` rows. */
  lemma PanelsDisjoint(rows: seq<Row>, dec: seq<Row>, inc: seq<Row>, k: nat)
    requires IsTop(Decrease, rows, dec, k) && IsTop(Increase, rows, inc, k)
    ensures forall i :: 0 <= i < |dec| ==> dec[i].shap < 0.0
    ensures forall j :: 0 <= j < |inc| ==> inc[j].shap > 0.0
    ensures forall i, j :: 0 <= i < |dec| && 0 <= j < |inc| ==> dec[i] != inc[j]
    ensures |dec| <= k && |inc| <= k
  {
  }

  /** The decrease panel lists SHAP values ascending, the increase panel descending. */
  lemma PanelOrder(rows: seq<Row>, dec: seq<Row>, inc: seq<Row>, k: nat)
    requires IsTop(Decrease, rows, dec, k) && IsTop(Increase, rows, inc, k)
    ensures forall i, j :: 0 <= i < j < |dec| ==> dec[i].shap <= dec[j].shap
    ensures forall i, j :: 0 <= i < j < |inc| ==> inc[i].shap >= inc[j].shap
  {
  }

  /** The rows of `t` strictly more extreme than `bound`. */
  function MoreExtreme(side: Side, t: seq<Row>, bound: real): (u: seq<Row>)
    ensures |u| <= |t|
    ensures forall x :: multiset(u)[x] == if Rank(side, x) < bound then multiset(t)[x] else 0
  {
    if t == [] then []
    else
      assert t == [t[0]] + t[1..];
      if Rank(side, t[0]) < bound then [t[0]] + MoreExtreme(side, t[1..], bound)
      else MoreExtreme(side, t[1..], bound)
  }

  /** If no row from position `i` on is more extreme than `bound`, at most
      `i` rows are. */
  lemma {:induction false} FewBeyond(side: Side, t: seq<Row>, bound: real, i: nat)
    requires i <= |t|
    requires forall j :: i <= j < |t| ==> bound <= Rank(side, t[j])
    ensures |MoreExtreme(side, t, bound)| <= i
  {
    if t != [] {
      if i == 0 {
        FewBeyond(side, t[1..], bound, 0);
      } else {
        FewBeyond(side, t[1..], bound, i - 1);
      }
    }
  }

  /** In a sorted sequence at most `i` elements are more extreme than the one at `i`. */
  lemma FewMoreExtreme(side: Side, t: seq<Row>, i: nat)
    requires SortedBy(side, t) && i < |t|
    ensures |MoreExtreme(side, t, Rank(side, t[i]))| <= i
  {
    FewBeyond(side, t, Rank(side, t[i]), i);
  }

  lemma MultisetSizeMonotone(a: multiset<Row>, b: multiset<Row>)
    requires a <= b
    ensures |a| <= |b|
  {
    assert b == a + (b - a);
  }

  /** Rows of `t` that are all more extreme than `bound` stay inside the
      more extreme part of any sequence containing them. */
  lemma SubMoreExtreme(side: Side, s: seq<Row>, t: seq<Row>, bound: real)
    requires multiset(s) <= multiset(t)
    requires forall j :: 0 <= j < |s| ==> Rank(side, s[j]) < bound
    ensures multiset(s) <= multiset(MoreExtreme(side, t, bound))
  {
  }

  /** If a position of one correct panel were more extreme than the same
      position of another, the first panel's prefix up to it would lie
      inside the other panel. */
  lemma {:induction false} PrefixInsideOther(side: Side, cands: multiset<Row>, a: seq<Row>, b: seq<Row>, i: nat)
    requires multiset(a) <= cands && SortedBy(side, a) && i < |a| && i < |b|
    requires forall x, j :: x in cands - multiset(b) && 0 <= j < |b| ==> Rank(side, b[j]) <= Rank(side, x)
    requires Rank(side, a[i]) < Rank(side, b[i])
    ensures multiset(a[..i + 1]) <= multiset(b)
  {
    var s := a[..i + 1];
    PrefixSubMultiset(a, i + 1);
    forall x | x in s ensures multiset(s)[x] <= multiset(b)[x] {
      var j :| 0 <= j <= i && s[j] == x;
      assert Rank(side, a[j]) <= Rank(side, a[i]);
      assert x !in cands - multiset(b);
    }
  }

  lemma PrefixSubMultiset(a: seq<Row>, n: nat)
    requires n <= |a|
    ensures multiset(a[..n]) <= multiset(a)
  {
    assert a == a[..n] + a[n..];
  }

  /** A sequence of rows all more extreme than position `i` of a sorted
      sequence, and contained in it, has at most `i` rows. */
  lemma PrefixBound(side: Side, s: seq<Row>, b: seq<Row>, i: nat)
    requires SortedBy(side, b) && i < |b|
    requires multiset(s) <= multiset(b)
    requires forall j :: 0 <= j < |s| ==> Rank(side, s[j]) < Rank(side, b[i])
    ensures |s| <= i
  {
    var bound := Rank(side, b[i]);
    SubMoreExtreme(side, s, b, bound);
    var u := MoreExtreme(side, b, bound);
    MultisetSizeMonotone(multiset(s), multiset(u));
    FewMoreExtreme(side, b, i);
  }

  /** The core of the argument, on the facts of `IsTopOf` it needs: if `a`
      were more extreme than `b` at position `i`, `a`'s first i + 1 rows
      would all lie among fewer than i + 1 rows of `b`. */
  lemma {:induction false} PositionBound(side: Side, cands: multiset<Row>, a: seq<Row>, b: seq<Row>, i: nat)
    requires multiset(a) <= cands && SortedBy(side, a) && i < |a|
    requires SortedBy(side, b) && i < |b|
    requires forall x, j :: x in cands - multiset(b) && 0 <= j < |b| ==> Rank(side, b[j]) <= Rank(side, x)
    ensures Rank(side, b[i]) <= Rank(side, a[i])
  {
    if Rank(side, a[i]) < Rank(side, b[i]) {
      var s := a[..i + 1];
      PrefixInsideOther(side, cands, a, b, i);
      assert forall j :: 0 <= j < |s| ==> Rank(side, s[j]) < Rank(side, b[i]) by {
        forall j | 0 <= j < |s| ensures Rank(side, s[j]) < Rank(side, b[i]) {
          assert s[j] == a[j];
        }
      }
      PrefixBound(side, s, b, i);
      assert false;
    }
  }

  /** No position of one correct panel is more extreme than the same position
      of another correct panel drawn from the same candidates. */
  lemma PanelPositionBound(side: Side, cands: multiset<Row>, a: seq<Row>, b: seq<Row>, k: nat, i: nat)
    requires IsTopOf(side, cands, a, k) && IsTopOf(side, cands, b, k) && i < |a|
    ensures Rank(side, b[i]) <= Rank(side, a[i])
  {
    PositionBound(side, cands, a, b, i);
  }

  /** Any two correct panels show the same SHAP values in the same positions:
      only which of several tied rows is shown, and in what order, is left to
      the sort. */
  lemma {:induction false} PanelValuesDetermined(side: Side, rows: seq<Row>, a: seq<Row>, b: seq<Row>, k: nat)
    requires IsTop(side, rows, a, k) && IsTop(side, rows, b, k)
    ensures |a| == |b|
    ensures forall i :: 0 <= i < |a| ==> a[i].shap == b[i].shap
  {
    var cands := multiset(Candidates(side, rows));
    forall i | 0 <= i < |a| ensures a[i].shap == b[i].shap {
      PanelPositionBound(side, cands, a, b, k, i);
      PanelPositionBound(side, cands, b, a, k, i);
    }
  }
}
