/** The "top brands" pie chart: opportunity targets in scope are summed per brand, the
    brands are ordered by that sum, the first `n` are shown by name and everything
    else is one slice labelled "Other". */
module TopBrands {
  import opened Wrappers
  import opened Schema
  import opened Aggregates

  /** One opportunity in scope: its brand's (unique) name and its target. */
  datatype OpportunityRow = OpportunityRow(brandName: string, target: Money)

  /** One brand's summed target. */
  datatype BrandTotal = BrandTotal(name: string, total: Money)

  datatype Chart = Chart(labels: seq<string>, data: seq<Money>)

  /** A negative count makes the queryset slice raise; an empty scope makes the overall
      target NULL, and subtracting from NULL raises. */
  datatype ChartError = NegativeSlice | NullTotal

  const OtherLabel: string := "Other"
  const DefaultCount: int := 5

  function Targets(rows: seq<OpportunityRow>): (r: seq<Money>)
    ensures |r| == |rows| && forall i :: 0 <= i < |rows| ==> r[i] == rows[i].target
  {
    seq(|rows|, i requires 0 <= i < |rows| => rows[i].target)
  }

  function Totals(gs: seq<BrandTotal>): (r: seq<Money>)
    ensures |r| == |gs| && forall i :: 0 <= i < |gs| ==> r[i] == gs[i].total
  {
    seq(|gs|, i requires 0 <= i < |gs| => gs[i].total)
  }

  function Names(gs: seq<BrandTotal>): (r: seq<string>)
    ensures |r| == |gs| && forall i :: 0 <= i < |gs| ==> r[i] == gs[i].name
  {
    seq(|gs|, i requires 0 <= i < |gs| => gs[i].name)
  }

  /** The sum of the targets of the rows of brand `name`. */
  function BrandSum(rows: seq<OpportunityRow>, name: string): Money {
    if |rows| == 0 then 0
    else BrandSum(rows[..|rows| - 1], name) + (if rows[|rows| - 1].brandName == name then rows[|rows| - 1].target else 0)
  }

  predicate DistinctNames(gs: seq<BrandTotal>) {
    forall i, j :: 0 <= i < j < |gs| ==> gs[i].name != gs[j].name
  }

  function NameSet(gs: seq<BrandTotal>): set<string> {
    set i | 0 <= i < |gs| :: gs[i].name
  }

  function RowNames(rows: seq<OpportunityRow>): set<string> {
    set i | 0 <= i < |rows| :: rows[i].brandName
  }

  /** The summed total recorded under `name`. */
  function TotalFor(gs: seq<BrandTotal>, name: string): Money {
    if |gs| == 0 then 0 else (if gs[0].name == name then gs[0].total else 0) + TotalFor(gs[1..], name)
  }

  /** With distinct names, an entry's total is everything recorded under its name. */
  lemma {:induction false} TotalForEntry(gs: seq<BrandTotal>, i: int)
    requires DistinctNames(gs) && 0 <= i < |gs|
    ensures TotalFor(gs, gs[i].name) == gs[i].total
    decreases |gs|
  {
    if i == 0 {
      TotalForAbsent(gs[1..], gs[0].name);
    } else {
      TotalForEntry(gs[1..], i - 1);
    }
  }

  lemma {:induction false} TotalForAbsent(gs: seq<BrandTotal>, name: string)
    requires forall j :: 0 <= j < |gs| ==> gs[j].name != name
    ensures TotalFor(gs, name) == 0
    decreases |gs|
  {
    if |gs| > 0 {
      TotalForAbsent(gs[1..], name);
    }
  }

  lemma SumCons(x: int, t: seq<int>)
    ensures Sum([x] + t) == x + Sum(t)
  {
    assert ([x] + t)[1..] == t;
  }

  /** Adds one row to the per-brand totals: to its brand's entry, or as a new last entry. */
  function AddRow(gs: seq<BrandTotal>, row: OpportunityRow): (r: seq<BrandTotal>)
    ensures |r| == |gs| || |r| == |gs| + 1
  {
    if |gs| == 0 then [BrandTotal(row.brandName, row.target)]
    else if gs[0].name == row.brandName then [gs[0].(total := gs[0].total + row.target)] + gs[1..]
    else [gs[0]] + AddRow(gs[1..], row)
  }

  lemma TotalsCons(g: BrandTotal, gs: seq<BrandTotal>)
    ensures Sum(Totals([g] + gs)) == g.total + Sum(Totals(gs))
  {
    assert Totals([g] + gs) == [g.total] + Totals(gs);
    SumCons(g.total, Totals(gs));
  }

  lemma {:induction false} AddRowSum(gs: seq<BrandTotal>, row: OpportunityRow)
    ensures Sum(Totals(AddRow(gs, row))) == Sum(Totals(gs)) + row.target
    decreases |gs|
  {
    if |gs| == 0 {
      TotalsCons(BrandTotal(row.brandName, row.target), []);
    } else {
      assert gs == [gs[0]] + gs[1..];
      TotalsCons(gs[0], gs[1..]);
      if gs[0].name == row.brandName {
        TotalsCons(gs[0].(total := gs[0].total + row.target), gs[1..]);
      } else {
        AddRowSum(gs[1..], row);
        TotalsCons(gs[0], AddRow(gs[1..], row));
      }
    }
  }

  lemma NameSetCons(g: BrandTotal, gs: seq<BrandTotal>)
    ensures NameSet([g] + gs) == {g.name} + NameSet(gs)
  {
    var r := [g] + gs;
    forall n | n in NameSet(r) ensures n in {g.name} + NameSet(gs) {
      var i :| 0 <= i < |r| && r[i].name == n;
      if i > 0 {
        assert r[i] == gs[i - 1];
      }
    }
    forall n | n in {g.name} + NameSet(gs) ensures n in NameSet(r) {
      if n == g.name {
        assert r[0].name == n;
      } else {
        var i :| 0 <= i < |gs| && gs[i].name == n;
        assert r[i + 1] == gs[i];
      }
    }
  }

  lemma {:induction false} AddRowNames(gs: seq<BrandTotal>, row: OpportunityRow)
    ensures NameSet(AddRow(gs, row)) == NameSet(gs) + {row.brandName}
    decreases |gs|
  {
    if |gs| == 0 {
      NameSetCons(BrandTotal(row.brandName, row.target), []);
    } else {
      assert gs == [gs[0]] + gs[1..];
      NameSetCons(gs[0], gs[1..]);
      if gs[0].name == row.brandName {
        NameSetCons(gs[0].(total := gs[0].total + row.target), gs[1..]);
      } else {
        AddRowNames(gs[1..], row);
        NameSetCons(gs[0], AddRow(gs[1..], row));
      }
    }
  }

  lemma {:induction false} AddRowDistinct(gs: seq<BrandTotal>, row: OpportunityRow)
    requires DistinctNames(gs)
    ensures DistinctNames(AddRow(gs, row))
    decreases |gs|
  {
    if |gs| > 0 && gs[0].name != row.brandName {
      assert gs == [gs[0]] + gs[1..];
      DistinctTail(gs);
      AddRowDistinct(gs[1..], row);
      AddRowNames(gs[1..], row);
      ConsDistinct(gs[0], AddRow(gs[1..], row));
    } else if |gs| > 0 {
      var r := AddRow(gs, row);
      assert forall i :: 0 <= i < |r| ==> r[i].name == gs[i].name;
    }
  }

  lemma {:induction false} AddRowTotalFor(gs: seq<BrandTotal>, row: OpportunityRow, name: string)
    ensures TotalFor(AddRow(gs, row), name) == TotalFor(gs, name) + (if name == row.brandName then row.target else 0)
    decreases |gs|
  {
    if |gs| == 0 {
      var r := AddRow(gs, row);
      assert r[1..] == [];
    } else {
      var r := AddRow(gs, row);
      if gs[0].name == row.brandName {
        assert r[1..] == gs[1..];
      } else {
        AddRowTotalFor(gs[1..], row, name);
        assert r[1..] == AddRow(gs[1..], row);
      }
    }
  }

  lemma RowNamesLast(rows: seq<OpportunityRow>)
    requires |rows| > 0
    ensures RowNames(rows) == RowNames(rows[..|rows| - 1]) + {rows[|rows| - 1].brandName}
  {
    var prefix := rows[..|rows| - 1];
    forall n | n in RowNames(rows) ensures n in RowNames(prefix) + {rows[|rows| - 1].brandName} {
      var i :| 0 <= i < |rows| && rows[i].brandName == n;
      if i < |rows| - 1 {
        assert prefix[i] == rows[i];
      }
    }
    forall n | n in RowNames(prefix) ensures n in RowNames(rows) {
      var i :| 0 <= i < |prefix| && prefix[i].brandName == n;
      assert rows[i] == prefix[i];
    }
  }

  /** `values('brand__name').annotate(total_target=Sum('target'))`: one entry per brand
      holding the sum of that brand's targets. */
  function GroupByBrand(rows: seq<OpportunityRow>): (gs: seq<BrandTotal>)
    ensures DistinctNames(gs)
    ensures NameSet(gs) == RowNames(rows)
    ensures Sum(Totals(gs)) == Sum(Targets(rows))
    ensures forall name :: TotalFor(gs, name) == BrandSum(rows, name)
  {
    if |rows| == 0 then []
    else
      var prefix, last := rows[..|rows| - 1], rows[|rows| - 1];
      var g := GroupByBrand(prefix);
      AddRowSum(g, last);
      AddRowNames(g, last);
      AddRowDistinct(g, last);
      RowNamesLast(rows);
      assert Targets(rows)[..|rows| - 1] == Targets(prefix);
      SumLast(Targets(rows));
      assert forall name :: TotalFor(AddRow(g, last), name) == BrandSum(rows, name) by {
        forall name ensures TotalFor(AddRow(g, last), name) == BrandSum(rows, name) {
          AddRowTotalFor(g, last, name);
        }
      }
      AddRow(g, last)
  }

  predicate Descending(gs: seq<BrandTotal>) {
    forall i, j :: 0 <= i < j < |gs| ==> gs[i].total >= gs[j].total
  }

  /** Places `x` before the first entry with a smaller or equal total. */
  function InsertByTotal(x: BrandTotal, s: seq<BrandTotal>): (r: seq<BrandTotal>)
    ensures |r| == |s| + 1
    ensures multiset(r) == multiset(s) + multiset{x}
    ensures Descending(s) ==> Descending(r)
  {
    if |s| == 0 then [x]
    else if x.total >= s[0].total then [x] + s
    else
      var rest := InsertByTotal(x, s[1..]);
      assert s == [s[0]] + s[1..];
      PrependDescending(s[0], rest, s[1..], x);
      [s[0]] + rest
  }

  lemma PrependDescending(h: BrandTotal, rest: seq<BrandTotal>, tail: seq<BrandTotal>, x: BrandTotal)
    requires multiset(rest) == multiset(tail) + multiset{x}
    requires h.total > x.total
    ensures Descending([h] + tail) && Descending(rest) ==> Descending([h] + rest)
  {
    if Descending([h] + tail) && Descending(rest) {
      forall i | 0 <= i < |rest| ensures h.total >= rest[i].total {
        assert rest[i] in multiset(rest);
        if rest[i] != x {
          assert rest[i] in multiset(tail);
          var j :| 0 <= j < |tail| && tail[j] == rest[i];
          assert ([h] + tail)[0] == h && ([h] + tail)[j + 1] == tail[j];
        }
      }
    }
  }

  /** `order_by('-total_target')`: the entries in descending order of total. */
  function SortByTotal(s: seq<BrandTotal>): (r: seq<BrandTotal>)
    ensures |r| == |s|
    ensures multiset(r) == multiset(s)
    ensures Descending(r)
  {
    if |s| == 0 then []
    else
      assert s == [s[0]] + s[1..];
      InsertByTotal(s[0], SortByTotal(s[1..]))
  }

  lemma TotalForCons(g: BrandTotal, gs: seq<BrandTotal>, name: string)
    ensures TotalFor([g] + gs, name) == (if g.name == name then g.total else 0) + TotalFor(gs, name)
  {
    assert ([g] + gs)[1..] == gs;
  }

  /** Inserting an entry adds its total, its name and its contribution to its name. */
  lemma InsertFacts(x: BrandTotal, s: seq<BrandTotal>, name: string)
    ensures Sum(Totals(InsertByTotal(x, s))) == x.total + Sum(Totals(s))
    ensures NameSet(InsertByTotal(x, s)) == NameSet(s) + {x.name}
    ensures TotalFor(InsertByTotal(x, s), name) == TotalFor(s, name) + (if x.name == name then x.total else 0)
  {
    InsertSum(x, s);
    InsertNames(x, s);
    InsertTotalFor(x, s, name);
  }

  lemma {:induction false} InsertSum(x: BrandTotal, s: seq<BrandTotal>)
    ensures Sum(Totals(InsertByTotal(x, s))) == x.total + Sum(Totals(s))
    decreases |s|
  {
    if |s| == 0 || x.total >= s[0].total {
      TotalsCons(x, s);
    } else {
      assert s == [s[0]] + s[1..];
      InsertSum(x, s[1..]);
      TotalsCons(s[0], InsertByTotal(x, s[1..]));
      TotalsCons(s[0], s[1..]);
    }
  }

  lemma {:induction false} InsertNames(x: BrandTotal, s: seq<BrandTotal>)
    ensures NameSet(InsertByTotal(x, s)) == NameSet(s) + {x.name}
    decreases |s|
  {
    if |s| == 0 || x.total >= s[0].total {
      NameSetCons(x, s);
    } else {
      assert s == [s[0]] + s[1..];
      InsertNames(x, s[1..]);
      NameSetCons(s[0], InsertByTotal(x, s[1..]));
      NameSetCons(s[0], s[1..]);
    }
  }

  lemma {:induction false} InsertTotalFor(x: BrandTotal, s: seq<BrandTotal>, name: string)
    ensures TotalFor(InsertByTotal(x, s), name) == TotalFor(s, name) + (if x.name == name then x.total else 0)
    decreases |s|
  {
    if |s| == 0 || x.total >= s[0].total {
      TotalForCons(x, s, name);
    } else {
      assert s == [s[0]] + s[1..];
      InsertTotalFor(x, s[1..], name);
      TotalForCons(s[0], InsertByTotal(x, s[1..]), name);
      TotalForCons(s[0], s[1..], name);
    }
  }

  /** Prepending an entry whose name is new keeps the names distinct. */
  lemma ConsDistinct(g: BrandTotal, gs: seq<BrandTotal>)
    requires DistinctNames(gs) && g.name !in NameSet(gs)
    ensures DistinctNames([g] + gs)
  {
    var r := [g] + gs;
    forall i, j | 0 <= i < j < |r| ensures r[i].name != r[j].name {
      assert r[j] == gs[j - 1];
      if i == 0 {
        assert gs[j - 1].name in NameSet(gs);
      } else {
        assert r[i] == gs[i - 1];
      }
    }
  }

  lemma {:induction false} InsertDistinct(x: BrandTotal, s: seq<BrandTotal>)
    requires DistinctNames(s) && x.name !in NameSet(s)
    ensures DistinctNames(InsertByTotal(x, s))
    decreases |s|
  {
    if |s| == 0 {
    } else if x.total >= s[0].total {
      ConsDistinct(x, s);
    } else {
      assert s == [s[0]] + s[1..];
      NameSetCons(s[0], s[1..]);
      DistinctTail(s);
      InsertDistinct(x, s[1..]);
      InsertFacts(x, s[1..], x.name);
      ConsDistinct(s[0], InsertByTotal(x, s[1..]));
    }
  }

  lemma DistinctTail(s: seq<BrandTotal>)
    requires |s| > 0 && DistinctNames(s)
    ensures DistinctNames(s[1..]) && s[0].name !in NameSet(s[1..])
  {
    forall i, j | 0 <= i < j < |s[1..]| ensures s[1..][i].name != s[1..][j].name {
      assert s[1..][i] == s[i + 1] && s[1..][j] == s[j + 1];
    }
    forall k | 0 <= k < |s[1..]| ensures s[1..][k].name != s[0].name {
      assert s[1..][k] == s[k + 1];
    }
  }

  /** Sorting keeps every entry, so it keeps the overall total, the names, and each
      name's total. */
  lemma SortFacts(s: seq<BrandTotal>, name: string)
    ensures Sum(Totals(SortByTotal(s))) == Sum(Totals(s))
    ensures NameSet(SortByTotal(s)) == NameSet(s)
    ensures TotalFor(SortByTotal(s), name) == TotalFor(s, name)
  {
    SortSum(s);
    SortNames(s);
    SortTotalFor(s, name);
  }

  lemma {:induction false} SortSum(s: seq<BrandTotal>)
    ensures Sum(Totals(SortByTotal(s))) == Sum(Totals(s))
    decreases |s|
  {
    if |s| > 0 {
      assert s == [s[0]] + s[1..];
      SortSum(s[1..]);
      InsertSum(s[0], SortByTotal(s[1..]));
      TotalsCons(s[0], s[1..]);
    }
  }

  lemma {:induction false} SortNames(s: seq<BrandTotal>)
    ensures NameSet(SortByTotal(s)) == NameSet(s)
    decreases |s|
  {
    if |s| > 0 {
      assert s == [s[0]] + s[1..];
      SortNames(s[1..]);
      InsertNames(s[0], SortByTotal(s[1..]));
      NameSetCons(s[0], s[1..]);
    }
  }

  lemma {:induction false} SortTotalFor(s: seq<BrandTotal>, name: string)
    ensures TotalFor(SortByTotal(s), name) == TotalFor(s, name)
    decreases |s|
  {
    if |s| > 0 {
      assert s == [s[0]] + s[1..];
      SortTotalFor(s[1..], name);
      InsertTotalFor(s[0], SortByTotal(s[1..]), name);
      TotalForCons(s[0], s[1..], name);
    }
  }

  lemma {:induction false} SortDistinct(s: seq<BrandTotal>)
    requires DistinctNames(s)
    ensures DistinctNames(SortByTotal(s))
    decreases |s|
  {
    if |s| > 0 {
      assert s == [s[0]] + s[1..];
      DistinctTail(s);
      SortDistinct(s[1..]);
      SortFacts(s[1..], s[0].name);
      InsertDistinct(s[0], SortByTotal(s[1..]));
    }
  }

  predicate DistinctLabels(shown: seq<string>) {
    forall i, j :: 0 <= i < j < |shown| ==> shown[i] != shown[j]
  }

  /** The targets of the rows whose brand is not among `shown`: the "Other" slice. */
  function OtherSum(rows: seq<OpportunityRow>, shown: seq<string>): Money {
    if |rows| == 0 then 0
    else OtherSum(rows[..|rows| - 1], shown) + (if rows[|rows| - 1].brandName in shown then 0 else rows[|rows| - 1].target)
  }

  /** The summed targets of the brands in `shown`, one brand at a time. */
  function ShownSum(rows: seq<OpportunityRow>, shown: seq<string>): Money {
    if |shown| == 0 then 0 else BrandSum(rows, shown[0]) + ShownSum(rows, shown[1..])
  }

  lemma {:induction false} ShownSumLast(rows: seq<OpportunityRow>, shown: seq<string>)
    requires |rows| > 0 && DistinctLabels(shown)
    ensures ShownSum(rows, shown) == ShownSum(rows[..|rows| - 1], shown) + (if rows[|rows| - 1].brandName in shown then rows[|rows| - 1].target else 0)
    decreases |shown|
  {
    if |shown| > 0 {
      var last := rows[|rows| - 1];
      assert DistinctLabels(shown[1..]) by {
        forall i, j | 0 <= i < j < |shown[1..]| ensures shown[1..][i] != shown[1..][j] {
          assert shown[1..][i] == shown[i + 1] && shown[1..][j] == shown[j + 1];
        }
      }
      ShownSumLast(rows, shown[1..]);
      if last.brandName == shown[0] {
        assert last.brandName !in shown[1..] by {
          forall k | 0 <= k < |shown[1..]| ensures shown[1..][k] != shown[0] {
            assert shown[1..][k] == shown[k + 1];
          }
        }
      } else {
        assert last.brandName in shown <==> last.brandName in shown[1..] by {
          assert shown == [shown[0]] + shown[1..];
        }
      }
    }
  }

  /** Every row is counted either under a shown brand or in "Other", never both. */
  lemma {:induction false} ShownAndOtherPartition(rows: seq<OpportunityRow>, shown: seq<string>)
    requires DistinctLabels(shown)
    ensures ShownSum(rows, shown) + OtherSum(rows, shown) == Sum(Targets(rows))
    decreases |rows|
  {
    if |rows| == 0 {
      ShownSumEmpty(rows, shown);
    } else {
      var prefix := rows[..|rows| - 1];
      ShownAndOtherPartition(prefix, shown);
      ShownSumLast(rows, shown);
      assert Targets(rows)[..|rows| - 1] == Targets(prefix);
      SumLast(Targets(rows));
    }
  }

  lemma {:induction false} ShownSumEmpty(rows: seq<OpportunityRow>, shown: seq<string>)
    requires |rows| == 0
    ensures ShownSum(rows, shown) == 0
    decreases |shown|
  {
    if |shown| > 0 {
      ShownSumEmpty(rows, shown[1..]);
    }
  }

  /** The shown totals, entry by entry, are the shown brands' sums. */
  lemma {:induction false} TotalsAreShownSum(rows: seq<OpportunityRow>, top: seq<BrandTotal>)
    requires forall i :: 0 <= i < |top| ==> top[i].total == BrandSum(rows, top[i].name)
    ensures Sum(Totals(top)) == ShownSum(rows, Names(top))
    decreases |top|
  {
    if |top| > 0 {
      assert top == [top[0]] + top[1..];
      TotalsCons(top[0], top[1..]);
      assert Names(top)[1..] == Names(top[1..]);
      TotalsAreShownSum(rows, top[1..]);
    }
  }

  function Min(a: int, b: int): int {
    if a <= b then a else b
  }

  /** The first `n` entries of the sorted groups: distinct brands of the scope, each with
      its summed target, in descending order. */
  lemma TopEntries(rows: seq<OpportunityRow>, n: int, top: seq<BrandTotal>)
    requires n >= 0
    requires top == SortByTotal(GroupByBrand(rows))[..Min(n, |GroupByBrand(rows)|)]
    ensures |top| <= n
    ensures DistinctNames(top) && Descending(top)
    ensures forall i :: 0 <= i < |top| ==> top[i].name in RowNames(rows) && top[i].total == BrandSum(rows, top[i].name)
  {
    var groups := GroupByBrand(rows);
    var sorted := SortByTotal(groups);
    SortDistinct(groups);
    forall i | 0 <= i < |top| ensures top[i].name in RowNames(rows) && top[i].total == BrandSum(rows, top[i].name) {
      assert top[i] == sorted[i];
      SortFacts(groups, sorted[i].name);
      TotalForEntry(sorted, i);
      assert sorted[i].name in NameSet(sorted);
    }
  }

  /** In a descending list of distinct names, a name missing from the first `k` entries
      sits further on, behind entries at least as large as its own. */
  lemma PrefixLeavesOutSmaller(sorted: seq<BrandTotal>, k: int, name: string)
    requires 0 <= k <= |sorted| && DistinctNames(sorted) && Descending(sorted)
    requires name in NameSet(sorted) && name !in Names(sorted[..k])
    ensures k < |sorted| && forall i :: 0 <= i < k ==> TotalFor(sorted, name) <= sorted[i].total
  {
    var j :| 0 <= j < |sorted| && sorted[j].name == name;
    if j < k {
      assert false;
    }
    TotalForEntry(sorted, j);
  }

  /** A brand of the scope left out of the first `n` entries means all `n` places are
      taken, by brands whose sums are at least its own. */
  lemma LeftOutEntries(rows: seq<OpportunityRow>, n: int, top: seq<BrandTotal>, name: string)
    requires n >= 0
    requires top == SortByTotal(GroupByBrand(rows))[..Min(n, |GroupByBrand(rows)|)]
    requires name in RowNames(rows) && name !in Names(top)
    ensures |top| == n && forall i :: 0 <= i < |top| ==> BrandSum(rows, name) <= top[i].total
  {
    var groups := GroupByBrand(rows);
    var sorted := SortByTotal(groups);
    SortDistinct(groups);
    SortFacts(groups, name);
    PrefixLeavesOutSmaller(sorted, |top|, name);
    forall i | 0 <= i < |top| ensures BrandSum(rows, name) <= top[i].total {
      assert top[i] == sorted[i];
    }
  }

  /** The "Other" slice is what the shown brands leave of the overall total: the targets
      of the rows of every other brand, and appending it restores the overall total. */
  lemma OtherSlice(rows: seq<OpportunityRow>, top: seq<BrandTotal>)
    requires DistinctNames(top)
    requires forall i :: 0 <= i < |top| ==> top[i].total == BrandSum(rows, top[i].name)
    ensures Sum(Targets(rows)) - Sum(Totals(top)) == OtherSum(rows, Names(top))
    ensures Sum(Totals(top) + [Sum(Targets(rows)) - Sum(Totals(top))]) == Sum(Targets(rows))
  {
    assert DistinctLabels(Names(top));
    TotalsAreShownSum(rows, top);
    ShownAndOtherPartition(rows, Names(top));
    SumAppend(Totals(top), [Sum(Targets(rows)) - Sum(Totals(top))]);
    SumCons(Sum(Targets(rows)) - Sum(Totals(top)), []);
  }

  /** `order_by('-total_target')[:n]` for a non-negative `n`. */
  function TopOf(rows: seq<OpportunityRow>, n: nat): seq<BrandTotal> {
    SortByTotal(GroupByBrand(rows))[..Min(n, |GroupByBrand(rows)|)]
  }

  /** The named slices of `top`, then "Other" holding what they leave of `total`. */
  function ChartOf(top: seq<BrandTotal>, total: Money): Chart {
    Chart(Names(top) + [OtherLabel], Totals(top) + [total - Sum(Totals(top))])
  }

  /** The pie chart of the `n` brands with the largest summed targets plus an "Other" slice. */
  function TopBrandsChart(rows: seq<OpportunityRow>, n: int): (r: Result<Chart, ChartError>)
    ensures r == Failure(NegativeSlice) <==> n < 0
    ensures r == Failure(NullTotal) <==> n >= 0 && |rows| == 0
    ensures r.Success? ==> |r.value.labels| == |r.value.data| > 0 && r.value.labels[|r.value.labels| - 1] == OtherLabel
  {
    if n < 0 then Failure(NegativeSlice)
    else match SqlSum(Targets(rows))
      case None => Failure(NullTotal)
      case Some(total) =>
        Success(ChartOf(TopOf(rows, n), total))
  }

  /** The named slices: at most `n` distinct brands of the scope, each with its summed
      target, in descending order. */
  lemma ChartShowsTopBrands(rows: seq<OpportunityRow>, n: int)
    ensures var r := TopBrandsChart(rows, n);
      r.Success? ==> var k := |r.value.labels| - 1;
        && k <= n
        && (forall i :: 0 <= i < k ==> r.value.labels[i] in RowNames(rows) && r.value.data[i] == BrandSum(rows, r.value.labels[i]))
        && (forall i, j :: 0 <= i < j < k ==> r.value.labels[i] != r.value.labels[j] && r.value.data[i] >= r.value.data[j])
  {
    if n >= 0 && |rows| > 0 {
      var top := TopOf(rows, n);
      TopEntries(rows, n, top);
      var c := TopBrandsChart(rows, n).value;
      assert forall i :: 0 <= i < |top| ==> c.labels[i] == top[i].name && c.data[i] == top[i].total;
    }
  }

  /** A brand of the scope without a slice of its own means all `n` named slices are
      taken, each at least as large as that brand's sum. */
  lemma ChartLeavesOutSmaller(rows: seq<OpportunityRow>, n: int, name: string)
    ensures var r := TopBrandsChart(rows, n);
      r.Success? && name in RowNames(rows) && name !in r.value.labels[..|r.value.labels| - 1] ==>
        |r.value.labels| - 1 == n && forall i :: 0 <= i < n ==> BrandSum(rows, name) <= r.value.data[i]
  {
    if n >= 0 && |rows| > 0 {
      var top := TopOf(rows, n);
      var c := TopBrandsChart(rows, n).value;
      assert c.labels[..|c.labels| - 1] == Names(top);
      if name in RowNames(rows) && name !in Names(top) {
        LeftOutEntries(rows, n, top, name);
        assert forall i :: 0 <= i < |top| ==> c.data[i] == top[i].total;
      }
    }
  }

  /** The slices add up to the overall target, and "Other" holds exactly the targets of
      the brands without a slice. */
  lemma ChartOtherSlice(rows: seq<OpportunityRow>, n: int)
    ensures var r := TopBrandsChart(rows, n);
      r.Success? ==>
        && Sum(r.value.data) == Sum(Targets(rows))
        && r.value.data[|r.value.data| - 1] == OtherSum(rows, r.value.labels[..|r.value.labels| - 1])
  {
    if n >= 0 && |rows| > 0 {
      var top := TopOf(rows, n);
      TopEntries(rows, n, top);
      ChartOfSlices(rows, top);
      assert SqlSum(Targets(rows)) == Some(Sum(Targets(rows)));
    }
  }

  lemma ChartOfSlices(rows: seq<OpportunityRow>, top: seq<BrandTotal>)
    requires DistinctNames(top)
    requires forall i :: 0 <= i < |top| ==> top[i].total == BrandSum(rows, top[i].name)
    ensures var c := ChartOf(top, Sum(Targets(rows)));
      && Sum(c.data) == Sum(Targets(rows))
      && c.data[|c.data| - 1] == OtherSum(rows, c.labels[..|c.labels| - 1])
  {
    OtherSlice(rows, top);
    var c := ChartOf(top, Sum(Targets(rows)));
    assert c.labels[..|c.labels| - 1] == Names(top);
  }

  /** The `number` query parameter, 5 when absent. */
  function RequestedCount(number: Option<int>): int {
    number.GetOr(DefaultCount)
  }

  /** Without a `number` parameter a non-empty scope yields at most five named slices and
      the "Other" slice. */
  lemma DefaultChartSize(rows: seq<OpportunityRow>)
    ensures var r := TopBrandsChart(rows, RequestedCount(None));
      (r.Success? <==> |rows| > 0) && (r.Success? ==> 1 <= |r.value.labels| <= DefaultCount + 1)
  {
    ChartShowsTopBrands(rows, DefaultCount);
  }
}
