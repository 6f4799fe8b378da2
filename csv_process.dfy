/** The chart pipeline: check the two named columns, coerce the value column to
    numbers and drop the rows that do not coerce (in place, on the caller's
    data frame), average the values per group, order the groups by mean from
    highest to lowest, and describe the bar chart with its labels and its
    optional output path. The picture itself is not modelled: a chart is the
    description a plotting library would draw. */
module CsvProcess {
  import opened Python
  import opened Frame

  // ---------------------------------------------------------------------------
  // Column check
  // ---------------------------------------------------------------------------

  /** The ValueError raised when a named column is absent. */
  datatype ChartError = MissingColumns(missing: seq<string>, found: seq<string>)

  /** The error's text: "Missing columns: [...]. Found: [...]". */
  function ErrorMessage(e: ChartError): (r: string)
    ensures |r| > 17 && r[..17] == "Missing columns: "
  {
    var m := "Missing columns: " + ListRepr(e.missing) + ". Found: " + ListRepr(e.found);
    assert m[..17] == "Missing columns: ";
    m
  }

  /** Those of the group column and the value column, in that order, that the
      table lacks; no other column is checked. */
  function Missing(g: string, v: string, columns: seq<string>): (r: seq<string>)
    ensures forall c :: c in r <==> (c == g || c == v) && c !in columns
    ensures r == [] <==> g in columns && v in columns
    ensures |r| <= 2 && (|r| == 2 ==> r == [g, v])
  {
    (if g in columns then [] else [g]) + (if v in columns then [] else [v])
  }

  // ---------------------------------------------------------------------------
  // Numeric cleaning
  // ---------------------------------------------------------------------------

  predicate Numeric(rows: seq<Row>, v: string)
  {
    HasColumn(rows, v) && forall i :: 0 <= i < |rows| ==> rows[i][v].Num?
  }

  /** The rows left after coercing column `v` and dropping its NA cells. */
  function Clean(rows: seq<Row>, v: string): (r: seq<Row>)
    requires HasColumn(rows, v)
    ensures |r| <= |rows|
    ensures Numeric(r, v)
  {
    DropNa(CoerceColumn(rows, v), v)
  }

  lemma CoerceColumnAppend(a: seq<Row>, b: seq<Row>, v: string)
    requires HasColumn(a, v) && HasColumn(b, v)
    ensures HasColumn(a + b, v)
    ensures CoerceColumn(a + b, v) == CoerceColumn(a, v) + CoerceColumn(b, v)
  {
  }

  /** One row is kept exactly when its value coerces, and is kept with the
      coerced number in place of the original cell. */
  lemma CleanSingleRow(row: Row, v: string)
    requires v in row
    ensures HasColumn([row], v)
    ensures ToNumeric(row[v]).Num? ==> Clean([row], v) == [row[v := ToNumeric(row[v])]]
    ensures !ToNumeric(row[v]).Num? ==> Clean([row], v) == []
  {
    var c := CoerceColumn([row], v);
    assert c == [row[v := ToNumeric(row[v])]];
    assert c[1..] == [];
  }

  /** Cleaning works row by row, so kept rows keep their relative order. */
  lemma CleanAppend(a: seq<Row>, b: seq<Row>, v: string)
    requires HasColumn(a, v) && HasColumn(b, v)
    ensures HasColumn(a + b, v)
    ensures Clean(a + b, v) == Clean(a, v) + Clean(b, v)
  {
    CoerceColumnAppend(a, b, v);
    DropNaAppend(CoerceColumn(a, v), CoerceColumn(b, v), v);
  }

  predicate Coerces(row: Row, v: string)
    requires v in row
  {
    ToNumeric(row[v]).Num?
  }

  /** No row is dropped exactly when every value coerces. */
  lemma {:induction false} CleanKeepsAll(rows: seq<Row>, v: string)
    requires HasColumn(rows, v)
    ensures (forall i :: 0 <= i < |rows| ==> Coerces(rows[i], v)) <==> |Clean(rows, v)| == |rows|
  {
    if rows != [] {
      var t := rows[1..];
      CleanKeepsAll(t, v);
      CleanCount(rows, v);
      assert (forall i :: 0 <= i < |rows| ==> Coerces(rows[i], v)) <==>
             Coerces(rows[0], v) && (forall i :: 0 <= i < |t| ==> Coerces(t[i], v)) by {
        assert forall i :: 0 <= i < |t| ==> t[i] == rows[i + 1];
      }
    }
  }

  /** The first row adds one to the number kept exactly when it coerces. */
  lemma CleanCount(rows: seq<Row>, v: string)
    requires HasColumn(rows, v) && rows != []
    ensures |Clean(rows, v)| == (if Coerces(rows[0], v) then 1 else 0) + |Clean(rows[1..], v)|
  {
    CleanSingleRow(rows[0], v);
    assert rows == [rows[0]] + rows[1..];
    CleanAppend([rows[0]], rows[1..], v);
  }

  /** One row whose value does not coerce, among rows whose values do, costs
      exactly one row. */
  lemma CleanOneRejected(a: seq<Row>, row: Row, b: seq<Row>, v: string)
    requires HasColumn(a, v) && HasColumn(b, v) && v in row
    requires forall i :: 0 <= i < |a| ==> Coerces(a[i], v)
    requires forall i :: 0 <= i < |b| ==> Coerces(b[i], v)
    requires !Coerces(row, v)
    ensures HasColumn(a + [row] + b, v)
    ensures |Clean(a + [row] + b, v)| == |a| + |b|
  {
    CleanSingleRow(row, v);
    CleanAppend(a, [row], v);
    CleanAppend(a + [row], b, v);
    CleanKeepsAll(a, v);
    CleanKeepsAll(b, v);
  }

  /** Cleaning an already numeric table changes nothing. */
  lemma CleanNoop(rows: seq<Row>, v: string)
    requires Numeric(rows, v)
    ensures Clean(rows, v) == rows
  {
    var c := CoerceColumn(rows, v);
    forall i | 0 <= i < |rows| ensures c[i] == rows[i] {
      assert ToNumeric(rows[i][v]) == rows[i][v];
    }
    assert c == rows;
    DropNaNoop(rows, v);
  }

  /** Cleaning is idempotent. */
  lemma CleanIdempotent(rows: seq<Row>, v: string)
    requires HasColumn(rows, v)
    ensures Clean(Clean(rows, v), v) == Clean(rows, v)
  {
    CleanNoop(Clean(rows, v), v);
  }

  // ---------------------------------------------------------------------------
  // Group-by mean
  // ---------------------------------------------------------------------------

  /** One observation: the group key of a row and its numeric value. */
  type Obs = (Cell, real)

  /** The (key, value) pairs `groupby` works on, in row order; a row whose
      group cell is NA is left out, as `groupby` drops NA keys. */
  function Observations(rows: seq<Row>, g: string, v: string): (obs: seq<Obs>)
    requires HasColumn(rows, g) && Numeric(rows, v)
    ensures |obs| <= |rows|
    ensures forall j :: 0 <= j < |obs| ==> !obs[j].0.NA?
    ensures obs == [] <==> forall i :: 0 <= i < |rows| ==> rows[i][g].NA?
  {
    if rows == [] then []
    else
      assert forall i :: 1 <= i < |rows| ==> rows[i] == rows[1..][i - 1];
      (if rows[0][g].NA? then [] else [(rows[0][g], rows[0][v].x)]) + Observations(rows[1..], g, v)
  }

  /** The distinct group keys present. */
  function Keys(obs: seq<Obs>): set<Cell>
  {
    set i | 0 <= i < |obs| :: obs[i].0
  }

  lemma KeysSnoc(obs: seq<Obs>)
    requires obs != []
    ensures Keys(obs) == Keys(obs[..|obs| - 1]) + {obs[|obs| - 1].0}
  {
    var init := obs[..|obs| - 1];
    forall k | k in Keys(obs) ensures k in Keys(init) + {obs[|obs| - 1].0} {
      var i :| 0 <= i < |obs| && obs[i].0 == k;
      if i < |obs| - 1 {
        assert init[i] == obs[i];
      }
    }
    forall k | k in Keys(init) ensures k in Keys(obs) {
      var i :| 0 <= i < |init| && init[i].0 == k;
      assert obs[i] == init[i];
    }
  }

  predicate Distinct(ks: seq<Cell>)
  {
    forall i, j :: 0 <= i < j < |ks| ==> ks[i] != ks[j]
  }

  /** The group keys in the order they first appear, each once. */
  function DistinctKeys(obs: seq<Obs>): (ks: seq<Cell>)
    ensures Distinct(ks) && |ks| <= |obs|
    ensures forall k :: k in ks <==> k in Keys(obs)
  {
    if obs == [] then []
    else
      KeysSnoc(obs);
      var ks := DistinctKeys(obs[..|obs| - 1]);
      var k := obs[|obs| - 1].0;
      if k in ks then ks else ks + [k]
  }

  /** The sum of the values of group `k`. */
  function GroupSum(obs: seq<Obs>, k: Cell): real
  {
    if obs == [] then 0.0
    else (if obs[0].0 == k then obs[0].1 else 0.0) + GroupSum(obs[1..], k)
  }

  /** The number of observations in group `k`; positive exactly for keys present. */
  function GroupCount(obs: seq<Obs>, k: Cell): (n: nat)
    ensures n > 0 <==> k in Keys(obs)
    ensures n <= |obs|
  {
    if obs == [] then 0
    else
      assert Keys(obs) == {obs[0].0} + Keys(obs[1..]) by {
        forall c | c in Keys(obs) ensures c in {obs[0].0} + Keys(obs[1..]) {
          var i :| 0 <= i < |obs| && obs[i].0 == c;
          if i > 0 { assert obs[1..][i - 1] == obs[i]; }
        }
        forall c | c in Keys(obs[1..]) ensures c in Keys(obs) {
          var i :| 0 <= i < |obs[1..]| && obs[1..][i].0 == c;
          assert obs[i + 1] == obs[1..][i];
        }
      }
      (if obs[0].0 == k then 1 else 0) + GroupCount(obs[1..], k)
  }

  /** One aggregate row: a group key and the mean of its values. */
  datatype Group = Group(key: Cell, mean: real)

  function Mean(obs: seq<Obs>, k: Cell): real
    requires k in Keys(obs)
  {
    GroupSum(obs, k) / (GroupCount(obs, k) as real)
  }

  /** `groupby(g, as_index=False)[v].mean()`: one row per group, in the order
      the keys first appear. */
  function GroupMeans(obs: seq<Obs>): (r: seq<Group>)
    ensures DistinctGroupKeys(r)
    ensures forall i :: 0 <= i < |r| ==> r[i].key in Keys(obs)
    ensures forall k :: k in Keys(obs) ==> exists i :: 0 <= i < |r| && r[i].key == k
  {
    var ks := DistinctKeys(obs);
    var r := seq(|ks|, i requires 0 <= i < |ks| => Group(ks[i], Mean(obs, ks[i])));
    assert forall k :: k in Keys(obs) ==> exists i :: 0 <= i < |ks| && ks[i] == k && r[i].key == k;
    r
  }

  // ---------------------------------------------------------------------------
  // Descending sort
  // ---------------------------------------------------------------------------

  predicate NonIncreasing(gs: seq<Group>)
  {
    forall i, j :: 0 <= i < j < |gs| ==> gs[i].mean >= gs[j].mean
  }

  predicate DistinctGroupKeys(gs: seq<Group>)
  {
    forall i, j :: 0 <= i < j < |gs| ==> gs[i].key != gs[j].key
  }

  function Insert(x: Group, s: seq<Group>): (r: seq<Group>)
    requires NonIncreasing(s)
    ensures NonIncreasing(r)
    ensures multiset(r) == multiset(s) + multiset{x}
    ensures forall y :: y in r ==> y == x || y in s
  {
    if s == [] then [x]
    else if x.mean >= s[0].mean then [x] + s
    else
      var rest := Insert(x, s[1..]);
      assert s == [s[0]] + s[1..];
      assert forall y :: y in rest ==> s[0].mean >= y.mean;
      [s[0]] + rest
  }

  /** `sort_values(v, ascending=False)`: a permutation ordered by mean from
      highest to lowest. The order among equal means is this model's choice;
      the library's default sort does not promise one. */
  function SortByMeanDesc(s: seq<Group>): (r: seq<Group>)
    ensures NonIncreasing(r)
    ensures multiset(r) == multiset(s)
  {
    if s == [] then []
    else
      assert s == [s[0]] + s[1..];
      Insert(s[0], SortByMeanDesc(s[1..]))
  }

  lemma {:induction false} InsertKeepsDistinctKeys(x: Group, s: seq<Group>)
    requires NonIncreasing(s) && DistinctGroupKeys(s)
    requires forall i :: 0 <= i < |s| ==> s[i].key != x.key
    ensures DistinctGroupKeys(Insert(x, s))
  {
    if s != [] && x.mean < s[0].mean {
      InsertKeepsDistinctKeys(x, s[1..]);
      var rest := Insert(x, s[1..]);
      forall y | y in rest ensures y.key != s[0].key {
        assert y in multiset(rest);
        assert y == x || y in s[1..];
      }
    }
  }

  lemma {:induction false} SortKeepsDistinctKeys(s: seq<Group>)
    requires DistinctGroupKeys(s)
    ensures DistinctGroupKeys(SortByMeanDesc(s))
  {
    if s != [] {
      SortKeepsDistinctKeys(s[1..]);
      var sorted := SortByMeanDesc(s[1..]);
      forall i | 0 <= i < |sorted| ensures sorted[i].key != s[0].key {
        assert sorted[i] in multiset(s[1..]);
      }
      InsertKeepsDistinctKeys(s[0], sorted);
    }
  }

  /** The aggregate the chart is drawn from. */
  function Aggregate(rows: seq<Row>, g: string, v: string): (r: seq<Group>)
    requires HasColumn(rows, g) && Numeric(rows, v)
    ensures NonIncreasing(r)
    ensures |r| <= |rows|
  {
    var gm := GroupMeans(Observations(rows, g, v));
    var sorted := SortByMeanDesc(gm);
    assert |sorted| == |multiset(sorted)| == |multiset(gm)| == |gm|;
    sorted
  }

  /** `r` summarises the groups of `obs`: one row per distinct key present,
      and each row's mean is the group's sum over the group's size. */
  ghost predicate Summarises(r: seq<Group>, obs: seq<Obs>)
  {
    && DistinctGroupKeys(r)
    && (forall k :: k in Keys(obs) <==> exists i :: 0 <= i < |r| && r[i].key == k)
    && (forall i :: 0 <= i < |r| ==>
          GroupCount(obs, r[i].key) > 0 &&
          r[i].mean == GroupSum(obs, r[i].key) / (GroupCount(obs, r[i].key) as real))
  }

  lemma GroupMeansSummarise(obs: seq<Obs>)
    ensures Summarises(GroupMeans(obs), obs)
    ensures |GroupMeans(obs)| == |DistinctKeys(obs)|
  {
    var gm := GroupMeans(obs);
    var ks := DistinctKeys(obs);
    forall i, j | 0 <= i < j < |gm| ensures gm[i].key != gm[j].key {
      assert gm[i].key == ks[i] && gm[j].key == ks[j];
    }
    forall k | k in Keys(obs) ensures exists i :: 0 <= i < |gm| && gm[i].key == k {
      var j :| 0 <= j < |ks| && ks[j] == k;
      assert gm[j].key == k;
    }
    forall i | 0 <= i < |gm| ensures gm[i].key in Keys(obs) {
      assert gm[i].key == ks[i];
    }
  }

  /** Reordering a summary whose keys stay distinct leaves it a summary. */
  lemma PermutationSummarises(a: seq<Group>, b: seq<Group>, obs: seq<Obs>)
    requires Summarises(a, obs) && multiset(a) == multiset(b) && DistinctGroupKeys(b)
    ensures Summarises(b, obs)
  {
    forall i | 0 <= i < |b|
      ensures GroupCount(obs, b[i].key) > 0
      ensures b[i].mean == GroupSum(obs, b[i].key) / (GroupCount(obs, b[i].key) as real)
    {
      assert b[i] in multiset(a);
      var j :| 0 <= j < |a| && a[j] == b[i];
    }
    forall k | k in Keys(obs) ensures exists i :: 0 <= i < |b| && b[i].key == k {
      var j :| 0 <= j < |a| && a[j].key == k;
      assert a[j] in multiset(b);
      var i :| 0 <= i < |b| && b[i] == a[j];
    }
  }

  /** Exactly one aggregate row per distinct group key of the cleaned rows,
      each carrying the sum of its group's values over the group's size,
      ordered by mean from highest to lowest, a permutation of the groups; no
      rows give no groups. */
  lemma AggregateGroups(rows: seq<Row>, g: string, v: string)
    requires HasColumn(rows, g) && Numeric(rows, v)
    ensures var obs := Observations(rows, g, v);
            var r := Aggregate(rows, g, v);
            && NonIncreasing(r)
            && multiset(r) == multiset(GroupMeans(obs))
            && Summarises(r, obs)
            && (r == [] <==> forall i :: 0 <= i < |rows| ==> rows[i][g].NA?)
  {
    var obs := Observations(rows, g, v);
    var gm := GroupMeans(obs);
    var r := Aggregate(rows, g, v);
    GroupMeansSummarise(obs);
    SortKeepsDistinctKeys(gm);
    PermutationSummarises(gm, r, obs);
    assert |r| == |multiset(r)| == |multiset(gm)| == |DistinctKeys(obs)|;
    if obs != [] {
      assert obs[0].0 in Keys(obs);
    }
  }

  /** The observations of the rows A=10, B=30, A=20, C=30. */
  predicate ScenarioRows(obs: seq<Obs>)
  {
    obs == [(Str("A"), 10.0), (Str("B"), 30.0), (Str("A"), 20.0), (Str("C"), 30.0)]
  }

  /** Those rows give A the mean 15 and put it last, after the two groups
      with mean 30. */
  lemma AggregateScenario(obs: seq<Obs>)
    requires ScenarioRows(obs)
    ensures SortByMeanDesc(GroupMeans(obs))
              == [Group(Str("B"), 30.0), Group(Str("C"), 30.0), Group(Str("A"), 15.0)]
  {
    ScenarioKeys(obs);
    ScenarioSums(obs);
    var gm := GroupMeans(obs);
    assert gm == [Group(Str("A"), 15.0), Group(Str("B"), 30.0), Group(Str("C"), 30.0)];
    ScenarioSort(gm);
  }

  lemma ScenarioKeys(obs: seq<Obs>)
    requires ScenarioRows(obs)
    ensures DistinctKeys(obs) == [Str("A"), Str("B"), Str("C")]
  {
    var a, b, c := Str("A"), Str("B"), Str("C");
    var p1, p2, p3 := obs[..1], obs[..2], obs[..3];
    assert p1 == [(a, 10.0)] && p1[..0] == [];
    assert DistinctKeys(p1) == [a];
    assert p2 == [(a, 10.0), (b, 30.0)] && p2[..1] == p1;
    assert DistinctKeys(p2) == [a, b];
    assert p3 == [(a, 10.0), (b, 30.0), (a, 20.0)] && p3[..2] == p2;
    assert DistinctKeys(p3) == [a, b];
    assert obs[..3] == p3 && obs[3].0 == c;
  }

  lemma ScenarioSums(obs: seq<Obs>)
    requires ScenarioRows(obs)
    ensures GroupSum(obs, Str("A")) == 30.0 && GroupCount(obs, Str("A")) == 2
    ensures GroupSum(obs, Str("B")) == 30.0 && GroupCount(obs, Str("B")) == 1
    ensures GroupSum(obs, Str("C")) == 30.0 && GroupCount(obs, Str("C")) == 1
  {
    var a, b, c := Str("A"), Str("B"), Str("C");
    var o1, o2, o3 := obs[1..], obs[2..], obs[3..];
    assert o1 == [(b, 30.0), (a, 20.0), (c, 30.0)];
    assert o2 == [(a, 20.0), (c, 30.0)] && o1[1..] == o2;
    assert o3 == [(c, 30.0)] && o2[1..] == o3 && o3[1..] == [];
    assert GroupSum(o3, a) == 0.0 && GroupCount(o3, a) == 0;
    assert GroupSum(o3, b) == 0.0 && GroupCount(o3, b) == 0;
    assert GroupSum(o3, c) == 30.0 && GroupCount(o3, c) == 1;
    assert GroupSum(o2, a) == 20.0 && GroupCount(o2, a) == 1;
    assert GroupSum(o2, b) == 0.0 && GroupCount(o2, b) == 0;
    assert GroupSum(o2, c) == 30.0 && GroupCount(o2, c) == 1;
    assert GroupSum(o1, a) == 20.0 && GroupCount(o1, a) == 1;
    assert GroupSum(o1, b) == 30.0 && GroupCount(o1, b) == 1;
    assert GroupSum(o1, c) == 30.0 && GroupCount(o1, c) == 1;
  }

  lemma ScenarioSort(gm: seq<Group>)
    requires gm == [Group(Str("A"), 15.0), Group(Str("B"), 30.0), Group(Str("C"), 30.0)]
    ensures SortByMeanDesc(gm) == [Group(Str("B"), 30.0), Group(Str("C"), 30.0), Group(Str("A"), 15.0)]
  {
    var a, b, c := Group(Str("A"), 15.0), Group(Str("B"), 30.0), Group(Str("C"), 30.0);
    assert gm[1..][1..] == [c] && gm[1..] == [b, c];
    assert SortByMeanDesc([c]) == [c] by {
      assert [c][1..] == [];
    }
    assert SortByMeanDesc([b, c]) == [b, c] by {
      assert [b, c][1..] == [c];
    }
    assert Insert(a, [b, c]) == [b, c, a] by {
      assert [b, c][1..] == [c];
      assert Insert(a, [c]) == [c, a];
    }
  }

  // ---------------------------------------------------------------------------
  // Chart description
  // ---------------------------------------------------------------------------

  /** One bar: its category label and its height. */
  datatype Bar = Bar(category: Cell, height: real)

  /** What the plotting calls are given: figure size, labels, palette, the
      rotated right-aligned tick labels and the bars in order. */
  datatype Chart = Chart(
    figureSize: (nat, nat),
    title: string,
    titleFontSize: nat,
    xLabel: string,
    yLabel: string,
    palette: string,
    xTickRotation: nat,
    xTickAlign: string,
    bars: seq<Bar>)

  const FigureSize: (nat, nat) := (10, 6)
  const TitleFontSize: nat := 14
  const XTickRotation: nat := 45
  /** The resolution the chart is written at, to a file or to a stream. */
  const SaveDpi: nat := 300
  const DefaultPalette := "Set2"
  const DefaultSaveDir := "results"

  function ChartTitle(title: Option<string>, g: string, v: string): string
  {
    Or(title, "Average " + v + " by " + g)
  }

  function Bars(groups: seq<Group>): seq<Bar>
  {
    seq(|groups|, i requires 0 <= i < |groups| => Bar(groups[i].key, groups[i].mean))
  }

  function BuildChart(groups: seq<Group>, g: string, v: string, title: Option<string>,
                      xlabel: Option<string>, ylabel: Option<string>, palette: string): (c: Chart)
    ensures c.title != ""
    ensures |c.bars| == |groups|
    ensures forall i :: 0 <= i < |groups| ==> c.bars[i] == Bar(groups[i].key, groups[i].mean)
  {
    assert ("Average " + v + " by " + g)[0] == 'A';
    Chart(FigureSize, ChartTitle(title, g, v), TitleFontSize, Or(xlabel, g), Or(ylabel, v),
          palette, XTickRotation, "right", Bars(groups))
  }

  /** The file name used when saving, without its extension. */
  function ChartFileName(filename: Option<string>, g: string): string
  {
    Or(filename, g + "_chart")
  }

  /** The path returned: none unless saving, else the save directory joined
      with the file name and ".png". */
  function SavePath(save: bool, saveDir: string, filename: Option<string>, g: string): (r: Option<string>)
    ensures r.None? <==> !save
  {
    if save then Some(PathJoin(saveDir, ChartFileName(filename, g) + ".png")) else None
  }

  /** What `generate_chart` returns besides raising: the figure and the path. */
  datatype ChartResult = ChartResult(chart: Chart, path: Option<string>)

  /** The labels follow the defaulting rules, and the title is never empty. */
  lemma ChartLabels(groups: seq<Group>, g: string, v: string, title: Option<string>,
                    xlabel: Option<string>, ylabel: Option<string>, palette: string)
    ensures var c := BuildChart(groups, g, v, title, xlabel, ylabel, palette);
            && c.title != ""
            && (Truthy(title) ==> c.title == title.value)
            && (!Truthy(title) ==> c.title == "Average " + v + " by " + g)
            && c.xLabel == (if Truthy(xlabel) then xlabel.value else g)
            && c.yLabel == (if Truthy(ylabel) then ylabel.value else v)
            && c.palette == palette
            && c.figureSize == (10, 6) && c.titleFontSize == 14
            && c.xTickRotation == 45 && c.xTickAlign == "right"
  {
    var c := BuildChart(groups, g, v, title, xlabel, ylabel, palette);
    if !Truthy(title) {
      assert c.title[0] == 'A';
    }
  }

  /** The saved path always ends in the chosen name plus ".png"; when that
      name is relative and the directory is a plain one, the path is the
      directory, a separator, the name and ".png". */
  lemma SavePathShape(saveDir: string, filename: Option<string>, g: string)
    ensures var name := ChartFileName(filename, g);
            var p := SavePath(true, saveDir, filename, g);
            && p.Some?
            && EndsWith(p.value, name + ".png")
            && (!Truthy(filename) ==> name == g + "_chart")
            && name != ""
            && (saveDir != "" && saveDir[|saveDir| - 1] != '/' && name[0] != '/' ==>
                  p.value == saveDir + "/" + name + ".png")
  {
    var name := ChartFileName(filename, g);
    assert name != "" by {
      if !Truthy(filename) { assert |g + "_chart"| > 0; }
    }
    assert (name + ".png")[0] == name[0];
  }

  /** The chart drawn from cleaned rows has one bar per group, in aggregate
      order, so bar heights never increase left to right and no two bars
      share a label; an empty table draws a chart with no bars. */
  lemma ChartBars(rows: seq<Row>, g: string, v: string, title: Option<string>,
                  xlabel: Option<string>, ylabel: Option<string>, palette: string)
    requires HasColumn(rows, g) && Numeric(rows, v)
    ensures var agg := Aggregate(rows, g, v);
            var bars := BuildChart(agg, g, v, title, xlabel, ylabel, palette).bars;
            && |bars| == |agg|
            && (forall i :: 0 <= i < |bars| ==> bars[i].category == agg[i].key && bars[i].height == agg[i].mean)
            && (forall i, j :: 0 <= i < j < |bars| ==> bars[i].height >= bars[j].height)
            && (forall i, j :: 0 <= i < j < |bars| ==> bars[i].category != bars[j].category)
            && (bars == [] <==> forall i :: 0 <= i < |rows| ==> rows[i][g].NA?)
  {
    AggregateGroups(rows, g, v);
  }

  // ---------------------------------------------------------------------------
  // The pipeline
  // ---------------------------------------------------------------------------

  /** `generate_chart` on a data frame. On a missing column it raises before
      touching anything; otherwise it cleans the caller's frame in place and
      describes the chart of the cleaned rows. */
  method GenerateChart(df: DataFrame, g: string, v: string,
                       title: Option<string> := None, xlabel: Option<string> := None,
                       ylabel: Option<string> := None, palette: string := DefaultPalette,
                       save: bool := false, saveDir: string := DefaultSaveDir,
                       filename: Option<string> := None)
    returns (r: Result<ChartResult, ChartError>)
    requires df.Valid()
    modifies df
    ensures df.Valid() && df.columns == old(df.columns)
    ensures Missing(g, v, df.columns) != [] ==>
              && r == Err(MissingColumns(Missing(g, v, df.columns), df.columns))
              && df.rows == old(df.rows)
    ensures Missing(g, v, df.columns) == [] ==>
              && HasColumn(old(df.rows), v)
              && df.rows == Clean(old(df.rows), v)
              && HasColumn(df.rows, g) && Numeric(df.rows, v)
              && r == Ok(ChartResult(
                          BuildChart(Aggregate(df.rows, g, v), g, v, title, xlabel, ylabel, palette),
                          SavePath(save, saveDir, filename, g)))
  {
    var missing := Missing(g, v, df.columns);
    if missing != [] {
      return Err(MissingColumns(missing, df.columns));
    }
    df.CoerceNumeric(v);
    df.DropNaInPlace(v);
    var grouped := Aggregate(df.rows, g, v);
    var chart := BuildChart(grouped, g, v, title, xlabel, ylabel, palette);
    var path := SavePath(save, saveDir, filename, g);
    r := Ok(ChartResult(chart, path));
  }
}
