/** The build report helpers: the heading block, the asset order, the table width rule, the
    truncation wrapper and the `done` hook's decision (src/webpackPlugins/BuildOutputPlugin.js). */
module BuildOutput {
  import opened Wrappers
  import opened Js

  // ---------------------------------------------------------------------------------------------
  // The heading block
  // ---------------------------------------------------------------------------------------------

  const PadLength: nat := 3

  /** `section(text)`: a line of spaces, the text padded by three spaces on each side, and another
      line of spaces as wide as the padded text, joined by newlines. */
  function Section(text: string): (r: string)
    ensures var w := |text| + 2 * PadLength;
      && |r| == 3 * w + 2
      && (forall i :: 0 <= i < w ==> r[i] == ' ')
      && (forall i :: 2 * w + 2 <= i < 3 * w + 2 ==> r[i] == ' ')
      && r[w] == '\n' && r[2 * w + 1] == '\n'
      && r[w + 1..2 * w + 1] == Repeat(' ', PadLength) + text + Repeat(' ', PadLength)
  {
    var padding := Repeat(' ', PadLength);
    var padded := padding + text + padding;
    var line := Repeat(' ', |padded|);
    var r := line + "\n" + padded + "\n" + line;
    assert r[|padded| + 1..2 * |padded| + 1] == padded;
    r
  }

  /** Different headings give different blocks: the text sits unchanged in the middle line. */
  lemma SectionIsInjective(a: string, b: string)
    requires Section(a) == Section(b)
    ensures a == b
  {
    var w := |a| + 2 * PadLength;
    assert |b| == |a|;
    var middle := Section(a)[w + 1..2 * w + 1];
    assert middle[PadLength..PadLength + |a|] == a;
    assert middle[PadLength..PadLength + |b|] == b;
  }

  // ---------------------------------------------------------------------------------------------
  // Asset order: `_.orderBy(assets, ['name', 'size'], ['asc', 'asc'])`
  // ---------------------------------------------------------------------------------------------

  /** An asset of the build stats, with the two fields the report reads. */
  datatype Asset = Asset(name: string, size: int)

  /** JavaScript's `<` on strings, which `orderBy` uses on names: lexicographic on characters, a
      proper prefix first. */
  predicate NameLess(a: string, b: string)
    decreases |a|
  {
    |b| > 0 && (|a| == 0 || a[0] < b[0] || (a[0] == b[0] && NameLess(a[1..], b[1..])))
  }

  /** A proper prefix comes before the longer string, and no string comes before one of its own
      prefixes. */
  lemma {:induction false} NameLessOrdersPrefixesFirst(a: string, b: string)
    ensures |a| < |b| && a == b[..|a|] ==> NameLess(a, b)
    ensures |b| <= |a| && b == a[..|b|] ==> !NameLess(a, b)
    decreases |a|
  {
    if |a| > 0 && |b| > 0 {
      assert |a| < |b| && a == b[..|a|] ==> a[0] == b[0] && a[1..] == b[1..][..|a| - 1];
      assert |b| <= |a| && b == a[..|b|] ==> a[0] == b[0] && b[1..] == a[1..][..|b| - 1];
      NameLessOrdersPrefixesFirst(a[1..], b[1..]);
    }
  }

  /** The first position where two strings differ decides their order. */
  lemma {:induction false} NameLessAtFirstDifference(a: string, b: string, k: nat)
    requires k < |a| && k < |b| && a[..k] == b[..k] && a[k] != b[k]
    ensures NameLess(a, b) <==> a[k] < b[k]
    decreases k
  {
    if k > 0 {
      assert a[0] == a[..k][0] == b[..k][0] == b[0];
      assert a[1..][..k - 1] == a[..k][1..] == b[..k][1..] == b[1..][..k - 1];
      NameLessAtFirstDifference(a[1..], b[1..], k - 1);
    }
  }

  lemma {:induction false} NameLessIrreflexive(a: string)
    ensures !NameLess(a, a)
  {
    if |a| > 0 { NameLessIrreflexive(a[1..]); }
  }

  lemma {:induction false} NameLessTransitive(a: string, b: string, c: string)
    requires NameLess(a, b) && NameLess(b, c)
    ensures NameLess(a, c)
  {
    if |a| > 0 && a[0] == b[0] && b[0] == c[0] {
      NameLessTransitive(a[1..], b[1..], c[1..]);
    }
  }

  lemma {:induction false} NameLessTotal(a: string, b: string)
    requires a != b
    ensures NameLess(a, b) || NameLess(b, a)
  {
    if |a| > 0 && |b| > 0 && a[0] == b[0] {
      assert a == [a[0]] + a[1..] && b == [b[0]] + b[1..];
      NameLessTotal(a[1..], b[1..]);
    }
  }

  /** The order `orderBy` sorts by: name ascending, then size ascending. */
  predicate AssetLe(x: Asset, y: Asset) {
    NameLess(x.name, y.name) || (x.name == y.name && x.size <= y.size)
  }

  /** `AssetLe` is a total order on assets. */
  lemma AssetLeIsTotalOrder(x: Asset, y: Asset, z: Asset)
    ensures AssetLe(x, x)
    ensures AssetLe(x, y) || AssetLe(y, x)
    ensures AssetLe(x, y) && AssetLe(y, x) ==> x == y
    ensures AssetLe(x, y) && AssetLe(y, z) ==> AssetLe(x, z)
  {
    NameLessIrreflexive(x.name);
    if x.name != y.name {
      NameLessTotal(x.name, y.name);
      if NameLess(x.name, y.name) && NameLess(y.name, x.name) {
        NameLessTransitive(x.name, y.name, x.name);
      }
    }
    if NameLess(x.name, y.name) && NameLess(y.name, z.name) {
      NameLessTransitive(x.name, y.name, z.name);
    }
  }

  ghost predicate Sorted(s: seq<Asset>) {
    forall i, j :: 0 <= i < j < |s| ==> AssetLe(s[i], s[j])
  }

  /** `h` comes before every asset of `t`. */
  ghost predicate Precedes(h: Asset, t: seq<Asset>) {
    forall j :: 0 <= j < |t| ==> AssetLe(h, t[j])
  }

  lemma ConsIsSorted(h: Asset, t: seq<Asset>)
    requires Sorted(t) && Precedes(h, t)
    ensures Sorted([h] + t)
  {
    forall i, j | 0 <= i < j < |[h] + t| ensures AssetLe(([h] + t)[i], ([h] + t)[j]) {
      if i > 0 { assert ([h] + t)[i] == t[i - 1]; }
      assert ([h] + t)[j] == t[j - 1];
    }
  }

  /** A lower bound of `s` and of `x` is a lower bound of every sequence holding their assets. */
  lemma PrecedesPermutation(h: Asset, x: Asset, s: seq<Asset>, t: seq<Asset>)
    requires Precedes(h, s) && AssetLe(h, x) && multiset(t) == multiset(s) + multiset{x}
    ensures Precedes(h, t)
  {
    forall j | 0 <= j < |t| ensures AssetLe(h, t[j]) {
      assert t[j] in multiset(t);
      if t[j] != x {
        assert t[j] in multiset(s);
        var i :| 0 <= i < |s| && s[i] == t[j];
      }
    }
  }

  /** Inserts `x` into a sorted sequence before the first asset it does not follow. */
  function Insert(x: Asset, s: seq<Asset>): (r: seq<Asset>)
    requires Sorted(s)
    ensures Sorted(r) && multiset(r) == multiset(s) + multiset{x}
  {
    if s == [] then [x]
    else if AssetLe(x, s[0]) then
      assert Precedes(x, s) by {
        forall j | 0 <= j < |s| ensures AssetLe(x, s[j]) { AssetLeIsTotalOrder(x, s[0], s[j]); }
      }
      ConsIsSorted(x, s);
      [x] + s
    else
      assert s == [s[0]] + s[1..];
      var tail := Insert(x, s[1..]);
      AssetLeIsTotalOrder(x, s[0], s[0]);
      assert Precedes(s[0], s[1..]);
      PrecedesPermutation(s[0], x, s[1..], tail);
      ConsIsSorted(s[0], tail);
      [s[0]] + tail
  }

  /** `orderBy(assets, ['name', 'size'], ['asc', 'asc'])`: the assets, sorted. */
  function OrderBy(assets: seq<Asset>): (r: seq<Asset>)
    ensures Sorted(r) && multiset(r) == multiset(assets)
  {
    if assets == [] then []
    else
      assert assets == [assets[0]] + assets[1..];
      Insert(assets[0], OrderBy(assets[1..]))
  }

  /** Two sorted arrangements of one multiset start with the same asset. */
  lemma SortedPermutationsShareHead(a: seq<Asset>, b: seq<Asset>)
    requires Sorted(a) && Sorted(b) && multiset(a) == multiset(b) && a != []
    ensures b != [] && a[0] == b[0]
  {
    assert a[0] in multiset(b);
    assert b[0] in multiset(a);
    var i :| 0 <= i < |b| && b[i] == a[0];
    var j :| 0 <= j < |a| && a[j] == b[0];
    AssetLeIsTotalOrder(a[0], b[0], a[0]);
    AssetLeIsTotalOrder(a[0], a[0], a[0]);
    AssetLeIsTotalOrder(b[0], b[0], b[0]);
    assert AssetLe(a[0], a[j]);
    assert AssetLe(b[0], b[i]);
  }

  lemma TailOfSortedIsSorted(a: seq<Asset>)
    requires Sorted(a) && a != []
    ensures Sorted(a[1..]) && multiset(a[1..]) == multiset(a) - multiset{a[0]}
  {
    assert a == [a[0]] + a[1..];
  }

  /** There is only one sorted arrangement of a multiset of assets, so `orderBy`'s result is
      determined by the two properties above (and stability has nothing left to decide). */
  lemma {:induction false} SortedPermutationIsUnique(a: seq<Asset>, b: seq<Asset>)
    requires Sorted(a) && Sorted(b) && multiset(a) == multiset(b)
    ensures a == b
  {
    if a == [] {
      assert |multiset(b)| == 0;
    } else {
      SortedPermutationsShareHead(a, b);
      TailOfSortedIsSorted(a);
      TailOfSortedIsSorted(b);
      SortedPermutationIsUnique(a[1..], b[1..]);
      assert a == [a[0]] + a[1..] && b == [b[0]] + b[1..];
    }
  }

  /** Sorting an already sorted list of assets changes nothing. */
  lemma OrderByIsIdempotent(assets: seq<Asset>)
    ensures OrderBy(OrderBy(assets)) == OrderBy(assets)
  {
    SortedPermutationIsUnique(OrderBy(OrderBy(assets)), OrderBy(assets));
  }

  /** The stats data `sortAssets` reorders in place. */
  class StatsData {
    var assets: seq<Asset>
    var time: int

    constructor (assets: seq<Asset>, time: int)
      ensures this.assets == assets && this.time == time
    {
      this.assets := assets;
      this.time := time;
    }
  }

  // ---------------------------------------------------------------------------------------------
  // The table
  // ---------------------------------------------------------------------------------------------

  /** One table row: the file name and its size (colouring and size formatting left out). */
  datatype Row = Row(file: string, size: int)

  function RowOf(a: Asset): Row {
    Row(a.name, a.size)
  }

  /** The rows `statsTable` pushes, one per asset, in order. */
  function RowsOf(assets: seq<Asset>): (rows: seq<Row>)
    ensures |rows| == |assets|
    ensures forall i :: 0 <= i < |assets| ==> rows[i] == RowOf(assets[i])
  {
    seq(|assets|, i requires 0 <= i < |assets| => RowOf(assets[i]))
  }

  const FileColumnWidth: int := 35

  /** The part of a cli-table3 table the report touches. */
  class Table {
    const head: seq<string>
    const colAligns: seq<string>
    var colWidths: array<int>
    var rows: seq<Row>

    constructor ()
      ensures head == ["File", "Size"] && colAligns == ["right"]
      ensures fresh(colWidths) && colWidths[..] == [FileColumnWidth] && rows == []
    {
      head := ["File", "Size"];
      colAligns := ["right"];
      colWidths := new int[1] [FileColumnWidth];
      rows := [];
    }

    method Push(row: Row)
      modifies this`rows
      ensures rows == old(rows) + [row]
    {
      rows := rows + [row];
    }
  }

  /** `targetWidth === null ? process.stdout.columns : targetWidth`; `None` is `null` for the
      argument and `undefined` for the terminal width. */
  function EffectiveTarget(targetWidth: Option<int>, columns: Option<int>): (t: Option<int>)
    ensures targetWidth.Some? ==> t == targetWidth
    ensures targetWidth.None? ==> t == columns
  {
    if targetWidth.None? then columns else targetWidth
  }

  /** `Math.min(targetWidth - tableWidth, maxWidth - tableWidth)`; `None` is `Infinity`. */
  function FileColIncrease(target: int, tableWidth: int, maxWidth: Option<int>): (inc: int)
    ensures inc <= target - tableWidth
    ensures maxWidth.Some? ==> inc <= maxWidth.value - tableWidth
    ensures inc == target - tableWidth || (maxWidth.Some? && inc == maxWidth.value - tableWidth)
  {
    if maxWidth.Some? && maxWidth.value < target then maxWidth.value - tableWidth else target - tableWidth
  }

  /** The column widths after `extendTableWidth`: unchanged for a falsy target; otherwise the file
      column grows by the increase when it is positive. */
  function ExtendedWidths(widths: seq<int>, tableWidth: int, targetWidth: Option<int>, columns: Option<int>, maxWidth: Option<int>): (r: seq<int>)
    requires |widths| > 0
    ensures |r| == |widths| && r[1..] == widths[1..]
    ensures var t := EffectiveTarget(targetWidth, columns);
      && ((t.None? || t.value == 0) ==> r == widths)
      && (t.Some? && t.value != 0 ==>
            var inc := FileColIncrease(t.value, tableWidth, maxWidth);
            r[0] == widths[0] + (if inc > 0 then inc else 0))
  {
    var t := EffectiveTarget(targetWidth, columns);
    if t.None? || t.value == 0 then widths
    else
      var inc := FileColIncrease(t.value, tableWidth, maxWidth);
      if inc <= 0 then widths else widths[0 := widths[0] + inc]
  }

  /** The file column never shrinks, and when it grows the table reaches exactly the smaller of the
      target and the maximum width. */
  lemma ExtendedWidthsReachTarget(widths: seq<int>, tableWidth: int, targetWidth: Option<int>, columns: Option<int>, maxWidth: Option<int>)
    requires |widths| > 0
    ensures var r := ExtendedWidths(widths, tableWidth, targetWidth, columns, maxWidth);
      && r[0] >= widths[0]
      && (r[0] > widths[0] ==>
            var t := EffectiveTarget(targetWidth, columns).value;
            tableWidth + (r[0] - widths[0]) == (if maxWidth.Some? && maxWidth.value < t then maxWidth.value else t))
  {
  }

  // ---------------------------------------------------------------------------------------------
  // The truncation wrapper
  // ---------------------------------------------------------------------------------------------

  const Ellipsis: char := '…'

  /** What the replacement `truncate` hands to cli-table3's own: a string longer than the desired
      length becomes `…` followed by `str.substr(-desiredLength + 2)`. */
  function TruncateInput(str: string, desiredLength: int): (r: string)
    ensures |str| <= desiredLength ==> r == str
    ensures |str| > desiredLength && desiredLength > 2 ==>
              |r| == desiredLength - 1 && r == [Ellipsis] + str[|str| - (desiredLength - 2)..]
    ensures |str| > desiredLength && desiredLength == 2 ==> r == [Ellipsis] + str
  {
    if |str| > desiredLength then [Ellipsis] + Substr(str, -desiredLength + 2) else str
  }

  /** The replacement `truncate`: the tail-keeping step, then the library's own truncation. */
  function Truncate(str: string, desiredLength: int, truncateChar: string,
                    oldTruncate: (string, int, string) -> string): (r: string)
    ensures |str| <= desiredLength ==> r == oldTruncate(str, desiredLength, truncateChar)
    ensures |str| > desiredLength > 2 ==>
              r == oldTruncate([Ellipsis] + str[|str| - (desiredLength - 2)..], desiredLength, truncateChar)
  {
    oldTruncate(TruncateInput(str, desiredLength), desiredLength, truncateChar)
  }

  /** For desired lengths above 2, what the wrapper passes on already fits, so wrapping the library
      function twice would behave as wrapping it once. */
  lemma TruncateWrappedTwiceIsOnce(str: string, desiredLength: int, truncateChar: string,
                                   oldTruncate: (string, int, string) -> string)
    requires desiredLength > 2
    ensures TruncateInput(TruncateInput(str, desiredLength), desiredLength) == TruncateInput(str, desiredLength)
    ensures Truncate(str, desiredLength, truncateChar,
                     (s, d, c) => Truncate(s, d, c, oldTruncate))
         == Truncate(str, desiredLength, truncateChar, oldTruncate)
  {
  }

  // ---------------------------------------------------------------------------------------------
  // The `done` hook
  // ---------------------------------------------------------------------------------------------

  /** The stats the `done` hook reads. */
  datatype Stats = Stats(hasErrors: bool, time: int, assets: seq<Asset>)

  /** The table as handed to the console. */
  datatype TableView = TableView(rows: seq<Row>, colWidths: seq<int>)

  /** What the hook prints: nothing, or the heading, the compile time and possibly the table. */
  datatype Report =
    | Silent
    | Printed(clearedConsole: bool, heading: string, time: int, table: Option<TableView>)

  /** The report of one `done` call. `tableWidth` is the rendered width of the table and `columns`
      the terminal width (`undefined` when there is no terminal). */
  function DoneReport(stats: Stats, clearConsole: bool, version: string, tableWidth: int, columns: Option<int>): (r: Report)
    ensures r.Silent? <==> stats.hasErrors
    ensures r.Printed? ==> r.clearedConsole == clearConsole && r.time == stats.time
    ensures r.Printed? ==> r.heading == Section("Laravel Mix v" + version)
    ensures r.Printed? ==> (r.table.Some? <==> stats.assets != [])
    ensures r.Printed? && r.table.Some? ==>
              && r.table.value.rows == RowsOf(OrderBy(stats.assets))
              && r.table.value.colWidths == ExtendedWidths([FileColumnWidth], tableWidth, None, columns, None)
  {
    if stats.hasErrors then Silent
    else
      Printed(clearConsole, Section("Laravel Mix v" + version), stats.time,
              if stats.assets == [] then None
              else Some(TableView(RowsOf(OrderBy(stats.assets)),
                                  ExtendedWidths([FileColumnWidth], tableWidth, None, columns, None))))
  }

  /** The plugin object, with the once-only flag for the truncation patch. */
  class BuildOutputPlugin {
    const clearConsole: bool
    var patched: bool

    constructor (clearConsole: bool)
      ensures this.clearConsole == clearConsole && !patched
    {
      this.clearConsole := clearConsole;
      patched := false;
    }

    /** `sortAssets(data)`: reassigns `data.assets` to the ordered assets and returns `data`. */
    method SortAssets(data: StatsData) returns (r: StatsData)
      modifies data`assets
      ensures r == data && data.assets == OrderBy(old(data.assets))
    {
      data.assets := OrderBy(data.assets);
      r := data;
    }

    /** `extendTableWidth(table, targetWidth, maxWidth)`: grows `colWidths[0]` in place. */
    method ExtendTableWidth(table: Table, tableWidth: int, targetWidth: Option<int>, columns: Option<int>, maxWidth: Option<int>)
      requires table.colWidths.Length > 0
      modifies table.colWidths
      ensures table.colWidths[..] == ExtendedWidths(old(table.colWidths[..]), tableWidth, targetWidth, columns, maxWidth)
    {
      var t := EffectiveTarget(targetWidth, columns);
      if t.None? || t.value == 0 {
        return;
      }
      var increase := FileColIncrease(t.value, tableWidth, maxWidth);
      if increase <= 0 {
        return;
      }
      table.colWidths[0] := table.colWidths[0] + increase;
    }

    /** `monkeyPatchTruncate()`: installs the wrapper the first time only. */
    method MonkeyPatchTruncate() returns (installed: bool)
      modifies this`patched
      ensures patched && installed == !old(patched)
    {
      if patched {
        return false;
      }
      patched := true;
      installed := true;
    }

    /** The loop of `statsTable`: one row per asset, in order, after the existing rows. */
    method PushRows(table: Table, assets: seq<Asset>)
      modifies table`rows
      ensures table.rows == old(table.rows) + RowsOf(assets)
    {
      ghost var before := table.rows;
      for i := 0 to |assets|
        invariant table.rows == before + RowsOf(assets[..i])
      {
        assert assets[..i + 1] == assets[..i] + [assets[i]];
        assert RowsOf(assets[..i + 1]) == RowsOf(assets[..i]) + [RowOf(assets[i])];
        table.Push(RowOf(assets[i]));
      }
      assert assets[..|assets|] == assets;
    }

    /** `statsTable(data)`: sorts the assets, pushes one row per asset, widens the file column to
        the terminal and patches truncation. */
    method StatsTable(data: StatsData, tableWidth: int, columns: Option<int>) returns (table: Table)
      modifies data`assets, this`patched
      ensures fresh(table) && fresh(table.colWidths)
      ensures data.assets == OrderBy(old(data.assets))
      ensures table.rows == RowsOf(data.assets)
      ensures table.colWidths[..] == ExtendedWidths([FileColumnWidth], tableWidth, None, columns, None)
      ensures patched
    {
      var sorted := SortAssets(data);
      table := new Table();
      PushRows(table, sorted.assets);
      ExtendTableWidth(table, tableWidth, None, columns, None);
      var _ := MonkeyPatchTruncate();
    }

    /** The `done` hook: silent on errors; otherwise the heading and the compile time, and the
        table only when there are assets. The truncation patch is installed with the first table. */
    method Done(stats: Stats, version: string, tableWidth: int, columns: Option<int>) returns (report: Report)
      modifies this`patched
      ensures report == DoneReport(stats, clearConsole, version, tableWidth, columns)
      ensures patched == (old(patched) || (!stats.hasErrors && stats.assets != []))
    {
      if stats.hasErrors {
        return Silent;
      }
      var data := new StatsData(stats.assets, stats.time);
      var heading := Section("Laravel Mix v" + version);
      var table: Option<TableView> := None;
      if |data.assets| > 0 {
        var t := StatsTable(data, tableWidth, columns);
        table := Some(TableView(t.rows, t.colWidths[..]));
      }
      report := Printed(clearConsole, heading, data.time, table);
    }
  }
}
