/** The main window: the filter expression built from the four filter
    combos, the reset, the region list refreshed from the table, and the
    check and delete commands on the selected rows. */
module MainWindow {
  import opened Strings
  import opened Values
  import opened StringOrder
  import opened Table
  import StatusBar

  /** A combo box: its items and the current index (Qt's currentText() is
      "" when the index is out of range). */
  datatype Combo = Combo(items: seq<string>, index: nat)

  function CurrentText(c: Combo): (t: string)
    ensures c.index < |c.items| ==> t == c.items[c.index]
  {
    if c.index < |c.items| then c.items[c.index] else ""
  }

  const ProviderChoices: seq<string> := ["All", "AWS", "Linode", "Digital Ocean"]
  const StatusChoices: seq<string> := ["All", Check + " Active", Cross + " Error"]
  const QuotaChoices: seq<string> := ["All", "Low (<20%)", "Medium (20-80%)", "High (>80%)", "3/10", "10/10"]

  const SelectWarning: string := "Please select at least one account!"

  // -----------------------------------------------------------------------
  // The filter expression

  /** The status text with the leading marks replaced away. */
  function StatusText(status: string): (r: string)
    ensures Check[0] !in status && Cross[0] !in status ==> r == status
  {
    ReplaceAllWhenAbsent(status, Check + " ", "");
    ReplaceAllWhenAbsent(status, Cross + " ", "");
    ReplaceAll(ReplaceAll(status, Check + " ", ""), Cross + " ", "")
  }

  /** Both status choices lose their mark and keep their word. */
  lemma StatusTextDropsMark(word: string)
    requires Check[0] !in word && Cross[0] !in word
    ensures StatusText(Check + " " + word) == word
    ensures StatusText(Cross + " " + word) == word
  {
    ReplaceAllPrefix(Check + " ", word);
    ReplaceAllUntouched(word, Cross + " ", "");
    assert Check + " " + word == (Check + " ") + word;
    assert Cross + " " + word == (Cross + " ") + word;
    assert Check[0] !in Cross + " " + word;
    ReplaceAllUntouched(Cross + " " + word, Check + " ", "");
    ReplaceAllPrefix(Cross + " ", word);
  }

  /** The fixed pattern of a quota label; the other labels have none. */
  function QuotaPattern(quota: string): (r: Option<string>)
    ensures r.Some? <==> quota in QuotaChoices[1..]
  {
    if quota == "Low (<20%)" then Some("Quota:(0?[0-9]|1[0-9])%")
    else if quota == "Medium (20-80%)" then Some("Quota:([2-7][0-9]|80)%")
    else if quota == "High (>80%)" then Some("Quota:(8[1-9]|9[0-9]|100)%")
    else if quota == "3/10" then Some("Quota:[0-3]/10")
    else if quota == "10/10" then Some("Quota:10/10")
    else None
  }

  /** One pattern per filter that is not "All", in the order provider,
      region, status, quota. */
  function FilterPatterns(provider: string, region: string, status: string, quota: string): (ps: seq<string>)
    ensures |ps| <= 4
    ensures ps == [] <==> provider == "All" && region == "All" && status == "All" && QuotaPattern(quota).None?
  {
    (if provider != "All" then ["Provider:.*" + provider + ".*"] else [])
    + (if region != "All" then ["Region:.*" + region + ".*"] else [])
    + (if status != "All" then ["Status:.*" + StatusText(status) + ".*"] else [])
    + (match QuotaPattern(quota) case Some(q) => [q] case None => [])
  }

  /** One pattern for each filter not at "All" (a quota label counts when
      it has a pattern), the provider's first and the quota's last. */
  lemma FilterPatternsSpec(provider: string, region: string, status: string, quota: string)
    ensures var ps := FilterPatterns(provider, region, status, quota);
      |ps| == (if provider != "All" then 1 else 0) + (if region != "All" then 1 else 0)
      + (if status != "All" then 1 else 0) + (if quota in QuotaChoices[1..] then 1 else 0)
      && (provider != "All" ==> ps[0] == "Provider:.*" + provider + ".*")
      && (quota in QuotaChoices[1..] ==> ps[|ps| - 1] == QuotaPattern(quota).value)
  {
  }

  /** The pattern list of apply_filters, appended to filter by filter. */
  method BuildPatterns(provider: string, region: string, status: string, quota: string)
    returns (patterns: seq<string>)
    ensures patterns == FilterPatterns(provider, region, status, quota)
  {
    patterns := [];
    if provider != "All" {
      patterns := patterns + ["Provider:.*" + provider + ".*"];
    }
    if region != "All" {
      patterns := patterns + ["Region:.*" + region + ".*"];
    }
    if status != "All" {
      patterns := patterns + ["Status:.*" + StatusText(status) + ".*"];
    }
    if quota != "All" {
      var q := QuotaPattern(quota);
      if q.Some? {
        patterns := patterns + [q.value];
      }
    }
  }

  /** The expression handed to the proxy: "" for no pattern, otherwise the
      patterns joined by ".*" between a leading and a trailing ".*". */
  function FilterExpression(patterns: seq<string>): (e: string)
    ensures e == "" <==> patterns == []
    ensures patterns != [] ==> StartsWith(e, ".*") && |e| >= 4 && e[|e| - 2..] == ".*"
  {
    if patterns == [] then ""
    else ".*" + Join(".*", patterns) + ".*"
  }

  /** With every combo at "All" the filter is cleared; with one filter set
      the expression is that filter's pattern between ".*"s. */
  lemma FilterExpressionCases(provider: string, region: string, status: string, quota: string)
    ensures FilterExpression(FilterPatterns(provider, region, status, quota)) == ""
      <==> provider == "All" && region == "All" && status == "All" && quota !in QuotaChoices[1..]
    ensures provider != "All" && region == "All" && status == "All" && quota !in QuotaChoices[1..] ==>
      FilterExpression(FilterPatterns(provider, region, status, quota)) == ".*Provider:.*" + provider + ".*.*"
  {
    FilterPatternsSpec(provider, region, status, quota);
  }

  // -----------------------------------------------------------------------
  // The window

  /** The region combo after a refresh from the given rows: "All" first,
      then the distinct texts of the region column, ascending. */
  ghost predicate RegionComboOf(c: Combo, rows: seq<Row>)
  {
    c.index == 0 && |c.items| >= 1 && c.items[0] == "All" && StrictlySorted(c.items[1..])
    && forall x :: x in c.items[1..] <==>
      exists i :: 0 <= i < |rows| && RegionColumn < |rows[i].items| && rows[i].items[RegionColumn].text == x
  }

  /** The region items load_sample_data returns are the region combo for
      the rows it loaded. */
  lemma SampleRegions(rows: seq<Row>, items: seq<string>)
    requires |rows| == |SampleData|
    requires forall i :: 0 <= i < |SampleData| ==> Some(rows[i]) == SampleRow(SampleData[i])
    requires |items| >= 1 && items[0] == "All" && StrictlySorted(items[1..])
    requires forall x :: x in items[1..] <==> exists i :: 0 <= i < |SampleData| && SampleData[i].region == x
    ensures RegionComboOf(Combo(items, 0), rows)
  {
    forall i | 0 <= i < |rows|
      ensures RegionColumn < |rows[i].items| && rows[i].items[RegionColumn].text == SampleData[i].region
    {
      assert Texts(rows[i])[RegionColumn] == SampleData[i].region;
    }
  }

  /** Over the loaded sample rows, unfiltered and all unchecked, an update
      of the status bar shows its initial message. */
  lemma SampleStatus(rows: seq<Row>, accepts: RowFilter)
    requires forall t :: accepts(t)
    requires |rows| == |SampleData|
    requires forall i :: 0 <= i < |SampleData| ==> Some(rows[i]) == SampleRow(SampleData[i])
    ensures StatusBar.InitialMessage
      == StatusBar.StatusMessage(|SelectedRows(rows, accepts)|, |Visible(rows, accepts)|, |rows|)
  {
    VisibleAcceptAll(rows, accepts);
    forall i | 0 <= i < |rows|
      ensures rows[i].check == Unchecked
    {
      assert SampleRow(SampleData[i]).Some?;
    }
    NothingCheckedNothingSelected(rows, accepts);
    StatusBar.InitialMessageIsReadyForSampleData();
  }

  class Window {
    const table: TableModel
    var provider: Combo
    var region: Combo
    var status: Combo
    var quota: Combo
    /** The proxy's filter expression. */
    var pattern: string
    var statusMessage: string
    /** The last warning box shown, if any. */
    var warning: Option<string>

    ghost predicate Valid()
      reads this, table
    {
      table.Valid()
    }

    /** The status message for the table as it stands. */
    ghost predicate StatusUpToDate()
      reads this, table
    {
      statusMessage == StatusBar.StatusMessage(|SelectedRows(table.rows, table.accepts)|,
                                               |Visible(table.rows, table.accepts)|, |table.rows|)
    }

    /** The window as created: the table holds the five sample rows, none
        checked and none filtered out, the region combo lists their regions
        after "All", every other combo stands at "All", and the status bar
        shows its fixed initial message, which is the one an update would
        show for these rows. */
    constructor (acceptAll: RowFilter)
      requires forall t :: acceptAll(t)
      ensures Valid() && fresh(table) && forall t :: table.accepts(t)
      ensures |table.rows| == |SampleData|
      ensures forall i :: 0 <= i < |SampleData| ==> Some(table.rows[i]) == SampleRow(SampleData[i])
      ensures provider == Combo(ProviderChoices, 0) && RegionComboOf(region, table.rows)
      ensures status == Combo(StatusChoices, 0) && quota == Combo(QuotaChoices, 0)
      ensures pattern == "" && warning == None
      ensures statusMessage == StatusBar.InitialMessage && StatusUpToDate()
    {
      var t := new TableModel(acceptAll);
      var regionItems := t.LoadSampleData(SampleData);
      SampleDataLoads();
      SampleRegions(t.rows, regionItems.value);
      SampleStatus(t.rows, acceptAll);
      table := t;
      provider := Combo(ProviderChoices, 0);
      region := Combo(regionItems.value, 0);
      status := Combo(StatusChoices, 0);
      quota := Combo(QuotaChoices, 0);
      pattern := "";
      statusMessage := StatusBar.InitialMessage;
      warning := None;
    }

    /** update_status_bar. */
    method UpdateStatusBar()
      modifies this`statusMessage
      ensures StatusUpToDate()
    {
      var selected := table.GetSelectedRows();
      var filtered := Visible(table.rows, table.accepts);
      statusMessage := StatusBar.StatusMessage(|selected|, |filtered|, |table.rows|);
    }

    /** toggle_select_all: every row's checkbox takes the given state,
        then the status bar is updated. */
    method ToggleSelectAll(state: CheckState)
      requires Valid()
      modifies table`rows, this`statusMessage
      ensures Valid()
      ensures |table.rows| == |old(table.rows)|
      ensures forall i :: 0 <= i < |table.rows| ==> table.rows[i] == old(table.rows)[i].(check := state)
      ensures StatusUpToDate()
    {
      table.ToggleSelectAll(state);
      UpdateStatusBar();
    }

    /** apply_filters: the expression built from the four combos becomes
        the proxy's filter (matches gives the rows a non-empty expression
        keeps; the empty expression keeps every row), then the status bar
        is updated. */
    method ApplyFilters(matches: string -> RowFilter)
      modifies this`pattern, this`statusMessage, table`accepts
      ensures pattern == FilterExpression(FilterPatterns(CurrentText(provider), CurrentText(region),
                                                         CurrentText(status), CurrentText(quota)))
      ensures pattern == "" ==> forall t :: table.accepts(t)
      ensures pattern != "" ==> forall t :: table.accepts(t) == matches(pattern)(t)
      ensures StatusUpToDate()
    {
      var p, r, s, q := CurrentText(provider), CurrentText(region), CurrentText(status), CurrentText(quota);
      var patterns := BuildPatterns(p, r, s, q);
      var expression := FilterExpression(patterns);
      SetFilter(expression, matches);
      UpdateStatusBar();
      assert pattern == expression;
      assert p == CurrentText(provider) && r == CurrentText(region);
      assert s == CurrentText(status) && q == CurrentText(quota);
    }

    /** setFilterRegularExpression: the expression becomes the proxy's
        filter; the empty expression keeps every row. */
    method SetFilter(expression: string, matches: string -> RowFilter)
      modifies this`pattern, table`accepts
      ensures pattern == expression
      ensures expression == "" ==> forall t :: table.accepts(t)
      ensures expression != "" ==> forall t :: table.accepts(t) == matches(expression)(t)
    {
      pattern := expression;
      if expression == "" {
        table.accepts := t => true;
      } else {
        table.accepts := matches(expression);
      }
    }

    /** reset_filters: every combo back to its first item, the filter
        cleared, and the fixed initial message shown. */
    method ResetFilters()
      modifies this`provider, this`region, this`status, this`quota, this`pattern, this`statusMessage, table`accepts
      ensures provider == old(provider).(index := 0) && region == old(region).(index := 0)
      ensures status == old(status).(index := 0) && quota == old(quota).(index := 0)
      ensures pattern == "" && forall t :: table.accepts(t)
      ensures Visible(table.rows, table.accepts) == seq(|table.rows|, i => i)
      ensures statusMessage == StatusBar.InitialMessage
    {
      provider := provider.(index := 0);
      region := region.(index := 0);
      status := status.(index := 0);
      quota := quota.(index := 0);
      pattern := "";
      table.accepts := t => true;
      VisibleAcceptAll(table.rows, table.accepts);
      statusMessage := StatusBar.InitialMessage;
    }

    /** refresh_region_filter: the region combo is refilled from the
        region column of the model. */
    method RefreshRegionFilter()
      requires Valid()
      modifies this`region
      ensures RegionComboOf(region, table.rows)
    {
      var rows := table.rows;
      var regions := seq(|rows|, i requires 0 <= i < |rows| => rows[i].items[RegionColumn].text);
      var items := RegionChoices(regions);
      region := Combo(items, 0);
      forall x
        ensures x in regions <==> exists i :: 0 <= i < |rows| && RegionColumn < |rows[i].items| && rows[i].items[RegionColumn].text == x
      {
        if exists i :: 0 <= i < |rows| && RegionColumn < |rows[i].items| && rows[i].items[RegionColumn].text == x {
          var i :| 0 <= i < |rows| && RegionColumn < |rows[i].items| && rows[i].items[RegionColumn].text == x;
          assert regions[i] == x;
        }
      }
    }

    /** check_selected: a warning when nothing is selected; the check
        itself does nothing further. */
    method CheckSelected() returns (warned: Option<string>)
      ensures warned.Some? <==> |SelectedRows(table.rows, table.accepts)| == 0
      ensures warned.Some? ==> warned.value == SelectWarning
    {
      var selected := table.GetSelectedRows();
      if |selected| == 0 {
        return Some(SelectWarning);
      }
      return None;
    }

    /** The removal loop of delete_selected: the given selection, highest
        proxy row first, each mapped to its source row through the proxy as
        it stands at that moment. */
    method RemoveRows(selected: seq<nat>)
      requires Valid() && selected == SelectedRows(table.rows, table.accepts)
      modifies table`rows
      ensures Valid()
      ensures table.rows == Keep(old(table.rows), table.accepts)
      ensures |table.rows| == |old(table.rows)| - |selected|
    {
      ghost var rows0 := table.rows;
      var accepts := table.accepts;
      var k := |selected|;
      while k > 0
        invariant 0 <= k <= |selected| && table.Valid() && table.accepts == accepts
        invariant selected == SelectedRows(rows0, accepts)
        invariant table.rows == rows0[..Bound(rows0, accepts, k)] + Keep(rows0[Bound(rows0, accepts, k)..], accepts)
        invariant |table.rows| == |rows0| - (|selected| - k)
      {
        k := k - 1;
        DeleteStep(rows0, accepts, k, table.rows);
        var sourceRow := Visible(table.rows, accepts)[selected[k]];
        table.RemoveRow(sourceRow);
      }
      KeepBeforeFirst(rows0, accepts);
    }

    /** delete_selected: with nothing selected a warning and no change;
        unconfirmed, no change; confirmed, the source rows of the selected
        proxy rows are removed, highest proxy row first, then the region
        combo and the status bar are refreshed. */
    method DeleteSelected(confirmed: bool)
      requires Valid()
      modifies this`warning, this`region, this`statusMessage, table`rows
      ensures Valid()
      ensures |old(SelectedRows(table.rows, table.accepts))| == 0 ==>
        warning == Some(SelectWarning) && table.rows == old(table.rows)
        && region == old(region) && statusMessage == old(statusMessage)
      ensures |old(SelectedRows(table.rows, table.accepts))| > 0 && !confirmed ==>
        unchanged(this) && table.rows == old(table.rows)
      ensures |old(SelectedRows(table.rows, table.accepts))| > 0 && confirmed ==>
        table.rows == Keep(old(table.rows), table.accepts)
        && |table.rows| == |old(table.rows)| - |old(SelectedRows(table.rows, table.accepts))|
        && warning == old(warning) && RegionComboOf(region, table.rows) && StatusUpToDate()
    {
      var selected := table.GetSelectedRows();
      if |selected| == 0 {
        warning := Some(SelectWarning);
        return;
      }
      if !confirmed {
        return;
      }
      RemoveRows(selected);
      RefreshRegionFilter();
      UpdateStatusBar();
    }
  }
}
