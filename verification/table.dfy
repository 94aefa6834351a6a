/** The accounts table of the main window: a source model of rows, each a
    checkbox item and eight text items, seen through a filtering proxy; the
    check-all toggle, the selected rows, the tab-separated copy, the quota
    colours and the region list. */
module Table {
  import opened Strings
  import opened Values
  import opened StringOrder

  datatype CheckState = Unchecked | PartiallyChecked | Checked

  /** A QStandardItem: its text, whether it is editable and its foreground
      colour, if one was set. */
  datatype Item = Item(text: string, editable: bool, color: Option<string>)

  /** A model row: the state of its checkbox (column 0) and its items. */
  datatype Row = Row(check: CheckState, items: seq<Item>)

  const Headers: seq<string> := ["", "ID", "Provider", "Email", "Region", "Status", "Quota", "Last Check", "Actions"]
  const Columns: nat := 9
  const RegionColumn: nat := 4

  function Texts(row: Row): (t: seq<string>)
    ensures |t| == |row.items|
    ensures forall i :: 0 <= i < |t| ==> t[i] == row.items[i].text
  {
    seq(|row.items|, i requires 0 <= i < |row.items| => row.items[i].text)
  }

  // -----------------------------------------------------------------------
  // The proxy

  /** Whether the proxy keeps a row, given the texts of its items. The
      regular expression behind it is not part of this model. */
  type RowFilter = seq<string> -> bool

  predicate Increasing(xs: seq<nat>)
  {
    forall i, j :: 0 <= i < j < |xs| ==> xs[i] < xs[j]
  }

  /** mapToSource for every proxy row, in proxy order: the source rows the
      filter keeps, in their own order (sorting is disabled). */
  function Visible(rows: seq<Row>, accepts: RowFilter): (v: seq<nat>)
    ensures |v| <= |rows|
    ensures forall j :: 0 <= j < |v| ==> v[j] < |rows|
    decreases |rows|
  {
    if |rows| == 0 then []
    else
      var n := |rows| - 1;
      Visible(rows[..n], accepts) + (if accepts(Texts(rows[n])) then [n] else [])
  }

  /** The proxy rows map to ascending source rows, and a source row is
      shown exactly when the filter accepts it. */
  lemma {:induction false} VisibleSpec(rows: seq<Row>, accepts: RowFilter)
    ensures Increasing(Visible(rows, accepts))
    ensures forall s :: 0 <= s < |rows| ==> (s in Visible(rows, accepts) <==> accepts(Texts(rows[s])))
    decreases |rows|
  {
    if |rows| > 0 {
      var n := |rows| - 1;
      VisibleSpec(rows[..n], accepts);
      var u := Visible(rows[..n], accepts);
      forall s | 0 <= s < n ensures rows[..n][s] == rows[s] { }
    }
  }

  /** The proxy rows over a prefix of the source are a prefix of the proxy
      rows, and the later proxy rows map past that prefix. */
  lemma {:induction false} VisiblePrefix(rows: seq<Row>, n: nat, accepts: RowFilter)
    requires n <= |rows|
    ensures var v, w := Visible(rows, accepts), Visible(rows[..n], accepts);
      |w| <= |v| && v[..|w|] == w && forall j :: |w| <= j < |v| ==> v[j] >= n
    decreases |rows| - n
  {
    if n < |rows| {
      var m := |rows| - 1;
      assert rows[..m][..n] == rows[..n];
      VisiblePrefix(rows[..m], n, accepts);
      var u, w := Visible(rows[..m], accepts), Visible(rows[..n], accepts);
      var v := Visible(rows, accepts);
      assert v == u + (if accepts(Texts(rows[m])) then [m] else []);
      assert v[..|w|] == u[..|w|];
      forall j | |w| <= j < |v| ensures v[j] >= n {
        if j < |u| { assert v[j] == u[j]; } else { assert v[j] == m; }
      }
    } else {
      assert rows[..n] == rows;
    }
  }

  /** Two sources that agree below n have the same proxy rows there. */
  lemma VisibleAgreeBelow(a: seq<Row>, b: seq<Row>, n: nat, p: nat, accepts: RowFilter)
    requires n <= |a| && n <= |b| && a[..n] == b[..n]
    requires p < |Visible(a, accepts)| && Visible(a, accepts)[p] < n
    ensures p < |Visible(b, accepts)| && Visible(b, accepts)[p] == Visible(a, accepts)[p]
  {
    VisiblePrefix(a, n, accepts);
    VisiblePrefix(b, n, accepts);
  }

  // -----------------------------------------------------------------------
  // Selection

  /** The proxy rows below n whose source row is checked. */
  function SelectedAmong(rows: seq<Row>, vis: seq<nat>, n: nat): (sel: seq<nat>)
    requires n <= |vis| && forall j :: 0 <= j < |vis| ==> vis[j] < |rows|
    ensures |sel| <= n
    ensures forall i :: 0 <= i < |sel| ==> sel[i] < n
  {
    if n == 0 then []
    else SelectedAmong(rows, vis, n - 1) + (if rows[vis[n - 1]].check == Checked then [n - 1] else [])
  }

  lemma {:induction false} SelectedAmongSpec(rows: seq<Row>, vis: seq<nat>, n: nat)
    requires n <= |vis| && forall j :: 0 <= j < |vis| ==> vis[j] < |rows|
    ensures Increasing(SelectedAmong(rows, vis, n))
    ensures forall p :: 0 <= p < n ==> (p in SelectedAmong(rows, vis, n) <==> rows[vis[p]].check == Checked)
  {
    if n > 0 {
      SelectedAmongSpec(rows, vis, n - 1);
    }
  }

  /** With no checked row there is nothing to select. */
  lemma {:induction false} SelectedAmongNone(rows: seq<Row>, vis: seq<nat>, n: nat)
    requires n <= |vis| && forall j :: 0 <= j < |vis| ==> vis[j] < |rows|
    requires forall i :: 0 <= i < |rows| ==> rows[i].check != Checked
    ensures SelectedAmong(rows, vis, n) == []
  {
    if n > 0 {
      SelectedAmongNone(rows, vis, n - 1);
    }
  }

  /** get_selected_rows: the proxy rows whose source row's checkbox is
      Checked. */
  function SelectedRows(rows: seq<Row>, accepts: RowFilter): (sel: seq<nat>)
    ensures forall i :: 0 <= i < |sel| ==> sel[i] < |Visible(rows, accepts)|
  {
    var vis := Visible(rows, accepts);
    SelectedAmong(rows, vis, |vis|)
  }

  /** The selection ascends and holds exactly the proxy rows whose source
      row is Checked. */
  lemma SelectedRowsSpec(rows: seq<Row>, accepts: RowFilter)
    ensures Increasing(SelectedRows(rows, accepts))
    ensures forall p :: 0 <= p < |Visible(rows, accepts)| ==>
      (p in SelectedRows(rows, accepts) <==> rows[Visible(rows, accepts)[p]].check == Checked)
  {
    var vis := Visible(rows, accepts);
    SelectedAmongSpec(rows, vis, |vis|);
  }

  /** The selection is empty while no checkbox is Checked. */
  lemma NothingCheckedNothingSelected(rows: seq<Row>, accepts: RowFilter)
    requires forall i :: 0 <= i < |rows| ==> rows[i].check != Checked
    ensures SelectedRows(rows, accepts) == []
  {
    SelectedAmongNone(rows, Visible(rows, accepts), |Visible(rows, accepts)|);
  }

  /** A source row is doomed by delete_selected when the proxy shows it
      and its checkbox is Checked. */
  predicate Doomed(row: Row, accepts: RowFilter)
  {
    accepts(Texts(row)) && row.check == Checked
  }

  /** The rows that survive deleting the selection, in their order. */
  function Keep(rows: seq<Row>, accepts: RowFilter): (kept: seq<Row>)
    ensures |kept| <= |rows|
  {
    if |rows| == 0 then []
    else (if Doomed(rows[0], accepts) then [] else [rows[0]]) + Keep(rows[1..], accepts)
  }

  lemma {:induction false} KeepAppend(a: seq<Row>, b: seq<Row>, accepts: RowFilter)
    ensures Keep(a + b, accepts) == Keep(a, accepts) + Keep(b, accepts)
    decreases |a|
  {
    if |a| == 0 {
      assert a + b == b;
    } else {
      KeepAppend(a[1..], b, accepts);
      var head := if Doomed(a[0], accepts) then [] else [a[0]];
      assert (a + b)[0] == a[0];
      assert (a + b)[1..] == a[1..] + b;
      assert Keep(a + b, accepts) == head + (Keep(a[1..], accepts) + Keep(b, accepts));
      assert Keep(a, accepts) == head + Keep(a[1..], accepts);
    }
  }

  lemma {:induction false} KeepNoneDoomed(a: seq<Row>, accepts: RowFilter)
    requires forall i :: 0 <= i < |a| ==> !Doomed(a[i], accepts)
    ensures Keep(a, accepts) == a
    decreases |a|
  {
    if |a| > 0 {
      KeepNoneDoomed(a[1..], accepts);
    }
  }

  /** What survives a deletion: no doomed row, and every row that was not
      doomed, in the original order. */
  lemma {:induction false} KeepSpec(rows: seq<Row>, accepts: RowFilter)
    ensures forall i :: 0 <= i < |Keep(rows, accepts)| ==> !Doomed(Keep(rows, accepts)[i], accepts)
    ensures forall i :: 0 <= i < |rows| && !Doomed(rows[i], accepts) ==> rows[i] in Keep(rows, accepts)
    decreases |rows|
  {
    if |rows| > 0 {
      KeepSpec(rows[1..], accepts);
      forall i | 0 < i < |rows| && !Doomed(rows[i], accepts) ensures rows[i] in Keep(rows, accepts) {
        assert rows[1..][i - 1] == rows[i];
      }
    }
  }

  /** With no filter every source row is shown, each at its own index. */
  lemma {:induction false} VisibleAcceptAll(rows: seq<Row>, accepts: RowFilter)
    requires forall t :: accepts(t)
    ensures Visible(rows, accepts) == seq(|rows|, i => i)
    decreases |rows|
  {
    if |rows| > 0 {
      var n := |rows| - 1;
      VisibleAcceptAll(rows[..n], accepts);
      assert accepts(Texts(rows[n]));
    }
  }

  /** Removing the source row of proxy row p leaves every lower proxy row
      mapped to the same source row: the reason selected rows are removed
      in descending order. */
  lemma RemovalKeepsLowerProxyRows(rows: seq<Row>, accepts: RowFilter, p: nat, q: nat)
    requires q < p < |Visible(rows, accepts)|
    ensures var s := Visible(rows, accepts)[p];
      var after := rows[..s] + rows[s + 1..];
      q < |Visible(after, accepts)| && Visible(after, accepts)[q] == Visible(rows, accepts)[q]
  {
    var s := Visible(rows, accepts)[p];
    var after := rows[..s] + rows[s + 1..];
    VisibleSpec(rows, accepts);
    assert after[..s] == rows[..s];
    VisibleAgreeBelow(rows, after, s, q, accepts);
  }

  /** The source rows of the selected proxy rows, in proxy order. */
  function Sources(rows: seq<Row>, accepts: RowFilter): (src: seq<nat>)
    ensures |src| == |SelectedRows(rows, accepts)|
    ensures forall i :: 0 <= i < |src| ==> src[i] < |rows|
  {
    var vis, sel := Visible(rows, accepts), SelectedRows(rows, accepts);
    seq(|sel|, i requires 0 <= i < |sel| => vis[sel[i]])
  }

  /** The source rows of the selection ascend, and they are exactly the
      doomed rows. */
  lemma SourcesSpec(rows: seq<Row>, accepts: RowFilter)
    ensures Increasing(Sources(rows, accepts))
    ensures forall t :: 0 <= t < |rows| ==> (t in Sources(rows, accepts) <==> Doomed(rows[t], accepts))
  {
    var vis, sel, src := Visible(rows, accepts), SelectedRows(rows, accepts), Sources(rows, accepts);
    VisibleSpec(rows, accepts);
    SelectedRowsSpec(rows, accepts);
    forall i, j | 0 <= i < j < |src| ensures src[i] < src[j] {
      assert sel[i] < sel[j];
    }
    forall t | 0 <= t < |rows| ensures t in src <==> Doomed(rows[t], accepts) {
      if t in src {
        var i :| 0 <= i < |src| && src[i] == t;
        assert sel[i] in sel;
        assert t in vis;
      }
      if Doomed(rows[t], accepts) {
        assert t in vis;
        var p :| 0 <= p < |vis| && vis[p] == t;
        assert p in sel;
        var i :| 0 <= i < |sel| && sel[i] == p;
        assert src[i] == t;
      }
    }
  }

  /** Where the removals of the selected proxy rows k, k+1, ... begin: the
      source row of selected row k, or the end of the source. */
  function Bound(rows: seq<Row>, accepts: RowFilter, k: nat): (b: nat)
    requires k <= |SelectedRows(rows, accepts)|
    ensures b <= |rows|
  {
    if k == |SelectedRows(rows, accepts)| then |rows| else Sources(rows, accepts)[k]
  }

  /** Between the source rows of two consecutive selected proxy rows no
      source row is doomed. */
  lemma NoneDoomedBetween(rows: seq<Row>, accepts: RowFilter, k: nat)
    requires k < |SelectedRows(rows, accepts)|
    ensures Bound(rows, accepts, k) < Bound(rows, accepts, k + 1)
    ensures Doomed(rows[Bound(rows, accepts, k)], accepts)
    ensures forall t :: Bound(rows, accepts, k) < t < Bound(rows, accepts, k + 1) ==> !Doomed(rows[t], accepts)
  {
    var src := Sources(rows, accepts);
    var s, b := Bound(rows, accepts, k), Bound(rows, accepts, k + 1);
    SourcesSpec(rows, accepts);
    assert s == src[k] && s in src;
    forall t | s < t < b ensures t !in src {
      forall i | 0 <= i < |src| ensures src[i] != t {
        if k + 1 <= i {
          assert b == src[k + 1] <= src[i];
        }
      }
    }
  }

  /** One descending step: with the selected rows above k already gone,
      removing the source row of selected row k leaves the rows before it
      followed by what survives of the rest. */
  lemma RemoveNextSelected(rows: seq<Row>, accepts: RowFilter, k: nat)
    requires k < |SelectedRows(rows, accepts)|
    ensures var s, b := Bound(rows, accepts, k), Bound(rows, accepts, k + 1);
      s < b && rows[..s] + rows[s + 1..b] + Keep(rows[b..], accepts) == rows[..s] + Keep(rows[s..], accepts)
  {
    NoneDoomedBetween(rows, accepts, k);
    RemoveDoomedAt(rows, accepts, Bound(rows, accepts, k), Bound(rows, accepts, k + 1));
  }

  /** Removing a doomed row s that is followed by rows that are not doomed
      up to b. */
  lemma RemoveDoomedAt(rows: seq<Row>, accepts: RowFilter, s: nat, b: nat)
    requires s < b <= |rows| && Doomed(rows[s], accepts)
    requires forall t :: s < t < b ==> !Doomed(rows[t], accepts)
    ensures rows[..s] + rows[s + 1..b] + Keep(rows[b..], accepts) == rows[..s] + Keep(rows[s..], accepts)
  {
    var mid := rows[s + 1..b];
    KeepNoneDoomed(mid, accepts);
    KeepAppend([rows[s]] + mid, rows[b..], accepts);
    KeepAppend([rows[s]], mid, accepts);
    assert rows[s..] == [rows[s]] + mid + rows[b..];
    assert Keep([rows[s]], accepts) == [];
  }

  /** The loop of delete_selected at selected row k: the rows above it
      are gone, the proxy still maps row sel[k] to its original source
      row, and removing that row extends the removal down to it. */
  lemma DeleteStep(rows: seq<Row>, accepts: RowFilter, k: nat, current: seq<Row>)
    requires k < |SelectedRows(rows, accepts)|
    requires current == rows[..Bound(rows, accepts, k + 1)] + Keep(rows[Bound(rows, accepts, k + 1)..], accepts)
    ensures var p, s := SelectedRows(rows, accepts)[k], Bound(rows, accepts, k);
      p < |Visible(current, accepts)| && Visible(current, accepts)[p] == s && s < |current|
      && current[..s] + current[s + 1..] == rows[..s] + Keep(rows[s..], accepts)
  {
    var p, s, b := SelectedRows(rows, accepts)[k], Bound(rows, accepts, k), Bound(rows, accepts, k + 1);
    RemoveNextSelected(rows, accepts, k);
    SliceOutOfPrefix(rows, Keep(rows[b..], accepts), s, b);
    VisibleAgreeBelow(rows, current, b, p, accepts);
  }

  /** Removing index s from a[..b] + x, for s inside the prefix. */
  lemma SliceOutOfPrefix<T>(a: seq<T>, x: seq<T>, s: nat, b: nat)
    requires s < b <= |a|
    ensures var c := a[..b] + x;
      c[..b] == a[..b] && c[..s] + c[s + 1..] == a[..s] + a[s + 1..b] + x
  {
    var c := a[..b] + x;
    assert c[..s] == a[..s];
    assert c[s + 1..] == a[s + 1..b] + x;
  }

  /** No row before the source row of the first selected one is doomed. */
  lemma NoneDoomedBeforeFirst(rows: seq<Row>, accepts: RowFilter)
    ensures forall t :: 0 <= t < Bound(rows, accepts, 0) ==> !Doomed(rows[t], accepts)
  {
    SourcesSpec(rows, accepts);
  }

  /** Since no row before the first selected one is doomed, those rows plus
      what survives of the rest is everything that survives. */
  lemma KeepBeforeFirst(rows: seq<Row>, accepts: RowFilter)
    ensures var b := Bound(rows, accepts, 0);
      rows[..b] + Keep(rows[b..], accepts) == Keep(rows, accepts)
  {
    var b := Bound(rows, accepts, 0);
    NoneDoomedBeforeFirst(rows, accepts);
    assert forall i :: 0 <= i < b ==> rows[..b][i] == rows[i];
    KeepNoneDoomed(rows[..b], accepts);
    KeepAppend(rows[..b], rows[b..], accepts);
    assert rows == rows[..b] + rows[b..];
  }

  // -----------------------------------------------------------------------
  // Copy

  /** Column 0 as copied: a tick when Checked, a cross otherwise. */
  function CheckMark(c: CheckState): string
  {
    if c == Checked then "\U{2713}" else "\U{2717}"
  }

  /** One copied line: the mark, then the texts of the other columns, joined
      by tabs. */
  function RowLine(row: Row): (line: string)
    requires |row.items| >= 1
    ensures StartsWith(line, CheckMark(row.check))
  {
    Join("\t", [CheckMark(row.check)] + Texts(row)[1..])
  }

  /** The lines copy_selected joins, one per selected proxy row. */
  function CopiedLines(rows: seq<Row>, accepts: RowFilter): (lines: seq<string>)
    requires forall i :: 0 <= i < |rows| ==> |rows[i].items| >= 1
    ensures |lines| == |SelectedRows(rows, accepts)|
  {
    var vis := Visible(rows, accepts);
    var sel := SelectedRows(rows, accepts);
    seq(|sel|, i requires 0 <= i < |sel| => RowLine(rows[vis[sel[i]]]))
  }

  datatype CopyResult = NothingSelected | Copied(text: string)

  /** When no item text holds a line break, the copied text has exactly
      one line per selected row. */
  lemma CopiedLineCount(rows: seq<Row>, accepts: RowFilter)
    requires forall i :: 0 <= i < |rows| ==> |rows[i].items| >= 1
    requires forall i, k :: 0 <= i < |rows| && 0 <= k < |rows[i].items| ==> '\n' !in rows[i].items[k].text
    requires |SelectedRows(rows, accepts)| >= 1
    ensures Count('\n', Join("\n", CopiedLines(rows, accepts))) == |SelectedRows(rows, accepts)| - 1
  {
    var lines := CopiedLines(rows, accepts);
    var vis := Visible(rows, accepts);
    var sel := SelectedRows(rows, accepts);
    forall i | 0 <= i < |lines|
      ensures '\n' !in lines[i]
    {
      var row := rows[vis[sel[i]]];
      var parts := [CheckMark(row.check)] + Texts(row)[1..];
      forall j | 0 <= j < |parts| ensures '\n' !in parts[j] {
        if j > 0 {
          assert parts[j] == row.items[j].text;
        }
      }
      JoinAvoids('\n', "\t", parts);
    }
    CountSeparators('\n', lines);
  }

  /** Joining parts and a separator that avoid c gives a text without c. */
  lemma {:induction false} JoinAvoids(c: char, sep: string, parts: seq<string>)
    requires c !in sep
    requires forall j :: 0 <= j < |parts| ==> c !in parts[j]
    ensures c !in Join(sep, parts)
    decreases |parts|
  {
    if |parts| > 1 {
      JoinAvoids(c, sep, parts[1..]);
    }
  }

  // -----------------------------------------------------------------------
  // Splitting on one character (str.split with a one-character separator)

  function Split(s: string, c: char): (parts: seq<string>)
    ensures |parts| >= 1
    decreases |s|
  {
    if |s| == 0 then [""]
    else
      var rest := Split(s[1..], c);
      if s[0] == c then [""] + rest else [[s[0]] + rest[0]] + rest[1..]
  }

  /** Joining the parts with the separator gives the text back, and no part
      holds the separator. */
  lemma {:induction false} SplitJoin(s: string, c: char)
    ensures Join([c], Split(s, c)) == s
    ensures forall i :: 0 <= i < |Split(s, c)| ==> c !in Split(s, c)[i]
    decreases |s|
  {
    if |s| > 0 {
      var rest := Split(s[1..], c);
      SplitJoin(s[1..], c);
      if s[0] == c {
        assert Join([c], [""] + rest) == "" + [c] + Join([c], rest) by {
          assert ([""] + rest)[1..] == rest;
        }
        assert s == [c] + s[1..];
      } else {
        var parts := [[s[0]] + rest[0]] + rest[1..];
        assert c !in [s[0]] + rest[0];
        if |rest| == 1 {
          assert Join([c], parts) == [s[0]] + rest[0];
          assert Join([c], rest) == rest[0];
        } else {
          assert parts[1..] == rest[1..];
          assert Join([c], rest) == rest[0] + [c] + Join([c], rest[1..]);
        }
        assert s == [s[0]] + s[1..];
      }
    }
  }

  // -----------------------------------------------------------------------
  // Colours set by load_sample_data

  /** The foreground of a quota item, or the failure Python raises. */
  datatype Coloring = Colored(tier: Tier) | Plain | Unparsable

  /** An AWS percentage above 80 is red, above 50 yellow, else green. */
  function PercentTier(percent: int): (t: Tier)
    ensures t == Red <==> percent > 80
    ensures t == Yellow <==> 50 < percent <= 80
    ensures t == Green <==> percent <= 50
  {
    if percent > 80 then Red else if percent > 50 then Yellow else Green
  }

  /** A "current/total" quota: used up is red, at 70% or more yellow, else
      green (current >= 0.7 * total, compared exactly). */
  function RatioTier(current: int, total: int): (t: Tier)
    ensures t == Red <==> current >= total
    ensures t == Yellow <==> current < total && 10 * current >= 7 * total
    ensures t == Green <==> current < total && 10 * current < 7 * total
  {
    if current >= total then Red else if 10 * current >= 7 * total then Yellow else Green
  }

  function QuotaColoring(provider: string, quota: string): (r: Coloring)
    ensures r.Plain? <==> provider != "AWS" && '/' !in quota
  {
    if provider == "AWS" then
      match ParseInt(ReplaceAll(quota, "%", ""))
      case Some(p) => Colored(PercentTier(p))
      case None => Unparsable
    else if '/' in quota then
      var parts := Split(quota, '/');
      if |parts| != 2 then Unparsable
      else match (ParseInt(parts[0]), ParseInt(parts[1]))
        case (Some(c), Some(t)) => Colored(RatioTier(c, t))
        case _ => Unparsable
    else Plain
  }

  /** A well-formed ratio colours by its two numbers; text without '/'
      from a non-AWS provider keeps the default colour. */
  lemma RatioColoring(provider: string, current: nat, total: nat)
    requires provider != "AWS"
    ensures QuotaColoring(provider, NatToString(current) + "/" + NatToString(total))
      == Colored(RatioTier(current, total))
  {
    var a, b := NatToString(current), NatToString(total);
    var q := a + "/" + b;
    assert '/' !in a && '/' !in b by {
      assert forall i :: 0 <= i < |a| ==> a[i] != '/';
      assert forall i :: 0 <= i < |b| ==> b[i] != '/';
    }
    assert q[|a|] == '/';
    SplitOfPair(a, b, '/');
    ParseNonNegative(current);
    ParseNonNegative(total);
  }

  /** An AWS quota written as a number followed by "%" colours by that
      percentage. */
  lemma PercentColoring(p: nat)
    ensures QuotaColoring("AWS", NatToString(p) + "%") == Colored(PercentTier(p))
  {
    var digits := NatToString(p);
    assert '%' !in digits by {
      assert forall i :: 0 <= i < |digits| ==> digits[i] != '%';
    }
    ReplaceCharAppend(digits, "%", '%', "");
    ReplaceAllUntouched(digits, "%", "");
    ReplaceOneChar('%', '%', "");
    assert ReplaceAll(digits + "%", "%", "") == digits;
    ParseNonNegative(p);
  }

  /** Every sample account's quota parses, so load_sample_data adds all of
      them. */
  lemma SampleDataLoads()
    ensures forall i :: 0 <= i < |SampleData| ==> SampleRow(SampleData[i]).Some?
  {
    forall i | 0 <= i < |SampleData|
      ensures SampleRow(SampleData[i]).Some?
    {
      SampleQuotaParses(SampleData[i].provider, SampleData[i].quota);
    }
  }

  /** The quotas of the sample accounts, each with the provider it comes
      with, colour without failing. */
  lemma SampleQuotaParses(provider: string, quota: string)
    requires (provider, quota) in {("AWS", "80%"), ("Linode", "3/10"), ("Digital Ocean", "2/10"),
                                   ("AWS", "45%"), ("Digital Ocean", "1/10")}
    ensures !QuotaColoring(provider, quota).Unparsable?
  {
    if provider == "AWS" {
      var p: nat := if quota == "80%" then 80 else 45;
      assert NatToString(p) == [Digit(p / 10), Digit(p % 10)];
      assert quota == NatToString(p) + "%";
      PercentColoring(p);
    } else {
      var c: nat := if quota == "3/10" then 3 else if quota == "2/10" then 2 else 1;
      assert NatToString(10) == "10";
      assert quota == NatToString(c) + "/" + NatToString(10);
      RatioColoring(provider, c, 10);
    }
  }

  lemma {:induction false} SplitOfPair(a: string, b: string, c: char)
    requires c !in a && c !in b
    ensures Split(a + [c] + b, c) == [a, b]
    decreases |a|
  {
    if |a| == 0 {
      assert a + [c] + b == [c] + b;
      SplitNone(b, c);
      assert (a + [c] + b)[1..] == b;
    } else {
      SplitOfPair(a[1..], b, c);
      assert (a + [c] + b)[1..] == a[1..] + [c] + b;
      assert a == [a[0]] + a[1..];
    }
  }

  lemma {:induction false} SplitNone(s: string, c: char)
    requires c !in s
    ensures Split(s, c) == [s]
    decreases |s|
  {
    if |s| > 0 {
      SplitNone(s[1..], c);
      assert s == [s[0]] + s[1..];
    }
  }

  function StatusColor(status: string): (r: Option<string>)
    ensures r.Some? <==> Contains(status, Check) || Contains(status, Cross)
    ensures r.Some? ==> r.value in {TierColor(Green), TierColor(Red)}
  {
    if Contains(status, Check) then Some(TierColor(Green))
    else if Contains(status, Cross) then Some(TierColor(Red))
    else None
  }

  function ProviderColor(provider: string): (r: Option<string>)
    ensures r.Some? <==> provider in {"AWS", "Linode", "Digital Ocean"}
  {
    if provider == "AWS" then Some("#FF9900")
    else if provider == "Linode" then Some("#02B159")
    else if provider == "Digital Ocean" then Some("#0080FF")
    else None
  }

  // -----------------------------------------------------------------------
  // Sample rows

  datatype SampleAccount = SampleAccount(id: string, provider: string, email: string, region: string,
                                         status: string, quota: string, lastCheck: string)

  const Actions: string := "\U{1F441}\U{FE0F} View | \U{1F5D1}\U{FE0F} Delete | \U{1F50D} Check"

  /** The row load_sample_data appends for one account, or None when its
      quota does not parse. Only the checkbox item is editable. */
  function SampleRow(a: SampleAccount): (r: Option<Row>)
    ensures r.Some? ==> (r.value.check == Unchecked && |r.value.items| == Columns
      && (forall i :: 0 <= i < Columns ==> (r.value.items[i].editable <==> i == 0))
      && Texts(r.value) == ["", a.id, a.provider, a.email, a.region, a.status, a.quota, a.lastCheck, Actions])
    ensures r.None? <==> QuotaColoring(a.provider, a.quota).Unparsable?
  {
    var quotaColor := match QuotaColoring(a.provider, a.quota)
      case Colored(t) => Some(TierColor(t))
      case _ => None;
    if QuotaColoring(a.provider, a.quota).Unparsable? then None
    else Some(Row(Unchecked, [Item("", true, None), Item(a.id, false, None),
                              Item(a.provider, false, ProviderColor(a.provider)),
                              Item(a.email, false, None), Item(a.region, false, None),
                              Item(a.status, false, StatusColor(a.status)),
                              Item(a.quota, false, quotaColor), Item(a.lastCheck, false, None),
                              Item(Actions, false, None)]))
  }

  const SampleData: seq<SampleAccount> := [
    SampleAccount("1", "AWS", "admin@company.com", "us-east-1", Check + " Active", "80%", "2024-01-20 14:30"),
    SampleAccount("2", "Linode", "dev@company.com", "eu-west", Check + " Active", "3/10", "2024-01-19 09:15"),
    SampleAccount("3", "Digital Ocean", "test@company.com", "sgp1", Cross + " Error", "2/10", "2024-01-18 16:45"),
    SampleAccount("4", "AWS", "support@company.com", "us-west-2", Check + " Active", "45%", "2024-01-21 11:20"),
    SampleAccount("5", "Digital Ocean", "backup@company.com", "nyc3", Check + " Active", "1/10", "2024-01-22 09:45")
  ]

  /** The region combo: "All", then the distinct regions ascending. */
  method RegionChoices(regions: seq<string>) returns (items: seq<string>)
    ensures |items| >= 1 && items[0] == "All"
    ensures StrictlySorted(items[1..])
    ensures forall x :: x in items[1..] <==> x in regions
  {
    var seen: set<string> := {};
    for i := 0 to |regions|
      invariant forall x :: x in seen <==> x in regions[..i]
    {
      seen := seen + {regions[i]};
    }
    assert regions[..|regions|] == regions;
    var sorted := SortedElements(seen);
    items := ["All"] + sorted;
    assert items[1..] == sorted;
  }

  /** Two region lists built from the same regions are equal: the combo
      content depends only on the set of regions. */
  lemma RegionChoicesUnique(a: seq<string>, b: seq<string>)
    requires |a| >= 1 && a[0] == "All" && StrictlySorted(a[1..])
    requires |b| >= 1 && b[0] == "All" && StrictlySorted(b[1..])
    requires forall x :: x in a[1..] <==> x in b[1..]
    ensures a == b
  {
    SortedUnique(a[1..], b[1..]);
    assert a == [a[0]] + a[1..] && b == [b[0]] + b[1..];
  }

  // -----------------------------------------------------------------------
  // The model and its proxy

  class TableModel {
    var rows: seq<Row>
    /** The proxy's current filter. */
    var accepts: RowFilter

    /** Every row has one item per column. */
    ghost predicate Valid()
      reads this
    {
      forall i :: 0 <= i < |rows| ==> |rows[i].items| == Columns
    }

    constructor (accepts: RowFilter)
      ensures Valid() && rows == [] && this.accepts == accepts
    {
      rows := [];
      this.accepts := accepts;
    }

    /** load_sample_data: clear the model, append one row per account (a
        quota that does not parse stops the load there) and, when every row
        was added, return the region combo's new items. */
    method LoadSampleData(data: seq<SampleAccount>) returns (regionItems: Option<seq<string>>)
      modifies this`rows
      ensures Valid()
      ensures regionItems.Some? <==> forall i :: 0 <= i < |data| ==> SampleRow(data[i]).Some?
      ensures regionItems.Some? ==> (|rows| == |data|
        && (forall i :: 0 <= i < |data| ==> rows[i] == SampleRow(data[i]).value)
        && |regionItems.value| >= 1 && regionItems.value[0] == "All"
        && StrictlySorted(regionItems.value[1..])
        && (forall x :: x in regionItems.value[1..] <==> exists i :: 0 <= i < |data| && data[i].region == x))
    {
      rows := [];
      var i := 0;
      while i < |data|
        invariant 0 <= i <= |data| && |rows| == i && Valid()
        invariant forall j :: 0 <= j < i ==> SampleRow(data[j]).Some? && rows[j] == SampleRow(data[j]).value
      {
        var row := SampleRow(data[i]);
        if row.None? {
          return None;
        }
        rows := rows + [row.value];
        i := i + 1;
      }
      var regions := seq(|data|, j requires 0 <= j < |data| => data[j].region);
      var items := RegionChoices(regions);
      forall x
        ensures x in regions <==> exists j :: 0 <= j < |data| && data[j].region == x
      {
        if x in regions {
          var j :| 0 <= j < |regions| && regions[j] == x;
        }
        if exists j :: 0 <= j < |data| && data[j].region == x {
          var j :| 0 <= j < |data| && data[j].region == x;
          assert regions[j] == x;
        }
      }
      return Some(items);
    }

    /** toggle_select_all: every row's checkbox takes the given state;
        nothing else changes. */
    method ToggleSelectAll(state: CheckState)
      modifies this`rows
      ensures |rows| == |old(rows)|
      ensures forall i :: 0 <= i < |rows| ==> rows[i] == old(rows)[i].(check := state)
    {
      var i := 0;
      while i < |rows|
        invariant 0 <= i <= |rows| && |rows| == |old(rows)|
        invariant forall j :: 0 <= j < i ==> rows[j] == old(rows)[j].(check := state)
        invariant forall j :: i <= j < |rows| ==> rows[j] == old(rows)[j]
      {
        rows := rows[i := rows[i].(check := state)];
        i := i + 1;
      }
    }

    /** get_selected_rows, the loop over the proxy rows. */
    method GetSelectedRows() returns (selected: seq<nat>)
      ensures selected == SelectedRows(rows, accepts)
    {
      var vis := Visible(rows, accepts);
      selected := [];
      for p := 0 to |vis|
        invariant selected == SelectedAmong(rows, vis, p)
      {
        ghost var before := SelectedAmong(rows, vis, p);
        assert SelectedAmong(rows, vis, p + 1)
          == before + (if rows[vis[p]].check == Checked then [p] else []);
        if rows[vis[p]].check == Checked {
          selected := selected + [p];
        }
      }
    }

    /** copy_selected: nothing when no row is selected (a warning is shown
        and the clipboard is left alone); otherwise one line per selected
        row, in proxy order, joined by line breaks. */
    method CopySelected() returns (result: CopyResult)
      requires Valid()
      ensures result.NothingSelected? <==> |SelectedRows(rows, accepts)| == 0
      ensures result.Copied? ==> result.text == Join("\n", CopiedLines(rows, accepts))
    {
      var selected := GetSelectedRows();
      if |selected| == 0 {
        return NothingSelected;
      }
      var vis := Visible(rows, accepts);
      var copied: seq<string> := [];
      for i := 0 to |selected|
        invariant |copied| == i
        invariant forall j :: 0 <= j < i ==> copied[j] == RowLine(rows[vis[selected[j]]])
      {
        var row := rows[vis[selected[i]]];
        var rowData := [CheckMark(row.check)];
        for col := 1 to Columns
          invariant rowData == [CheckMark(row.check)] + Texts(row)[1..col]
        {
          rowData := rowData + [row.items[col].text];
        }
        assert Texts(row)[1..Columns] == Texts(row)[1..];
        copied := copied + [Join("\t", rowData)];
      }
      assert copied == CopiedLines(rows, accepts);
      return Copied(Join("\n", copied));
    }

    /** removeRow(s): the source row s goes, the others keep their order. */
    method RemoveRow(s: nat)
      requires Valid() && s < |rows|
      modifies this`rows
      ensures Valid()
      ensures rows == old(rows)[..s] + old(rows)[s + 1..]
    {
      rows := rows[..s] + rows[s + 1..];
    }
  }
}
