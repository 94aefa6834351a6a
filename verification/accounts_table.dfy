/** The account list of one provider: the "added ... ago" phrase, the
    column headers per provider, the filter dictionary built from the
    provider's filter combos and the database query it selects. */
module AccountList {
  import opened Strings

  // -----------------------------------------------------------------------
  // "Added" column

  /** now - created_at as Python normalises a timedelta: whole days (any
      sign) and the seconds of the day. */
  datatype TimeDelta = TimeDelta(days: int, seconds: nat)

  /** "N unit ago", with the plural "s" when N > 1. */
  function Ago(n: int, unit: string): (r: string)
  {
    IntToString(n) + " " + unit + (if n > 1 then "s" else "") + " ago"
  }

  /** format_time_ago: None stands for a missing created_at. */
  function FormatTimeAgo(delta: Option<TimeDelta>): (r: string)
    requires delta.Some? ==> delta.value.seconds < 86400
    ensures delta.None? ==> r == "N/A"
    ensures delta.Some? && delta.value.days == 0 ==> var s := delta.value.seconds;
      (s < 60 ==> r == "Just now")
      && (60 <= s < 3600 ==> r == Ago(s / 60, "minute") && 1 <= s / 60 <= 59)
      && (3600 <= s ==> r == Ago(s / 3600, "hour") && 1 <= s / 3600 <= 23)
    ensures delta.Some? && delta.value.days == 1 ==> r == "Yesterday"
    ensures delta.Some? && (delta.value.days < 0 || 2 <= delta.value.days < 7) ==>
      r == Ago(delta.value.days, "day")
    ensures delta.Some? && 7 <= delta.value.days < 30 ==>
      r == Ago(delta.value.days / 7, "week") && 1 <= delta.value.days / 7 <= 4
    ensures delta.Some? && 30 <= delta.value.days ==>
      r == Ago(delta.value.days / 30, "month") && 1 <= delta.value.days / 30
  {
    match delta
    case None => "N/A"
    case Some(d) =>
      if d.days == 0 then
        var hours := d.seconds / 3600;
        if hours == 0 then
          var minutes := (d.seconds / 60) % 60;
          if minutes == 0 then "Just now" else Ago(minutes, "minute")
        else Ago(hours, "hour")
      else if d.days == 1 then "Yesterday"
      else if d.days < 7 then Ago(d.days, "day")
      else if d.days < 30 then Ago(d.days / 7, "week")
      else Ago(d.days / 30, "month")
  }

  /** Every phrase with a positive count carries the plural "s" exactly
      when the count is above one. */
  lemma PluralOnlyAboveOne(n: nat, unit: string)
    requires n >= 1
    requires |unit| > 0 && unit[|unit| - 1] != 's'
    ensures var r := Ago(n, unit); |r| >= 5 && (r[|r| - 5..] == "s ago" <==> n != 1)
    ensures StartsWith(Ago(n, unit), NatToString(n) + " " + unit)
  {
    var r := Ago(n, unit);
    assert r[|r| - 5] == (if n > 1 then 's' else unit[|unit| - 1]);
  }

  // -----------------------------------------------------------------------
  // Columns

  /** update_table's header labels for a provider. */
  function Headers(provider: string): (h: seq<string>)
    ensures |h| >= 4 && h[0] == "ID" && h[1] == "Email"
  {
    if provider == "AWS" then ["ID", "Email", "Region", "Country", "Quota", "Added", "Status", "Last Check"]
    else if provider == "DigitalOcean" then ["ID", "Email", "Limits", "Country", "Payment", "Added", "Status"]
    else if provider == "Linode" then ["ID", "Email", "Login", "Country", "Payment", "Added", "Status"]
    else if provider == "Azure" then ["ID", "Email", "Subscription", "Country", "Added", "Status"]
    else ["ID", "Email", "Added", "Status"]
  }

  /** update_table's column count for a provider. */
  function ColumnCount(provider: string): nat
  {
    if provider == "AWS" then 8
    else if provider == "DigitalOcean" || provider == "Linode" then 7
    else if provider == "Azure" then 6
    else 4
  }

  /** The column count always matches the number of headers. */
  lemma ColumnCountMatchesHeaders(provider: string)
    ensures ColumnCount(provider) == |Headers(provider)|
  {
  }

  // -----------------------------------------------------------------------
  // Filters

  /** The filter keys of a provider, in the order apply_filters reads its
      combos. */
  function FilterKeys(provider: string): (keys: seq<string>)
    ensures "provider" !in keys
  {
    if provider == "AWS" then ["region", "quota", "country", "time_filter"]
    else if provider == "DigitalOcean" then ["quota", "time_filter", "country", "payment_method"]
    else if provider == "Linode" then ["country", "payment_method"]
    else if provider == "Azure" then ["country", "subscription"]
    else []
  }

  /** A filter combo: the data of its items and the current index. */
  datatype Combo = Combo(data: seq<string>, index: int)

  /** Every combo set back to its first item. */
  function Cleared(combos: map<string, Combo>): (cleared: map<string, Combo>)
  {
    map k | k in combos :: combos[k].(index := 0)
  }

  /** currentData(), with Qt's None for "no item" read as "" (both are
      false in the tests apply_filters makes). */
  function CurrentData(c: Combo): string
  {
    if 0 <= c.index < |c.data| then c.data[c.index] else ""
  }

  const TimeChoices: seq<string> := ["", "day", "days2", "week", "month"]

  /** The item data update_filters gives the combo of a filter key: the
      "All ..." item first (data ""), then fixed choices or the distinct
      values from the database, with defaults for an empty payment or
      subscription list. */
  function ComboData(provider: string, key: string, stored: seq<string>): (data: seq<string>)
    ensures |data| >= 1 && data[0] == ""
  {
    if key == "quota" && provider == "AWS" then ["", "low", "medium", "high", "no_data"]
    else if key == "quota" then ["", "with_limits", "no_limits"]
    else if key == "time_filter" then TimeChoices
    else if key == "payment_method" && |stored| == 0 then ["", "card", "paypal"]
    else if key == "subscription" && |stored| == 0 then ["", "Pay as You Go", "Free Trial 200$"]
    else [""] + stored
  }

  /** The filter dictionary apply_filters builds: the provider, plus every
      filter key of the provider whose combo has non-empty data, with that
      data. */
  ghost predicate FilterMatches(filter: map<string, string>, provider: string, combos: map<string, Combo>)
    requires forall k :: k in FilterKeys(provider) ==> k in combos
  {
    "provider" in filter && filter["provider"] == provider
    && (forall k :: k in filter && k != "provider" ==>
          k in FilterKeys(provider) && filter[k] == CurrentData(combos[k]) && filter[k] != "")
    && (forall k :: k in FilterKeys(provider) && CurrentData(combos[k]) != "" ==> k in filter)
  }

  /** The loop of apply_filters: start from the provider, add each filter
      key whose combo data is non-empty. */
  method BuildFilter(provider: string, combos: map<string, Combo>) returns (filter: map<string, string>)
    requires forall k :: k in FilterKeys(provider) ==> k in combos
    ensures FilterMatches(filter, provider, combos)
  {
    var keys := FilterKeys(provider);
    filter := map["provider" := provider];
    for i := 0 to |keys|
      invariant "provider" in filter && filter["provider"] == provider
      invariant forall k :: k in filter && k != "provider" ==>
        k in keys[..i] && filter[k] == CurrentData(combos[k]) && filter[k] != ""
      invariant forall j :: 0 <= j < i && CurrentData(combos[keys[j]]) != "" ==> keys[j] in filter
    {
      var value := CurrentData(combos[keys[i]]);
      if value != "" {
        filter := filter[keys[i] := value];
      }
    }
  }

  /** The database call load_accounts makes. */
  datatype Query = ByFilter(filter: map<string, string>) | AllAccounts(provider: string)

  function QueryFor(provider: string, filter: map<string, string>): (q: Query)
    ensures q.ByFilter? <==> |filter| > 1
    ensures q.ByFilter? ==> q.filter == filter
    ensures q.AllAccounts? ==> q.provider == provider
  {
    if |filter| > 1 then ByFilter(filter) else AllAccounts(provider)
  }

  /** A dictionary holding "provider" has more than one key exactly when
      it holds another key. */
  lemma MoreThanProvider(filter: map<string, string>)
    requires "provider" in filter
    ensures |filter| > 1 <==> exists k :: k in filter && k != "provider"
  {
    var rest := filter.Keys - {"provider"};
    assert |filter.Keys| == |rest| + 1;
    if |filter| > 1 {
      var k :| k in rest;
    }
  }

  /** The filtered query is used exactly when some filter combo of the
      provider has a non-empty selection. */
  lemma FilteredQueryIffSelection(filter: map<string, string>, provider: string, combos: map<string, Combo>)
    requires forall k :: k in FilterKeys(provider) ==> k in combos
    requires FilterMatches(filter, provider, combos)
    ensures QueryFor(provider, filter).ByFilter? <==>
      exists k :: k in FilterKeys(provider) && CurrentData(combos[k]) != ""
  {
    MoreThanProvider(filter);
    if exists k :: k in FilterKeys(provider) && CurrentData(combos[k]) != "" {
      var k :| k in FilterKeys(provider) && CurrentData(combos[k]) != "";
      assert k in filter && k != "provider";
    }
  }

  /** What the database answered: the number of accounts, or an error. */
  datatype Answer = Loaded(count: nat) | Failed(error: string)

  class AccountsTable {
    var currentProvider: string
    var currentFilter: map<string, string>
    /** The filter combos now shown, by filter key. */
    var combos: map<string, Combo>
    /** Every query load_accounts issued, oldest first. */
    var queries: seq<Query>
    var headers: seq<string>
    var columnCount: nat
    var countLabel: string
    var statusLabel: string

    /** The filter names the provider and only selected values; every combo
        of the provider exists and starts with its "All" item. */
    ghost predicate Valid()
      reads this`combos, this`currentProvider, this`currentFilter
    {
      (forall k :: k in FilterKeys(currentProvider) ==> k in combos)
      && (forall k :: k in combos ==> |combos[k].data| >= 1 && combos[k].data[0] == "")
      && "provider" in currentFilter && currentFilter["provider"] == currentProvider
      && (forall k :: k in currentFilter && k != "provider" ==>
            k in FilterKeys(currentProvider) && currentFilter[k] != "")
    }

    /** What a load shows for the answer: the provider's headers and the
        account count, or the error text over the previous headers, column
        count and count label. */
    ghost predicate ShowsAnswer(answer: Answer, headers0: seq<string>, columnCount0: nat, countLabel0: string)
      reads this`currentProvider, this`headers, this`columnCount, this`countLabel, this`statusLabel
    {
      match answer
      case Loaded(count) =>
        headers == Headers(currentProvider) && columnCount == |headers|
        && countLabel == NatToString(count) + " accounts"
        && statusLabel == "Loaded " + currentProvider + " accounts"
      case Failed(error) =>
        headers == headers0 && columnCount == columnCount0
        && countLabel == countLabel0 && statusLabel == "Error: " + error
    }

    /** __init__: provider AWS, the AWS filters, a table without columns,
        the labels "Ready" and "0 accounts", then a first load. */
    constructor (stored: map<string, seq<string>>, answer: Answer)
      ensures Valid() && currentProvider == "AWS" && currentFilter == map["provider" := "AWS"]
      ensures combos.Keys == set k | k in FilterKeys("AWS")
      ensures forall k :: k in combos ==>
        combos[k] == Combo(ComboData("AWS", k, if k in stored then stored[k] else []), 0)
      ensures queries == [AllAccounts("AWS")]
      ensures ShowsAnswer(answer, [], 0, "0 accounts")
    {
      currentProvider := "AWS";
      currentFilter := map["provider" := "AWS"];
      combos := map[];
      queries := [];
      headers := [];
      columnCount := 0;
      statusLabel := "Ready";
      countLabel := "0 accounts";
      new;
      UpdateFilters(stored);
      LoadAccounts(answer);
    }

    /** update_filters: one combo per filter key of the provider, at its
        "All" item, and the filter reset to the provider alone. */
    method UpdateFilters(stored: map<string, seq<string>>)
      modifies this`combos, this`currentFilter
      ensures Valid()
      ensures currentFilter == map["provider" := currentProvider]
      ensures combos.Keys == set k | k in FilterKeys(currentProvider)
      ensures forall k :: k in combos ==>
        combos[k] == Combo(ComboData(currentProvider, k, if k in stored then stored[k] else []), 0)
    {
      currentFilter := map["provider" := currentProvider];
      combos := map k | k in FilterKeys(currentProvider) ::
        Combo(ComboData(currentProvider, k, if k in stored then stored[k] else []), 0);
    }

    /** load_accounts: the query chosen by the filter, then the headers and
        labels of the provider, or the error text. */
    method LoadAccounts(answer: Answer)
      modifies this`queries, this`headers, this`columnCount, this`countLabel, this`statusLabel
      ensures queries == old(queries) + [QueryFor(currentProvider, currentFilter)]
      ensures ShowsAnswer(answer, old(headers), old(columnCount), old(countLabel))
    {
      queries := queries + [QueryFor(currentProvider, currentFilter)];
      match answer
      case Loaded(count) =>
        headers := Headers(currentProvider);
        columnCount := ColumnCount(currentProvider);
        ColumnCountMatchesHeaders(currentProvider);
        countLabel := NatToString(count) + " accounts";
        statusLabel := "Loaded " + currentProvider + " accounts";
      case Failed(error) =>
        statusLabel := "Error: " + error;
    }

    /** apply_filters: rebuild the filter from the provider's combos, then
        load. */
    method ApplyFilters(answer: Answer)
      requires Valid()
      modifies this`currentFilter, this`queries, this`headers, this`columnCount, this`countLabel, this`statusLabel
      ensures Valid()
      ensures FilterMatches(currentFilter, currentProvider, combos)
      ensures queries == old(queries) + [QueryFor(currentProvider, currentFilter)]
      ensures ShowsAnswer(answer, old(headers), old(columnCount), old(countLabel))
    {
      currentFilter := BuildFilter(currentProvider, combos);
      LoadAccounts(answer);
    }

    /** The user picks item index of the combo for key. Qt emits the
        combo's currentIndexChanged signal, which runs apply_filters, only
        when the index actually changes; re-picking the shown item does
        nothing. */
    method ChooseFilterItem(key: string, index: int, answer: Answer)
      requires Valid() && key in combos && 0 <= index < |combos[key].data|
      modifies this`combos, this`currentFilter, this`queries, this`headers, this`columnCount,
        this`countLabel, this`statusLabel
      ensures Valid()
      ensures index == old(combos)[key].index ==>
        combos == old(combos) && currentFilter == old(currentFilter) && queries == old(queries)
        && headers == old(headers) && columnCount == old(columnCount)
        && countLabel == old(countLabel) && statusLabel == old(statusLabel)
      ensures index != old(combos)[key].index ==>
        combos == old(combos)[key := old(combos)[key].(index := index)]
        && FilterMatches(currentFilter, currentProvider, combos)
        && queries == old(queries) + [QueryFor(currentProvider, currentFilter)]
        && ShowsAnswer(answer, old(headers), old(columnCount), old(countLabel))
    {
      if index != combos[key].index {
        combos := combos[key := combos[key].(index := index)];
        ApplyFilters(answer);
      }
    }

    /** clear_filters: every combo of the provider back to its "All" item,
        the filter reset to the provider alone, then load. */
    method ClearFilters(answer: Answer)
      requires Valid()
      modifies this`combos, this`currentFilter, this`queries, this`headers, this`columnCount,
        this`countLabel, this`statusLabel
      ensures Valid()
      ensures currentFilter == map["provider" := currentProvider]
      ensures combos.Keys == old(combos).Keys
      ensures forall k :: k in combos ==> combos[k] == old(combos)[k].(index := 0) && CurrentData(combos[k]) == ""
      ensures FilterMatches(currentFilter, currentProvider, combos)
      ensures queries == old(queries) + [AllAccounts(currentProvider)]
      ensures ShowsAnswer(answer, old(headers), old(columnCount), old(countLabel))
    {
      ClearedCombos(combos, currentProvider);
      combos := Cleared(combos);
      currentFilter := map["provider" := currentProvider];
      LoadAccounts(answer);
    }

    /** Every combo back at index 0 shows its "All" item, so the filter
        holding the provider alone matches the combos. */
    static lemma ClearedCombos(combos: map<string, Combo>, provider: string)
      requires forall k :: k in FilterKeys(provider) ==> k in combos
      requires forall k :: k in combos ==> |combos[k].data| >= 1 && combos[k].data[0] == ""
      ensures var cleared := Cleared(combos);
        cleared.Keys == combos.Keys
        && (forall k :: k in cleared ==> cleared[k] == combos[k].(index := 0) && CurrentData(cleared[k]) == "")
        && (forall k :: k in cleared ==> |cleared[k].data| >= 1 && cleared[k].data[0] == "")
        && FilterMatches(map["provider" := provider], provider, cleared)
    {
      var cleared := Cleared(combos);
      forall k | k in cleared ensures CurrentData(cleared[k]) == "" {
        assert cleared[k].index == 0;
      }
    }

    /** on_provider_changed: switch provider, rebuild its filters, load all
        of its accounts. */
    method OnProviderChanged(provider: string, stored: map<string, seq<string>>, answer: Answer)
      modifies this`currentProvider, this`currentFilter, this`combos, this`queries, this`headers,
        this`columnCount, this`countLabel, this`statusLabel
      ensures Valid() && currentProvider == provider
      ensures currentFilter == map["provider" := provider]
      ensures combos.Keys == set k | k in FilterKeys(provider)
      ensures forall k :: k in combos ==>
        combos[k] == Combo(ComboData(provider, k, if k in stored then stored[k] else []), 0)
      ensures queries == old(queries) + [AllAccounts(provider)]
      ensures ShowsAnswer(answer, old(headers), old(columnCount), old(countLabel))
    {
      currentProvider := provider;
      currentFilter := map["provider" := provider];
      UpdateFilters(stored);
      LoadAccounts(answer);
    }
  }
}
