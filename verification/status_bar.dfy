/** The status bar message: "Ready" with the total when no filter hides a
    row, otherwise "Filtered: f of t"; the selected count closes both. */
module StatusBar {
  import opened Strings
  import opened Values

  /** The openings of the two forms of the message. */
  const ReadyHead: string := Check + " Ready"
  const FilteredHead: string := Check + " Filtered: "

  /** The text after which the selected count is written. */
  const SelectedCaption: string := " | Selected: "

  /** update_status_bar's choice for the given selected, filtered (proxy
      rows) and total (model rows) counts. */
  function StatusMessage(selected: nat, filtered: nat, total: nat): (m: string)
    ensures StartsWith(m, ReadyHead) <==> filtered == total
    ensures var tail := SelectedCaption + NatToString(selected);
      |tail| <= |m| && m[|m| - |tail|..] == tail
  {
    var head :=
      if filtered == total then ReadyHead + " | Total accounts: " + NatToString(total)
      else FilteredHead + NatToString(filtered) + " of " + NatToString(total) + " accounts";
    var tail := SelectedCaption + NatToString(selected);
    HeadDecidesReady(head, tail, filtered == total);
    head + tail
  }

  /** Only a head opened by ReadyHead makes the message start with it. */
  lemma HeadDecidesReady(head: string, tail: string, ready: bool)
    requires ready ==> StartsWith(head, ReadyHead)
    requires !ready ==> StartsWith(head, FilteredHead)
    ensures StartsWith(head + tail, ReadyHead) <==> ready
    ensures (head + tail)[|head + tail| - |tail|..] == tail
  {
    var m := head + tail;
    assert m[..|head|] == head;
    if ready {
      assert m[..|ReadyHead|] == head[..|ReadyHead|];
    } else {
      assert FilteredHead[2] == 'F' && ReadyHead[2] == 'R';
      assert m[2] == head[2] == 'F';
    }
  }

  /** The message create_status_bar shows before any update. */
  const InitialMessage: string := ReadyHead + " | Total accounts: 5" + SelectedCaption + "0"

  /** The initial message is the one an update would show for the five
      sample rows, none filtered out and none selected. */
  lemma InitialMessageIsReadyForSampleData()
    ensures InitialMessage == StatusMessage(0, 5, 5)
  {
    assert NatToString(5) == "5";
    assert NatToString(0) == "0";
    var head := ReadyHead + " | Total accounts: " + "5";
    assert ReadyHead + " | Total accounts: 5" == head;
    assert StatusMessage(0, 5, 5) == head + (SelectedCaption + "0");
  }
}
