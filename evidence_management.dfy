/**
 * The evidence management panel: one form record shared by the add,
 * transfer and history tabs, and the custody history that transfers build up,
 * newest entry first.
 *
 * Long texts are written as concatenations of short pieces; the value is the
 * same string, and short literals keep the proofs cheap.
 */
module EvidenceManagement {
  import opened Notifications

  /** `evidenceData`: the inputs of all three tabs. */
  datatype EvidenceForm = EvidenceForm(id: string, description: string, location: string, newLocation: string, historyId: string)

  const EmptyForm: EvidenceForm := EvidenceForm("", "", "", "", "")

  /** One entry of `custodyHistory`; `timestamp` is the `toLocaleString()` text. */
  datatype CustodyEntry = CustodyEntry(id: string, location: string, timestamp: string, officer: string)

  /** The inputs bound to `evidenceData`, each by its `onChange`. */
  datatype FormField = Id | Description | Location | NewLocation | HistoryId

  /** The value an input shows. */
  function FieldValue(form: EvidenceForm, field: FormField): string {
    match field
    case Id => form.id
    case Description => form.description
    case Location => form.location
    case NewLocation => form.newLocation
    case HistoryId => form.historyId
  }

  /** `{ ...evidenceData, [field]: text }`: that input set, every other input as it was. */
  function Edited(form: EvidenceForm, field: FormField, text: string): (next: EvidenceForm)
    ensures FieldValue(next, field) == text
    ensures forall other :: other != field ==> FieldValue(next, other) == FieldValue(form, other)
  {
    match field
    case Id => form.(id := text)
    case Description => form.(description := text)
    case Location => form.(location := text)
    case NewLocation => form.(newLocation := text)
    case HistoryId => form.(historyId := text)
  }

  /** The fields `handleAddEvidence` clears. */
  predicate ClearedByAdd(field: FormField) {
    field == Id || field == Description || field == Location
  }

  /** The fields `handleTransferCustody` clears. */
  predicate ClearedByTransfer(field: FormField) {
    field == Id || field == NewLocation
  }

  /** The form after `handleAddEvidence`: `{ ...evidenceData, id: '', description: '', location: '' }`. */
  function AfterAdd(form: EvidenceForm): (next: EvidenceForm)
    ensures forall field :: FieldValue(next, field) == (if ClearedByAdd(field) then "" else FieldValue(form, field))
  {
    form.(id := "", description := "", location := "")
  }

  /** The form after `handleTransferCustody`: `{ ...evidenceData, id: '', newLocation: '' }`. */
  function AfterTransfer(form: EvidenceForm): (next: EvidenceForm)
    ensures forall field :: FieldValue(next, field) == (if ClearedByTransfer(field) then "" else FieldValue(form, field))
  {
    form.(id := "", newLocation := "")
  }

  /** The entry a transfer records: the form's id, the new location, the clock text and the fixed officer. */
  function TransferEntry(form: EvidenceForm, timestamp: string): CustodyEntry {
    CustodyEntry(form.id, form.newLocation, timestamp, "Current User")
  }

  /** The history after recording `entries` one transfer at a time, each put in front. */
  function Recorded(history: seq<CustodyEntry>, entries: seq<CustodyEntry>): seq<CustodyEntry>
    decreases entries
  {
    if entries == [] then history else Recorded([entries[0]] + history, entries[1..])
  }

  function Reversed<T>(s: seq<T>): (r: seq<T>)
    ensures |r| == |s| && forall i :: 0 <= i < |s| ==> r[i] == s[|s| - 1 - i]
  {
    if s == [] then [] else Reversed(s[1..]) + [s[0]]
  }

  /** The history lists transfers newest first, followed by the history it started from. */
  lemma {:induction false} RecordedNewestFirst(history: seq<CustodyEntry>, entries: seq<CustodyEntry>)
    ensures Recorded(history, entries) == Reversed(entries) + history
    decreases entries
  {
    if entries != [] {
      RecordedNewestFirst([entries[0]] + history, entries[1..]);
      assert Reversed(entries) == Reversed(entries[1..]) + [entries[0]];
    }
  }

  /**
   * Recording one more transfer on top of a run of transfers is recording the
   * longer run; with `TransferCustody`'s contract this gives, by induction,
   * that `k` transfers leave `Recorded(history, entries)` for their entries.
   */
  lemma RecordedExtend(history: seq<CustodyEntry>, entries: seq<CustodyEntry>, entry: CustodyEntry)
    ensures Recorded(Recorded(history, entries), [entry]) == Recorded(history, entries + [entry])
  {
    RecordedNewestFirst(history, entries);
    RecordedNewestFirst(history, entries + [entry]);
    assert Recorded(Recorded(history, entries), [entry]) == [entry] + Recorded(history, entries) by {
      assert [entry][1..] == [];
    }
    var r := Reversed(entries + [entry]);
    assert r == [entry] + Reversed(entries) by {
      assert forall i :: 0 <= i < |r| ==> r[i] == ([entry] + Reversed(entries))[i];
    }
  }

  /** The toast of `handleAddEvidence`. */
  function AddedToast(form: EvidenceForm): Toast {
    Toast("Evidence Added", "Evidence " + form.id + " has been " + "securely stored " + "on the " + "blockchain.", false)
  }

  /** The toast of `handleTransferCustody`. */
  function TransferredToast(form: EvidenceForm): Toast {
    Toast("Custody " + "Transferred", "Evidence " + form.id + " transferred " + "to " + form.newLocation + ".", false)
  }

  /** The toast of `handleViewHistory`. */
  function HistoryToast(form: EvidenceForm): Toast {
    Toast("History " + "Retrieved", "Displaying " + "complete custody " + "history for " + "evidence " + form.historyId + ".", false)
  }

  class EvidenceManager {
    var evidenceData: EvidenceForm
    var custodyHistory: seq<CustodyEntry>

    constructor()
      ensures evidenceData == EmptyForm && custodyHistory == []
    {
      evidenceData := EmptyForm;
      custodyHistory := [];
    }

    /** An input's `onChange`. */
    method Edit(field: FormField, text: string)
      modifies this
      ensures evidenceData == Edited(old(evidenceData), field, text)
      ensures custodyHistory == old(custodyHistory)
    {
      evidenceData := Edited(evidenceData, field, text);
    }

    /** `handleAddEvidence`: a toast naming the id, then the add-tab fields cleared; the history is untouched. */
    method AddEvidence() returns (toast: Toast)
      modifies this
      ensures toast == AddedToast(old(evidenceData))
      ensures evidenceData == AfterAdd(old(evidenceData))
      ensures custodyHistory == old(custodyHistory)
    {
      toast := AddedToast(evidenceData);
      evidenceData := evidenceData.(id := "", description := "", location := "");
    }

    /**
     * `handleTransferCustody`: the new entry goes in front of the history,
     * a toast names the id and the new location, then the id and the new
     * location are cleared. `timestamp` is the `toLocaleString()` text.
     */
    method TransferCustody(timestamp: string) returns (toast: Toast)
      modifies this
      ensures custodyHistory == [TransferEntry(old(evidenceData), timestamp)] + old(custodyHistory)
      ensures custodyHistory == Recorded(old(custodyHistory), [TransferEntry(old(evidenceData), timestamp)])
      ensures |custodyHistory| == |old(custodyHistory)| + 1 && custodyHistory[1..] == old(custodyHistory)
      ensures custodyHistory[0] == CustodyEntry(old(evidenceData).id, old(evidenceData).newLocation, timestamp, "Current User")
      ensures toast == TransferredToast(old(evidenceData))
      ensures evidenceData == AfterTransfer(old(evidenceData))
    {
      var newEntry := CustodyEntry(evidenceData.id, evidenceData.newLocation, timestamp, "Current User");
      custodyHistory := [newEntry] + custodyHistory;
      toast := TransferredToast(evidenceData);
      evidenceData := evidenceData.(id := "", newLocation := "");
    }

    /** `handleViewHistory`: only a toast naming the history id. */
    method ViewHistory() returns (toast: Toast)
      ensures toast == HistoryToast(evidenceData)
    {
      toast := HistoryToast(evidenceData);
    }
  }
}
