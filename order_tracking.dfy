/** The order tracking page (src/pages/OrderTracking.jsx): which of the six steps is current,
    which are completed, the status shown, and the timestamp printed beside each step. */
module OrderTracking {
  import opened Wrappers
  import Seqs
  import Text

  /** The fixed step list, in delivery order. */
  const Steps: seq<string> := ["pending", "confirmed", "processing", "shipped", "out_for_delivery", "delivered"]

  /** One status change; a missing time is "". */
  datatype HistoryEntry = HistoryEntry(status: string, changedAt: string, timestamp: string)

  /** The tracking record: `order.status` ("" when the order or its status is missing), the
      top-level `currentStatus`, the per-status `timeline` and the `history`. */
  datatype Tracking = Tracking(
    orderStatus: string, currentStatus: string,
    timeline: map<string, string>, history: seq<HistoryEntry>)

  /** `tracking.order?.status || tracking.currentStatus`. */
  function Status(t: Tracking): (r: string)
    ensures t.orderStatus != "" ==> r == t.orderStatus
    ensures t.orderStatus == "" ==> r == t.currentStatus
  {
    if t.orderStatus != "" then t.orderStatus else t.currentStatus
  }

  /** getCurrentStepIndex: the position of the status among the steps; 0 without tracking, without
      a status, or for a status that is not a step. */
  function CurrentStepIndex(t: Option<Tracking>): (r: int)
    ensures 0 <= r < |Steps|
    ensures t.Some? && Status(t.value) in Steps ==> Steps[r] == Status(t.value)
    ensures t.Some? && Status(t.value) in Steps ==> forall j :: 0 <= j < r ==> Steps[j] != Status(t.value)
    ensures t.None? || Status(t.value) !in Steps ==> r == 0
  {
    if t.None? then 0
    else
      var status := Status(t.value);
      if status == "" then 0
      else
        var idx := Seqs.IndexOf((s: string) => s == status, Steps);
        assert status in Steps ==> idx != -1;
        if idx == -1 then 0 else idx
  }

  /** The status printed on the card: defaults to "pending". */
  function DisplayStatus(t: Tracking): (r: string)
    ensures r != ""
    ensures Status(t) != "" ==> r == Status(t)
    ensures Status(t) == "" ==> r == "pending"
  {
    if Status(t) != "" then Status(t) else "pending"
  }

  /** The card's label: every underscore of the status becomes a space. */
  function StatusLabel(t: Tracking): (r: string)
    ensures |r| == |DisplayStatus(t)|
    ensures forall i :: 0 <= i < |r| ==> r[i] != '_'
    ensures forall i :: 0 <= i < |r| && DisplayStatus(t)[i] != '_' ==> r[i] == DisplayStatus(t)[i]
  {
    Text.UnderscoresToSpaces(DisplayStatus(t))
  }

  /** A step is drawn completed when it is at or before the current step. */
  predicate StepCompleted(t: Option<Tracking>, i: int) {
    i <= CurrentStepIndex(t)
  }

  predicate IsCurrent(t: Option<Tracking>, i: int) {
    i == CurrentStepIndex(t)
  }

  /** Exactly one step is current, it is completed, and the completed steps are the ones up to
      it: a prefix of the step list. */
  lemma StepsDrawnConsistently(t: Option<Tracking>)
    ensures exists i :: 0 <= i < |Steps| && IsCurrent(t, i)
    ensures forall i, j :: 0 <= i < j < |Steps| ==> !(IsCurrent(t, i) && IsCurrent(t, j))
    ensures forall i :: 0 <= i < |Steps| && IsCurrent(t, i) ==> StepCompleted(t, i)
    ensures forall i, j :: 0 <= i <= j < |Steps| && StepCompleted(t, j) ==> StepCompleted(t, i)
    ensures StepCompleted(t, 0)
  {
    assert IsCurrent(t, CurrentStepIndex(t));
  }

  /** The time a history entry shows: `changedAt || timestamp || null`. */
  function EntryTime(h: HistoryEntry): (r: Option<string>)
    ensures r.Some? ==> r.value != "" && (r.value == h.changedAt || r.value == h.timestamp)
    ensures r.None? <==> h.changedAt == "" && h.timestamp == ""
    ensures h.changedAt != "" ==> r == Some(h.changedAt)
  {
    if h.changedAt != "" then Some(h.changedAt)
    else if h.timestamp != "" then Some(h.timestamp)
    else None
  }

  /** The timestamp beside a step: its timeline entry when present, otherwise the time of the
      first history entry with that status, otherwise none. */
  function StepTimestamp(t: Tracking, status: string): (r: Option<string>)
    ensures r.Some? ==> r.value != ""
    ensures status in t.timeline && t.timeline[status] != "" ==> r == Some(t.timeline[status])
  {
    if status in t.timeline && t.timeline[status] != "" then Some(t.timeline[status])
    else if |t.history| > 0 then
      var entry := Seqs.Find((h: HistoryEntry) => h.status == status, t.history);
      if entry.Some? then EntryTime(entry.value) else None
    else None
  }

  /** Without a timeline entry, the timestamp is that of the first history entry with the status. */
  lemma StepTimestampFromHistory(t: Tracking, status: string, i: int)
    requires !(status in t.timeline && t.timeline[status] != "")
    requires 0 <= i < |t.history| && t.history[i].status == status
    requires forall j :: 0 <= j < i ==> t.history[j].status != status
    ensures StepTimestamp(t, status) == EntryTime(t.history[i])
  {
    var p := (h: HistoryEntry) => h.status == status;
    var k := Seqs.IndexOf(p, t.history);
    assert k == i;
  }

  /** With neither a timeline entry nor a history entry for the status, there is no timestamp. */
  lemma StepTimestampNone(t: Tracking, status: string)
    requires !(status in t.timeline && t.timeline[status] != "")
    requires forall j :: 0 <= j < |t.history| ==> t.history[j].status != status
    ensures StepTimestamp(t, status).None?
  {
  }
}
