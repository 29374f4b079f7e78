/** The dashboard's session state: the inspection history (newest first), the
    unread-alert counter and the latest result, with the handlers that replace
    them — recording a classified capture, resolving an incident and
    assigning a technician. Records are matched by id; ids come from a random
    number, so every record sharing the id is updated. */
module HistoryStore {
  import opened QcTypes
  import opened RecordMerger
  import opened HistoryMetrics

  /** The history with every record carrying `id` marked resolved. */
  function ResolveById(h: seq<Record>, id: string): (r: seq<Record>)
    ensures |r| == |h|
    // nothing but the ticket changes, and order is kept
    ensures forall i :: 0 <= i < |h| ==> r[i].(ticketStatus := h[i].ticketStatus) == h[i]
    ensures forall i :: 0 <= i < |h| && h[i].id == id ==> r[i].ticketStatus == Resolved
    ensures forall i :: 0 <= i < |h| && h[i].id != id ==> r[i] == h[i]
    // no ticket is ever reopened
    ensures forall i :: 0 <= i < |h| && r[i].ticketStatus == Open ==> h[i].ticketStatus == Open
  {
    if h == [] then []
    else [if h[0].id == id then h[0].(ticketStatus := Resolved) else h[0]] + ResolveById(h[1..], id)
  }

  /** The history with every record carrying `id` assigned to `techId`. */
  function AssignById(h: seq<Record>, id: string, techId: string): (r: seq<Record>)
    ensures |r| == |h|
    ensures forall i :: 0 <= i < |h| ==> r[i].(inspectorId := h[i].inspectorId) == h[i]
    ensures forall i :: 0 <= i < |h| && h[i].id == id ==> r[i].inspectorId == techId
    ensures forall i :: 0 <= i < |h| && h[i].id != id ==> r[i] == h[i]
  {
    if h == [] then []
    else [if h[0].id == id then h[0].(inspectorId := techId) else h[0]] + AssignById(h[1..], id, techId)
  }

  /** Open issues carrying `id`: exactly the ones a resolve closes. */
  function CountOpenWithId(h: seq<Record>, id: string): nat {
    if h == [] then 0
    else (if IsOpenIssue(h[0]) && h[0].id == id then 1 else 0) + CountOpenWithId(h[1..], id)
  }

  /** Resolving closes exactly the open issues with that id and leaves the
      pass and reject counts alone. */
  lemma {:induction false} ResolveMetrics(h: seq<Record>, id: string)
    ensures CountOpenIssues(ResolveById(h, id)) + CountOpenWithId(h, id) == CountOpenIssues(h)
    ensures CountPassed(ResolveById(h, id)) == CountPassed(h)
    ensures CountRejected(ResolveById(h, id)) == CountRejected(h)
  {
    if h != [] {
      var r := ResolveById(h, id);
      assert r[1..] == ResolveById(h[1..], id);
      ResolveMetrics(h[1..], id);
    }
  }

  /** Assigning a technician changes no count at all. */
  lemma {:induction false} AssignMetrics(h: seq<Record>, id: string, techId: string)
    ensures CountOpenIssues(AssignById(h, id, techId)) == CountOpenIssues(h)
    ensures CountPassed(AssignById(h, id, techId)) == CountPassed(h)
    ensures CountRejected(AssignById(h, id, techId)) == CountRejected(h)
  {
    if h != [] {
      var r := AssignById(h, id, techId);
      assert r[1..] == AssignById(h[1..], id, techId);
      AssignMetrics(h[1..], id, techId);
    }
  }

  /** Neither update touches what the trend chart shows. */
  lemma UpdatesKeepTrend(h: seq<Record>, id: string, techId: string)
    ensures ChartDataTemp(ResolveById(h, id)) == ChartDataTemp(h)
    ensures ChartDataTemp(AssignById(h, id, techId)) == ChartDataTemp(h)
  {
    var a, b, c := ChartDataTemp(h), ChartDataTemp(ResolveById(h, id)), ChartDataTemp(AssignById(h, id, techId));
    forall k | 0 <= k < |a| ensures b[k] == a[k] && c[k] == a[k] {
      var j := |a| - 1 - k;
      assert ResolveById(h, id)[j].(ticketStatus := h[j].ticketStatus) == h[j];
      assert AssignById(h, id, techId)[j].(inspectorId := h[j].inspectorId) == h[j];
    }
  }

  predicate AllWellFormed(h: seq<Record>) {
    forall i :: 0 <= i < |h| ==> WellFormed(h[i])
  }

  class QcSession {
    var history: seq<Record>
    var notifications: int
    var latestResult: Option<Record>

    /** The counter never goes negative and every record obeys the ticket
        and sensor-gate rules. */
    ghost predicate Valid()
      reads this
    {
      notifications >= 0 && AllWellFormed(history)
    }

    constructor ()
      ensures Valid()
      ensures history == [] && notifications == 0 && latestResult == None
    {
      history := [];
      notifications := 0;
      latestResult := None;
    }

    /** A new record goes in front: the history stays newest-first. */
    method Prepend(r: Record)
      requires Valid() && WellFormed(r)
      modifies this
      ensures Valid()
      ensures history == [r] + old(history)
      ensures history[0] == r && |history| == |old(history)| + 1
      ensures notifications == old(notifications) && latestResult == old(latestResult)
    {
      history := [r] + history;
    }

    /** The tail of an image or video-frame capture: a classifier failure
        changes nothing; a verdict is merged with the readings, becomes the
        latest result and the newest record, and a reject raises the
        unread-alert counter. */
    method ProcessAnalysis(response: Option<Verdict>, sensorTemp: int, sensorNoise: int,
                           idPrefix: string, inspectionType: InspectionType, idNumber: nat)
      requires Valid()
      modifies this
      ensures Valid()
      ensures response.None? ==>
                history == old(history) && notifications == old(notifications) &&
                latestResult == old(latestResult)
      ensures response.Some? ==>
                var r := MergedRecord(response.value, sensorTemp, sensorNoise, idPrefix, inspectionType, idNumber);
                history == [r] + old(history) && latestResult == Some(r) &&
                notifications == old(notifications) + (if r.status == Reject then 1 else 0)
    {
      match response
      case None =>
      case Some(analysis) =>
        var newRecord := BuildRecordFromAnalysis(analysis, sensorTemp, sensorNoise, idPrefix, inspectionType, idNumber);
        latestResult := Some(newRecord);
        Prepend(newRecord);
        if newRecord.status == Reject {
          notifications := notifications + 1;
        }
    }

    /** Operator resolves an incident: its ticket becomes resolved and the
        counter drops by one unless it is already zero. */
    method ResolveIssue(id: string)
      requires Valid()
      modifies this
      ensures Valid()
      ensures history == ResolveById(old(history), id)
      ensures notifications == if old(notifications) > 0 then old(notifications) - 1 else 0
      ensures latestResult == old(latestResult)
    {
      history := ResolveById(history, id);
      if notifications > 0 {
        notifications := notifications - 1;
      }
    }

    /** Operator assigns a technician to an incident. */
    method AssignTech(id: string, techId: string)
      requires Valid()
      modifies this
      ensures Valid()
      ensures history == AssignById(old(history), id, techId)
      ensures notifications == old(notifications) && latestResult == old(latestResult)
    {
      history := AssignById(history, id, techId);
    }
  }
}
