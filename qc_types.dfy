/** The inspection data model: the enumerations and records of the source's
    type declarations, with free text as `string` and the model-supplied
    confidence as an opaque `real` that nothing inspects. */
module QcTypes {

  datatype Option<+T> = None | Some(value: T)

  /** Classifier and final verdict. */
  datatype Status = Pass | Reject

  datatype Severity = Low | Medium | High

  /** Lifecycle of the incident ticket attached to a record. */
  datatype TicketStatus = Open | Resolved | Archived

  /** Whether the sensor gate applies (machine check) or not (product QC). */
  datatype InspectionType = QcProduct | MachineCheck

  datatype QcListEntry = QcListEntry(issues: seq<string>, ok: bool)

  datatype QcList = QcList(visualQc: QcListEntry, machinePanelQc: QcListEntry, processQc: QcListEntry)

  datatype Solution = Solution(summary: string, recommendedActions: seq<string>)

  /** The structured reply of the external vision classifier, already parsed. */
  datatype Verdict = Verdict(
    timestamp: string,
    status: Status,
    confidence: real,
    defects: seq<string>,
    reasoning: string,
    actionCommand: string,
    rootCause: string,
    severity: Severity,
    qcList: QcList,
    painPoints: seq<string>,
    solution: Solution)

  /** One entry of the inspection history. */
  datatype Record = Record(
    id: string,
    inspectorId: string,
    ticketStatus: TicketStatus,
    timestamp: string,
    status: Status,
    confidence: real,
    defects: seq<string>,
    reasoning: string,
    temperature: int,
    noiseLevel: int,
    actionCommand: string,
    rootCause: string,
    severity: Severity,
    qcList: QcList,
    painPoints: seq<string>,
    solution: Solution,
    inspectionType: InspectionType)

  /** Sensor thresholds of the machine-check gate. */
  const TempLimit: int := 80
  const NoiseLimit: int := 90

  /** Inspector assigned to every freshly built record. */
  const AutoInspector: string := "AUTO-CCTV"

  predicate TempBreach(t: InspectionType, temperature: int) {
    t == MachineCheck && temperature > TempLimit
  }

  predicate NoiseBreach(t: InspectionType, noise: int) {
    t == MachineCheck && noise > NoiseLimit
  }

  /** What every record in the history satisfies: an open ticket belongs to a
      rejected part, and a machine check whose sensors breached a threshold is
      a high-severity reject. */
  predicate WellFormed(r: Record) {
    (r.ticketStatus == Open ==> r.status == Reject) &&
    ((TempBreach(r.inspectionType, r.temperature) || NoiseBreach(r.inspectionType, r.noiseLevel))
       ==> r.status == Reject && r.severity == High)
  }
}
