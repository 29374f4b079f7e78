/** The record merger: combines the classifier's verdict with the two sensor
    readings and the inspection type into the final history record. In a
    machine check a temperature above 80 or a noise level above 90 forces a
    high-severity reject and adds an alert to the defects and the reasoning;
    in product QC the sensors are not consulted. */
module RecordMerger {
  import opened QcTypes
  import opened Numerals

  const TempLead: string := "อุณหภูมิสูงผิดปกติ ("
  const TempTail: string := "°C)"
  const NoiseLead: string := "เสียงดังผิดปกติ ("
  const NoiseTail: string := "dB)"
  const AlertLead: string := "⚠️ SYSTEM ALERT: "

  /** `msg` is `lead`, a signed decimal that reads back as `value`, then `tail`. */
  predicate Frames(msg: string, lead: string, value: int, tail: string) {
    |msg| > |lead| + |tail| &&
    msg[..|lead|] == lead && msg[|msg| - |tail|..] == tail &&
    IsSignedDecimal(msg[|lead|..|msg| - |tail|]) &&
    ParseSigned(msg[|lead|..|msg| - |tail|]) == value
  }

  /** The reading rendered between a fixed lead and tail. */
  function Framed(lead: string, value: int, tail: string): (msg: string)
    ensures Frames(msg, lead, value, tail)
  {
    var digits := IntToDecimal(value);
    var msg := lead + digits + tail;
    assert msg[..|lead|] == lead;
    assert msg[|msg| - |tail|..] == tail;
    assert msg[|lead|..|msg| - |tail|] == digits;
    ParseIntToDecimal(value);
    msg
  }

  /** Defect text for an over-temperature reading ("abnormally high
      temperature (…°C)"): the reading can be read back from it. */
  function TempMessage(temperature: int): (msg: string)
    ensures Frames(msg, TempLead, temperature, TempTail)
  {
    Framed(TempLead, temperature, TempTail)
  }

  /** Defect text for an over-noise reading ("abnormally loud noise (…dB)"). */
  function NoiseMessage(noise: int): (msg: string)
    ensures Frames(msg, NoiseLead, noise, NoiseTail)
  {
    Framed(NoiseLead, noise, NoiseTail)
  }

  /** The reasoning-prefix form of a sensor message: the message itself
      follows the alert marker unchanged. */
  function AlertLine(msg: string): (line: string)
    ensures |line| == |AlertLead| + |msg|
    ensures line[..|AlertLead|] == AlertLead && line[|AlertLead|..] == msg
  {
    AlertLead + msg
  }

  /** Array join: the elements separated by `sep`, "" for no elements. */
  function Join(xs: seq<string>, sep: string): (out: string)
    ensures |xs| == 0 ==> out == ""
    ensures |xs| == 1 ==> out == xs[0]
    ensures |xs| == 2 ==> out == xs[0] + sep + xs[1]
  {
    if |xs| == 0 then ""
    else if |xs| == 1 then xs[0]
    else xs[0] + sep + Join(xs[1..], sep)
  }

  /** Joining may as well proceed from the last element: together with the
      one-element case this fixes the join of every list. */
  lemma {:induction false} JoinSnoc(xs: seq<string>, sep: string)
    requires |xs| > 1
    ensures Join(xs, sep) == Join(xs[..|xs| - 1], sep) + sep + xs[|xs| - 1]
  {
    if |xs| > 2 {
      var init := xs[..|xs| - 1];
      JoinSnoc(xs[1..], sep);
      assert init[1..] == xs[1..][..|xs[1..]| - 1];
      assert xs[1..][|xs[1..]| - 1] == xs[|xs| - 1];
    }
  }

  /** The joined string starts with the first element and ends with the last. */
  lemma JoinEnds(xs: seq<string>, sep: string)
    requires |xs| > 0
    ensures |Join(xs, sep)| >= |xs[0]| && Join(xs, sep)[..|xs[0]|] == xs[0]
    ensures |Join(xs, sep)| >= |xs[|xs| - 1]| &&
            Join(xs, sep)[|Join(xs, sep)| - |xs[|xs| - 1]|..] == xs[|xs| - 1]
  {
    var out := Join(xs, sep);
    if |xs| > 1 {
      assert out[..|xs[0]|] == xs[0];
      JoinSnoc(xs, sep);
      var init := Join(xs[..|xs| - 1], sep) + sep;
      assert out[|init|..] == xs[|xs| - 1];
    }
  }

  /** Number of thresholds the readings breach (0 in product QC). */
  function BreachCount(t: InspectionType, temperature: int, noise: int): (k: nat)
    ensures k <= 2
    ensures k == 0 <==> !TempBreach(t, temperature) && !NoiseBreach(t, noise)
    ensures t == QcProduct ==> k == 0
  {
    (if TempBreach(t, temperature) then 1 else 0) + (if NoiseBreach(t, noise) then 1 else 0)
  }

  /** The messages the sensor gate adds to the defects: temperature first, then noise. */
  function SensorDefects(t: InspectionType, temperature: int, noise: int): (ds: seq<string>)
    ensures |ds| == BreachCount(t, temperature, noise)
    ensures TempBreach(t, temperature) ==> ds[0] == TempMessage(temperature)
    ensures NoiseBreach(t, noise) ==> ds[|ds| - 1] == NoiseMessage(noise)
  {
    (if TempBreach(t, temperature) then [TempMessage(temperature)] else []) +
    (if NoiseBreach(t, noise) then [NoiseMessage(noise)] else [])
  }

  /** The same messages as alert lines, for the reasoning prefix. */
  function SensorAlerts(t: InspectionType, temperature: int, noise: int): (als: seq<string>)
    ensures |als| == BreachCount(t, temperature, noise)
    ensures TempBreach(t, temperature) ==> als[0] == AlertLine(TempMessage(temperature))
    ensures NoiseBreach(t, noise) ==> als[|als| - 1] == AlertLine(NoiseMessage(noise))
  {
    (if TempBreach(t, temperature) then [AlertLine(TempMessage(temperature))] else []) +
    (if NoiseBreach(t, noise) then [AlertLine(NoiseMessage(noise))] else [])
  }

  /** The final reasoning: the alert lines joined by a space and a newline in
      front of the classifier's reasoning, or that reasoning alone. */
  function MergedReasoning(t: InspectionType, temperature: int, noise: int, reasoning: string): (out: string)
    ensures BreachCount(t, temperature, noise) == 0 ==> out == reasoning
    ensures TempBreach(t, temperature) && !NoiseBreach(t, noise) ==>
              out == AlertLine(TempMessage(temperature)) + "\n" + reasoning
    ensures !TempBreach(t, temperature) && NoiseBreach(t, noise) ==>
              out == AlertLine(NoiseMessage(noise)) + "\n" + reasoning
    ensures TempBreach(t, temperature) && NoiseBreach(t, noise) ==>
              out == AlertLine(TempMessage(temperature)) + " " +
                     AlertLine(NoiseMessage(noise)) + "\n" + reasoning
  {
    var alerts := SensorAlerts(t, temperature, noise);
    assert |alerts| == 2 ==> alerts[1..] == [AlertLine(NoiseMessage(noise))] &&
                             Join(alerts, " ") == alerts[0] + " " + alerts[1];
    if |alerts| > 0 then Join(alerts, " ") + "\n" + reasoning else reasoning
  }

  /** The final defects: the classifier's list followed by the sensor messages. */
  function MergedDefects(t: InspectionType, temperature: int, noise: int, defects: seq<string>): (out: seq<string>)
    ensures |out| == |defects| + BreachCount(t, temperature, noise)
    ensures out[..|defects|] == defects
    ensures TempBreach(t, temperature) ==> out[|defects|] == TempMessage(temperature)
    ensures NoiseBreach(t, noise) ==> out[|out| - 1] == NoiseMessage(noise)
  {
    var out := defects + SensorDefects(t, temperature, noise);
    assert out[..|defects|] == defects;
    out
  }

  /** Record id: the generator prefix ("LOG" or "V-LOG"), a dash and the random number. */
  function RecordId(idPrefix: string, idNumber: nat): (id: string)
    ensures |id| > |idPrefix| + 1
    ensures id[..|idPrefix|] == idPrefix && id[|idPrefix|] == '-'
    ensures forall i :: |idPrefix| < i < |id| ==> IsDigit(id[i])
    ensures ParseDecimal(id[|idPrefix| + 1..]) == idNumber
  {
    var id := idPrefix + "-" + NatToDecimal(idNumber);
    assert id[..|idPrefix|] == idPrefix;
    assert id[|idPrefix| + 1..] == NatToDecimal(idNumber);
    ParseNatToDecimal(idNumber);
    id
  }

  /** The final record, stated declaratively. */
  function MergedRecord(a: Verdict, temperature: int, noise: int, idPrefix: string,
                        t: InspectionType, idNumber: nat): (r: Record)
    // the sensor gate forces a high-severity reject whatever the classifier said
    ensures TempBreach(t, temperature) || NoiseBreach(t, noise) ==>
              r.status == Reject && r.severity == High
    ensures !TempBreach(t, temperature) && !NoiseBreach(t, noise) ==>
              r.status == a.status && r.severity == a.severity
    // product QC: the classifier's findings pass through verbatim
    ensures t == QcProduct ==>
              r.status == a.status && r.severity == a.severity &&
              r.defects == a.defects && r.reasoning == a.reasoning
    // escalation is one-way: a pass only comes from a classifier pass
    ensures r.status == Pass ==> a.status == Pass
    ensures a.status == Reject ==> r.status == Reject
    // the classifier's defects stay a prefix, followed by one alert per breach;
    // the reasoning gains the alert lines only when an alert fired
    ensures r.defects == MergedDefects(t, temperature, noise, a.defects)
    ensures r.reasoning == MergedReasoning(t, temperature, noise, a.reasoning)
    // the ticket is open exactly for a reject, archived otherwise
    ensures r.ticketStatus == Open <==> r.status == Reject
    ensures r.ticketStatus == Archived <==> r.status == Pass
    // fields set by the merger
    ensures r.inspectorId == AutoInspector && r.inspectionType == t
    ensures r.temperature == temperature && r.noiseLevel == noise
    ensures r.id == RecordId(idPrefix, idNumber)
    // fields copied from the classifier
    ensures r.timestamp == a.timestamp && r.confidence == a.confidence
    ensures r.actionCommand == a.actionCommand && r.rootCause == a.rootCause
    ensures r.qcList == a.qcList && r.painPoints == a.painPoints && r.solution == a.solution
    ensures WellFormed(r)
  {
    var gate := TempBreach(t, temperature) || NoiseBreach(t, noise);
    var status := if gate then Reject else a.status;
    Record(
      id := RecordId(idPrefix, idNumber),
      inspectorId := AutoInspector,
      ticketStatus := if status == Reject then Open else Archived,
      timestamp := a.timestamp,
      status := status,
      confidence := a.confidence,
      defects := MergedDefects(t, temperature, noise, a.defects),
      reasoning := MergedReasoning(t, temperature, noise, a.reasoning),
      temperature := temperature,
      noiseLevel := noise,
      actionCommand := a.actionCommand,
      rootCause := a.rootCause,
      severity := if gate then High else a.severity,
      qcList := a.qcList,
      painPoints := a.painPoints,
      solution := a.solution,
      inspectionType := t)
  }

  /** The merger as the source runs it: two mutable verdict variables and two
      alert lists that each breached threshold pushes onto. */
  method BuildRecordFromAnalysis(analysis: Verdict, sensorTemp: int, sensorNoise: int,
                                 idPrefix: string, inspectionType: InspectionType,
                                 idNumber: nat) returns (r: Record)
    ensures r == MergedRecord(analysis, sensorTemp, sensorNoise, idPrefix, inspectionType, idNumber)
  {
    var sensorGateEnabled := inspectionType == MachineCheck;
    var finalStatus := analysis.status;
    var finalSeverity := analysis.severity;
    var extraReasons: seq<string> := [];
    var sensorAlerts: seq<string> := [];

    if sensorGateEnabled {
      if sensorTemp > TempLimit {
        finalStatus := Reject;
        finalSeverity := High;
        var msg := TempMessage(sensorTemp);
        extraReasons := extraReasons + [msg];
        sensorAlerts := sensorAlerts + [AlertLine(msg)];
      }
      if sensorNoise > NoiseLimit {
        finalStatus := Reject;
        finalSeverity := High;
        var msg := NoiseMessage(sensorNoise);
        extraReasons := extraReasons + [msg];
        sensorAlerts := sensorAlerts + [AlertLine(msg)];
      }
    }

    assert extraReasons == SensorDefects(inspectionType, sensorTemp, sensorNoise);
    assert sensorAlerts == SensorAlerts(inspectionType, sensorTemp, sensorNoise);
    var combinedDefects := analysis.defects + extraReasons;
    var finalReasoning := if |sensorAlerts| > 0
      then Join(sensorAlerts, " ") + "\n" + analysis.reasoning
      else analysis.reasoning;
    assert finalReasoning == MergedReasoning(inspectionType, sensorTemp, sensorNoise, analysis.reasoning);

    r := Record(
      id := RecordId(idPrefix, idNumber),
      inspectorId := AutoInspector,
      ticketStatus := if finalStatus == Reject then Open else Archived,
      timestamp := analysis.timestamp,
      status := finalStatus,
      confidence := analysis.confidence,
      defects := combinedDefects,
      reasoning := finalReasoning,
      temperature := sensorTemp,
      noiseLevel := sensorNoise,
      actionCommand := analysis.actionCommand,
      rootCause := analysis.rootCause,
      severity := finalSeverity,
      qcList := analysis.qcList,
      painPoints := analysis.painPoints,
      solution := analysis.solution,
      inspectionType := inspectionType);
  }

  /** In product QC the sensor readings change nothing but the two reading
      fields themselves. */
  lemma ProductQcIgnoresSensors(a: Verdict, t1: int, n1: int, t2: int, n2: int,
                                idPrefix: string, idNumber: nat)
    ensures MergedRecord(a, t1, n1, idPrefix, QcProduct, idNumber).(temperature := 0, noiseLevel := 0)
         == MergedRecord(a, t2, n2, idPrefix, QcProduct, idNumber).(temperature := 0, noiseLevel := 0)
  {
  }

  /** Higher readings never make the verdict milder: a reject stays a reject
      and the severity either stays or rises to HIGH. */
  lemma SensorGateMonotone(a: Verdict, t: InspectionType, temp1: int, noise1: int,
                           temp2: int, noise2: int, idPrefix: string, idNumber: nat)
    requires temp1 <= temp2 && noise1 <= noise2
    ensures var r1, r2 := MergedRecord(a, temp1, noise1, idPrefix, t, idNumber),
                          MergedRecord(a, temp2, noise2, idPrefix, t, idNumber);
            (r1.status == Reject ==> r2.status == Reject) &&
            (r2.severity == r1.severity || r2.severity == High) &&
            BreachCount(t, temp1, noise1) <= BreachCount(t, temp2, noise2)
  {
  }

  /** A machine check at 85 degrees and 50 dB turns a clean pass into a
      high-severity reject whose only defect is the temperature alert. */
  lemma OverheatScenario(a: Verdict)
    requires a.status == Pass && a.severity == Low && a.defects == []
    ensures var r := MergedRecord(a, 85, 50, "LOG", MachineCheck, 0);
            r.status == Reject && r.severity == High &&
            r.defects == ["อุณหภูมิสูงผิดปกติ (85°C)"] && r.ticketStatus == Open
  {
    assert NatToDecimal(85) == NatToDecimal(8) + [DigitChar(5)] == "85";
    assert TempMessage(85) == "อุณหภูมิสูงผิดปกติ (85°C)";
  }

  /** The same readings in product QC leave the clean pass untouched. */
  lemma ProductQcScenario(a: Verdict)
    requires a.status == Pass && a.severity == Low && a.defects == []
    ensures var r := MergedRecord(a, 85, 50, "LOG", QcProduct, 0);
            r.status == Pass && r.severity == Low && r.defects == [] &&
            r.ticketStatus == Archived
  {
  }
}
