/** The fixed class tables of the service (the CONFIGURATION block of the API). */
module Config {
  import opened Outcomes

  /** Label order is the index contract with the model's output vector. */
  const ClassNames: seq<string> :=
    ["garbage", "open_manhole", "potholes", "road_normal", "streetlight_bad", "streetlight_good"]

  const ClassDescriptions: map<string, string> := map[
    "garbage" := "Garbage/litter on street",
    "open_manhole" := "Uncovered manhole - Safety hazard",
    "potholes" := "Road pothole - Needs repair",
    "road_normal" := "Normal road condition",
    "streetlight_bad" := "Broken/non-functional streetlight",
    "streetlight_good" := "Working streetlight"
  ]

  const ClassPriority: map<string, string> := map[
    "open_manhole" := "CRITICAL",
    "potholes" := "HIGH",
    "garbage" := "MEDIUM",
    "streetlight_bad" := "MEDIUM",
    "streetlight_good" := "LOW",
    "road_normal" := "LOW"
  ]

  /** The priority levels the service documents. */
  const PriorityLevels: set<string> := {"CRITICAL", "HIGH", "MEDIUM", "LOW"}

  /** `d.get(key)`: `None` when the key is absent. */
  function Get(d: map<string, string>, key: string): Option<string>
  {
    if key in d then Some(d[key]) else None
  }

  /** `d.get(key, default)`. */
  function GetOr(d: map<string, string>, key: string, default: string): string
  {
    if key in d then d[key] else default
  }

  /** The set of labels, ignoring order. */
  function LabelSet(): set<string>
  {
    set i | 0 <= i < |ClassNames| :: ClassNames[i]
  }

  /** No label occurs twice, so label and index determine each other. */
  lemma ClassNamesDistinct()
    ensures forall i, j :: 0 <= i < j < |ClassNames| ==> ClassNames[i] != ClassNames[j]
  {
  }

  /** Both metadata tables are keyed by exactly the labels: no label lacks an
      entry, so the "LOW" and "Unknown" fallbacks are never taken for a label. */
  lemma TablesCoverClassNames()
    ensures forall i :: 0 <= i < |ClassNames| ==> ClassNames[i] in ClassPriority && ClassNames[i] in ClassDescriptions
    ensures ClassPriority.Keys == LabelSet() && ClassDescriptions.Keys == LabelSet()
  {
    assert ClassNames[0] == "garbage" && ClassNames[1] == "open_manhole" && ClassNames[2] == "potholes";
    assert ClassNames[3] == "road_normal" && ClassNames[4] == "streetlight_bad" && ClassNames[5] == "streetlight_good";
  }

  /** Every priority in the table is one of the four documented levels, and
      the safety hazards get the top levels. */
  lemma PrioritiesAreLevels()
    ensures forall name :: name in ClassPriority ==> ClassPriority[name] in PriorityLevels
    ensures ClassPriority["open_manhole"] == "CRITICAL" && ClassPriority["potholes"] == "HIGH"
  {
  }
}
