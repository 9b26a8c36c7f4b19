/**
 * The detection-settings panel of the sidebar
 * (client/src/components/DetectionSettings.tsx): every control emits a
 * partial settings object holding only the field it edits.
 */
module DetectionSettingsPanel {
  import opened DetectionTypes

  /** The two display checkboxes. */
  datatype DisplayFlag = ShowLabels | ShowConfidence

  /** The options of the speed selector, in the order they are listed. */
  const SpeedOptions: seq<Speed> := [Balanced, Fast, Precision]

  /** The text of a speed option, which is also the value the selector reports. */
  function SpeedLabel(s: Speed): string
  {
    match s
    case Balanced => "Balanced"
    case Fast => "Fast"
    case Precision => "Precision"
  }

  /** The selectable speeds are exactly the three speeds, each listed once. */
  lemma SpeedOptionsComplete(s: Speed)
    ensures s in SpeedOptions
    ensures forall i, j :: 0 <= i < j < |SpeedOptions| ==> SpeedOptions[i] != SpeedOptions[j]
    ensures forall i, j :: 0 <= i < j < |SpeedOptions| ==> SpeedLabel(SpeedOptions[i]) != SpeedLabel(SpeedOptions[j])
  {
  }

  /** `handleDetectionSpeedChange`: a partial holding only the chosen speed. */
  function SpeedChange(selected: Speed): (p: PartialSettings)
    ensures p.detectionSpeed == Some(selected)
    ensures p.showLabels.None? && p.showConfidence.None? && p.enabledClasses.None?
  {
    EmptyPartial.(detectionSpeed := Some(selected))
  }

  /** The value a display checkbox shows. */
  function FlagValue(settings: DetectionSettings, flag: DisplayFlag): bool
  {
    match flag
    case ShowLabels => settings.showLabels
    case ShowConfidence => settings.showConfidence
  }

  /** `handleCheckboxChange`: a partial holding only the toggled flag, negated. */
  function CheckboxChange(settings: DetectionSettings, flag: DisplayFlag): (p: PartialSettings)
    ensures p.detectionSpeed.None? && p.enabledClasses.None?
    ensures flag == ShowLabels ==> p.showLabels == Some(!settings.showLabels) && p.showConfidence.None?
    ensures flag == ShowConfidence ==> p.showConfidence == Some(!settings.showConfidence) && p.showLabels.None?
  {
    match flag
    case ShowLabels => EmptyPartial.(showLabels := Some(!settings.showLabels))
    case ShowConfidence => EmptyPartial.(showConfidence := Some(!settings.showConfidence))
  }

  /** The checkboxes as rendered: "Show Labels" first, then "Show Confidence". */
  const Checkboxes: seq<DisplayFlag> := [ShowLabels, ShowConfidence]
}
