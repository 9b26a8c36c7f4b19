/**
 * The page that owns the input mode, the detection settings and the
 * settings dialog (client/src/pages/Home.tsx).
 */
module Home {
  import opened DetectionTypes
  import DetectionSettingsPanel

  const AllEnabled: EnabledClasses := EnabledClasses(true, true, true, true)

  /** The detection settings the page starts with. */
  const InitialDetectionSettings: DetectionSettings :=
    DetectionSettings(Balanced, true, true, AllEnabled)

  /** The application settings the page starts with. */
  const InitialAppSettings: AppSettings :=
    AppSettings("YOLOv8n (Default)", "http://localhost:8000", "720p", false, true)

  /** `{...prev, ...partial}`: a field present in the partial replaces the
    * previous one, an absent field keeps it. `enabledClasses` is one field,
    * so a present record replaces the whole previous record. */
  function MergeSettings(prev: DetectionSettings, p: PartialSettings): (r: DetectionSettings)
    ensures p.detectionSpeed.Some? ==> r.detectionSpeed == p.detectionSpeed.value
    ensures p.detectionSpeed.None? ==> r.detectionSpeed == prev.detectionSpeed
    ensures p.showLabels.Some? ==> r.showLabels == p.showLabels.value
    ensures p.showLabels.None? ==> r.showLabels == prev.showLabels
    ensures p.showConfidence.Some? ==> r.showConfidence == p.showConfidence.value
    ensures p.showConfidence.None? ==> r.showConfidence == prev.showConfidence
    ensures p.enabledClasses.Some? ==> r.enabledClasses == p.enabledClasses.value
    ensures p.enabledClasses.None? ==> r.enabledClasses == prev.enabledClasses
  {
    DetectionSettings(
      if p.detectionSpeed.Some? then p.detectionSpeed.value else prev.detectionSpeed,
      if p.showLabels.Some? then p.showLabels.value else prev.showLabels,
      if p.showConfidence.Some? then p.showConfidence.value else prev.showConfidence,
      if p.enabledClasses.Some? then p.enabledClasses.value else prev.enabledClasses)
  }

  /** The partial whose fields are those of `q`, falling back to `p`'s. */
  function Override(p: PartialSettings, q: PartialSettings): PartialSettings
  {
    PartialSettings(
      if q.detectionSpeed.Some? then q.detectionSpeed else p.detectionSpeed,
      if q.showLabels.Some? then q.showLabels else p.showLabels,
      if q.showConfidence.Some? then q.showConfidence else p.showConfidence,
      if q.enabledClasses.Some? then q.enabledClasses else p.enabledClasses)
  }

  /** Merging an empty partial leaves the settings unchanged. */
  lemma MergeEmpty(prev: DetectionSettings)
    ensures MergeSettings(prev, EmptyPartial) == prev
  {
  }

  /** Two successive merges are one merge of the overriding partial. */
  lemma MergeTwice(prev: DetectionSettings, p: PartialSettings, q: PartialSettings)
    ensures MergeSettings(MergeSettings(prev, p), q) == MergeSettings(prev, Override(p, q))
  {
  }

  /** Merging the same partial again changes nothing. */
  lemma MergeIdempotent(prev: DetectionSettings, p: PartialSettings)
    ensures MergeSettings(MergeSettings(prev, p), p) == MergeSettings(prev, p)
  {
  }

  /** A display checkbox of the panel, once its partial is merged, negates
    * exactly its own flag; clicking it twice restores the settings. */
  lemma PanelCheckboxFlips(s: DetectionSettings, flag: DetectionSettingsPanel.DisplayFlag)
    ensures var r := MergeSettings(s, DetectionSettingsPanel.CheckboxChange(s, flag));
            && DetectionSettingsPanel.FlagValue(r, flag) == !DetectionSettingsPanel.FlagValue(s, flag)
            && (forall other :: other != flag ==>
                  DetectionSettingsPanel.FlagValue(r, other) == DetectionSettingsPanel.FlagValue(s, other))
            && r.detectionSpeed == s.detectionSpeed && r.enabledClasses == s.enabledClasses
    ensures var r := MergeSettings(s, DetectionSettingsPanel.CheckboxChange(s, flag));
            MergeSettings(r, DetectionSettingsPanel.CheckboxChange(r, flag)) == s
  {
  }

  /** The panel's speed selector, once its partial is merged, sets the speed and nothing else. */
  lemma PanelSpeedSets(s: DetectionSettings, selected: Speed)
    ensures MergeSettings(s, DetectionSettingsPanel.SpeedChange(selected)) == s.(detectionSpeed := selected)
  {
  }

  /** The session id the sidebar shows: `sessionId || ""`. */
  function SidebarSessionId(sessionId: Option<string>): (shown: string)
    ensures Truthy(sessionId) ==> shown == sessionId.value
    ensures shown == "" <==> !Truthy(sessionId)
  {
    if Truthy(sessionId) then sessionId.value else ""
  }

  /** The page's state. Each method is one event handler. */
  class HomePage {
    var inputMode: InputMode
    var isSettingsModalOpen: bool
    var detectionSettings: DetectionSettings
    var settings: AppSettings

    constructor ()
      ensures inputMode == Webcam && !isSettingsModalOpen
      ensures detectionSettings == InitialDetectionSettings
      ensures settings == InitialAppSettings
    {
      inputMode := Webcam;
      isSettingsModalOpen := false;
      detectionSettings := InitialDetectionSettings;
      settings := InitialAppSettings;
    }

    /** `toggleSettingsModal`. */
    method ToggleSettingsModal()
      modifies this
      ensures isSettingsModalOpen == !old(isSettingsModalOpen)
      ensures inputMode == old(inputMode) && detectionSettings == old(detectionSettings)
      ensures settings == old(settings)
    {
      isSettingsModalOpen := !isSettingsModalOpen;
    }

    /** `handleSettingsChange`: store the saved settings and close the dialog. */
    method HandleSettingsChange(newSettings: AppSettings)
      modifies this
      ensures settings == newSettings && !isSettingsModalOpen
      ensures inputMode == old(inputMode) && detectionSettings == old(detectionSettings)
    {
      settings := newSettings;
      isSettingsModalOpen := false;
    }

    /** `handleDetectionSettingsChange`: shallow merge of the partial. */
    method HandleDetectionSettingsChange(p: PartialSettings)
      modifies this
      ensures detectionSettings == MergeSettings(old(detectionSettings), p)
      ensures inputMode == old(inputMode) && settings == old(settings)
      ensures isSettingsModalOpen == old(isSettingsModalOpen)
    {
      detectionSettings := MergeSettings(detectionSettings, p);
    }

    /** The sidebar's input-mode switch (`setInputMode`). */
    method SetInputMode(mode: InputMode)
      modifies this
      ensures inputMode == mode
      ensures detectionSettings == old(detectionSettings) && settings == old(settings)
      ensures isSettingsModalOpen == old(isSettingsModalOpen)
    {
      inputMode := mode;
    }
  }
}
