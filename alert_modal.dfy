/**
 * The two classifiers of the safety-alert dialog
 * (client/src/components/AlertModal.tsx): the border colour chosen from the
 * alert's level and the icon chosen from its type. Both ignore case.
 */
module AlertModal {
  import opened DetectionTypes
  import opened Strings

  const Orange: string := "border-safety-orange"
  const Red: string := "border-safety-red"
  const Blue: string := "border-blue-500"
  const Green: string := "border-safety-green"
  const Yellow: string := "border-safety-yellow"

  /** The levels the colour switch names. */
  const KnownLevels: set<string> := {"warning", "error", "danger", "info", "success"}

  /** `getAlertColor`: a switch on the lower-cased level. */
  function GetAlertColor(level: string): (border: string)
    ensures ToLower(level) == "warning" ==> border == Orange
    ensures ToLower(level) == "error" || ToLower(level) == "danger" ==> border == Red
    ensures ToLower(level) == "info" ==> border == Blue
    ensures ToLower(level) == "success" ==> border == Green
    ensures ToLower(level) !in KnownLevels <==> border == Yellow
  {
    var l := ToLower(level);
    if l == "warning" then Orange
    else if l == "error" || l == "danger" then Red
    else if l == "info" then Blue
    else if l == "success" then Green
    else Yellow
  }

  const FireIcon: string := "ri-fire-fill"
  const OxygenIcon: string := "ri-flask-fill"
  const ToolIcon: string := "ri-tools-fill"
  const AlertIcon: string := "ri-alert-fill"

  /** `getAlertIcon`: substring tests on the lower-cased type, fire first,
    * then oxygen, then tool, else the generic icon. */
  function GetAlertIcon(alertType: string): (icon: string)
    ensures Contains(ToLower(alertType), "fire") <==> icon == FireIcon
    ensures !Contains(ToLower(alertType), "fire") && Contains(ToLower(alertType), "oxygen") <==> icon == OxygenIcon
    ensures (!Contains(ToLower(alertType), "fire") && !Contains(ToLower(alertType), "oxygen")
             && Contains(ToLower(alertType), "tool")) <==> icon == ToolIcon
    ensures icon == AlertIcon <==>
              !Contains(ToLower(alertType), "fire") && !Contains(ToLower(alertType), "oxygen")
              && !Contains(ToLower(alertType), "tool")
  {
    var t := ToLower(alertType);
    if Contains(t, "fire") then FireIcon
    else if Contains(t, "oxygen") then OxygenIcon
    else if Contains(t, "tool") then ToolIcon
    else AlertIcon
  }

  /** Texts that differ only in the case of their letters get the same border and icon. */
  lemma IgnoresCase(a: string, b: string)
    requires ToLower(a) == ToLower(b)
    ensures GetAlertColor(a) == GetAlertColor(b)
    ensures GetAlertIcon(a) == GetAlertIcon(b)
  {
  }

  /** The icons in the order the tests are made: fire, oxygen, tool, generic. */
  function IconRank(icon: string): (rank: nat)
    ensures icon == FireIcon ==> rank == 0
    ensures icon == OxygenIcon ==> rank == 1
    ensures icon == ToolIcon ==> rank == 2
    ensures icon == AlertIcon ==> rank == 3
  {
    if icon == FireIcon then 0 else if icon == OxygenIcon then 1 else if icon == ToolIcon then 2 else 3
  }

  /** Surrounding a type with more text never gives it a later icon: a word
    * it contains is still found, and only an earlier test can now succeed. */
  lemma {:induction false} ExtendingTypeKeepsIcon(before: string, alertType: string, after: string)
    ensures IconRank(GetAlertIcon(before + alertType + after)) <= IconRank(GetAlertIcon(alertType))
  {
    var t := ToLower(alertType);
    var w := ToLower(before + alertType + after);
    ToLowerConcat(before, alertType);
    ToLowerConcat(before + alertType, after);
    assert w == ToLower(before) + t + ToLower(after);
    if Contains(t, "fire") {
      ContainsExtends(ToLower(before), t, ToLower(after), "fire");
    }
    if Contains(t, "oxygen") {
      ContainsExtends(ToLower(before), t, ToLower(after), "oxygen");
    }
    if Contains(t, "tool") {
      ContainsExtends(ToLower(before), t, ToLower(after), "tool");
    }
  }

  /** A type that mentions fire anywhere, in any case, gets the fire icon. */
  lemma FireAnywhere(before: string, after: string)
    ensures GetAlertIcon(before + "FIRE" + after) == FireIcon
    ensures GetAlertIcon(before + "fire" + after) == FireIcon
  {
    assert OccursAt(ToLower("FIRE"), "fire", 0);
    assert OccursAt(ToLower("fire"), "fire", 0);
    ExtendingTypeKeepsIcon(before, "FIRE", after);
    ExtendingTypeKeepsIcon(before, "fire", after);
  }
}
