/**
 * The object-class checkboxes of the sidebar
 * (client/src/components/ObjectClasses.tsx).
 */
module ObjectClasses {
  import opened DetectionTypes

  /** `handleClassToggle`: a copy of the record with the one key negated. */
  function ToggleClass(ec: EnabledClasses, c: ClassName): (r: EnabledClasses)
    ensures r.Get(c) == !ec.Get(c)
    ensures forall o: ClassName :: o != c ==> r.Get(o) == ec.Get(o)
  {
    match c
    case Toolbox => ec.(toolbox := !ec.toolbox)
    case OxygenTank => ec.(oxygenTank := !ec.oxygenTank)
    case FireExtinguisher => ec.(fireExtinguisher := !ec.fireExtinguisher)
    case Other => ec.(other := !ec.other)
  }

  /** Two records that agree on every class are the same record. */
  lemma RecordExtensionality(a: EnabledClasses, b: EnabledClasses)
    requires forall c: ClassName :: a.Get(c) == b.Get(c)
    ensures a == b
  {
    assert a.Get(Toolbox) == b.Get(Toolbox);
    assert a.Get(OxygenTank) == b.Get(OxygenTank);
    assert a.Get(FireExtinguisher) == b.Get(FireExtinguisher);
    assert a.Get(Other) == b.Get(Other);
  }

  /** Toggling the same class twice restores the record. */
  lemma ToggleTwice(ec: EnabledClasses, c: ClassName)
    ensures ToggleClass(ToggleClass(ec, c), c) == ec
  {
    RecordExtensionality(ToggleClass(ToggleClass(ec, c), c), ec);
  }

  /** Toggles of two different classes commute. */
  lemma ToggleCommutes(ec: EnabledClasses, c: ClassName, d: ClassName)
    ensures ToggleClass(ToggleClass(ec, c), d) == ToggleClass(ToggleClass(ec, d), c)
  {
    RecordExtensionality(ToggleClass(ToggleClass(ec, c), d), ToggleClass(ToggleClass(ec, d), c));
  }

  /** The checkboxes as rendered, top to bottom: each is bound to one key. */
  const Checkboxes: seq<ClassName> := [Toolbox, OxygenTank, FireExtinguisher, Other]

  /** The `checked` state a checkbox displays. */
  function Checked(ec: EnabledClasses, box: nat): bool
    requires box < |Checkboxes|
  {
    ec.Get(Checkboxes[box])
  }

  /** The record a checkbox's `onChange` hands on. */
  function OnCheckboxChange(ec: EnabledClasses, box: nat): (r: EnabledClasses)
    requires box < |Checkboxes|
    ensures Checked(r, box) == !Checked(ec, box)
    ensures forall other :: 0 <= other < |Checkboxes| && other != box ==> Checked(r, other) == Checked(ec, other)
  {
    ToggleClass(ec, Checkboxes[box])
  }

  /** There is one checkbox per class, so every class can be toggled from the panel. */
  lemma CheckboxPerClass(c: ClassName)
    ensures exists box :: 0 <= box < |Checkboxes| && Checkboxes[box] == c
  {
    match c
    case Toolbox => assert Checkboxes[0] == c;
    case OxygenTank => assert Checkboxes[1] == c;
    case FireExtinguisher => assert Checkboxes[2] == c;
    case Other => assert Checkboxes[3] == c;
  }
}
