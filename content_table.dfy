/**
 * The input table of `components/AIModelContentTable.tsx`: the field lists, the
 * widget chosen for each field, the label shown above it, the record update on
 * every edit, and the split of a section's fields into three input groups.
 */
module ContentTable {
  import opened Wrappers
  import opened JsValues

  // -------------------------------------------------------------- field lists

  function CompulsoryFields(): seq<string> {
    [ "Gender", "MaternalAge", "HeadCircumference", "AbdominalCircumference",
      "FemurLength", "GestationalAge", "EstimatedFetalWeight" ]
  }

  function MaternalFields(): (fields: seq<string>)
    ensures forall k :: k in fields ==> k !in CompulsoryFields()
  {
    [ "MaternalHeight", "MaternalWeight", "LastPregnancySga", "LastPregnancyFgr",
      "LastPregnancyNormal", "PreviousFailedPregnancy", "HighRiskPretermPreeclampsia",
      "PregestationalDiabetes", "GestationalDiabetes", "Smoking" ]
  }

  /** The three section lists are pairwise disjoint. */
  function FetusFields(): (fields: seq<string>)
    ensures forall k :: k in fields ==> k !in CompulsoryFields() && k !in MaternalFields()
  {
    [ "PlacentaSite", "BiparietalDiameter", "CerebroplacentalRatio", "AmnioticFluid",
      "UterineArteryResistanceIndex", "UterineArteryPulsatilityIndex",
      "UmbilicalArterialPulsatilityIndex", "MiddleCerebralArteryPeakSystolicVelocity" ]
  }

  /** Every field the page renders, section by section. */
  function SectionFields(): seq<string> {
    CompulsoryFields() + MaternalFields() + FetusFields()
  }

  /** `fieldDisplayNameMap`; `SectionFieldsWellNamed` shows it names every field of every section. */
  function FieldDisplayNameMap(): map<string, string> {
    map[
      "Gender" := "Gender",
      "MaternalAge" := "Maternal Age",
      "HeadCircumference" := "Head Circumference (cm)",
      "AbdominalCircumference" := "Abdominal Circumference (cm)",
      "FemurLength" := "Femur Length (cm)",
      "GestationalAge" := "Gestational Age",
      "EstimatedFetalWeight" := "Estimated Fetal Weight (grams)",
      "MaternalHeight" := "Maternal Height (cm)",
      "MaternalWeight" := "Maternal Weight (kg)",
      "LastPregnancySga" := "Last Pregnancy SGA",
      "LastPregnancyFgr" := "Last Pregnancy FGR",
      "LastPregnancyNormal" := "Last Pregnancy Normal",
      "PreviousFailedPregnancy" := "Previous Failed Pregnancy",
      "HighRiskPretermPreeclampsia" := "High Risk Preterm Preeclampsia",
      "PregestationalDiabetes" := "Pregestational Diabetes",
      "GestationalDiabetes" := "Gestational Diabetes",
      "Smoking" := "Smoking",
      "PlacentaSite" := "Placenta Site",
      "BiparietalDiameter" := "Biparietal Diameter (mm)",
      "CerebroplacentalRatio" := "Cerebroplacental Ratio",
      "AmnioticFluid" := "Amniotic Fluid",
      "UterineArteryResistanceIndex" := "Uterine Artery Resistance Index",
      "UterineArteryPulsatilityIndex" := "Uterine Artery Pulsatility Index",
      "UmbilicalArterialPulsatilityIndex" := "Umbilical Arterial Pulsatility Index",
      "MiddleCerebralArteryPeakSystolicVelocity" := "Middle Cerebral Artery Peak Systolic Velocity (cm/s)"
    ]
  }

  function TrueFalseFields(): seq<string> {
    [ "LastPregnancySga", "LastPregnancyFgr", "LastPregnancyNormal", "PreviousFailedPregnancy",
      "HighRiskPretermPreeclampsia", "PregestationalDiabetes", "GestationalDiabetes", "Smoking" ]
  }

  /** One entry of `dropdownFields`: a field and its options, in declaration order. */
  datatype Dropdown = Dropdown(key: string, options: seq<string>)

  function DropdownFields(): seq<Dropdown> {
    [ Dropdown("Gender", ["Male", "Female"]),
      Dropdown("PlacentaSite", [ "Anterior Placenta", "Fundal Placenta", "Lateral Placenta",
                                 "Placenta Previa", "Posterior Placenta" ]),
      Dropdown("AmnioticFluid", ["Oligohydramnios", "Normal", "Polyhydramnios"]) ]
  }

  /** `Object.keys(dropdownFields)`; no dropdown field is also a true/false field. */
  function DropdownKeys(): (keys: seq<string>)
    ensures |keys| == |DropdownFields()|
    ensures forall i :: 0 <= i < |keys| ==> keys[i] == DropdownFields()[i].key
    ensures forall k :: k in keys ==> k !in TrueFalseFields()
  {
    ["Gender", "PlacentaSite", "AmnioticFluid"]
  }

  /**
   * `dropdownFields[key]`, which is undefined for a key that is not listed.
   * JavaScript also finds inherited names such as "constructor" on the object
   * literal; the page only renders the section fields, none of which is such
   * a name, so they are not modelled.
   */
  function DropdownOptions(key: string): (options: Option<seq<string>>)
    ensures options.Some? <==> key in DropdownKeys()
  {
    if key == "Gender" then Some(DropdownFields()[0].options)
    else if key == "PlacentaSite" then Some(DropdownFields()[1].options)
    else if key == "AmnioticFluid" then Some(DropdownFields()[2].options)
    else None
  }

  // ------------------------------------------------------------- record update

  /** `handleInputChange`: `{...prev, [id]: value}`. */
  function InputChanged(form: Record, id: string, value: string): (r: Record)
    ensures Lookup(r, id) == Str(value)
    ensures forall k :: k != id ==> Lookup(r, k) == Lookup(form, k)
    ensures r.Keys == form.Keys + {id}
  {
    form[id := Str(value)]
  }

  // ---------------------------------------------------------------- widgets

  const REQUIRED_PLACEHOLDER := "Enter value (required)"
  const OPTIONAL_PLACEHOLDER := "Optional"

  /** The input element `renderInputField` returns for a field. */
  datatype Widget =
    | TrueFalseSelect                   // options "", "true", "false"
    | DropdownSelect(options: seq<string>)  // option "" and the listed options
    | TextInput(placeholder: string)

  /**
   * `renderInputField`: a true/false select for true/false fields, else a
   * dropdown for listed dropdown fields, else a text input whose placeholder asks
   * for a value exactly when the field is compulsory.
   */
  function RenderInputField(key: string): (w: Widget)
    ensures w.TrueFalseSelect? <==> key in TrueFalseFields()
    ensures w.DropdownSelect? <==> key !in TrueFalseFields() && key in DropdownKeys()
    ensures w.DropdownSelect? ==> Some(w.options) == DropdownOptions(key)
    ensures w.TextInput? ==> (w.placeholder == REQUIRED_PLACEHOLDER <==> key in CompulsoryFields())
  {
    if key in TrueFalseFields() then TrueFalseSelect
    else if DropdownOptions(key).Some? then DropdownSelect(DropdownOptions(key).value)
    else TextInput(if key in CompulsoryFields() then REQUIRED_PLACEHOLDER else OPTIONAL_PLACEHOLDER)
  }

  /** The values a change event of the widget can carry. */
  predicate CanProduce(w: Widget, value: string) {
    match w
    case TrueFalseSelect => value == "" || value == "true" || value == "false"
    case DropdownSelect(options) => value == "" || value in options
    case TextInput(_) => true
  }

  /** A true/false field can only ever be set to "", "true" or "false", and to each of them. */
  lemma TrueFalseFieldValues(key: string, value: string)
    requires key in TrueFalseFields()
    ensures CanProduce(RenderInputField(key), value) <==> value in ["", "true", "false"]
  {
  }

  /** A dropdown field can only be set to "" or one of its listed options. */
  lemma DropdownFieldValues(key: string, value: string)
    requires key in DropdownKeys()
    ensures CanProduce(RenderInputField(key), value) <==> value == "" || value in DropdownOptions(key).value
  {
  }

  // ------------------------------------------------------------------- labels

  /** `key.replace(/([A-Z])/g, ' $1')`: a space before every capital letter. */
  function SpaceBeforeCapitals(key: string): string {
    if key == [] then []
    else (if 'A' <= key[0] <= 'Z' then [' ', key[0]] else [key[0]]) + SpaceBeforeCapitals(key[1..])
  }

  const REQUIRED_MARKER := " *"

  /** The label text above a field: its display name (or the spaced key) and the required marker. */
  function FieldLabel(key: string): string {
    var names := FieldDisplayNameMap();
    var name := if key in names && names[key] != "" then names[key] else SpaceBeforeCapitals(key);
    name + (if key in CompulsoryFields() then REQUIRED_MARKER else "")
  }

  predicate HasRequiredMarker(text: string) {
    |text| >= 2 && text[|text| - 2..] == REQUIRED_MARKER
  }

  /** `key` has a display name, which is not empty and does not end in the marker's '*'. */
  predicate WellNamed(key: string) {
    var names := FieldDisplayNameMap();
    key in names && names[key] != "" && names[key][|names[key]| - 1] != '*'
  }

  lemma CompulsoryWellNamed()
    ensures forall k :: k in CompulsoryFields() ==> WellNamed(k)
  {
  }

  lemma MaternalWellNamed()
    ensures forall k :: k in MaternalFields() ==> WellNamed(k)
  {
  }

  lemma FetusWellNamed()
    ensures forall k :: k in FetusFields() ==> WellNamed(k)
  {
  }

  /** Every field of every section has a non-empty display name without a trailing '*'. */
  lemma SectionFieldsWellNamed()
    ensures forall k :: k in SectionFields() ==> WellNamed(k)
  {
    CompulsoryWellNamed();
    MaternalWellNamed();
    FetusWellNamed();
  }

  /** A rendered field carries the required marker exactly when it is compulsory. */
  lemma {:induction false} RequiredMarkerIffCompulsory(key: string)
    requires key in SectionFields()
    ensures HasRequiredMarker(FieldLabel(key)) <==> key in CompulsoryFields()
  {
    SectionFieldsWellNamed();
    var names := FieldDisplayNameMap();
    var name := names[key];
    if key !in CompulsoryFields() {
      assert FieldLabel(key) == name;
      assert name[|name| - 1] != '*';
    } else {
      assert FieldLabel(key) == name + REQUIRED_MARKER;
    }
  }

  // -------------------------------------------------------------- input groups

  /** The three input groups of a section. */
  datatype InputType = DropdownGroup | TextGroup | TrueFalseGroup

  /** The test each filter of `getFieldGroupsByInputType` applies before it consults `rendered`. */
  predicate OfType(key: string, t: InputType) {
    match t
    case DropdownGroup => key in DropdownKeys()
    case TextGroup => key !in TrueFalseFields() && key !in DropdownKeys()
    case TrueFalseGroup => key in TrueFalseFields()
  }

  /**
   * The fields of `fields` of input type `t` that are not in `seen`, each at its
   * first occurrence, in the order of `fields`.
   */
  function FirstOfType(fields: seq<string>, t: InputType, seen: set<string>): (group: seq<string>)
    ensures forall k :: k in group <==> k in fields && OfType(k, t) && k !in seen
  {
    if fields == [] then []
    else
      var prev := FirstOfType(fields[..|fields| - 1], t, seen);
      var key := fields[|fields| - 1];
      assert forall k :: k in fields <==> k in fields[..|fields| - 1] || k == key;
      if OfType(key, t) && key !in seen && key !in prev then prev + [key] else prev
  }

  /** The group of type `t` of a section. */
  function Group(fields: seq<string>, t: InputType): seq<string> {
    FirstOfType(fields, t, {})
  }

  predicate NoDuplicates(s: seq<string>) {
    forall i, j :: 0 <= i < j < |s| ==> s[i] != s[j]
  }

  /** `a` is `b` with some elements left out: the elements of `a` keep their order in `b`. */
  predicate IsSubsequence(a: seq<string>, b: seq<string>)
    decreases |b|
  {
    if a == [] then true
    else if b == [] then false
    else if a[|a| - 1] == b[|b| - 1] then IsSubsequence(a[..|a| - 1], b[..|b| - 1])
    else IsSubsequence(a, b[..|b| - 1])
  }

  /**
   * One `fields.filter(...)` of `getFieldGroupsByInputType`: keep a key of type
   * `t` that is not yet in `rendered`, and add it to `rendered`.
   */
  method FilterUnrendered(fields: seq<string>, t: InputType, rendered: set<string>)
    returns (group: seq<string>, renderedAfter: set<string>)
    ensures group == FirstOfType(fields, t, rendered)
    ensures forall k :: k in renderedAfter <==> k in rendered || k in group
  {
    group := [];
    renderedAfter := rendered;
    for i := 0 to |fields|
      invariant group == FirstOfType(fields[..i], t, rendered)
      invariant forall k :: k in renderedAfter <==> k in rendered || k in group
    {
      var key := fields[i];
      assert fields[..i + 1][..i] == fields[..i];
      if OfType(key, t) && key !in renderedAfter {
        renderedAfter := renderedAfter + {key};
        group := group + [key];
      }
    }
    assert fields[..|fields|] == fields;
  }

  /** Keys of other types in `seen` do not change a group. */
  lemma {:induction false} OtherTypesIgnored(fields: seq<string>, t: InputType, seen: set<string>)
    requires forall k :: k in seen ==> !OfType(k, t)
    ensures FirstOfType(fields, t, seen) == Group(fields, t)
  {
    if fields != [] {
      OtherTypesIgnored(fields[..|fields| - 1], t, seen);
    }
  }

  /**
   * `getFieldGroupsByInputType`: the dropdown, text and true/false filters run
   * in that order over `fields`, sharing one `rendered` set.
   */
  method GetFieldGroupsByInputType(fields: seq<string>)
    returns (dropdown: seq<string>, text: seq<string>, trueFalse: seq<string>)
    ensures dropdown == Group(fields, DropdownGroup)
    ensures text == Group(fields, TextGroup)
    ensures trueFalse == Group(fields, TrueFalseGroup)
  {
    var rendered: set<string> := {};
    var rendered1, rendered2;
    dropdown, rendered1 := FilterUnrendered(fields, DropdownGroup, rendered);
    text, rendered2 := FilterUnrendered(fields, TextGroup, rendered1);
    trueFalse, rendered := FilterUnrendered(fields, TrueFalseGroup, rendered2);
    // what earlier filters rendered cannot be of a later filter's type
    OtherTypesIgnored(fields, TextGroup, rendered1);
    OtherTypesIgnored(fields, TrueFalseGroup, rendered2);
  }

  /** Each field lands in exactly one group: the groups are disjoint and together hold every field. */
  lemma GroupsPartitionFields(fields: seq<string>)
    ensures forall k :: k in Group(fields, DropdownGroup) ==> k !in Group(fields, TextGroup) && k !in Group(fields, TrueFalseGroup)
    ensures forall k :: k in Group(fields, TextGroup) ==> k !in Group(fields, TrueFalseGroup)
    ensures forall k :: k in fields <==> k in Group(fields, DropdownGroup) || k in Group(fields, TextGroup) || k in Group(fields, TrueFalseGroup)
  {
  }

  /** A key given several times appears once in its group. */
  lemma {:induction false} GroupHasNoDuplicates(fields: seq<string>, t: InputType)
    ensures NoDuplicates(Group(fields, t))
  {
    if fields != [] {
      GroupHasNoDuplicates(fields[..|fields| - 1], t);
    }
  }

  lemma {:induction false} SubsequenceDropLast(a: seq<string>, b: seq<string>)
    requires a != [] && IsSubsequence(a, b)
    ensures IsSubsequence(a[..|a| - 1], b)
    decreases |b|
  {
    var a' := a[..|a| - 1];
    if a' != [] && b != [] {
      if a[|a| - 1] == b[|b| - 1] {
        if a'[|a'| - 1] == b[|b| - 1] {
          assert a'[..|a'| - 1] == a[..|a| - 2];
          SubsequenceDropLast(a', b[..|b| - 1]);
        }
      } else {
        SubsequenceDropLast(a, b[..|b| - 1]);
        if a'[|a'| - 1] == b[|b| - 1] {
          SubsequenceDropLast(a', b[..|b| - 1]);
        }
      }
    }
  }

  lemma {:induction false} SubsequenceExtend(a: seq<string>, b: seq<string>, x: string)
    requires IsSubsequence(a, b)
    ensures IsSubsequence(a, b + [x])
  {
    var b' := b + [x];
    assert b'[..|b'| - 1] == b;
    if a != [] && a[|a| - 1] == x {
      SubsequenceDropLast(a, b);
    }
  }

  /** Each group keeps the relative order its fields have in the input. */
  lemma {:induction false} GroupPreservesOrder(fields: seq<string>, t: InputType)
    ensures IsSubsequence(Group(fields, t), fields)
  {
    if fields != [] {
      var init := fields[..|fields| - 1];
      var key := fields[|fields| - 1];
      var prev := Group(init, t);
      GroupPreservesOrder(init, t);
      assert fields == init + [key];
      if OfType(key, t) && key !in prev {
        var g := prev + [key];
        assert g[..|g| - 1] == prev;
      } else {
        SubsequenceExtend(prev, init, key);
      }
    }
  }

  /** The dropdown group is exactly the input's dropdown fields, the true/false group its true/false fields. */
  lemma GroupMembership(fields: seq<string>, k: string)
    ensures k in Group(fields, DropdownGroup) <==> k in fields && k in DropdownKeys()
    ensures k in Group(fields, TrueFalseGroup) <==> k in fields && k in TrueFalseFields()
    ensures k in Group(fields, TextGroup) <==> k in fields && k !in DropdownKeys() && k !in TrueFalseFields()
  {
  }
}
