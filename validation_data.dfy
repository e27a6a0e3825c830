/**
 * The static range table and the list of optional labels of `validation/data.ts`.
 *
 * The table is an ordered list: the submission pipeline walks its entries in
 * declaration order, and the order decides which label is displayed last.
 */
module ValidationData {

  /** One entry of the range table: field name, display label, inclusive bounds. */
  datatype RangeEntry = RangeEntry(key: string, displayLabel: string, min: real, max: real)

  predicate DistinctKeys(table: seq<RangeEntry>) {
    forall i, j :: 0 <= i < j < |table| ==> table[i].key != table[j].key
  }

  predicate DistinctLabels(table: seq<RangeEntry>) {
    forall i, j :: 0 <= i < j < |table| ==> table[i].displayLabel != table[j].displayLabel
  }

  predicate IsKeyOf(table: seq<RangeEntry>, name: string) {
    exists i :: 0 <= i < |table| && table[i].key == name
  }

  predicate IsLabelOf(table: seq<RangeEntry>, name: string) {
    exists i :: 0 <= i < |table| && table[i].displayLabel == name
  }

  /** `validationRange`, in declaration order. */
  function ValidationRange(): (table: seq<RangeEntry>)
    ensures |table| == 15
  {
    [ RangeEntry("MaternalAge", "Maternal Age", 16.0, 70.0),
      RangeEntry("MaternalHeight", "Maternal Height", 120.0, 200.0),
      RangeEntry("MaternalWeight", "Maternal Weight", 30.0, 100.0),
      RangeEntry("GestationalAge", "Gestational Age", 196.0, 280.0),
      RangeEntry("BiparietalDiameter", "Biparietal Diameter", 60.0, 120.0),
      RangeEntry("HeadCircumference", "Head Circumference", 20.0, 50.0),
      RangeEntry("AbdominalCircumference", "Abdominal Circumference", 20.0, 40.0),
      RangeEntry("FemurLength", "Femur Length", 4.5, 9.0),
      RangeEntry("AmnioticFluidIndex", "Amniotic Fluid Index", 0.0, 40.0),
      RangeEntry("UterineArteryResistanceIndex", "Uterine Artery Resistance Index", 0.3, 1.0),
      RangeEntry("UterineArteryPulsatilityIndex", "Uterine Artery Pulsatility Index", 0.5, 2.5),
      RangeEntry("CerebroplacentalRatio", "Cerebroplacental Ratio", 0.4, 3.8),
      RangeEntry("MiddleCerebralArteryPeakSystolicVelocity", "Middle Cerebral Artery Peak Systolic Velocity", 10.0, 90.0),
      RangeEntry("EstimatedFetalWeight", "Estimated Fetal Weight", 900.0, 4000.0),
      RangeEntry("UmbilicalArterialPulsatilityIndex", "Umbilical Arterial Pulsatility Index", 0.8, 1.4) ]
  }

  /**
   * `optionalValues`.  Its entries are display labels, each the label of a
   * table entry (`OptionalValuesAreLabels`), and none is a field name
   * (`OptionalValuesAreNotKeys`).
   */
  function OptionalValues(): (labels: seq<string>)
    ensures |labels| == 9
  {
    [ "Maternal Height",
      "Maternal Weight",
      "Biparietal Diameter",
      "Amniotic Fluid Index",
      "Uterine Artery Resistance Index",
      "Uterine Artery Pulsatility Index",
      "Cerebroplacental Ratio",
      "Middle Cerebral Artery Peak Systolic Velocity",
      "Umbilical Arterial Pulsatility Index" ]
  }

  /** Every entry of the optional list is the display label of some table entry. */
  lemma OptionalValuesAreLabels()
    ensures forall l :: l in OptionalValues() ==> IsLabelOf(ValidationRange(), l)
  {
    var labels := OptionalValues();
    var t := ValidationRange();
    assert t[1].displayLabel == labels[0] && t[2].displayLabel == labels[1] && t[4].displayLabel == labels[2];
    assert t[8].displayLabel == labels[3] && t[9].displayLabel == labels[4] && t[10].displayLabel == labels[5];
    assert t[11].displayLabel == labels[6] && t[12].displayLabel == labels[7] && t[14].displayLabel == labels[8];
  }

  /** Every entry's bounds are ordered. */
  lemma BoundsOrdered()
    ensures forall i :: 0 <= i < |ValidationRange()| ==> ValidationRange()[i].min <= ValidationRange()[i].max
  {
  }

  /** Two of the listed bounds: femur length [4.5, 9] and estimated fetal weight [900, 4000]. */
  lemma ListedBounds()
    ensures ValidationRange()[7] == RangeEntry("FemurLength", "Femur Length", 4.5, 9.0)
    ensures ValidationRange()[13] == RangeEntry("EstimatedFetalWeight", "Estimated Fetal Weight", 900.0, 4000.0)
  {
  }

  /** No two entries share a field name (checked in three bands of rows). */
  lemma KeysDistinct()
    ensures DistinctKeys(ValidationRange())
  {
    KeysDistinctFrom(0, 5);
    KeysDistinctFrom(5, 10);
    KeysDistinctFrom(10, 15);
  }

  lemma KeysDistinctFrom(lo: nat, hi: nat)
    requires (lo, hi) in {(0, 5), (5, 10), (10, 15)}
    ensures forall i, j :: lo <= i < hi && i < j < |ValidationRange()| ==> ValidationRange()[i].key != ValidationRange()[j].key
  {
  }

  /** No two entries share a display label (checked in three bands of rows). */
  lemma LabelsDistinct()
    ensures DistinctLabels(ValidationRange())
  {
    LabelsDistinctFrom(0, 5);
    LabelsDistinctFrom(5, 10);
    LabelsDistinctFrom(10, 15);
  }

  lemma LabelsDistinctFrom(lo: nat, hi: nat)
    requires (lo, hi) in {(0, 5), (5, 10), (10, 15)}
    ensures forall i, j :: lo <= i < hi && i < j < |ValidationRange()| ==> ValidationRange()[i].displayLabel != ValidationRange()[j].displayLabel
  {
  }

  /**
   * The optional list holds labels where the validator looks up field names:
   * no entry of the list is a field name of the table.
   */
  lemma OptionalValuesAreNotKeys()
    ensures forall l :: l in OptionalValues() ==> !IsKeyOf(ValidationRange(), l)
  {
  }

  /** A label names one table entry at most, so a label shown to the user identifies its entry. */
  lemma LabelIdentifiesEntry(i: nat, j: nat)
    requires i < |ValidationRange()| && j < |ValidationRange()|
    requires ValidationRange()[i].displayLabel == ValidationRange()[j].displayLabel
    ensures i == j
  {
    LabelsDistinct();
  }
}
