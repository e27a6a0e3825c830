/**
 * The form component of `components/AIModelContent.tsx`: the two validators,
 * the normalization of boolean-like answers, and `handleFormSubmit`, which runs
 * presence check, range check, normalization, imputation and classification in
 * that order and reports the outcome through the page's four flags.
 *
 * The two remote services are parameters: total functions from the posted
 * record to `Ok(response)` or `Fail` (a rejected request).  Any behaviour of the
 * services is thereby allowed, and every property below holds for all of them.
 */
module ModelContent {
  import opened Wrappers
  import opened JsValues
  import opened ValidationData
  import opened ContentTable
  import ModelPage

  // ------------------------------------------------------------ presence check

  /** The fields `handleFormSubmit` insists on. */
  function RequiredFields(): seq<string> {
    [ "MaternalAge", "Gender", "EstimatedFetalWeight", "FemurLength",
      "GestationalAge", "HeadCircumference", "AbdominalCircumference" ]
  }

  /** `requiredFields.filter((field) => formData[field] === undefined)` */
  function MissingFields(form: Record, required: seq<string>): (missing: seq<string>)
    ensures forall f :: f in missing <==> f in required && Lookup(form, f) == Undef
    ensures |missing| <= |required|
  {
    if required == [] then []
    else (if Lookup(form, required[0]) == Undef then [required[0]] else []) + MissingFields(form, required[1..])
  }

  /**
   * `validateFormData`: false exactly when a required field is `undefined`.  A
   * cleared field holds "" and counts as present.
   */
  function ValidateFormData(form: Record, required: seq<string>): (ok: bool)
    ensures ok <==> forall f :: f in required ==> Lookup(form, f) != Undef
  {
    var missing := MissingFields(form, required);
    if |missing| > 0 then
      assert missing[0] in missing;
      false
    else true
  }

  // --------------------------------------------------------------- range check

  /**
   * `validateFeatureInRange`: false exactly when the value converts to a number
   * outside the inclusive bounds; values converting to NaN (`undefined`,
   * non-numeric text) pass, whatever the optional list says.
   */
  function ValidateFeatureInRange(form: Record, featureName: string, min: real, max: real): (ok: bool)
    ensures ok <==> ToNumber(Lookup(form, featureName)).None?
                    || min <= ToNumber(Lookup(form, featureName)).value <= max
  {
    var value := Lookup(form, featureName);
    if featureName in OptionalValues() && value == Undef then true
    else if LessThan(value, min) || GreaterThan(value, max) then false
    else true
  }

  predicate EntryPasses(form: Record, e: RangeEntry) {
    ValidateFeatureInRange(form, e.key, e.min, e.max)
  }

  /** The labels of the failing entries of `table`, in table order. */
  function FailingLabels(form: Record, table: seq<RangeEntry>): (labels: seq<string>)
    ensures |labels| <= |table|
  {
    if table == [] then []
    else
      var last := table[|table| - 1];
      FailingLabels(form, table[..|table| - 1]) + (if EntryPasses(form, last) then [] else [last.displayLabel])
  }

  /** Extending a prefix of the table by one entry adds that entry's label when it fails. */
  lemma FailingLabelsPrefix(form: Record, table: seq<RangeEntry>, i: nat)
    requires i < |table|
    ensures FailingLabels(form, table[..i + 1])
            == FailingLabels(form, table[..i]) + (if EntryPasses(form, table[i]) then [] else [table[i].displayLabel])
  {
    assert table[..i + 1][..i] == table[..i];
  }

  /** The range check fails exactly when some entry fails. */
  lemma {:induction false} NoFailuresIffAllPass(form: Record, table: seq<RangeEntry>)
    ensures FailingLabels(form, table) == [] <==> forall i :: 0 <= i < |table| ==> EntryPasses(form, table[i])
  {
    if table != [] {
      var init := table[..|table| - 1];
      NoFailuresIffAllPass(form, init);
      assert forall i :: 0 <= i < |init| ==> init[i] == table[i];
    }
  }

  /** The label that stays displayed belongs to the last failing entry in table order. */
  lemma {:induction false} LastFailureIsLastLabel(form: Record, table: seq<RangeEntry>)
    requires FailingLabels(form, table) != []
    ensures exists i :: 0 <= i < |table| && !EntryPasses(form, table[i])
                        && Last(FailingLabels(form, table)) == table[i].displayLabel
                        && forall j :: i < j < |table| ==> EntryPasses(form, table[j])
  {
    var n := |table|;
    var init := table[..n - 1];
    if EntryPasses(form, table[n - 1]) {
      assert FailingLabels(form, table) == FailingLabels(form, init);
      LastFailureIsLastLabel(form, init);
      var i :| 0 <= i < |init| && !EntryPasses(form, init[i])
               && Last(FailingLabels(form, init)) == init[i].displayLabel
               && forall j :: i < j < |init| ==> EntryPasses(form, init[j]);
      assert forall j :: i < j < n ==> EntryPasses(form, table[j]) by {
        forall j | i < j < n
          ensures EntryPasses(form, table[j])
        {
          if j < n - 1 {
            assert table[j] == init[j];
          }
        }
      }
      assert table[i] == init[i];
    } else {
      assert Last(FailingLabels(form, table)) == table[n - 1].displayLabel;
    }
  }

  function Last(s: seq<string>): string
    requires s != []
  {
    s[|s| - 1]
  }

  /** A cleared field ("") converts to 0, so it fails any entry whose minimum is above 0. */
  lemma ClearedFieldFails(form: Record, e: RangeEntry)
    requires e.min > 0.0
    ensures !EntryPasses(form[e.key := Str("")], e)
  {
    BlankIsZero("");
  }

  /** Text holding a foreign character is accepted by every entry: NaN compares false against both bounds. */
  lemma NonNumericTextPasses(form: Record, e: RangeEntry, i: nat)
    requires e.key in form && form[e.key].Str? && i < |form[e.key].s| && IsForeign(form[e.key].s[i])
    ensures EntryPasses(form, e)
  {
    ForeignIsNaN(form[e.key].s, i);
  }

  /** The optional-label test never fires for a field name of the table. */
  lemma OptionalBranchNeverFires(key: string)
    requires IsKeyOf(ValidationRange(), key)
    ensures key !in OptionalValues()
  {
    OptionalValuesAreNotKeys();
  }

  // ------------------------------------------------------------- normalization

  /** The boolean-like fields whose answers are sent as 0/1. */
  function PredefinedKeys(): seq<string> {
    [ "EssentialHypertension", "GestationalDiabetes", "PregestationalDiabetes",
      "PregnancyInducedHypertension", "Smoking" ]
  }

  /** The rewrite the normalization loop applies to one key. */
  function NormalizeValue(key: string, v: Value): Value {
    if key in PredefinedKeys() && v == Str("") then Num(0.0)
    else if key in PredefinedKeys() && v == Str("false") then Num(0.0)
    else if key in PredefinedKeys() && v == Str("true") then Num(1.0)
    else v
  }

  /** The record after the normalization loop. */
  function Normalize(form: Record): Record {
    map k | k in form :: NormalizeValue(k, form[k])
  }

  /**
   * Normalization adds no key, rewrites "", "false" and "true" of the predefined
   * keys to 0, 0 and 1, and leaves every other key and value unchanged.
   */
  lemma NormalizeEffect(form: Record, k: string)
    ensures Normalize(form).Keys == form.Keys
    ensures k in form && k in PredefinedKeys() && form[k] in {Str(""), Str("false")} ==> Normalize(form)[k] == Num(0.0)
    ensures k in form && k in PredefinedKeys() && form[k] == Str("true") ==> Normalize(form)[k] == Num(1.0)
    ensures k in form && (k !in PredefinedKeys() || form[k] !in {Str(""), Str("false"), Str("true")}) ==> Normalize(form)[k] == form[k]
  {
  }

  /** Normalizing twice is normalizing once. */
  lemma NormalizeIdempotent(form: Record)
    ensures Normalize(Normalize(form)) == Normalize(form)
  {
  }

  /**
   * A value that a true/false select produced is sent as 0 or 1 when its field is
   * predefined, and as the unchanged string otherwise.
   */
  lemma SelectedAnswerEncoding(form: Record, key: string, value: string)
    requires key in TrueFalseFields() && CanProduce(RenderInputField(key), value)
    ensures var sent := Normalize(InputChanged(form, key, value))[key];
            if key in PredefinedKeys() then sent == Num(if value == "true" then 1.0 else 0.0)
            else sent == Str(value)
  {
  }

  /** Only three of the eight true/false fields are rewritten to 0/1. */
  lemma RewrittenTrueFalseFields(k: string)
    requires k in TrueFalseFields()
    ensures k in PredefinedKeys() <==> k in ["PregestationalDiabetes", "GestationalDiabetes", "Smoking"]
  {
  }

  /** The other two predefined keys belong to no section, so the form never holds them. */
  lemma UnrenderedPredefinedKeys()
    ensures "EssentialHypertension" !in SectionFields()
    ensures "PregnancyInducedHypertension" !in SectionFields()
  {
    NotInSections("EssentialHypertension");
    NotInSections("PregnancyInducedHypertension");
  }

  lemma NotInSections(key: string)
    requires key in PredefinedKeys() && key !in TrueFalseFields()
    ensures key !in SectionFields()
  {
    assert key !in CompulsoryFields();
    assert key !in MaternalFields();
    assert key !in FetusFields();
  }

  // --------------------------------------------------------------- submission

  /** A remote call: `Ok` with the response body, or `Fail` when the request rejected. */
  datatype Remote<T> = Ok(data: T) | Fail

  /** A POST request sent by `handleFormSubmit`, with the body it carried. */
  datatype Request = Impute(body: Record) | Classify(body: Record)

  /** How a submission ended. */
  datatype Outcome =
    | MissingRequired          // presence check failed
    | OutOfRange(shown: string) // range check failed; the label left in `valueError`
    | RemoteFailure            // a remote call rejected
    | Classified(isSGA: bool)  // both calls succeeded

  /** A submission: its outcome, the requests it sent, and the form record afterwards. */
  datatype Submission = Submission(outcome: Outcome, requests: seq<Request>, form: Record)

  /**
   * The data flow of `handleFormSubmit`, step by step, for the required field
   * list `required` and the range table `table` (which the component takes to
   * be `RequiredFields()` and `ValidationRange()`).
   */
  function Submit(form: Record, required: seq<string>, table: seq<RangeEntry>,
                  impute: Record -> Remote<Record>, classify: Record -> Remote<Value>): Submission {
    if !ValidateFormData(form, required) then
      Submission(MissingRequired, [], form)
    else
      var failures := FailingLabels(form, table);
      if failures != [] then
        Submission(OutOfRange(Last(failures)), [], form)
      else
        Send(Normalize(form), impute, classify)
  }

  /** The two remote calls of a submission that passed both checks, on the normalized record. */
  function Send(body: Record, impute: Record -> Remote<Record>, classify: Record -> Remote<Value>): Submission {
    match impute(body)
    case Fail => Submission(RemoteFailure, [Impute(body)], body)
    case Ok(imputed) =>
      match classify(imputed)
      case Fail => Submission(RemoteFailure, [Impute(body), Classify(imputed)], body)
      case Ok(prediction) => Submission(Classified(prediction != Num(0.0)), [Impute(body), Classify(imputed)], body)
  }

  /** What the page shows once `handleFormSubmit` has returned. */
  function ViewAfter(s: Submission, oldIsSGA: bool): ModelPage.View {
    ModelPage.ResultRow(false, true, !s.outcome.Classified?,
                        if s.outcome.Classified? then s.outcome.isSGA else oldIsSGA)
  }

  /** The state of the form component. */
  class AIModelContent {
    const page: ModelPage.AimodelPage
    /** The `requiredFields` list of `handleFormSubmit`, the same on every call. */
    const requiredFields: seq<string>
    /** The imported `validationRange` table. */
    const validationRange: seq<RangeEntry>
    var formData: Record
    var valueError: string
    var checkRequiredFieldModal: bool
    var checkValueErrorModal: bool

    constructor (page: ModelPage.AimodelPage)
      ensures this.page == page
      ensures requiredFields == RequiredFields() && validationRange == ValidationRange()
      ensures formData == map[] && valueError == ""
      ensures !checkRequiredFieldModal && !checkValueErrorModal
    {
      this.page := page;
      requiredFields := RequiredFields();
      validationRange := ValidationRange();
      formData := map[];
      valueError := "";
      checkRequiredFieldModal, checkValueErrorModal := false, false;
    }

    /** The table's `handleInputChange`, through `setFormData`. */
    method HandleInputChange(id: string, value: string)
      modifies this`formData
      ensures formData == InputChanged(old(formData), id, value)
    {
      formData := InputChanged(formData, id, value);
    }

    /** The modals' close handlers (and the timers that call them). */
    method CloseRequiredFieldModal()
      modifies this`checkRequiredFieldModal
      ensures !checkRequiredFieldModal
    {
      checkRequiredFieldModal := false;
    }

    method CloseValueErrorModal()
      modifies this`checkValueErrorModal
      ensures !checkValueErrorModal
    {
      checkValueErrorModal := false;
    }

    /**
     * The range loop: every entry of `validationRange` is checked, none is
     * skipped, and each failure overwrites `valueError`.
     */
    method CheckRanges() returns (validation: bool)
      modifies this`valueError, this`checkValueErrorModal
      ensures var failures := FailingLabels(formData, validationRange);
              && validation == (failures == [])
              && valueError == (if failures == [] then old(valueError) else Last(failures))
              && checkValueErrorModal == (old(checkValueErrorModal) || failures != [])
    {
      validation := true;
      var table := validationRange;
      for i := 0 to |table|
        invariant var failures := FailingLabels(formData, table[..i]);
                  && validation == (failures == [])
                  && valueError == (if failures == [] then old(valueError) else Last(failures))
                  && checkValueErrorModal == (old(checkValueErrorModal) || failures != [])
      {
        var entry := table[i];
        FailingLabelsPrefix(formData, table, i);
        if !ValidateFeatureInRange(formData, entry.key, entry.min, entry.max) {
          validation := false;
          valueError := entry.displayLabel;
          checkValueErrorModal := true;
        }
      }
      assert table[..|table|] == table;
    }

    /** The normalization loop, rewriting `formData` key by key. */
    method NormalizeFormData()
      modifies this`formData
      ensures formData == Normalize(old(formData))
    {
      ghost var original := formData;
      var keys := formData.Keys;
      while keys != {}
        invariant keys <= original.Keys && formData.Keys == original.Keys
        invariant forall k :: k in original ==> formData[k] == if k in keys then original[k] else NormalizeValue(k, original[k])
        decreases keys
      {
        var key :| key in keys;
        if key in PredefinedKeys() && formData[key] == Str("") {
          formData := formData[key := Num(0.0)];
        } else if key in PredefinedKeys() && formData[key] == Str("false") {
          formData := formData[key := Num(0.0)];
        } else if key in PredefinedKeys() && formData[key] == Str("true") {
          formData := formData[key := Num(1.0)];
        }
        keys := keys - {key};
      }
    }

    /**
     * The `try` block of `handleFormSubmit` once both checks passed: the
     * imputation request, then the classification request on its answer.
     */
    method SendRequests(impute: Record -> Remote<Record>, classify: Record -> Remote<Value>)
      returns (requests: seq<Request>)
      modifies page`errorOccurred, page`isSGA
      ensures var s := Send(formData, impute, classify);
              && requests == s.requests
              && page.errorOccurred == !s.outcome.Classified?
              && page.isSGA == (if s.outcome.Classified? then s.outcome.isSGA else old(page.isSGA))
    {
      requests := [Impute(formData)];
      var response := impute(formData);
      match response {
        case Fail =>
          page.errorOccurred := true;
        case Ok(imputed) =>
          requests := requests + [Classify(imputed)];
          var prediction := classify(imputed);
          match prediction {
            case Fail =>
              page.errorOccurred := true;
            case Ok(data) =>
              if data == Num(0.0) {
                page.isSGA := false;
              } else {
                page.isSGA := true;
              }
              page.errorOccurred := false;
          }
      }
    }

    /**
     * `handleFormSubmit`.  The page flags, the modal flags, `valueError`, the
     * form record and the requests sent are those of `Submit`; `loading` is
     * cleared on every path, as the `finally` block does, so the page then
     * shows the view `ViewAfter` gives for that submission.
     */
    method HandleFormSubmit(impute: Record -> Remote<Record>, classify: Record -> Remote<Value>)
      returns (requests: seq<Request>)
      modifies this, page
      ensures var s := Submit(old(formData), requiredFields, validationRange, impute, classify);
              && requests == s.requests
              && formData == s.form
              && !page.loading && page.submitStatus
              && page.errorOccurred == !s.outcome.Classified?
              && page.isSGA == (if s.outcome.Classified? then s.outcome.isSGA else old(page.isSGA))
              && checkRequiredFieldModal == (old(checkRequiredFieldModal) || s.outcome == MissingRequired)
              && checkValueErrorModal == (old(checkValueErrorModal) || s.outcome.OutOfRange?)
              && valueError == (if s.outcome.OutOfRange? then s.outcome.shown else old(valueError))
              && page.View() == ViewAfter(s, old(page.isSGA))
    {
      page.loading := true;
      requests := [];
      page.submitStatus := true;

      if ValidateFormData(formData, requiredFields) == false {
        checkRequiredFieldModal := true;
        page.errorOccurred := true;
        page.loading := false;
        return;
      }

      var validation := CheckRanges();
      if !validation {
        page.errorOccurred := true;
        page.loading := false;
        return;
      }

      NormalizeFormData();

      requests := SendRequests(impute, classify);
      page.loading := false;
    }
  }
}
