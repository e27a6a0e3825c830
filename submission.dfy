/**
 * Properties of the submission pipeline of `components/AIModelContent.tsx`,
 * stated about `ModelContent.Submit`, which `HandleFormSubmit` is proved to
 * follow, and about the view the page shows afterwards.
 */
module SubmissionProperties {
  import opened Wrappers
  import opened JsValues
  import opened ValidationData
  import opened ContentTable
  import opened ModelContent
  import ModelPage

  /** Six of the seven required fields have a range entry; `Gender` has none. */
  lemma RequiredFieldsInTable()
    ensures forall f :: f in RequiredFields() && f != "Gender" ==> IsKeyOf(ValidationRange(), f)
    ensures !IsKeyOf(ValidationRange(), "Gender")
  {
    var t := ValidationRange();
    assert t[0].key == "MaternalAge" && t[3].key == "GestationalAge" && t[5].key == "HeadCircumference";
    assert t[6].key == "AbdominalCircumference" && t[7].key == "FemurLength" && t[13].key == "EstimatedFetalWeight";
  }

  /** No optional label is the label of a required field's entry. */
  lemma OptionalLabelsNotRequired(i: nat)
    requires i < |ValidationRange()| && ValidationRange()[i].key in RequiredFields()
    ensures ValidationRange()[i].displayLabel !in OptionalValues()
  {
  }

  /** The page's compulsory section and the submission's required list name the same fields. */
  lemma CompulsoryIsRequired()
    ensures forall f :: f in CompulsoryFields() <==> f in RequiredFields()
  {
  }

  /** A missing required field aborts the submission before any range check or request. */
  lemma MissingFieldStopsSubmission(form: Record, required: seq<string>, table: seq<RangeEntry>,
    impute: Record -> Remote<Record>, classify: Record -> Remote<Value>, f: string)
    requires f in required && Lookup(form, f) == Undef
    ensures Submit(form, required, table, impute, classify) == Submission(MissingRequired, [], form)
  {
  }

  /**
   * A failing entry (with all required fields present) aborts the submission
   * before any request; the label shown is that of the last failing entry.
   */
  lemma {:induction false} RangeFailureStopsSubmission(form: Record, required: seq<string>, table: seq<RangeEntry>,
    impute: Record -> Remote<Record>, classify: Record -> Remote<Value>, i: nat)
    requires ValidateFormData(form, required)
    requires i < |table| && !EntryPasses(form, table[i])
    ensures var s := Submit(form, required, table, impute, classify);
            && s.outcome.OutOfRange? && s.requests == [] && s.form == form
            && exists j :: i <= j < |table| && !EntryPasses(form, table[j])
                           && s.outcome.shown == table[j].displayLabel
                           && forall k :: j < k < |table| ==> EntryPasses(form, table[k])
  {
    NoFailuresIffAllPass(form, table);
    LastFailureIsLastLabel(form, table);
  }

  /** The remote services are reached exactly when both checks pass. */
  lemma {:induction false} RequestsIffValid(form: Record, required: seq<string>, table: seq<RangeEntry>,
    impute: Record -> Remote<Record>, classify: Record -> Remote<Value>)
    ensures Submit(form, required, table, impute, classify).requests != [] <==>
            ValidateFormData(form, required)
            && forall i :: 0 <= i < |table| ==> EntryPasses(form, table[i])
  {
    NoFailuresIffAllPass(form, table);
  }

  /**
   * Imputation comes first and receives the normalized record; classification
   * is requested only after imputation succeeded, with its response.  The
   * normalized record is kept as the form state.
   */
  lemma RequestOrder(form: Record, required: seq<string>, table: seq<RangeEntry>,
    impute: Record -> Remote<Record>, classify: Record -> Remote<Value>)
    ensures var s := Submit(form, required, table, impute, classify);
            && |s.requests| <= 2
            && (s.requests != [] ==> s.requests[0] == Impute(Normalize(form)) && s.form == Normalize(form))
            && (|s.requests| == 2 <==> s.requests != [] && impute(Normalize(form)).Ok?)
            && (|s.requests| == 2 ==> s.requests[1] == Classify(impute(Normalize(form)).data))
  {
  }

  /**
   * The classification is SGA unless the classifier answered the number 0; a
   * string "0" or any other JSON value also counts as SGA.
   */
  lemma ClassificationMapping(form: Record, required: seq<string>, table: seq<RangeEntry>,
    impute: Record -> Remote<Record>, classify: Record -> Remote<Value>)
    ensures var s := Submit(form, required, table, impute, classify);
            s.outcome.Classified? ==>
              && impute(Normalize(form)).Ok?
              && classify(impute(Normalize(form)).data).Ok?
              && s.outcome.isSGA == (classify(impute(Normalize(form)).data).data != Num(0.0))
  {
  }

  /** A failed remote call is a failure, whichever of the two it was. */
  lemma RemoteFailureIsFailure(form: Record, required: seq<string>, table: seq<RangeEntry>,
    impute: Record -> Remote<Record>, classify: Record -> Remote<Value>)
    requires Submit(form, required, table, impute, classify).requests != []
    ensures var s := Submit(form, required, table, impute, classify);
            s.outcome.Classified? <==> impute(Normalize(form)).Ok? && classify(impute(Normalize(form)).data).Ok?
  {
  }

  /** After a submission the page shows the panel of the classification, or the error banner. */
  lemma ViewAfterSubmission(form: Record, required: seq<string>, table: seq<RangeEntry>,
    impute: Record -> Remote<Record>, classify: Record -> Remote<Value>, oldIsSGA: bool)
    ensures var s := Submit(form, required, table, impute, classify);
            ViewAfter(s, oldIsSGA) == match s.outcome
                                      case Classified(sga) => if sga then ModelPage.SgaPanel else ModelPage.AgaPanel
                                      case _ => ModelPage.ErrorBanner
  {
  }
}
