/**
 * The page of `pages/Model.tsx`: four state flags written by the submission
 * pipeline, and `resultRow`, which picks what is shown under the form.
 */
module ModelPage {

  /** What `resultRow` renders; `Nothing` is its final `return null`. */
  datatype View =
    | Processing    // the "Processing..." overlay
    | Blank         // an empty row: nothing submitted yet
    | ErrorBanner   // "An error occurred. Please try again."
    | SgaPanel      // the SGA prediction with the ROCG guideline table
    | AgaPanel      // the AGA prediction with the general advice table
    | Nothing

  /**
   * `resultRow`: a priority-ordered chain over the flags.  Each view is named
   * by exactly the flag combination that produces it, and the final
   * `return null` is unreachable.
   */
  function ResultRow(loading: bool, submitStatus: bool, errorOccurred: bool, isSGA: bool): (v: View)
    ensures v == Processing <==> loading
    ensures v == Blank <==> !loading && !submitStatus
    ensures v == ErrorBanner <==> !loading && submitStatus && errorOccurred
    ensures v == SgaPanel <==> !loading && submitStatus && !errorOccurred && isSGA
    ensures v == AgaPanel <==> !loading && submitStatus && !errorOccurred && !isSGA
    ensures v != Nothing
  {
    if loading then Processing
    else if !submitStatus then Blank
    else if errorOccurred then ErrorBanner
    else if !errorOccurred && submitStatus then (if isSGA then SgaPanel else AgaPanel)
    else Nothing
  }

  /** `AimodelPage`: the four `useState` flags. */
  class AimodelPage {
    var loading: bool
    var errorOccurred: bool
    var submitStatus: bool
    var isSGA: bool

    /** The initial flags, which show the empty row. */
    constructor ()
      ensures !loading && !errorOccurred && !submitStatus && isSGA
      ensures View() == Blank
    {
      loading, errorOccurred, submitStatus, isSGA := false, false, false, true;
    }

    function View(): View
      reads this
    {
      ResultRow(loading, submitStatus, errorOccurred, isSGA)
    }
  }
}
