/** The `App` component's state and its event handlers. The network request
    each handler awaits is replaced by the outcome the server would give,
    passed in as a parameter; a handler returns the request body it sends,
    or `None` when its guard stops it before any request. */
module Dashboard {
  import opened Options
  import opened Text
  import opened Records
  import opened ResultLog
  import opened BulkInput

  /** How a request ends: a successful response with its payload, or a
      failure (the transport failed or the status was not successful). */
  datatype Outcome<T> = Ok(value: T) | Failed

  /** The four views of the dashboard. */
  datatype Tab = Single | Bulk | Insights | Analytics

  const EmptyReviewMessage: string := "Please enter a review to analyze"
  const EmptyBulkMessage: string := "Please enter reviews to analyze"
  const SingleFailedMessage: string := "Failed to analyze sentiment. Make sure Flask backend is running on port 5000."
  const BulkFailedMessage: string := "Failed to analyze reviews. Make sure Flask backend is running."

  class App {
    var review: string
    var bulkReviews: string
    var result: Option<Record>
    var history: seq<Record>
    var loading: bool
    var error: string
    var activeTab: Tab

    /** The history never holds more than `Capacity` records. */
    ghost predicate Valid()
      reads this
    {
      |history| <= Capacity
    }

    /** The state the component starts in. */
    constructor ()
      ensures Valid()
      ensures review == "" && bulkReviews == "" && result == None && history == []
      ensures !loading && error == "" && activeTab == Single
    {
      review, bulkReviews := "", "";
      result, history := None, [];
      loading, error := false, "";
      activeTab := Single;
    }

    /** `analyzeSentiment`: a blank review only sets the validation message;
        otherwise the review is sent, and on success the returned record
        becomes the current result and the newest history entry and the
        input is cleared, while on failure only the error message and the
        loading flag change. */
    method AnalyzeSentiment(response: Outcome<Record>) returns (sent: Option<string>)
      requires Valid()
      modifies this
      ensures Valid()
      ensures sent == if IsBlank(old(review)) then None else Some(old(review))
      ensures bulkReviews == old(bulkReviews) && activeTab == old(activeTab)
      ensures sent.None? ==>
        error == EmptyReviewMessage && review == old(review) && result == old(result)
        && history == old(history) && loading == old(loading)
      ensures sent.Some? && response.Ok? ==>
        result == Some(response.value) && history == Prepend([response.value], old(history))
        && history[0] == response.value
        && review == "" && !loading && error == ""
      ensures sent.Some? && response.Failed? ==>
        error == SingleFailedMessage && review == old(review) && result == old(result)
        && history == old(history) && !loading
    {
      if IsBlank(review) {
        error := EmptyReviewMessage;
        return None;
      }
      sent := Some(review);
      loading := true;
      error := "";
      match response
      case Ok(data) =>
        result := Some(data);
        history := Prepend([data], history);
        loading := false;
        review := "";
      case Failed =>
        error := SingleFailedMessage;
        loading := false;
    }

    /** `analyzeBulk`: a blank input only sets the validation message;
        otherwise the non-blank lines are sent, and on success the coerced
        results go in front of the history in the order they came back and
        the input is cleared, while on failure nothing is committed. */
    method AnalyzeBulk(response: Outcome<seq<RawResult>>) returns (sent: Option<seq<string>>)
      requires Valid()
      modifies this
      ensures Valid()
      ensures sent == if IsBlank(old(bulkReviews)) then None else Some(ReviewList(old(bulkReviews)))
      ensures sent.Some? ==> |sent.value| > 0
      ensures review == old(review) && result == old(result) && activeTab == old(activeTab)
      ensures sent.None? ==>
        error == EmptyBulkMessage && bulkReviews == old(bulkReviews)
        && history == old(history) && loading == old(loading)
      ensures sent.Some? && response.Ok? ==>
        history == Prepend(CoerceAll(response.value), old(history))
        && bulkReviews == "" && !loading && error == ""
      ensures sent.Some? && response.Failed? ==>
        error == BulkFailedMessage && bulkReviews == old(bulkReviews)
        && history == old(history) && !loading
    {
      if IsBlank(bulkReviews) {
        error := EmptyBulkMessage;
        return None;
      }
      var reviewList := RequestReviews(bulkReviews);
      sent := Some(reviewList);
      loading := true;
      error := "";
      match response
      case Ok(data) =>
        var processed := CoerceAll(data);
        history := Prepend(processed, history);
        loading := false;
        bulkReviews := "";
      case Failed =>
        error := BulkFailedMessage;
        loading := false;
    }

    /** The single-review text area: only the typed review changes. */
    method SetReview(text: string)
      modifies this
      ensures review == text
      ensures bulkReviews == old(bulkReviews) && result == old(result) && activeTab == old(activeTab)
      ensures history == old(history) && loading == old(loading) && error == old(error)
    {
      review := text;
    }

    /** The bulk text area: only the bulk input changes. */
    method SetBulkReviews(text: string)
      modifies this
      ensures bulkReviews == text
      ensures review == old(review) && result == old(result) && activeTab == old(activeTab)
      ensures history == old(history) && loading == old(loading) && error == old(error)
    {
      bulkReviews := text;
    }

    /** A tab button: only the visible view changes. */
    method SetActiveTab(tab: Tab)
      modifies this
      ensures activeTab == tab
      ensures review == old(review) && bulkReviews == old(bulkReviews) && result == old(result)
      ensures history == old(history) && loading == old(loading) && error == old(error)
    {
      activeTab := tab;
    }
  }
}
