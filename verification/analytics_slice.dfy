/** The analytics store slice: the fetched click information with its loading and error flags. */
module AnalyticsSlice {
  import opened Wrappers
  import opened Js

  /** A snapshot of the slice; `D` is the fetched payload, which no reducer inspects. */
  datatype AnalyticsState<D> = AnalyticsState(data: Option<D>, loading: bool, error: Option<string>)

  /** `initialState`: no data, not loading, no error. */
  function Initial<D>(): (s: AnalyticsState<D>)
    ensures s.data.None? && !s.loading && s.error.None?
  {
    AnalyticsState(None, false, None)
  }

  const FetchFailed: string := "Failed to fetch analytics data"

  /** The value the fetch thunk rejects with: the server's message when truthy, else the fixed text. */
  function RejectionPayload(serverMessage: Option<string>): (m: string)
    ensures m != ""
    ensures Truthy(serverMessage) ==> m == serverMessage.value
    ensures !Truthy(serverMessage) ==> m == FetchFailed
  {
    OrElse(serverMessage, FetchFailed)
  }

  class AnalyticsStore<D> {
    var data: Option<D>
    var loading: bool
    var error: Option<string>

    function State(): AnalyticsState<D>
      reads this
    {
      AnalyticsState(data, loading, error)
    }

    constructor ()
      ensures State() == Initial()
    {
      data := None;
      loading := false;
      error := None;
    }

    /** `clearAnalytics`: back to the initial state. */
    method ClearAnalytics()
      modifies this
      ensures State() == Initial()
    {
      data := None;
      loading := false;
      error := None;
    }

    /** `fetchAnalytics.pending`: loading, the error cleared, the data kept. */
    method Pending()
      modifies this
      ensures State() == old(State()).(loading := true, error := None)
    {
      loading := true;
      error := None;
    }

    /** `fetchAnalytics.fulfilled`: the payload becomes the data; an earlier error stays. */
    method Fulfilled(payload: D)
      modifies this
      ensures State() == old(State()).(loading := false, data := Some(payload))
    {
      loading := false;
      data := Some(payload);
    }

    /** `fetchAnalytics.rejected`: the payload becomes the error; stale data stays. */
    method Rejected(payload: string)
      modifies this
      ensures State() == old(State()).(loading := false, error := Some(payload))
    {
      loading := false;
      error := Some(payload);
    }
  }
}
