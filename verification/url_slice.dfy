/** The URL store slice: the links shortened in this session, with loading and error flags. */
module UrlSlice {
  import opened Wrappers
  import opened Js

  /** A snapshot of the slice; `E` is a shortening response, appended as it arrives. */
  datatype UrlState<E> = UrlState(urls: seq<E>, loading: bool, error: Option<string>)

  /** `initialState`: no links, not loading, no error. */
  function Initial<E>(): (s: UrlState<E>)
    ensures s.urls == [] && !s.loading && s.error.None?
  {
    UrlState([], false, None)
  }

  const ShortenFailed: string := "Error shortening URL"

  /** The error a rejection stores: the thrown error's message when truthy, else the fixed text. */
  function RejectionError(message: Option<string>): (m: string)
    ensures m != ""
    ensures Truthy(message) ==> m == message.value
    ensures !Truthy(message) ==> m == ShortenFailed
  {
    OrElse(message, ShortenFailed)
  }

  class UrlStore<E> {
    var urls: seq<E>
    var loading: bool
    var error: Option<string>

    function State(): UrlState<E>
      reads this
    {
      UrlState(urls, loading, error)
    }

    constructor ()
      ensures State() == Initial()
    {
      urls := [];
      loading := false;
      error := None;
    }

    /** `shortenUrl.pending`: loading, the error cleared, the list kept. */
    method Pending()
      modifies this
      ensures State() == old(State()).(loading := true, error := None)
    {
      loading := true;
      error := None;
    }

    /** `shortenUrl.fulfilled`: the response is pushed at the end; earlier entries stay as they were. */
    method Fulfilled(payload: E)
      modifies this
      ensures State() == old(State()).(loading := false, urls := old(urls) + [payload])
      ensures |urls| == |old(urls)| + 1 && old(urls) <= urls && urls[|urls| - 1] == payload
    {
      loading := false;
      urls := urls + [payload];
    }

    /** `shortenUrl.rejected`: the error is set; the list stays. */
    method Rejected(message: Option<string>)
      modifies this
      ensures State() == old(State()).(loading := false, error := Some(RejectionError(message)))
    {
      loading := false;
      error := Some(RejectionError(message));
    }
  }
}
