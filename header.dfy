/** `frontend/src/components/common/Header.jsx`: the search dropdown's state. The search request
    is not sent from the model: its outcome is a parameter, and the method returns the request
    it would send. Responses arriving out of order are not modelled. */
module Header {
  import opened Wrappers

  /** A channel as the search results list shows it. */
  datatype Hit = Hit(channelId: string, title: string, thumbnailUrl: string, subscriberCount: int)

  /** The outcome of `GET /channels?search=…&limit=5`: a body whose `channels` may be missing,
      or a failure. */
  datatype SearchOutcome = Answered(channels: Option<seq<Hit>>) | Failed

  /** The query string the search sends: the typed text and a limit of five. */
  datatype SearchRequest = SearchRequest(search: string, limit: nat)

  const MinQuery: nat := 2
  const SearchLimit: nat := 5

  class SearchBox {
    var searchOpen: bool
    var searchQuery: string
    var searchResults: seq<Hit>

    constructor ()
      ensures !searchOpen && searchQuery == "" && searchResults == []
    {
      searchOpen := false;
      searchQuery := "";
      searchResults := [];
    }

    /** The results list is rendered only while the dropdown is open and it is non-empty. */
    predicate ShowsResults()
      reads this
    {
      searchOpen && |searchResults| > 0
    }

    /** The search button. */
    method ToggleOpen()
      modifies this
      ensures searchOpen == !old(searchOpen)
      ensures searchQuery == old(searchQuery) && searchResults == old(searchResults)
    {
      searchOpen := !searchOpen;
    }

    /** `handleSearch`: the query is always stored; fewer than two characters clear the results
        without a request; otherwise the request asks for five channels, an answer replaces the
        results (`channels || []`) and a failure keeps the previous ones. */
    method HandleSearch(query: string, outcome: SearchOutcome) returns (sent: Option<SearchRequest>)
      modifies this
      ensures searchQuery == query && searchOpen == old(searchOpen)
      ensures sent.None? <==> |query| < MinQuery
      ensures sent.Some? ==> sent.value == SearchRequest(query, SearchLimit)
      ensures |query| < MinQuery ==> searchResults == []
      ensures |query| >= MinQuery && outcome.Answered? ==> searchResults == outcome.channels.GetOr([])
      ensures |query| >= MinQuery && outcome.Failed? ==> searchResults == old(searchResults)
    {
      searchQuery := query;
      if |query| < MinQuery {
        searchResults := [];
        return None;
      }
      sent := Some(SearchRequest(query, SearchLimit));
      match outcome {
        case Answered(channels) =>
          searchResults := channels.GetOr([]);
        case Failed =>
      }
    }

    /** `handleSelectResult`: closes the dropdown, clears query and results, and navigates to
        the channel's page. */
    method SelectResult(channelId: string) returns (path: string)
      modifies this
      ensures !searchOpen && searchQuery == "" && searchResults == []
      ensures path == "/channel/" + channelId
    {
      searchOpen := false;
      searchQuery := "";
      searchResults := [];
      path := "/channel/" + channelId;
    }
  }
}
