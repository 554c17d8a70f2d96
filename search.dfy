/** The Trend Spotter (SearchGroundingTool): a query, the last answer with
    its grounding sources, and the search action. */
module Search {
  import opened Wrappers
  import opened Text
  import opened Grounding

  /** `{ text, sources }` as the search service returns it. */
  datatype SearchResult = SearchResult(text: string, sources: seq<GroundingChunk>)

  const QueryRequiredMessage := "A query is required to spot trends."
  const SearchFailedMessage := "Trend spotting failed. The crystal ball is cloudy."

  class SearchGroundingTool {
    var query: string
    var result: Option<SearchResult>
    var isLoading: bool
    var error: Option<string>
    /** The queries sent to the search service. */
    ghost var searched: seq<string>

    constructor ()
      ensures query == "" && result.None? && !isLoading && error.None? && searched == []
    {
      query, result, isLoading, error := "", None, false, None;
      searched := [];
    }

    method SetQuery(value: string)
      modifies this
      ensures query == value
      ensures result == old(result) && isLoading == old(isLoading) && error == old(error)
      ensures searched == old(searched)
    {
      query := value;
    }

    /** `handleSearch`, where `reply` is what the service returned or the
        message it threw. */
    method HandleSearch(reply: Result<SearchResult>)
      modifies this
      ensures query == old(query)
      ensures IsBlank(old(query)) ==>
        error == Some(QueryRequiredMessage) && result == old(result)
        && isLoading == old(isLoading) && searched == old(searched)
      ensures !IsBlank(old(query)) ==> searched == old(searched) + [old(query)] && !isLoading
      ensures !IsBlank(old(query)) && reply.Ok? ==>
        result == Some(reply.value) && error.None? && SourcesPanel() == Some(SearchSourcesOf(reply.value.sources))
      ensures !IsBlank(old(query)) && reply.Err? ==>
        result.None? && SourcesPanel().None? && error == Some(OrElse(reply.message, SearchFailedMessage))
    {
      if IsBlank(query) {
        error := Some(QueryRequiredMessage);
        return;
      }
      isLoading := true;
      error := None;
      result := None;
      searched := searched + [query];
      match reply {
        case Ok(response) =>
          result := Some(response);
        case Err(m) =>
          error := Some(OrElse(m, SearchFailedMessage));
      }
      isLoading := false;
    }

    /** The sources panel under the answer, shown once a result is held
        and no search is running. */
    function SourcesPanel(): (v: Option<SearchSources>)
      reads this
      ensures v.Some? <==> result.Some? && !isLoading
      ensures v.Some? ==> v.value == SearchSourcesOf(result.value.sources)
    {
      if result.Some? && !isLoading then Some(SearchSourcesOf(result.value.sources)) else None
    }
  }
}
