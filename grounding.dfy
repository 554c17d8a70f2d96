/** The grounding sources attached to a model answer, and the two ways the
    tools display them: the chat lists the valid ones under "Sourced From",
    the trend search lists them or explains why it cannot. */
module Grounding {
  import opened Wrappers

  /** `{ uri, title }` of a web result or a retrieved context. */
  datatype SourceRef = SourceRef(uri: string, title: string)
  /** `GroundingChunk`: either entry may be absent. */
  datatype GroundingChunk = GroundingChunk(web: Option<SourceRef>, retrievedContext: Option<SourceRef>)

  /** `ref && ref.uri && ref.title`: present with a non-empty uri and title. */
  predicate Complete(ref: Option<SourceRef>) {
    ref.Some? && ref.value.uri != "" && ref.value.title != ""
  }

  /** The filter both tools apply. */
  predicate IsValidSource(c: GroundingChunk) {
    Complete(c.web) || Complete(c.retrievedContext)
  }

  /** `sources.filter(isValid)`: the valid sources, in their order. */
  function ValidSources(cs: seq<GroundingChunk>): (r: seq<GroundingChunk>)
    ensures |r| <= |cs|
    ensures forall c :: c in r <==> c in cs && IsValidSource(c)
    ensures forall k :: 0 <= k < |r| ==> IsValidSource(r[k])
  {
    if cs == [] then []
    else (if IsValidSource(cs[0]) then [cs[0]] else []) + ValidSources(cs[1..])
  }

  /** Filtering distributes over concatenation, so it keeps the order. */
  lemma {:induction false} ValidSourcesAppend(a: seq<GroundingChunk>, b: seq<GroundingChunk>)
    ensures ValidSources(a + b) == ValidSources(a) + ValidSources(b)
  {
    if a == [] {
      assert a + b == b;
    } else {
      assert (a + b)[1..] == a[1..] + b;
      ValidSourcesAppend(a[1..], b);
    }
  }

  /** Filtering twice is filtering once. */
  lemma {:induction false} ValidSourcesIdempotent(cs: seq<GroundingChunk>)
    ensures ValidSources(ValidSources(cs)) == ValidSources(cs)
  {
    if cs != [] {
      ValidSourcesIdempotent(cs[1..]);
      var head := if IsValidSource(cs[0]) then [cs[0]] else [];
      ValidSourcesAppend(head, ValidSources(cs[1..]));
      if IsValidSource(cs[0]) {
        assert ValidSources(head) == head by {
          assert head[1..] == [];
        }
      }
    }
  }

  /** `source.web?.uri || source.retrievedContext?.uri`; `None` is
      `undefined`. */
  function DisplayUri(c: GroundingChunk): (r: Option<string>)
    ensures IsValidSource(c) ==> r.Some? && r.value != ""
  {
    if c.web.Some? && c.web.value.uri != "" then Some(c.web.value.uri)
    else if c.retrievedContext.Some? then Some(c.retrievedContext.value.uri)
    else None
  }

  /** `source.web?.title || source.retrievedContext?.title`. */
  function DisplayTitle(c: GroundingChunk): (r: Option<string>)
    ensures IsValidSource(c) ==> r.Some? && r.value != ""
  {
    if c.web.Some? && c.web.value.title != "" then Some(c.web.value.title)
    else if c.retrievedContext.Some? then Some(c.retrievedContext.value.title)
    else None
  }

  /** uri and title each prefer the web entry when its value is non-empty
      and fall back to the retrieved context otherwise. */
  lemma DisplayedFields(c: GroundingChunk)
    ensures c.web.Some? && c.web.value.uri != "" ==> DisplayUri(c) == Some(c.web.value.uri)
    ensures !(c.web.Some? && c.web.value.uri != "") && c.retrievedContext.Some? ==>
              DisplayUri(c) == Some(c.retrievedContext.value.uri)
    ensures c.web.Some? && c.web.value.title != "" ==> DisplayTitle(c) == Some(c.web.value.title)
    ensures !(c.web.Some? && c.web.value.title != "") && c.retrievedContext.Some? ==>
              DisplayTitle(c) == Some(c.retrievedContext.value.title)
  {
  }

  /** The two preferences are independent: a web entry with a uri but no
      title next to a complete retrieved context shows the web uri under
      the retrieved context's title. */
  lemma MixedDisplay(webUri: string, ctxUri: string, ctxTitle: string)
    requires webUri != "" && ctxUri != "" && ctxTitle != "" && webUri != ctxUri
    ensures var c := GroundingChunk(Some(SourceRef(webUri, "")), Some(SourceRef(ctxUri, ctxTitle)));
      IsValidSource(c) && DisplayUri(c) == Some(webUri) && DisplayTitle(c) == Some(ctxTitle)
  {
  }

  /** A rendered link: its `href` and its visible caption. */
  datatype SourceLink = SourceLink(href: Option<string>, caption: string)

  /** The chat's caption `title || uri`. */
  function ChatLink(c: GroundingChunk): SourceLink {
    var caption := match DisplayTitle(c)
      case Some(t) => if t != "" then t else DisplayUri(c).GetOr("")
      case None => DisplayUri(c).GetOr("");
    SourceLink(DisplayUri(c), caption)
  }

  function ChatLinks(cs: seq<GroundingChunk>): (r: seq<SourceLink>)
    ensures |r| == |cs| && forall k :: 0 <= k < |cs| ==> r[k] == ChatLink(cs[k])
  {
    if cs == [] then [] else [ChatLink(cs[0])] + ChatLinks(cs[1..])
  }

  /** `renderGroundingSources`: nothing when the list is missing, empty or
      has no valid source; otherwise a link per valid source. */
  function ChatSources(sources: Option<seq<GroundingChunk>>): Option<seq<SourceLink>> {
    if sources.None? || sources.value == [] then None
    else
      var valid := ValidSources(sources.value);
      if valid == [] then None else Some(ChatLinks(valid))
  }

  /** The chat renders its source list exactly when some source is valid,
      one link per valid source, and each link's caption is the source's
      title: the uri fallback is never needed. */
  lemma ChatSourcesShown(sources: Option<seq<GroundingChunk>>)
    ensures ChatSources(sources).Some? <==>
              sources.Some? && exists k :: 0 <= k < |sources.value| && IsValidSource(sources.value[k])
    ensures ChatSources(sources).Some? ==>
              var links := ChatSources(sources).value;
              var valid := ValidSources(sources.value);
              |links| == |valid|
              && forall k :: 0 <= k < |valid| ==>
                   links[k] == SourceLink(DisplayUri(valid[k]), DisplayTitle(valid[k]).value)
  {
    if sources.Some? {
      var valid := ValidSources(sources.value);
      if exists k :: 0 <= k < |sources.value| && IsValidSource(sources.value[k]) {
        var k :| 0 <= k < |sources.value| && IsValidSource(sources.value[k]);
        assert sources.value[k] in valid;
      }
      if valid != [] {
        forall k | 0 <= k < |valid|
          ensures ChatLinks(valid)[k] == SourceLink(DisplayUri(valid[k]), DisplayTitle(valid[k]).value)
        {
          assert valid[k] in valid;
          DisplayedFields(valid[k]);
        }
      }
    }
  }

  /** What the trend search shows under its answer. */
  datatype SearchSources = NoSourcesCited | NoValidSources | SourceList(items: seq<SearchItem>)
  /** A listed source: the link, its caption, and the uri printed below it. */
  datatype SearchItem = SearchItem(href: Option<string>, caption: string, shownUri: Option<string>)

  const NoSourcesCitedText := "No specific web sources cited for this insight."
  const NoValidSourcesText := "No valid web sources found in the data stream."
  const UntitledSource := "Untitled Source"

  /** The search's item, labelled `title || 'Untitled Source'`. */
  function SearchItemOf(c: GroundingChunk): SearchItem {
    var caption := match DisplayTitle(c)
      case Some(t) => if t != "" then t else UntitledSource
      case None => UntitledSource;
    SearchItem(DisplayUri(c), caption, DisplayUri(c))
  }

  function SearchItems(cs: seq<GroundingChunk>): (r: seq<SearchItem>)
    ensures |r| == |cs| && forall k :: 0 <= k < |cs| ==> r[k] == SearchItemOf(cs[k])
  {
    if cs == [] then [] else [SearchItemOf(cs[0])] + SearchItems(cs[1..])
  }

  /** `renderSources` of the search tool. */
  function SearchSourcesOf(sources: seq<GroundingChunk>): SearchSources {
    if sources == [] then NoSourcesCited
    else
      var valid := ValidSources(sources);
      if valid == [] then NoValidSources else SourceList(SearchItems(valid))
  }

  /** The two empty states are told apart: an empty list reports that
      nothing was cited, a non-empty list without a valid source that none
      was valid; otherwise every valid source is listed under its own title,
      so the "Untitled Source" fallback is never the caption. */
  lemma SearchSourcesCases(sources: seq<GroundingChunk>)
    ensures SearchSourcesOf(sources) == NoSourcesCited <==> sources == []
    ensures SearchSourcesOf(sources) == NoValidSources <==>
              sources != [] && forall k :: 0 <= k < |sources| ==> !IsValidSource(sources[k])
    ensures SearchSourcesOf(sources).SourceList? ==>
              var items := SearchSourcesOf(sources).items;
              var valid := ValidSources(sources);
              |items| == |valid| && valid != []
              && forall k :: 0 <= k < |valid| ==>
                   items[k].caption == DisplayTitle(valid[k]).value
                   && items[k].href == DisplayUri(valid[k])
  {
    var valid := ValidSources(sources);
    if sources != [] && valid == [] {
      forall k | 0 <= k < |sources| ensures !IsValidSource(sources[k]) {
        assert sources[k] in sources;
      }
    }
    if sources != [] && valid != [] {
      assert valid[0] in sources;
      forall k | 0 <= k < |valid|
        ensures SearchItems(valid)[k].caption == DisplayTitle(valid[k]).value
      {
        assert valid[k] in valid;
        DisplayedFields(valid[k]);
      }
    }
  }
}
