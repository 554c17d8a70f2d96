# Pegasus Edge: the access policy, the studio wizard and the tool pages in Dafny

Pegasus Edge is a client-side React application that offers several AI tools
to content creators. This project models its logic:

- The subscription profile `{tier, creatorsStudioFreeUseConsumed}` and the
  free-trial policy built on it.
- The Creator's Edge Studio wizard (Vision, Signature, Blueprint, Audio
  Alchemy, Pack):
  - how it moves between steps;
  - its generation handlers and how the model's replies are decoded
    (`parseJsonResponse`);
  - its two access gates, with the pay-per-use modal and its pending action;
  - `startNewPack`.
- The chat consultant, which streams the answer into a placeholder message.
- The trend search, with its grounding-source filter and empty states.
- The plan purchase, the tool-page routing and the navigation highlight.

## Modules

Each module is one file.

- `wrappers` holds `Option` and `Result`.
- `text` holds the JavaScript string operations the code relies on: `trim`,
  `\s`, `\w`, `startsWith`, `includes`, ASCII `toLowerCase`, and `||` on
  strings.
- `profile` holds the profile value and the policy functions.
- `subscription` is the `SubscriptionProvider` class, plus the API-key gate of
  `App`.
- `response_parser` is `parseJsonResponse`. The fence regular expression
  `^```(\w*)?\s*\n?(.*?)\n?\s*```$` (flag `s`) is modelled as a match structure
  with its groups. Its match is proved unique.
- `studio_model` holds the wizard's pure parts: the step order, the outputs,
  the handlers' preconditions and requests, the music assets, the gate
  decisions and the reset.
- `studio_session`: every wizard operation as a function from session value
  to session value, with lemmas about those functions.
- `studio` is the `CreatorsEdgeStudio` class. Its fields are the component's
  state variables. Each method is proved equal to the matching
  `studio_session` function through `Snapshot()`.
- `grounding` holds the source filters and what the two tools display.
- `chat` is the `ChatbotTool` class and the transcript functions.
- `search` is the `SearchGroundingTool` class.
- `plans` holds the plan data and `handleSubscribe`.
- `tools_page` covers tool resolution, redirect and dispatch.
- `navbar` covers the navigation highlight.

## Outside calls

Calls to the outside are parameters:

- `JSON.parse` at each result type is a decoder `string -> Option<T>`.
- The text model's answer, or what it threw, is a `Result<string>`.
- The music service is `string -> Result<MusicAsset>`.
- The chat stream is the sequence of callback arguments, plus the message
  it threw, if any.
- The search answer is a `Result`.
- The two `Date.now()` readings are integers.
- The checkout outcome is an `Option<string>`.

A ghost `calls` log records every request the wizard makes, so "makes no
call" and "calls once" can be stated.

## Where the code is followed rather than the comments

- `executeGenerationWithAccessCheck` on the Pack step with the free use
  available runs the handler and then consumes the free use. The comment
  says this happens "AFTER successful pack generation". The handlers catch
  their own errors, though, so the use is consumed even when the handler
  failed (`StudioSession.GateOutcome`). This branch cannot be reached from
  any rendered button (`StudioSession.ButtonsRunHandlers`). The real billing
  point is the tail of the audio handler.
- The profile loader accepts any string as the tier. A stored tier outside
  the enum becomes `Tier.Unrecognised(raw)`. Such a user is neither
  subscribed nor entitled to the free use. `startNewPack` moves them back to
  the trial.
- On the audio handler's error path, an empty audio slot becomes an empty
  `AudioOutput`, not `null` (`StudioSession.AudioFailed`).

## Model

| member | source | states |
|---|---|---|
| Profile.TierOfString | pegasus-edge/types.ts:45-51 | reading a stored tier string keeps the string exactly; a string outside the enum is `Unrecognised` and nothing else is |
| Profile.TierRoundTrip | pegasus-edge/types.ts:45-51 | every tier survives being written as its string and read back |
| Profile.LoadProfile | pegasus-edge/App.tsx:38-52 | the loader returns the default unless a non-empty stored entry parses to an object with a string `tier` and a boolean flag, and then it returns exactly those two values |
| Profile.ProfileJson | pegasus-edge/App.tsx:56 | the saved form of any profile has the shape the loader checks |
| Profile.LoadSavedProfile | pegasus-edge/App.tsx:38-60 | a saved profile is loaded back unchanged (save/load round-trip) |
| Profile.LoadMalformed | pegasus-edge/App.tsx:39-51 | a missing, empty or unparsable entry gives the default `{FREE_STUDIO_USE_AVAILABLE, false}` |
| Profile.Merge | pegasus-edge/App.tsx:62-64 | each field comes from the patch when the patch has it, and from the old profile otherwise |
| Profile.MergeIdempotent | pegasus-edge/App.tsx:62-64 | applying a patch twice is applying it once, and the empty patch changes nothing |
| Profile.FreeUseExcludesSubscription | pegasus-edge/App.tsx:66-72 | no profile is both subscribed and entitled to the free use |
| Profile.ConsumeFreeUse | pegasus-edge/App.tsx:74-81 | with the free use available the result is `{POST_FREE_STUDIO_USE, true}`; otherwise nothing changes; afterwards the free use is unavailable and the subscription status is unchanged |
| Profile.ConsumeIdempotent | pegasus-edge/App.tsx:74-81 | consuming twice is consuming once |
| Profile.DefaultConsistent | pegasus-edge/App.tsx:22-25 | the default profile offers the free use and satisfies the invariant "consumed implies the tier no longer offers the free use" |
| Profile.ConsumePreservesConsistency | pegasus-edge/App.tsx:74-81 | consuming preserves that invariant; under it the free use is available exactly when the tier says so |
| Subscription.SubscriptionProvider.constructor | pegasus-edge/App.tsx:38-52 | the provider starts with the loaded profile |
| Subscription.SubscriptionProvider.UpdateUserProfile | pegasus-edge/App.tsx:62-64 | the new profile is the merge of the old one with the patch; fields the patch omits keep their values |
| Subscription.SubscriptionProvider.IsSubscribed | pegasus-edge/App.tsx:66-68 | true iff the tier is MONTHLY or LIFETIME |
| Subscription.SubscriptionProvider.CanUseCreatorStudioFree | pegasus-edge/App.tsx:70-72 | true iff the tier is FREE_STUDIO_USE_AVAILABLE and the flag is false; never true for a subscriber |
| Subscription.SubscriptionProvider.ConsumeCreatorStudioFreeUse | pegasus-edge/App.tsx:74-81 | the profile becomes `ConsumeFreeUse` of the old one; afterwards the free use is unavailable and the subscription status is unchanged |
| Subscription.RoutesNeedApiKey | pegasus-edge/App.tsx:94-128 | the routes mount iff the API key is a string that is not blank after trimming; otherwise the configuration-error screen shows |
| Text.Trim | pegasus-edge/components/tools/CreatorsEdgeStudioTool.tsx:107 | `trim()` gives the part between two all-space runs, is empty iff the string is all space, and has no space at either end |
| Text.TrimOfTrimmed | pegasus-edge/components/tools/CreatorsEdgeStudioTool.tsx:111 | a string with no space at either end is its own trim |
| Text.TrimIdempotent | pegasus-edge/components/tools/CreatorsEdgeStudioTool.tsx:111 | trimming twice is trimming once |
| Text.TrimPadded | pegasus-edge/components/tools/CreatorsEdgeStudioTool.tsx:107 | trimming removes any whitespace added around a trimmed non-empty string |
| Text.ToLower | pegasus-edge/components/tools/CreatorsEdgeStudioTool.tsx:215 | same length, with each character lowered |
| Text.OrElse | pegasus-edge/components/tools/ChatbotTool.tsx:83 | JavaScript's logical or on two strings gives one of them, and is empty only when both are |
| ResponseParser.FencedIsStartsAndEnds | pegasus-edge/components/tools/CreatorsEdgeStudioTool.tsx:108-109 | the fence pattern matches exactly the strings of length at least 6 that start and end with three backticks |
| ResponseParser.BodyGroups | pegasus-edge/components/tools/CreatorsEdgeStudioTool.tsx:108 | splits the text between the fences into the pattern's groups (tag, spaces, capture, trailing part), which concatenate back to that text |
| ResponseParser.BodyGroupsUnique | pegasus-edge/components/tools/CreatorsEdgeStudioTool.tsx:108 | any grouping that follows the pattern's greedy and lazy rules is that split |
| ResponseParser.MatchFence | pegasus-edge/components/tools/CreatorsEdgeStudioTool.tsx:108-109 | `str.match(fenceRegex)` succeeds iff the text is fenced; the match is a valid match of the pattern |
| ResponseParser.FenceMatchUnique | pegasus-edge/components/tools/CreatorsEdgeStudioTool.tsx:108-109 | any valid match of the pattern is the one returned |
| ResponseParser.JsonPayload | pegasus-edge/components/tools/CreatorsEdgeStudioTool.tsx:107-112 | the text handed to `JSON.parse` is the trimmed input, or the trimmed capture when the fence matches with a non-empty capture; it never has space at either end |
| ResponseParser.ParseJsonResponse | pegasus-edge/components/tools/CreatorsEdgeStudioTool.tsx:105-118 | the result is the decoded payload when it decodes, and exactly the fallback otherwise |
| ResponseParser.FencedReplyMatch | pegasus-edge/components/tools/CreatorsEdgeStudioTool.tsx:108 | a reply of the form fence, tag, newline, JSON, newline, fence matches with the JSON as capture |
| ResponseParser.FencedPayload | pegasus-edge/components/tools/CreatorsEdgeStudioTool.tsx:107-112 | whitespace around a fenced reply is ignored, and the payload is the JSON inside |
| ResponseParser.FencedRoundTrip | pegasus-edge/components/tools/CreatorsEdgeStudioTool.tsx:105-118 | decoding a fenced encoding of a JSON text returns what that text decodes to |
| ResponseParser.UnfencedPayload | pegasus-edge/components/tools/CreatorsEdgeStudioTool.tsx:107-112 | text without an opening fence is decoded as its trim |
| ResponseParser.UnfencedReplyResult | pegasus-edge/components/tools/CreatorsEdgeStudioTool.tsx:107-117 | a reply with no opening fence is decoded as its trim: the fallback exactly when the decoder rejects the trimmed text, and the decoded value otherwise |
| ResponseParser.EmptyFenceKeepsText | pegasus-edge/components/tools/CreatorsEdgeStudioTool.tsx:110 | a fence with an empty capture leaves the whole trimmed text to be decoded |
| StudioModel.StepIndex | pegasus-edge/components/tools/CreatorsEdgeStudioTool.tsx:87 | every step is listed once in `CREATOR_STEPS_DATA`, and `findIndex` returns its position |
| StudioModel.NextStep | pegasus-edge/components/tools/CreatorsEdgeStudioTool.tsx:91-96 | one position forward, or unchanged on the last step |
| StudioModel.PrevStep | pegasus-edge/components/tools/CreatorsEdgeStudioTool.tsx:98-103 | one position back, or unchanged on the first step |
| StudioModel.PrevAfterNext | pegasus-edge/components/tools/CreatorsEdgeStudioTool.tsx:91-103 | back after forward returns to any step but the pack |
| StudioModel.NextAfterPrev | pegasus-edge/components/tools/CreatorsEdgeStudioTool.tsx:91-103 | forward after back returns to any step but the vision |
| StudioModel.ForwardReachesPack | pegasus-edge/constants.tsx:108-114 | four moves forward reach the pack from any step, and the pack is a fixed point |
| StudioModel.GeneratorOn | pegasus-edge/components/tools/CreatorsEdgeStudioTool.tsx:370-442 | every step but the pack renders exactly one generation button |
| StudioModel.PromptDefaults | pegasus-edge/components/tools/CreatorsEdgeStudioTool.tsx:148-155 | the vision prompt's topic and style fall back to their defaults, and the blueprint topic to the niche, so they are never empty when the niche is not |
| StudioModel.StoreTextFrame | pegasus-edge/components/tools/CreatorsEdgeStudioTool.tsx:157-194 | a text handler fills its own slot with the decoded reply or its fallback, keeps the inputs and every other slot, and makes the next handler ready |
| StudioModel.StoreVisionReply | pegasus-edge/components/tools/CreatorsEdgeStudioTool.tsx:156-160 | a fenced vision reply is stored as decoded, or as the error fallback when it does not decode |
| StudioModel.MusicAssets | pegasus-edge/components/tools/CreatorsEdgeStudioTool.tsx:212-281 | one asset per style suggestion, in order: an error asset for an "ai error" suggestion (case-insensitive), the service's asset on success, and an 8-second error asset with the thrown message on failure |
| StudioModel.MusicCalls | pegasus-edge/components/tools/CreatorsEdgeStudioTool.tsx:252-253 | the music service is asked for 8 seconds of every suggestion not marked as an AI error, and for nothing else |
| StudioModel.MusicAssetsSnoc | pegasus-edge/components/tools/CreatorsEdgeStudioTool.tsx:214 | one more suggestion adds that suggestion's asset and request at the end |
| StudioModel.SingleErrorSuggestion | pegasus-edge/components/tools/CreatorsEdgeStudioTool.tsx:215-225 | a suggestion marked as an AI error gives an error asset with no URL, duration 0 and no request |
| StudioModel.FallbackSuggestionsMakeNoMusic | pegasus-edge/components/tools/CreatorsEdgeStudioTool.tsx:207-225 | when the audio reply does not decode, the fallback's suggestion gives one error asset and no music request |
| StudioModel.AccessDecisionCases | pegasus-edge/components/tools/CreatorsEdgeStudioTool.tsx:120-138 | the gate consumes exactly on the pack step with the free use available, defers exactly on the pack step for POST_FREE, and otherwise (subscribers, or any step before the pack) just runs |
| StudioModel.ButtonsNeverBill | pegasus-edge/components/tools/CreatorsEdgeStudioTool.tsx:321-324 | on every step that has a generation button, the gate just runs the handler |
| StudioModel.AudioTailCases | pegasus-edge/components/tools/CreatorsEdgeStudioTool.tsx:292-302 | subscribers advance; users with the free use consume it and advance; everybody else is asked to pay |
| StudioModel.TailConsumesOnce | pegasus-edge/components/tools/CreatorsEdgeStudioTool.tsx:292-302 | after the free use is consumed at the tail, the next tail asks for payment |
| StudioModel.ResetProfileCases | pegasus-edge/components/tools/CreatorsEdgeStudioTool.tsx:348-357 | POST_FREE, MONTHLY and LIFETIME keep the profile; every other tier gets `{FREE_STUDIO_USE_AVAILABLE, false}` |
| StudioModel.ResetProfileProperties | pegasus-edge/components/tools/CreatorsEdgeStudioTool.tsx:337-358 | the reset keeps the subscription status, never takes the free use away, preserves the profile invariant, and is idempotent |
| StudioSession.InputChanged | pegasus-edge/components/tools/CreatorsEdgeStudioTool.tsx:83-85 | only the named input changes |
| StudioSession.MovesTouchOnlyTheStep | pegasus-edge/components/tools/CreatorsEdgeStudioTool.tsx:91-103 | moving forward or back changes only the step index, by one and saturating; the inputs, outputs, profile and calls stay the same |
| StudioSession.AudioFailed | pegasus-edge/components/tools/CreatorsEdgeStudioTool.tsx:307-313 | after the audio text call throws, an existing audio slot is kept and an empty one becomes empty concepts without music |
| StudioSession.TailApplied | pegasus-edge/components/tools/CreatorsEdgeStudioTool.tsx:292-302 | the audio tail never changes the studio state, the loading flag, the error or the call log |
| StudioSession.NotReadyOnlySetsError | pegasus-edge/components/tools/CreatorsEdgeStudioTool.tsx:140-198 | a handler whose precondition fails sets only its error message: no call, no step change, no output change |
| StudioSession.TextHandlerOutcome | pegasus-edge/components/tools/CreatorsEdgeStudioTool.tsx:140-195 | a ready text handler calls the model once with its own request, ends not loading, and either stores its slot and advances one step, or keeps step and state and reports the thrown message |
| StudioSession.AudioSuccess | pegasus-edge/components/tools/CreatorsEdgeStudioTool.tsx:206-289 | after a successful audio text call the slot holds the decoded concepts and one asset per suggestion, the calls are the text call followed by the music calls, and there is no error |
| StudioSession.AudioTail | pegasus-edge/components/tools/CreatorsEdgeStudioTool.tsx:292-302 | at the end of the audio step a subscriber advances, a user with the free use consumes it and advances, and anybody else stays with the modal open and "advance" pending |
| StudioSession.AudioFailure | pegasus-edge/components/tools/CreatorsEdgeStudioTool.tsx:304-316 | when the audio text call throws, the error is reported, the step and profile stay, only the text call is made, and loading ends |
| StudioSession.HandlersOnlyConsume | pegasus-edge/components/tools/CreatorsEdgeStudioTool.tsx:140-317 | the only profile change any handler makes is consuming the free use |
| StudioSession.GateOutcome | pegasus-edge/components/tools/CreatorsEdgeStudioTool.tsx:120-138 | run, run then consume (even after a failed handler), or defer: a deferred handler makes no call and is stored as pending with the modal open |
| StudioSession.ButtonsRunHandlers | pegasus-edge/components/tools/CreatorsEdgeStudioTool.tsx:321-324 | every rendered generation button just runs its handler |
| StudioSession.ConfirmRunsAtMostOnce | pegasus-edge/components/tools/CreatorsEdgeStudioTool.tsx:327-335 | a confirm clears the pending action and ends not loading; a second confirm only closes the modal |
| StudioSession.ConfirmAdvance | pegasus-edge/components/tools/CreatorsEdgeStudioTool.tsx:327-335 | confirming a pending "advance" moves one step and changes nothing else |
| StudioSession.ConfirmGenerator | pegasus-edge/components/tools/CreatorsEdgeStudioTool.tsx:327-335 | confirming a pending handler runs that handler once |
| StudioSession.CloseDiscards | pegasus-edge/components/tools/CreatorsEdgeStudioTool.tsx:493 | closing drops the pending action without running it, changes nothing else, and a later confirm does nothing |
| StudioSession.PayThenReachPack | pegasus-edge/components/tools/CreatorsEdgeStudioTool.tsx:292-335 | a user asked to pay at the audio step reaches the pack by confirming, with the profile unchanged |
| StudioSession.NewPackOutcome | pegasus-edge/components/tools/CreatorsEdgeStudioTool.tsx:337-358 | a new pack starts on the vision step with empty inputs and outputs; POST_FREE, MONTHLY and LIFETIME keep their profile and every other tier gets the trial back |
| StudioSession.AsWrittenNoMusic | pegasus-edge/components/tools/CreatorsEdgeStudioTool.tsx:1-8 | with `generateMusicSnippet` not imported, every asset of the audio step is an error asset without a URL |
| StudioSession.ImportedMusicKeepsSnippets | pegasus-edge/components/tools/CreatorsEdgeStudioTool.tsx:252-254 | with the service bound, each answered suggestion's asset is the service's asset and its request is made |
| Studio.CollectMusicAssets | pegasus-edge/components/tools/CreatorsEdgeStudioTool.tsx:212-281 | the loop builds exactly `MusicAssets` and makes exactly `MusicCalls` |
| Studio.CreatorsEdgeStudio.constructor | pegasus-edge/components/tools/CreatorsEdgeStudioTool.tsx:65-80 | the wizard starts on the vision step with empty state, no modal and no pending action |
| Studio.CreatorsEdgeStudio.HandleInputChange | pegasus-edge/components/tools/CreatorsEdgeStudioTool.tsx:83-85 | the session becomes `InputChanged` of the old one |
| Studio.CreatorsEdgeStudio.ProceedToNextStep | pegasus-edge/components/tools/CreatorsEdgeStudioTool.tsx:91-96 | the session becomes `Advanced` of the old one |
| Studio.CreatorsEdgeStudio.GoToPrevStep | pegasus-edge/components/tools/CreatorsEdgeStudioTool.tsx:98-103 | the session becomes `SteppedBack` of the old one |
| Studio.CreatorsEdgeStudio.HandleTextGeneration | pegasus-edge/components/tools/CreatorsEdgeStudioTool.tsx:140-195 | the session becomes `TextGenerated` of the old one |
| Studio.CreatorsEdgeStudio.HandleAudioGeneration | pegasus-edge/components/tools/CreatorsEdgeStudioTool.tsx:197-317 | the session, including the shared profile, becomes `AudioGenerated` of the old one |
| Studio.CreatorsEdgeStudio.AudioTail | pegasus-edge/components/tools/CreatorsEdgeStudioTool.tsx:292-302 | the session becomes `TailApplied` of the old one |
| Studio.CreatorsEdgeStudio.HandleGeneration | pegasus-edge/components/tools/CreatorsEdgeStudioTool.tsx:140-317 | the session becomes `Generated` of the old one |
| Studio.CreatorsEdgeStudio.ExecuteGenerationWithAccessCheck | pegasus-edge/components/tools/CreatorsEdgeStudioTool.tsx:120-138 | the session becomes `Gated` of the old one |
| Studio.CreatorsEdgeStudio.HandleConfirmPayPerUse | pegasus-edge/components/tools/CreatorsEdgeStudioTool.tsx:327-335 | the session becomes `Confirmed` of the old one |
| Studio.CreatorsEdgeStudio.ClosePaymentModal | pegasus-edge/components/tools/CreatorsEdgeStudioTool.tsx:493 | the session becomes `Closed` of the old one |
| Studio.CreatorsEdgeStudio.StartNewPack | pegasus-edge/components/tools/CreatorsEdgeStudioTool.tsx:337-358 | the session becomes `NewPackStarted` of the old one |
| Grounding.ValidSources | pegasus-edge/components/tools/ChatbotTool.tsx:101-104 | keeps exactly the sources whose `web` or `retrievedContext` has a non-empty uri and title; every kept source is valid |
| Grounding.ValidSourcesAppend | pegasus-edge/components/tools/ChatbotTool.tsx:101-104 | filtering distributes over concatenation |
| Grounding.ValidSourcesIdempotent | pegasus-edge/components/tools/ChatbotTool.tsx:101-104 | filtering twice is filtering once |
| Grounding.DisplayUri | pegasus-edge/components/tools/ChatbotTool.tsx:113 | a valid source always displays a non-empty uri |
| Grounding.DisplayTitle | pegasus-edge/components/tools/ChatbotTool.tsx:114 | a valid source always displays a non-empty title |
| Grounding.DisplayedFields | pegasus-edge/components/tools/ChatbotTool.tsx:113-114 | the uri and the title each prefer the `web` value when it is non-empty, and otherwise take the `retrievedContext` value |
| Grounding.MixedDisplay | pegasus-edge/components/tools/ChatbotTool.tsx:113-114 | a source can display a `web` uri with a `retrievedContext` title |
| Grounding.ChatLinks | pegasus-edge/components/tools/ChatbotTool.tsx:112-122 | one link per source, in order |
| Grounding.ChatSourcesShown | pegasus-edge/components/tools/ChatbotTool.tsx:98-126 | the chat shows a source list iff some source is valid, and then one link per valid source, with its displayed uri and title |
| Grounding.SearchItems | pegasus-edge/components/tools/SearchGroundingTool.tsx:48-66 | one item per source, in order |
| Grounding.SearchSourcesCases | pegasus-edge/components/tools/SearchGroundingTool.tsx:34-69 | an empty list gives "No specific web sources…"; a list with no valid source gives "No valid web sources…"; otherwise one item per valid source, titled with its displayed title |
| Search.SearchGroundingTool.constructor | pegasus-edge/components/tools/SearchGroundingTool.tsx:8-11 | the tool starts with an empty query, no result, no error and not loading |
| Search.SearchGroundingTool.SetQuery | pegasus-edge/components/tools/SearchGroundingTool.tsx:90 | only the query changes |
| Search.SearchGroundingTool.HandleSearch | pegasus-edge/components/tools/SearchGroundingTool.tsx:13-32 | a blank query sets the error, makes no call and keeps the previous result. Otherwise, once the search returns: success stores the answer and clears the error; failure leaves no result and sets the error, with a fallback text; loading ends false |
| Search.SearchGroundingTool.SourcesPanel | pegasus-edge/components/tools/SearchGroundingTool.tsx:121-131 | the sources panel shows exactly when a result is held and nothing is loading, and renders that result's sources |
| Chat.SessionPersona | pegasus-edge/components/tools/ChatbotTool.tsx:28 | the persona passed to the session is the trimmed system instruction, or none when it is blank |
| Chat.ApplyChunk | pegasus-edge/components/tools/ChatbotTool.tsx:71-77 | one callback appends the chunk's text and the supplied sources to the message with the placeholder's id, and leaves every other message as it was |
| Chat.LastSources | pegasus-edge/components/tools/ChatbotTool.tsx:74 | when no chunk supplies sources the placeholder keeps its own; otherwise it holds the sources of the last chunk that supplies some |
| Chat.ApplyChunks | pegasus-edge/components/tools/ChatbotTool.tsx:70-81 | after the stream, the placeholder holds its text followed by all chunk texts and the last supplied sources; every other message is unchanged |
| Chat.ReplaceText | pegasus-edge/components/tools/ChatbotTool.tsx:85-91 | the error path rewrites only the placeholder's text |
| Chat.SendAppendsTwo | pegasus-edge/components/tools/ChatbotTool.tsx:49-92 | a send appends exactly two messages, the user's input and then the AI message, and leaves earlier messages unchanged; the AI message holds the streamed text, or `Error: ` and the message on failure |
| Chat.ClockIdsDistinct | pegasus-edge/components/tools/ChatbotTool.tsx:50-60 | the user message's id and the placeholder's id differ when the clock does not go back |
| Chat.RunStream | pegasus-edge/components/tools/ChatbotTool.tsx:70-81 | the callback loop produces exactly `ApplyChunks` and reports whether any chunk was final |
| Chat.ChatbotTool.constructor | pegasus-edge/components/tools/ChatbotTool.tsx:10-14 | the tool starts with no messages, empty input, the default persona and no session |
| Chat.ChatbotTool.SetUserInput | pegasus-edge/components/tools/ChatbotTool.tsx:11 | only the input changes |
| Chat.ChatbotTool.SetSystemInstruction | pegasus-edge/components/tools/ChatbotTool.tsx:14 | only the persona changes |
| Chat.ChatbotTool.InitializeChat | pegasus-edge/components/tools/ChatbotTool.tsx:25-35 | a session is started with the trimmed persona. On success the transcript becomes the single greeting. On failure only the error is set, with a fallback text |
| Chat.ChatbotTool.HandleSendMessage | pegasus-edge/components/tools/ChatbotTool.tsx:46-95 | with blank input or no session, nothing changes. Otherwise: the transcript is `SentTranscript`, the input is cleared, and loading stays on only while no final chunk arrived and nothing was thrown; on failure the error is set with a fallback text |
| Plans.GrantedTier | pegasus-edge/components/SubscriptionPlanCard.tsx:41-45 | MONTHLY and LIFETIME grant their tier, and pay-per-use grants none |
| Plans.PurchaseOutcome | pegasus-edge/components/SubscriptionPlanCard.tsx:28-51 | a missing or empty price id, a failed checkout or a pay-per-use plan leave the profile unchanged; a completed MONTHLY or LIFETIME checkout sets that tier and keeps the free-use flag |
| Plans.PurchaseSubscribes | pegasus-edge/components/SubscriptionPlanCard.tsx:41-45 | after a completed subscription purchase the user is subscribed, has no free use on offer, and buying again changes nothing |
| Plans.ShownPlansPurchasable | pegasus-edge/constants.tsx:117-155 | both plan cards carry a price id and grant a tier |
| Plans.HandleSubscribe | pegasus-edge/components/SubscriptionPlanCard.tsx:28-51 | the shared profile becomes `Purchased` of the old one |
| ToolsPage.DefaultToolId | pegasus-edge/pages/ToolsPage.tsx:17 | the studio if it is listed, otherwise the first tool, otherwise the text generator; a listed id whenever the list is non-empty |
| ToolsPage.ActiveToolId | pegasus-edge/pages/ToolsPage.tsx:18 | the route's id when it is a non-empty listed id, otherwise the default |
| ToolsPage.Redirect | pegasus-edge/pages/ToolsPage.tsx:22-28 | every redirect goes to `/tools/` followed by the default id |
| ToolsPage.RedirectIffUnlisted | pegasus-edge/pages/ToolsPage.tsx:22-28 | a redirect happens iff the route's id is missing or unlisted, and then the default tool is active |
| ToolsPage.ActiveIsListed | pegasus-edge/pages/ToolsPage.tsx:18-20 | with a non-empty list the active id is listed, so "Select Your Weapon" never shows |
| ToolsPage.DispatchByKnownIds | pegasus-edge/pages/ToolsPage.tsx:31-54 | the five ids dispatch to their own components, and "Tool Not Found" is reached exactly for other ids |
| ToolsPage.ShippedToolsAlwaysRender | pegasus-edge/pages/ToolsPage.tsx:17-54 | with the shipped tool list, an unknown or missing id shows the studio, and no route shows "Tool Not Found" or the selection prompt |
| ToolsPage.OneSidebarEntryActive | pegasus-edge/pages/ToolsPage.tsx:65-68 | exactly one sidebar entry is highlighted when the list is non-empty and has no duplicate ids |
| Navbar.ActiveItems | pegasus-edge/components/Navbar.tsx:26 | Home is lit iff the path is "/"; AI Tools iff the path starts with "/tools" (so also "/toolshed"); Get The Edge iff the path is "/subscriptions" |
| Navbar.AtMostOneActive | pegasus-edge/components/Navbar.tsx:8-26 | no path lights two navigation items |

## Left out

- The services `services/geminiService.ts` and `services/audioService.ts` and the music backend are not part of this model. Their answers are parameters: a `Result` for each call, the chat stream as its list of callbacks, and a function for the music service.
- `localStorage` and `JSON.stringify`/`JSON.parse` are I/O. The loader works on the stored text and an abstract parser into a JSON value. The saving effect (`App.tsx:54-60`) appears only as `Profile.ProfileJson`.
- `JSON.parse` does not check the shape of what it returns. The decoders here are typed, so a reply of the wrong shape is modelled either as decoding to some value of the right type or as failing.
- Thrown values are taken to be `Error` objects that carry a message. Non-`Error` throws, and `undefined` messages, are not modelled.
- `Date.now()` is a parameter (two readings for a send). `timestamp: new Date()` and the asset ids are left out.
- The intermediate "Generating…" loading assets of the audio loop (`CreatorsEdgeStudioTool.tsx:230-279`) are left out. They are later overwritten (`CreatorsEdgeStudioTool.tsx:283-289`). So are the loading assets the error path marks as failed. Only the final state is modelled.
- React's scheduling is left out: batched `setState`, stale closures, `useCallback` dependency lists, effects, and concurrent sends or searches. Each handler runs to completion on the current state.
- `toLowerCase` is modelled for ASCII letters only.
- StudioModel.MusicAssets: the music service is a function of the prompt alone, so two equal suggestions get the same answer. In the code each suggestion is a separate network call that can succeed or fail on its own, and each asset gets its own id.
- StudioSession.ConfirmRunsAtMostOnce and StudioSession.CloseDiscards: these hold for one confirm at a time on the current state. In the code the Pay button schedules the confirm 1.5 s later, and it reads the `pendingAction` of the render that scheduled it. So two Pay clicks run the action twice, and Pay followed by "Maybe Later" still runs the discarded action. For "advance", the only action the rendered buttons can leave pending, both runs reach the same step.
- `voiceOverTone` is a string, as the code uses it. The declared `string[]` type is not followed.
- `alert`, `setTimeout`, the payment modal's own timer and the mock Stripe redirect are left out. The checkout appears only through its outcome.
- `CreativeStudioTool.tsx` is not modelled. It is a superseded duplicate of the wizard that no page imports.
- The text and image tools are not modelled. They are a blank-prompt guard around one service call.
- JSX layout, styling, icons, the router itself and the presentational pages are not modelled. Only the decisions that choose what renders are: the tool dispatch, the empty-source messages and the navigation highlight.
- A plan keeps only its id, its name and its price id. Price, features and styling drive no decision.

## Findings

| source | as written | input that shows it | evidently intended | confidence | as-written member | corrected member |
|---|---|---|---|---|---|---|
| pegasus-edge/components/tools/CreatorsEdgeStudioTool.tsx:1-8 | `generateMusicSnippet` is called at line 253 but not imported. The service exports it (`services/audioService.ts:17`). At run time the call throws a `ReferenceError`, which the per-suggestion `catch` turns into an error asset. | any audio reply whose suggestions are not marked as AI errors, e.g. `["lo-fi beats"]`: the asset has error "generateMusicSnippet is not defined" and no URL | import it from the audio service, so each answered suggestion keeps the generated snippet | not executed; a type-checked build would reject the file instead | StudioSession.AsWrittenNoMusic | StudioSession.ImportedMusicKeepsSnippets |
