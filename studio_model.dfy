/** The pure part of the Creator's Edge Studio wizard: the fixed step order,
    the outputs each step produces and their fallbacks, the requests sent to
    the text model, the two access policies, the music-asset list built by
    the audio step, and the profile reset of "Start New Edge Pack". */
module StudioModel {
  import opened Wrappers
  import opened Text
  import opened Profile
  import opened ResponseParser

  // ---------------------------------------------------------------- steps

  datatype StepId = Vision | Signature | Blueprint | AudioAlchemy | Pack

  /** `CREATOR_STEPS_DATA`: the wizard's steps in order. */
  const CreatorSteps: seq<StepId> := [Vision, Signature, Blueprint, AudioAlchemy, Pack]

  /** `findIndex` of a step in the step order; every step is listed. */
  function StepIndex(s: StepId): (i: nat)
    ensures i < |CreatorSteps| && CreatorSteps[i] == s
    ensures forall k :: 0 <= k < |CreatorSteps| && CreatorSteps[k] == s ==> k == i
  {
    match s
    case Vision => 0
    case Signature => 1
    case Blueprint => 2
    case AudioAlchemy => 3
    case Pack => 4
  }

  /** `proceedToNextStep`: one step forward, or stay on the last step. */
  function NextStep(s: StepId): (t: StepId)
    ensures StepIndex(s) + 1 < |CreatorSteps| ==> StepIndex(t) == StepIndex(s) + 1
    ensures StepIndex(s) + 1 == |CreatorSteps| ==> t == s
  {
    var i := StepIndex(s) + 1;
    if i < |CreatorSteps| then CreatorSteps[i] else s
  }

  /** `goToPrevStep`: one step back, or stay on the first step. */
  function PrevStep(s: StepId): (t: StepId)
    ensures StepIndex(s) > 0 ==> StepIndex(t) == StepIndex(s) - 1
    ensures StepIndex(s) == 0 ==> t == s
  {
    var i := StepIndex(s) - 1;
    if i >= 0 then CreatorSteps[i] else s
  }

  /** Going forward and then back returns to the step, except at the end. */
  lemma PrevAfterNext(s: StepId)
    requires s != Pack
    ensures PrevStep(NextStep(s)) == s
  {
  }

  lemma NextAfterPrev(s: StepId)
    requires s != Vision
    ensures NextStep(PrevStep(s)) == s
  {
  }

  /** Four forward moves reach the pack from any step, and then stay there. */
  lemma ForwardReachesPack(s: StepId)
    ensures NextStep(NextStep(NextStep(NextStep(s)))) == Pack
    ensures NextStep(Pack) == Pack
  {
  }

  // -------------------------------------------------------------- outputs

  datatype VisionOutput = VisionOutput(titles: seq<string>, angles: seq<string>, audiencePersona: string)
  datatype ColorPalette = ColorPalette(name: string, colors: seq<string>)
  datatype FontPairing = FontPairing(heading: string, body: string, vibe: string)
  datatype SignatureOutput = SignatureOutput(colorPalettes: seq<ColorPalette>,
                                             fontPairings: seq<FontPairing>,
                                             thumbnailConcepts: seq<string>)
  datatype BlueprintOutput = BlueprintOutput(talkingPoints: seq<string>, introHooks: seq<string>,
                                             ctaPhrases: seq<string>, interactiveIdeas: seq<string>)
  /** The textual part of the audio step's reply. */
  datatype AudioConcepts = AudioConcepts(musicStyleSuggestions: seq<string>, jingleIdeas: seq<string>,
                                         sfxConcepts: seq<string>, voiceOverTone: string)
  /** A music snippet as the wizard keeps it (ids are not modelled). */
  datatype MusicAsset = MusicAsset(description: string, audioUrl: string, duration: int,
                                   error: Option<string>)
  datatype AudioOutput = AudioOutput(concepts: AudioConcepts, generatedMusic: seq<MusicAsset>)

  /** `CreatorsEdgeState`: the three inputs and the four output slots. */
  datatype StudioState = StudioState(
    channelNiche: string, videoTopic: string, contentStyle: string,
    visionOutput: Option<VisionOutput>, signatureOutput: Option<SignatureOutput>,
    blueprintOutput: Option<BlueprintOutput>, audioOutput: Option<AudioOutput>)

  const EmptyStudioState := StudioState("", "", "", None, None, None, None)

  /** The values each step stores when the model's reply does not decode. */
  const VisionFallback := VisionOutput(["AI Error: Title gen failed"], ["AI Error: Angle gen failed"],
                                       "AI Error: Persona gen failed")
  const SignatureFallback := SignatureOutput([ColorPalette("Error Palette", ["#000"])],
                                             [FontPairing("ErrorFont", "ErrorFont", "Error")],
                                             ["AI error for thumbnails."])
  const BlueprintFallback := BlueprintOutput(["AI error."], ["AI error."], ["AI error."], ["AI error."])
  const AudioFallback := AudioConcepts(["AI Error: No styles suggested."], ["AI Error."], ["AI Error."],
                                       "AI Error.")
  /** What the audio step's error path puts in an empty audio slot. */
  const NoAudioConcepts := AudioConcepts([], [], [], "")

  /** The decoders standing for `JSON.parse` at each step's result type. */
  datatype Decoders = Decoders(
    vision: string -> Option<VisionOutput>, signature: string -> Option<SignatureOutput>,
    blueprint: string -> Option<BlueprintOutput>, audio: string -> Option<AudioConcepts>)

  // ------------------------------------------------------------- handlers

  /** The four generation handlers of the wizard. */
  datatype Generator = VisionGen | SignatureGen | BlueprintGen | AudioGen

  /** The handler whose button each step renders; the pack step has none. */
  function GeneratorOn(s: StepId): (g: Option<Generator>)
    ensures g.None? <==> s == Pack
  {
    match s
    case Vision => Some(VisionGen)
    case Signature => Some(SignatureGen)
    case Blueprint => Some(BlueprintGen)
    case AudioAlchemy => Some(AudioGen)
    case Pack => None
  }

  /** The state a handler needs before it calls the model. */
  predicate Ready(g: Generator, st: StudioState) {
    match g
    case VisionGen => !IsBlank(st.channelNiche)
    case SignatureGen => st.visionOutput.Some?
    case BlueprintGen => st.visionOutput.Some? && st.signatureOutput.Some?
    case AudioGen => st.blueprintOutput.Some?
  }

  /** The error a handler reports when it is not ready. */
  function NotReadyMessage(g: Generator): string {
    match g
    case VisionGen => "Channel Niche is essential for a focused vision."
    case SignatureGen => "Vision step must be completed."
    case BlueprintGen => "Vision & Signature needed."
    case AudioGen => "Blueprint needed for audio."
  }

  /** The system instruction each handler passes to the text model. */
  function SystemInstruction(g: Generator): string {
    match g
    case VisionGen => "AI co-producer for viral strategies."
    case SignatureGen => "AI branding expert for luxury/modern aesthetics."
    case BlueprintGen => "AI scriptwriter & engagement strategist."
    case AudioGen => "AI audio director for digital content."
  }

  /** The values each prompt is built from. */
  datatype TextRequest =
    | VisionRequest(niche: string, topic: string, style: string)
    | SignatureRequest(titles: seq<string>, audience: string, niche: string)
    | BlueprintRequest(titles: seq<string>, topic: string, palette: Option<string>)
    | AudioRequest(niche: string, topic: string, style: string, points: seq<string>)

  /** The request a ready handler sends, with the prompts' defaults. */
  function RequestFor(g: Generator, st: StudioState): (r: TextRequest)
    requires Ready(g, st)
  {
    match g
    case VisionGen =>
      VisionRequest(st.channelNiche, OrElse(st.videoTopic, "General channel content"),
                    OrElse(st.contentStyle, "Versatile"))
    case SignatureGen =>
      SignatureRequest(st.visionOutput.value.titles, st.visionOutput.value.audiencePersona, st.channelNiche)
    case BlueprintGen =>
      var palettes := st.signatureOutput.value.colorPalettes;
      BlueprintRequest(st.visionOutput.value.titles, OrElse(st.videoTopic, st.channelNiche),
                       if palettes == [] then None else Some(palettes[0].name))
    case AudioGen =>
      AudioRequest(st.channelNiche, st.videoTopic, st.contentStyle, st.blueprintOutput.value.talkingPoints)
  }

  /** The vision and blueprint prompts never send an empty topic when the
      niche is set, and the vision prompt never sends an empty style. */
  lemma PromptDefaults(g: Generator, st: StudioState)
    requires Ready(g, st) && (g == VisionGen || g == BlueprintGen)
    ensures g == VisionGen ==> RequestFor(g, st).topic != "" && RequestFor(g, st).style != ""
    ensures g == BlueprintGen && st.channelNiche != "" ==> RequestFor(g, st).topic != ""
  {
  }

  /** The calls the wizard makes to the outside. */
  datatype Call =
    | GenerateText(request: TextRequest, systemInstruction: string)
    | GenerateMusic(prompt: string, seconds: int)

  /** State after one of the three text handlers stores its decoded reply
      `text`: only that handler's slot changes. */
  function StoreText(g: Generator, st: StudioState, text: string, dec: Decoders): (r: StudioState)
    requires g != AudioGen
  {
    match g
    case VisionGen => st.(visionOutput := Some(ParseJsonResponse(text, dec.vision, VisionFallback)))
    case SignatureGen => st.(signatureOutput := Some(ParseJsonResponse(text, dec.signature, SignatureFallback)))
    case BlueprintGen => st.(blueprintOutput := Some(ParseJsonResponse(text, dec.blueprint, BlueprintFallback)))
  }

  /** A text handler keeps the inputs and every slot but its own, and fills
      its own so the next handler becomes ready. */
  lemma StoreTextFrame(g: Generator, st: StudioState, text: string, dec: Decoders)
    requires g != AudioGen
    ensures var r := StoreText(g, st, text, dec);
      r.channelNiche == st.channelNiche && r.videoTopic == st.videoTopic
      && r.contentStyle == st.contentStyle && r.audioOutput == st.audioOutput
      && (g != VisionGen ==> r.visionOutput == st.visionOutput)
      && (g != SignatureGen ==> r.signatureOutput == st.signatureOutput)
      && (g != BlueprintGen ==> r.blueprintOutput == st.blueprintOutput)
    ensures g == VisionGen ==> Ready(SignatureGen, StoreText(g, st, text, dec))
    ensures g == SignatureGen && Ready(g, st) ==> Ready(BlueprintGen, StoreText(g, st, text, dec))
    ensures g == BlueprintGen ==> Ready(AudioGen, StoreText(g, st, text, dec))
  {
  }

  /** A fenced vision reply that decodes is stored as decoded; one that
      does not decode stores the fallback. */
  lemma StoreVisionReply(st: StudioState, tag: string, j: string, dec: Decoders)
    requires AllWord(tag) && Trimmed(j) && j != ""
    ensures dec.vision(j).Some? ==>
      StoreText(VisionGen, st, FencedReply(tag, j), dec).visionOutput == Some(dec.vision(j).value)
    ensures dec.vision(j).None? ==>
      StoreText(VisionGen, st, FencedReply(tag, j), dec).visionOutput == Some(VisionFallback)
  {
    FencedReplyMatch(tag, j);
    FencedReplyTrimmed(tag, j);
    if dec.vision(j).Some? {
      FencedRoundTrip(tag, j, dec.vision, dec.vision(j).value, VisionFallback);
    } else {
      assert JsonPayload(FencedReply(tag, j)) == j by {
        FencedPayload("", tag, j, "");
        assert "" + FencedReply(tag, j) + "" == FencedReply(tag, j);
      }
    }
  }

  // ---------------------------------------------------------- music assets

  const InvalidStyleMessage := "Failed to get a valid style suggestion from AI."
  /** Seconds requested per snippet. */
  const SnippetSeconds := 8

  /** A suggestion the model itself marked as failed. */
  predicate IsAiErrorSuggestion(style: string) {
    Includes(ToLower(style), "ai error")
  }

  function ErrorAsset(style: string, duration: int, message: string): MusicAsset {
    MusicAsset(style, "", duration, Some(message))
  }

  /** The asset one suggestion contributes: an error asset without a call for
      an "ai error" suggestion, otherwise the music service's snippet, or an
      error asset carrying the service's message when it fails. */
  function AssetFor(style: string, music: string -> Result<MusicAsset>): MusicAsset {
    if IsAiErrorSuggestion(style) then ErrorAsset(style, 0, InvalidStyleMessage)
    else match music(style)
      case Ok(a) => a
      case Err(m) => ErrorAsset(style, SnippetSeconds, m)
  }

  /** The `generatedMusicAssets` list: one asset per suggestion, in order. */
  function MusicAssets(styles: seq<string>, music: string -> Result<MusicAsset>): (r: seq<MusicAsset>)
    ensures |r| == |styles|
    ensures forall k :: 0 <= k < |styles| && IsAiErrorSuggestion(styles[k]) ==>
              r[k] == MusicAsset(styles[k], "", 0, Some(InvalidStyleMessage))
    ensures forall k :: 0 <= k < |styles| && !IsAiErrorSuggestion(styles[k]) && music(styles[k]).Ok? ==>
              r[k] == music(styles[k]).value
    ensures forall k :: 0 <= k < |styles| && !IsAiErrorSuggestion(styles[k]) && music(styles[k]).Err? ==>
              r[k] == MusicAsset(styles[k], "", SnippetSeconds, Some(music(styles[k]).message))
  {
    if styles == [] then []
    else MusicAssets(styles[..|styles| - 1], music) + [AssetFor(styles[|styles| - 1], music)]
  }

  /** The music requests made for the suggestions: one per suggestion that is
      not an "ai error" suggestion, in order. */
  function MusicCalls(styles: seq<string>): (r: seq<Call>)
    ensures |r| <= |styles|
    ensures forall c :: c in r ==>
              c.GenerateMusic? && c.seconds == SnippetSeconds && c.prompt in styles && !IsAiErrorSuggestion(c.prompt)
    ensures forall s :: s in styles && !IsAiErrorSuggestion(s) ==> GenerateMusic(s, SnippetSeconds) in r
  {
    if styles == [] then []
    else
      var last := styles[|styles| - 1];
      var front := styles[..|styles| - 1];
      assert styles == front + [last];
      MusicCalls(front) + (if IsAiErrorSuggestion(last) then [] else [GenerateMusic(last, SnippetSeconds)])
  }

  /** Extending the suggestions by one extends both lists by that one's share. */
  lemma MusicAssetsSnoc(styles: seq<string>, i: nat, music: string -> Result<MusicAsset>)
    requires i < |styles|
    ensures MusicAssets(styles[..i + 1], music) == MusicAssets(styles[..i], music) + [AssetFor(styles[i], music)]
    ensures MusicCalls(styles[..i + 1]) == MusicCalls(styles[..i])
              + (if IsAiErrorSuggestion(styles[i]) then [] else [GenerateMusic(styles[i], SnippetSeconds)])
  {
    assert styles[..i + 1][..i] == styles[..i];
  }

  lemma LowerPrefix(s: string)
    requires |s| >= 8 && s[..8] == "AI Error"
    ensures IsAiErrorSuggestion(s)
  {
    var l := ToLower(s);
    assert l[..8] == "ai error";
  }

  /** A single suggestion the model marked as failed yields a single error
      asset and no music request. */
  lemma SingleErrorSuggestion(s: string, music: string -> Result<MusicAsset>)
    requires IsAiErrorSuggestion(s)
    ensures MusicAssets([s], music) == [MusicAsset(s, "", 0, Some(InvalidStyleMessage))]
    ensures MusicCalls([s]) == []
  {
    assert [s][..0] == [];
  }

  /** When the audio reply does not decode, its single fallback suggestion
      yields a single error asset and no music request. */
  lemma FallbackSuggestionsMakeNoMusic(music: string -> Result<MusicAsset>)
    ensures MusicAssets(AudioFallback.musicStyleSuggestions, music)
              == [MusicAsset(AudioFallback.musicStyleSuggestions[0], "", 0, Some(InvalidStyleMessage))]
    ensures MusicCalls(AudioFallback.musicStyleSuggestions) == []
  {
    var s := AudioFallback.musicStyleSuggestions[0];
    LowerPrefix(s);
    SingleErrorSuggestion(s, music);
  }

  // -------------------------------------------------------- access policy

  /** What `executeGenerationWithAccessCheck` does with a handler. */
  datatype GateDecision = RunAction | RunThenConsume | DeferToPayment

  function AccessDecision(p: UserProfile, step: StepId): (d: GateDecision) {
    if IsSubscribed(p) then RunAction
    else if CanUseCreatorStudioFree(p) && step == Pack then RunThenConsume
    else if step == Pack && p.tier == PostFreeStudioUse then DeferToPayment
    else RunAction
  }

  /** The gate as a whole: it consumes exactly on the pack step with free use
      available, defers exactly on the pack step after the free use, and
      otherwise runs the handler without touching the profile. */
  lemma AccessDecisionCases(p: UserProfile, step: StepId)
    ensures AccessDecision(p, step) == RunThenConsume <==> step == Pack && CanUseCreatorStudioFree(p)
    ensures AccessDecision(p, step) == DeferToPayment <==> step == Pack && p.tier == PostFreeStudioUse
    ensures IsSubscribed(p) ==> AccessDecision(p, step) == RunAction
    ensures step != Pack ==> AccessDecision(p, step) == RunAction
  {
  }

  /** Every handler button sits on a step before the pack, so the gate runs
      every handler it is actually given, and never bills. */
  lemma ButtonsNeverBill(p: UserProfile, step: StepId, g: Generator)
    requires GeneratorOn(step) == Some(g)
    ensures AccessDecision(p, step) == RunAction
  {
  }

  /** What the audio step does once its assets are stored. */
  datatype TailDecision = Advance | ConsumeThenAdvance | AskPayment

  function AudioTailDecision(p: UserProfile): (d: TailDecision) {
    if IsSubscribed(p) then Advance
    else if CanUseCreatorStudioFree(p) then ConsumeThenAdvance
    else AskPayment
  }

  /** The audio tail is the wizard's billing point: everybody who is neither
      subscribed nor holding an unused free use is asked to pay, whatever the
      tier string says. */
  lemma AudioTailCases(p: UserProfile)
    ensures AudioTailDecision(p) == Advance <==> p.tier == Monthly || p.tier == Lifetime
    ensures AudioTailDecision(p) == ConsumeThenAdvance <==>
              p.tier == FreeStudioUseAvailable && !p.freeUseConsumed
    ensures AudioTailDecision(p) == AskPayment <==>
              (p.tier == NoTier || p.tier == PostFreeStudioUse || p.tier.Unrecognised?
               || (p.tier == FreeStudioUseAvailable && p.freeUseConsumed))
  {
  }

  /** Consuming at the tail leaves a profile that the next tail bills. */
  lemma TailConsumesOnce(p: UserProfile)
    requires AudioTailDecision(p) == ConsumeThenAdvance
    ensures AudioTailDecision(ConsumeFreeUse(p)) == AskPayment
  {
  }

  // --------------------------------------------------------------- reset

  const ResetPatch := ProfilePatch(Some(FreeStudioUseAvailable), Some(false))

  /** The profile after `startNewPack`. */
  function ResetProfile(p: UserProfile): (q: UserProfile) {
    if p.tier == PostFreeStudioUse && !IsSubscribed(p) then p
    else if !IsSubscribed(p) then Merge(p, ResetPatch)
    else p
  }

  /** A paid or post-trial profile is kept; any other tier gets the trial
      back, free use unconsumed. */
  lemma ResetProfileCases(p: UserProfile)
    ensures p.tier == PostFreeStudioUse || p.tier == Monthly || p.tier == Lifetime ==> ResetProfile(p) == p
    ensures !(p.tier == PostFreeStudioUse || p.tier == Monthly || p.tier == Lifetime) ==>
              ResetProfile(p) == UserProfile(FreeStudioUseAvailable, false)
  {
  }

  /** Resetting keeps the subscription, never takes away a free use, keeps
      profiles consistent, and is idempotent. */
  lemma ResetProfileProperties(p: UserProfile)
    ensures IsSubscribed(ResetProfile(p)) == IsSubscribed(p)
    ensures CanUseCreatorStudioFree(p) ==> CanUseCreatorStudioFree(ResetProfile(p))
    ensures ConsistentProfile(p) ==> ConsistentProfile(ResetProfile(p))
    ensures ResetProfile(ResetProfile(p)) == ResetProfile(p)
  {
  }
}
