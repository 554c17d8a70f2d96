/** The `CreatorsEdgeStudioTool` component as an object: its state
    variables are fields, each handler is a method that updates them step
    by step, and the shared profile lives in the `SubscriptionProvider` it
    holds. Every method is proved to act as the matching function of module
    StudioSession. */
module Studio {
  import opened Wrappers
  import opened Profile
  import opened Subscription
  import opened ResponseParser
  import opened StudioModel
  import opened StudioSession

  /** The loop of the audio handler: one asset per suggestion, asking the
      music service only for suggestions not marked as an AI error;
      `requested` lists the music requests made, in order. */
  method CollectMusicAssets(styles: seq<string>, music: string -> Result<MusicAsset>)
    returns (generatedMusicAssets: seq<MusicAsset>, ghost requested: seq<Call>)
    ensures generatedMusicAssets == MusicAssets(styles, music)
    ensures requested == MusicCalls(styles)
  {
    generatedMusicAssets, requested := [], [];
    var i := 0;
    while i < |styles|
      invariant 0 <= i <= |styles|
      invariant generatedMusicAssets == MusicAssets(styles[..i], music)
      invariant requested == MusicCalls(styles[..i])
    {
      MusicAssetsSnoc(styles, i, music);
      var styleSuggestion := styles[i];
      if IsAiErrorSuggestion(styleSuggestion) {
        generatedMusicAssets := generatedMusicAssets + [ErrorAsset(styleSuggestion, 0, InvalidStyleMessage)];
      } else {
        requested := requested + [GenerateMusic(styleSuggestion, SnippetSeconds)];
        match music(styleSuggestion) {
          case Ok(musicAsset) =>
            generatedMusicAssets := generatedMusicAssets + [musicAsset];
          case Err(m) =>
            generatedMusicAssets := generatedMusicAssets + [ErrorAsset(styleSuggestion, SnippetSeconds, m)];
        }
      }
      i := i + 1;
    }
    assert styles[..|styles|] == styles;
  }

  class CreatorsEdgeStudio {
    /** The subscription context from `useSubscription()`. */
    const subscription: SubscriptionProvider
    var currentStepId: StepId
    var studioState: StudioState
    var isLoading: bool
    var error: Option<string>
    var showPaymentModal: bool
    var pendingAction: Option<PendingAction>
    /** The calls made to the text model and the music service. */
    ghost var calls: seq<Call>

    /** The whole session as a value. */
    ghost function Snapshot(): Session
      reads this, subscription
    {
      Session(WizardView(currentStepId, studioState, isLoading, error, showPaymentModal, pendingAction),
              subscription.userProfile, calls)
    }

    constructor (provider: SubscriptionProvider)
      ensures subscription == provider
      ensures Snapshot() == Session(InitialView, provider.userProfile, [])
    {
      subscription := provider;
      currentStepId := CreatorSteps[0];
      studioState := EmptyStudioState;
      isLoading := false;
      error := None;
      showPaymentModal := false;
      pendingAction := None;
      calls := [];
    }

    method HandleInputChange(field: InputField, value: string)
      modifies this
      ensures Snapshot() == InputChanged(old(Snapshot()), field, value)
    {
      match field {
        case ChannelNiche => studioState := studioState.(channelNiche := value);
        case VideoTopic => studioState := studioState.(videoTopic := value);
        case ContentStyle => studioState := studioState.(contentStyle := value);
      }
    }

    method ProceedToNextStep()
      modifies this
      ensures Snapshot() == Advanced(old(Snapshot()))
    {
      var nextStepIndex := StepIndex(currentStepId) + 1;
      if nextStepIndex < |CreatorSteps| {
        currentStepId := CreatorSteps[nextStepIndex];
      }
    }

    method GoToPrevStep()
      modifies this
      ensures Snapshot() == SteppedBack(old(Snapshot()))
    {
      var prevStepIndex := StepIndex(currentStepId) - 1;
      if prevStepIndex >= 0 {
        currentStepId := CreatorSteps[prevStepIndex];
      }
    }

    /** The vision, signature and blueprint handlers. */
    method HandleTextGeneration(g: Generator, b: Backend)
      requires g != AudioGen
      modifies this
      ensures Snapshot() == TextGenerated(g, b, old(Snapshot()))
    {
      if !Ready(g, studioState) {
        error := Some(NotReadyMessage(g));
        return;
      }
      isLoading := true;
      error := None;
      calls := calls + [GenerateText(RequestFor(g, studioState), SystemInstruction(g))];
      match b.textReply {
        case Err(m) =>
          error := Some(m);
        case Ok(resultText) =>
          studioState := StoreText(g, studioState, resultText, b.decoders);
          ProceedToNextStep();
      }
      isLoading := false;
    }

    /** The audio handler, ending with the billing tail. */
    method HandleAudioGeneration(b: Backend)
      modifies this, subscription
      ensures Snapshot() == AudioGenerated(b, old(Snapshot()))
    {
      if !Ready(AudioGen, studioState) {
        error := Some(NotReadyMessage(AudioGen));
        return;
      }
      isLoading := true;
      error := None;
      calls := calls + [GenerateText(RequestFor(AudioGen, studioState), SystemInstruction(AudioGen))];
      match b.textReply {
      case Err(m) =>
        error := Some(m);
        studioState := AudioFailed(studioState);
        isLoading := false;
      case Ok(textualResultText) =>
        var concepts := ParseJsonResponse(textualResultText, b.decoders.audio, AudioFallback);
        var generatedMusicAssets, requested := CollectMusicAssets(concepts.musicStyleSuggestions, b.music);
        calls := calls + requested;
        studioState := studioState.(audioOutput := Some(AudioOutput(concepts, generatedMusicAssets)));
        isLoading := false;
        AudioTail();
      }
    }

    /** The access check at the end of the audio handler. */
    method AudioTail()
      modifies this, subscription
      ensures Snapshot() == TailApplied(old(Snapshot()))
    {
      if subscription.IsSubscribed() {
        ProceedToNextStep();
      } else if subscription.CanUseCreatorStudioFree() {
        subscription.ConsumeCreatorStudioFreeUse();
        ProceedToNextStep();
      } else {
        showPaymentModal := true;
        pendingAction := Some(AdvanceStep);
      }
    }

    /** `handle<Step>GenerationInternal`, by handler. */
    method HandleGeneration(g: Generator, b: Backend)
      modifies this, subscription
      ensures Snapshot() == Generated(g, b, old(Snapshot()))
    {
      if g == AudioGen {
        HandleAudioGeneration(b);
      } else {
        HandleTextGeneration(g, b);
      }
    }

    method ExecuteGenerationWithAccessCheck(g: Generator, b: Backend)
      modifies this, subscription
      ensures Snapshot() == Gated(g, b, old(Snapshot()))
    {
      if subscription.IsSubscribed() {
        HandleGeneration(g, b);
        return;
      }
      if subscription.CanUseCreatorStudioFree() && currentStepId == Pack {
        HandleGeneration(g, b);
        subscription.ConsumeCreatorStudioFreeUse();
        return;
      }
      if currentStepId == Pack && subscription.userProfile.tier == PostFreeStudioUse {
        pendingAction := Some(RunGenerator(g));
        showPaymentModal := true;
        return;
      }
      HandleGeneration(g, b);
    }

    method HandleConfirmPayPerUse(b: Backend)
      modifies this, subscription
      ensures Snapshot() == Confirmed(b, old(Snapshot()))
    {
      showPaymentModal := false;
      if pendingAction.Some? {
        isLoading := true;
        match pendingAction.value {
          case AdvanceStep => ProceedToNextStep();
          case RunGenerator(g) => HandleGeneration(g, b);
        }
        pendingAction := None;
        isLoading := false;
      }
    }

    /** The payment modal's `onClose`. */
    method ClosePaymentModal()
      modifies this
      ensures Snapshot() == Closed(old(Snapshot()))
    {
      showPaymentModal := false;
      pendingAction := None;
    }

    method StartNewPack()
      modifies this, subscription
      ensures Snapshot() == NewPackStarted(old(Snapshot()))
    {
      currentStepId := Vision;
      studioState := EmptyStudioState;
      if subscription.userProfile.tier == PostFreeStudioUse && !subscription.IsSubscribed() {
        // the next pack costs a pay-per-use charge; the profile stays
      } else if !subscription.IsSubscribed() {
        subscription.UpdateUserProfile(ResetPatch);
      }
    }
  }
}
