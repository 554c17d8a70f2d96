/** The Creator's Edge Studio wizard as a state machine over values: each
    user action of CreatorsEdgeStudioTool is a function from the session
    before it to the session after it. The class in module Studio
    implements these step by step; the lemmas here state what the actions
    promise. */
module StudioSession {
  import opened Wrappers
  import opened Text
  import opened Profile
  import opened ResponseParser
  import opened StudioModel

  /** The deferred action kept while the payment modal is open. */
  datatype PendingAction = AdvanceStep | RunGenerator(generator: Generator)

  /** The component's own state variables. */
  datatype WizardView = WizardView(
    step: StepId, state: StudioState, isLoading: bool, error: Option<string>,
    showPaymentModal: bool, pendingAction: Option<PendingAction>)

  const InitialView := WizardView(Vision, EmptyStudioState, false, None, false, None)

  /** The whole session: the wizard's state, the shared profile, and the
      calls made to the outside so far. */
  datatype Session = Session(view: WizardView, profile: UserProfile, calls: seq<Call>)

  /** What the outside answers during one handler run: the text model's
      reply (or the message it threw), the decoders standing for
      `JSON.parse`, and the music service. */
  datatype Backend = Backend(textReply: Result<string>, decoders: Decoders,
                             music: string -> Result<MusicAsset>)

  datatype InputField = ChannelNiche | VideoTopic | ContentStyle

  // --------------------------------------------------------- navigation

  /** `handleInputChange`. */
  function InputChanged(s: Session, field: InputField, value: string): (r: Session)
    ensures r.view.state.channelNiche == (if field == ChannelNiche then value else s.view.state.channelNiche)
    ensures r.view.state.videoTopic == (if field == VideoTopic then value else s.view.state.videoTopic)
    ensures r.view.state.contentStyle == (if field == ContentStyle then value else s.view.state.contentStyle)
  {
    var st := s.view.state;
    var st' := match field
      case ChannelNiche => st.(channelNiche := value)
      case VideoTopic => st.(videoTopic := value)
      case ContentStyle => st.(contentStyle := value);
    s.(view := s.view.(state := st'))
  }

  function Advanced(s: Session): Session {
    s.(view := s.view.(step := NextStep(s.view.step)))
  }

  function SteppedBack(s: Session): Session {
    s.(view := s.view.(step := PrevStep(s.view.step)))
  }

  /** Moving between steps changes the step and nothing else: no input,
      output, profile or call. */
  lemma MovesTouchOnlyTheStep(s: Session)
    ensures Advanced(s).view.state == s.view.state && SteppedBack(s).view.state == s.view.state
    ensures Advanced(s).profile == s.profile && SteppedBack(s).profile == s.profile
    ensures Advanced(s).calls == s.calls && SteppedBack(s).calls == s.calls
    ensures StepIndex(Advanced(s).view.step) == if s.view.step == Pack then 4 else StepIndex(s.view.step) + 1
    ensures StepIndex(SteppedBack(s).view.step) == if s.view.step == Vision then 0 else StepIndex(s.view.step) - 1
  {
  }

  // ----------------------------------------------------------- handlers

  /** The audio slot after the audio handler's text call threw: kept when
      present, otherwise an empty one. */
  function AudioFailed(st: StudioState): (r: StudioState)
    ensures r.audioOutput.Some?
    ensures st.audioOutput.Some? ==> r == st
    ensures st.audioOutput.None? ==> r.audioOutput == Some(AudioOutput(NoAudioConcepts, []))
  {
    st.(audioOutput := Some(if st.audioOutput.Some? then st.audioOutput.value else AudioOutput(NoAudioConcepts, [])))
  }

  /** One of the three text handlers (vision, signature, blueprint). */
  function TextGenerated(g: Generator, b: Backend, s: Session): Session
    requires g != AudioGen
  {
    var st := s.view.state;
    if !Ready(g, st) then s.(view := s.view.(error := Some(NotReadyMessage(g))))
    else
      var calls := s.calls + [GenerateText(RequestFor(g, st), SystemInstruction(g))];
      match b.textReply
      case Err(m) => Session(s.view.(isLoading := false, error := Some(m)), s.profile, calls)
      case Ok(text) =>
        Session(s.view.(step := NextStep(s.view.step), state := StoreText(g, st, text, b.decoders),
                        isLoading := false, error := None), s.profile, calls)
  }

  /** The audio handler: the concepts, one music asset per suggestion, and
      then the billing tail. */
  function AudioGenerated(b: Backend, s: Session): Session {
    var st := s.view.state;
    if !Ready(AudioGen, st) then s.(view := s.view.(error := Some(NotReadyMessage(AudioGen))))
    else
      var calls := s.calls + [GenerateText(RequestFor(AudioGen, st), SystemInstruction(AudioGen))];
      match b.textReply
      case Err(m) =>
        Session(s.view.(state := AudioFailed(st), isLoading := false, error := Some(m)), s.profile, calls)
      case Ok(text) =>
        var concepts := ParseJsonResponse(text, b.decoders.audio, AudioFallback);
        var styles := concepts.musicStyleSuggestions;
        var v := s.view.(state := st.(audioOutput := Some(AudioOutput(concepts, MusicAssets(styles, b.music)))),
                         isLoading := false, error := None);
        TailApplied(Session(v, s.profile, calls + MusicCalls(styles)))
  }

  /** The audio handler's billing tail, applied once the assets are stored. */
  function TailApplied(s: Session): (r: Session)
    ensures r.view.state == s.view.state && r.calls == s.calls
    ensures r.view.isLoading == s.view.isLoading && r.view.error == s.view.error
  {
    match AudioTailDecision(s.profile)
    case Advance => Advanced(s)
    case ConsumeThenAdvance => Advanced(s.(profile := ConsumeFreeUse(s.profile)))
    case AskPayment => s.(view := s.view.(showPaymentModal := true, pendingAction := Some(AdvanceStep)))
  }

  /** `handle<Step>GenerationInternal`. */
  function Generated(g: Generator, b: Backend, s: Session): Session {
    if g == AudioGen then AudioGenerated(b, s) else TextGenerated(g, b, s)
  }

  /** A handler that is not ready reports its error and does nothing else:
      no call, no step move, no output, no loading flag, no profile change. */
  lemma NotReadyOnlySetsError(g: Generator, b: Backend, s: Session)
    requires !Ready(g, s.view.state)
    ensures Generated(g, b, s) == s.(view := s.view.(error := Some(NotReadyMessage(g))))
  {
  }

  /** A ready text handler asks the text model exactly once, with its own
      request, and ends with loading off. If the call succeeds it stores its
      own slot, advances one step and clears the error; if the call throws
      it keeps the step and every output and reports the message. Neither
      touches the profile or the payment modal. */
  lemma TextHandlerOutcome(g: Generator, b: Backend, s: Session)
    requires g != AudioGen && Ready(g, s.view.state)
    ensures var r := Generated(g, b, s);
      r.calls == s.calls + [GenerateText(RequestFor(g, s.view.state), SystemInstruction(g))]
      && !r.view.isLoading && r.profile == s.profile
      && r.view.showPaymentModal == s.view.showPaymentModal && r.view.pendingAction == s.view.pendingAction
    ensures b.textReply.Ok? ==> var r := Generated(g, b, s);
      r.view.step == NextStep(s.view.step) && r.view.error.None?
      && r.view.state == StoreText(g, s.view.state, b.textReply.value, b.decoders)
    ensures b.textReply.Err? ==> var r := Generated(g, b, s);
      r.view.step == s.view.step && r.view.state == s.view.state && r.view.error == Some(b.textReply.message)
  {
  }

  /** After a successful audio text call the audio slot holds the decoded
      concepts and the music assets for their suggestions (one per
      suggestion, in order, as `MusicAssets` states), nothing else in the
      studio state changes, and the calls made are the text request followed
      by one music request per suggestion not marked as an AI error. */
  lemma AudioSuccess(b: Backend, s: Session)
    requires Ready(AudioGen, s.view.state) && b.textReply.Ok?
    ensures var concepts := ParseJsonResponse(b.textReply.value, b.decoders.audio, AudioFallback);
      Generated(AudioGen, b, s).view.state
        == s.view.state.(audioOutput := Some(AudioOutput(concepts, MusicAssets(concepts.musicStyleSuggestions, b.music))))
    ensures var concepts := ParseJsonResponse(b.textReply.value, b.decoders.audio, AudioFallback);
      Generated(AudioGen, b, s).calls
        == s.calls + [GenerateText(RequestFor(AudioGen, s.view.state), SystemInstruction(AudioGen))]
           + MusicCalls(concepts.musicStyleSuggestions)
    ensures Generated(AudioGen, b, s).view.error.None? && !Generated(AudioGen, b, s).view.isLoading
  {
  }

  /** The audio step's tail: a subscriber advances; a user with the free use
      consumes it and advances; anyone else stays on the step with the
      payment modal open and "advance" pending. */
  lemma AudioTail(b: Backend, s: Session)
    requires Ready(AudioGen, s.view.state) && b.textReply.Ok?
    ensures var r := Generated(AudioGen, b, s);
      match AudioTailDecision(s.profile)
      case Advance =>
        r.view.step == NextStep(s.view.step) && r.profile == s.profile
        && r.view.showPaymentModal == s.view.showPaymentModal && r.view.pendingAction == s.view.pendingAction
      case ConsumeThenAdvance =>
        r.view.step == NextStep(s.view.step) && r.profile == UserProfile(PostFreeStudioUse, true)
        && r.view.showPaymentModal == s.view.showPaymentModal && r.view.pendingAction == s.view.pendingAction
      case AskPayment =>
        r.view.step == s.view.step && r.profile == s.profile
        && r.view.showPaymentModal && r.view.pendingAction == Some(AdvanceStep)
  {
  }

  /** When the audio text call throws, the error is reported, the step and
      profile stay, no music is requested, and the audio slot is no longer
      empty: a previous audio output is kept, otherwise empty concepts. */
  lemma AudioFailure(b: Backend, s: Session)
    requires Ready(AudioGen, s.view.state) && b.textReply.Err?
    ensures var r := Generated(AudioGen, b, s);
      r.view.error == Some(b.textReply.message) && r.view.step == s.view.step && r.profile == s.profile
      && r.calls == s.calls + [GenerateText(RequestFor(AudioGen, s.view.state), SystemInstruction(AudioGen))]
      && !r.view.isLoading && r.view.state.audioOutput.Some?
      && r.view.state.(audioOutput := s.view.state.audioOutput) == s.view.state
      && (s.view.state.audioOutput.Some? ==> r.view.state == s.view.state)
  {
  }

  /** The only profile change any handler makes is the audio tail's
      consumption of the free use; a subscription is never affected. */
  lemma HandlersOnlyConsume(g: Generator, b: Backend, s: Session)
    ensures var r := Generated(g, b, s);
      (r.profile == s.profile || (g == AudioGen && r.profile == ConsumeFreeUse(s.profile)))
      && IsSubscribed(r.profile) == IsSubscribed(s.profile)
  {
  }

  // --------------------------------------------------------------- gate

  /** `executeGenerationWithAccessCheck`. */
  function Gated(g: Generator, b: Backend, s: Session): Session {
    match AccessDecision(s.profile, s.view.step)
    case RunAction => Generated(g, b, s)
    case RunThenConsume =>
      var r := Generated(g, b, s);
      r.(profile := ConsumeFreeUse(r.profile))
    case DeferToPayment =>
      s.(view := s.view.(pendingAction := Some(RunGenerator(g)), showPaymentModal := true))
  }

  /** The gate's three outcomes. A deferred handler makes no call and
      changes nothing but the modal and the pending slot; a consumed free
      use is unavailable afterwards, even when the handler itself failed. */
  lemma GateOutcome(g: Generator, b: Backend, s: Session)
    ensures AccessDecision(s.profile, s.view.step) == RunAction ==> Gated(g, b, s) == Generated(g, b, s)
    ensures AccessDecision(s.profile, s.view.step) == RunThenConsume ==>
      Gated(g, b, s).view == Generated(g, b, s).view && Gated(g, b, s).calls == Generated(g, b, s).calls
      && Gated(g, b, s).profile == UserProfile(PostFreeStudioUse, true)
    ensures AccessDecision(s.profile, s.view.step) == DeferToPayment ==>
      var r := Gated(g, b, s);
      r.calls == s.calls && r.profile == s.profile && r.view.step == s.view.step && r.view.state == s.view.state
      && r.view.showPaymentModal && r.view.pendingAction == Some(RunGenerator(g))
  {
    if AccessDecision(s.profile, s.view.step) == RunThenConsume {
      HandlersOnlyConsume(g, b, s);
      ConsumeIdempotent(s.profile);
    }
  }

  /** Every handler the wizard renders a button for passes the gate
      unchanged: the gate's pack branches are never taken from the UI. */
  lemma ButtonsRunHandlers(b: Backend, s: Session)
    requires GeneratorOn(s.view.step).Some?
    ensures Gated(GeneratorOn(s.view.step).value, b, s) == Generated(GeneratorOn(s.view.step).value, b, s)
  {
    ButtonsNeverBill(s.profile, s.view.step, GeneratorOn(s.view.step).value);
  }

  // --------------------------------------------------------------- modal

  /** `handleConfirmPayPerUse`. */
  function Confirmed(b: Backend, s: Session): Session {
    var s1 := s.(view := s.view.(showPaymentModal := false));
    match s.view.pendingAction
    case None => s1
    case Some(a) =>
      var s2 := s1.(view := s1.view.(isLoading := true));
      var s3 := match a
        case AdvanceStep => Advanced(s2)
        case RunGenerator(g) => Generated(g, b, s2);
      s3.(view := s3.view.(pendingAction := None, isLoading := false))
  }

  /** The modal's `onClose`. */
  function Closed(s: Session): Session {
    s.(view := s.view.(showPaymentModal := false, pendingAction := None))
  }

  /** Confirming runs the pending action and clears it, so a second confirm
      runs nothing: it can only close the modal again. Each confirm reads
      the current state; a confirm scheduled earlier by a timer is not
      modelled. */
  lemma ConfirmRunsAtMostOnce(b1: Backend, b2: Backend, s: Session)
    ensures Confirmed(b1, s).view.pendingAction.None?
    ensures Confirmed(b2, Confirmed(b1, s)) == Confirmed(b1, s).(view := Confirmed(b1, s).view.(showPaymentModal := false))
    ensures s.view.pendingAction.Some? ==> !Confirmed(b1, s).view.isLoading
  {
  }

  /** Confirming a pending "advance" moves one step and nothing else. */
  lemma ConfirmAdvance(b: Backend, s: Session)
    requires s.view.pendingAction == Some(AdvanceStep)
    ensures var r := Confirmed(b, s);
      r.view == s.view.(step := NextStep(s.view.step), showPaymentModal := false, pendingAction := None, isLoading := false)
      && r.profile == s.profile && r.calls == s.calls
  {
  }

  /** Confirming a pending handler runs that handler once. */
  lemma ConfirmGenerator(g: Generator, b: Backend, s: Session)
    requires s.view.pendingAction == Some(RunGenerator(g))
    ensures var r := Generated(g, b, s.(view := s.view.(showPaymentModal := false, isLoading := true)));
      Confirmed(b, s) == r.(view := r.view.(pendingAction := None, isLoading := false))
  {
  }

  /** Closing discards the pending action without running it, so a later
      confirm on the current state does nothing. */
  lemma CloseDiscards(b: Backend, s: Session)
    ensures Closed(s).calls == s.calls && Closed(s).profile == s.profile
    ensures Closed(s).view == s.view.(showPaymentModal := false, pendingAction := None)
    ensures Confirmed(b, Closed(s)) == Closed(s)
  {
  }

  /** Asked to pay at the end of the audio step, confirming reaches the pack
      without charging the profile or calling anything more. */
  lemma PayThenReachPack(b: Backend, b2: Backend, s: Session)
    requires s.view.step == AudioAlchemy && Ready(AudioGen, s.view.state) && b.textReply.Ok?
    requires AudioTailDecision(s.profile) == AskPayment
    ensures var r := Confirmed(b2, Generated(AudioGen, b, s));
      r.view.step == Pack && r.profile == s.profile && r.calls == Generated(AudioGen, b, s).calls
      && r.view.pendingAction.None? && !r.view.showPaymentModal
  {
    AudioTail(b, s);
  }

  // --------------------------------------------------------------- reset

  /** `startNewPack`. */
  function NewPackStarted(s: Session): Session {
    Session(s.view.(step := Vision, state := EmptyStudioState), ResetProfile(s.profile), s.calls)
  }

  /** A new pack starts at the vision step with empty inputs and outputs;
      loading, error and the modal are left as they were. */
  lemma NewPackOutcome(s: Session)
    ensures var r := NewPackStarted(s);
      r.view.step == Vision && r.view.state == EmptyStudioState && !Ready(SignatureGen, r.view.state)
      && r.view.isLoading == s.view.isLoading && r.view.error == s.view.error
      && r.view.showPaymentModal == s.view.showPaymentModal && r.view.pendingAction == s.view.pendingAction
      && r.calls == s.calls
    ensures s.profile.tier in {PostFreeStudioUse, Monthly, Lifetime} ==> NewPackStarted(s).profile == s.profile
    ensures !(s.profile.tier in {PostFreeStudioUse, Monthly, Lifetime}) ==>
      NewPackStarted(s).profile == UserProfile(FreeStudioUseAvailable, false)
  {
    ResetProfileCases(s.profile);
    assert !Ready(VisionGen, EmptyStudioState) by {
      assert AllSpace(EmptyStudioState.channelNiche);
    }
  }

  // ---------------------------------------------------------- as written

  /** The music call as CreatorsEdgeStudioTool.tsx is written: the name
      `generateMusicSnippet` is used without being imported, so every call
      throws a ReferenceError that the loop's inner catch turns into an
      error asset. */
  function UnimportedMusicCall(style: string): Result<MusicAsset> {
    Err("generateMusicSnippet is not defined")
  }

  /** As written, the audio step produces no music at all: every asset is an
      error asset without an audio URL, whatever the suggestions. */
  lemma AsWrittenNoMusic(styles: seq<string>)
    ensures var assets := MusicAssets(styles, UnimportedMusicCall);
      |assets| == |styles| && forall k :: 0 <= k < |assets| ==> assets[k].error.Some? && assets[k].audioUrl == ""
  {
  }

  /** With the music service imported, a suggestion the service answers is
      stored as the service's own snippet. */
  lemma ImportedMusicKeepsSnippets(styles: seq<string>, music: string -> Result<MusicAsset>, k: nat)
    requires k < |styles| && !IsAiErrorSuggestion(styles[k]) && music(styles[k]).Ok?
    ensures MusicAssets(styles, music)[k] == music(styles[k]).value
    ensures GenerateMusic(styles[k], SnippetSeconds) in MusicCalls(styles)
  {
  }
}
