/** The stateful side of pegasus-edge/App.tsx: the `SubscriptionProvider`
    that owns the profile state, and the API-key gate of `App`. */
module Subscription {
  import opened Wrappers
  import opened Text
  import opened Profile

  /** The subscription context: one profile, updated in place. */
  class SubscriptionProvider {
    var userProfile: UserProfile

    /** The lazy initial state of `useState`: the stored entry, validated. */
    constructor (stored: Option<string>, parse: string -> Option<Json>)
      ensures userProfile == LoadProfile(stored, parse)
    {
      userProfile := LoadProfile(stored, parse);
    }

    /** `updateUserProfile`: the supplied fields overwrite, the rest stay. */
    method UpdateUserProfile(patch: ProfilePatch)
      modifies this
      ensures userProfile == Merge(old(userProfile), patch)
      ensures patch.tier.None? ==> userProfile.tier == old(userProfile.tier)
      ensures patch.freeUseConsumed.None? ==> userProfile.freeUseConsumed == old(userProfile.freeUseConsumed)
    {
      userProfile := Merge(userProfile, patch);
    }

    function IsSubscribed(): (b: bool)
      reads this
      ensures b <==> userProfile.tier in {Monthly, Lifetime}
    {
      Profile.IsSubscribed(userProfile)
    }

    function CanUseCreatorStudioFree(): (b: bool)
      reads this
      ensures b <==> userProfile.tier == FreeStudioUseAvailable && !userProfile.freeUseConsumed
      ensures b ==> !IsSubscribed()
    {
      Profile.CanUseCreatorStudioFree(userProfile)
    }

    /** `consumeCreatorStudioFreeUse`: marks the free use taken when it is
        available, and is a no-op otherwise. */
    method ConsumeCreatorStudioFreeUse()
      modifies this
      ensures userProfile == ConsumeFreeUse(old(userProfile))
      ensures !CanUseCreatorStudioFree()
      ensures IsSubscribed() == old(IsSubscribed())
    {
      if CanUseCreatorStudioFree() {
        UpdateUserProfile(ConsumePatch);
      }
    }
  }

  /** What `App` renders. */
  datatype AppScreen = Initializing | ConfigurationError | Routes

  /** The effect's test: `process.env.API_KEY` is a string that is not
      blank. `apiKey` is `None` when `process`, `process.env` or a string
      `API_KEY` is missing. */
  predicate ApiKeyAvailable(apiKey: Option<string>) {
    apiKey.Some? && !IsBlank(apiKey.value)
  }

  /** `App`'s render for the `apiKeyAvailable` state: `None` before the
      effect has run, then the result of the key test. */
  function AppView(apiKeyAvailable: Option<bool>): AppScreen {
    match apiKeyAvailable
    case None => Initializing
    case Some(false) => ConfigurationError
    case Some(true) => Routes
  }

  /** Once the effect has run, the provider and the routes are mounted
      exactly when the key is a string with a non-space character, and the
      configuration-error screen is shown otherwise. */
  lemma RoutesNeedApiKey(apiKey: Option<string>)
    ensures AppView(Some(ApiKeyAvailable(apiKey))) == Routes <==>
            apiKey.Some? && exists k :: 0 <= k < |apiKey.value| && !IsSpace(apiKey.value[k])
    ensures AppView(Some(ApiKeyAvailable(apiKey))) != Routes ==>
            AppView(Some(ApiKeyAvailable(apiKey))) == ConfigurationError
  {
  }
}
