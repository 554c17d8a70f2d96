/** The user profile and the tier policy of the subscription context
    (pegasus-edge/App.tsx, pegasus-edge/types.ts): the five tiers, the
    persisted record, the loader with its shape validation, the partial
    merge, and the three policy operations. */
module Profile {
  import opened Wrappers

  /** `UserSubscriptionTier`. The loader stores whatever string it finds
      under `tier`, so a value outside the enumeration is kept verbatim as
      `Unrecognised`. */
  datatype Tier =
    | NoTier                  // 'none'
    | FreeStudioUseAvailable  // 'free-studio-use-available'
    | PostFreeStudioUse       // 'post-free-studio-use'
    | Monthly                 // 'monthly'
    | Lifetime                // 'lifetime'
    | Unrecognised(raw: string)

  function TierString(t: Tier): string {
    match t
    case NoTier => "none"
    case FreeStudioUseAvailable => "free-studio-use-available"
    case PostFreeStudioUse => "post-free-studio-use"
    case Monthly => "monthly"
    case Lifetime => "lifetime"
    case Unrecognised(raw) => raw
  }

  predicate IsKnownTierString(s: string) {
    s in {"none", "free-studio-use-available", "post-free-studio-use", "monthly", "lifetime"}
  }

  /** A tier value a string can denote: `Unrecognised` never wraps one of
      the enumeration's own strings. */
  predicate WellFormedTier(t: Tier) {
    t.Unrecognised? ==> !IsKnownTierString(t.raw)
  }

  /** Reads a stored tier string. */
  function TierOfString(s: string): (t: Tier)
    ensures WellFormedTier(t)
    ensures TierString(t) == s
    ensures t.Unrecognised? <==> !IsKnownTierString(s)
  {
    if s == "none" then NoTier
    else if s == "free-studio-use-available" then FreeStudioUseAvailable
    else if s == "post-free-studio-use" then PostFreeStudioUse
    else if s == "monthly" then Monthly
    else if s == "lifetime" then Lifetime
    else Unrecognised(s)
  }

  /** Writing a tier and reading it back gives the same tier. */
  lemma TierRoundTrip(t: Tier)
    requires WellFormedTier(t)
    ensures TierOfString(TierString(t)) == t
  {
  }

  /** `UserProfile`. */
  datatype UserProfile = UserProfile(tier: Tier, freeUseConsumed: bool)

  /** `defaultUserProfile`. */
  const DefaultProfile := UserProfile(FreeStudioUseAvailable, false)

  const TierKey := "tier"
  const ConsumedKey := "creatorsStudioFreeUseConsumed"

  /** The value `JSON.parse` can produce. */
  datatype Json =
    | JNull
    | JBool(b: bool)
    | JNumber(n: int)
    | JString(s: string)
    | JArray(items: seq<Json>)
    | JObject(fields: map<string, Json>)

  /** The "basic validation": a truthy parsed value with a string `tier`
      and a boolean `creatorsStudioFreeUseConsumed`. Only an object can
      have those properties. */
  predicate HasProfileShape(v: Json) {
    && v.JObject?
    && TierKey in v.fields && v.fields[TierKey].JString?
    && ConsumedKey in v.fields && v.fields[ConsumedKey].JBool?
  }

  /** The initial profile state. `stored` is what the storage read gave
      (`None` when there was no entry or the read threw); `parse` stands
      for `JSON.parse`, `None` when it throws. */
  function LoadProfile(stored: Option<string>, parse: string -> Option<Json>): (p: UserProfile)
    ensures p != DefaultProfile ==>
              stored.Some? && stored.value != "" && parse(stored.value).Some?
              && HasProfileShape(parse(stored.value).value)
    ensures stored.Some? && stored.value != "" && parse(stored.value).Some?
              && HasProfileShape(parse(stored.value).value) ==>
              var f := parse(stored.value).value.fields;
              p.tier == TierOfString(f[TierKey].s) && TierString(p.tier) == f[TierKey].s
              && p.freeUseConsumed == f[ConsumedKey].b
  {
    if stored.None? || stored.value == "" then DefaultProfile
    else match parse(stored.value)
      case None => DefaultProfile
      case Some(v) =>
        if HasProfileShape(v) then
          UserProfile(TierOfString(v.fields[TierKey].s), v.fields[ConsumedKey].b)
        else DefaultProfile
  }

  /** What `JSON.stringify` is given when the profile is saved. */
  function ProfileJson(p: UserProfile): (v: Json)
    ensures HasProfileShape(v)
  {
    JObject(map[TierKey := JString(TierString(p.tier)), ConsumedKey := JBool(p.freeUseConsumed)])
  }

  /** Loading back a saved profile restores it, whatever its tier. */
  lemma LoadSavedProfile(p: UserProfile, text: string, parse: string -> Option<Json>)
    requires WellFormedTier(p.tier)
    requires text != "" && parse(text) == Some(ProfileJson(p))
    ensures LoadProfile(Some(text), parse) == p
  {
    TierRoundTrip(p.tier);
  }

  /** A missing entry, an empty entry or one `JSON.parse` rejects gives the
      default profile. */
  lemma LoadMalformed(stored: Option<string>, parse: string -> Option<Json>)
    requires stored.None? || stored.value == "" || parse(stored.value).None?
             || !HasProfileShape(parse(stored.value).value)
    ensures LoadProfile(stored, parse) == DefaultProfile
  {
  }

  /** `Partial<UserProfile>`: the fields an update supplies. */
  datatype ProfilePatch = ProfilePatch(tier: Option<Tier>, freeUseConsumed: Option<bool>)

  /** `{ ...prev, ...patch }`. */
  function Merge(p: UserProfile, patch: ProfilePatch): (q: UserProfile)
    ensures q.tier == (if patch.tier.Some? then patch.tier.value else p.tier)
    ensures q.freeUseConsumed == (if patch.freeUseConsumed.Some? then patch.freeUseConsumed.value else p.freeUseConsumed)
  {
    UserProfile(patch.tier.GetOr(p.tier), patch.freeUseConsumed.GetOr(p.freeUseConsumed))
  }

  /** Merging the same patch twice is merging it once, and an empty patch
      changes nothing. */
  lemma MergeIdempotent(p: UserProfile, patch: ProfilePatch)
    ensures Merge(Merge(p, patch), patch) == Merge(p, patch)
    ensures Merge(p, ProfilePatch(None, None)) == p
  {
  }

  /** `isSubscribed`. */
  predicate IsSubscribed(p: UserProfile) {
    p.tier == Monthly || p.tier == Lifetime
  }

  /** `canUseCreatorStudioFree`. */
  predicate CanUseCreatorStudioFree(p: UserProfile) {
    p.tier == FreeStudioUseAvailable && !p.freeUseConsumed
  }

  /** The free use is never on offer to a subscriber. */
  lemma FreeUseExcludesSubscription(p: UserProfile)
    ensures !(IsSubscribed(p) && CanUseCreatorStudioFree(p))
  {
  }

  /** The patch `consumeCreatorStudioFreeUse` applies. */
  const ConsumePatch := ProfilePatch(Some(PostFreeStudioUse), Some(true))

  /** `consumeCreatorStudioFreeUse` on the profile value. */
  function ConsumeFreeUse(p: UserProfile): (q: UserProfile)
    ensures CanUseCreatorStudioFree(p) ==> q == UserProfile(PostFreeStudioUse, true)
    ensures !CanUseCreatorStudioFree(p) ==> q == p
    ensures !CanUseCreatorStudioFree(q) && IsSubscribed(q) == IsSubscribed(p)
  {
    if CanUseCreatorStudioFree(p) then Merge(p, ConsumePatch) else p
  }

  /** Consuming twice is consuming once. */
  lemma ConsumeIdempotent(p: UserProfile)
    ensures ConsumeFreeUse(ConsumeFreeUse(p)) == ConsumeFreeUse(p)
  {
  }

  /** The data-model invariant: once the free use is consumed, the tier no
      longer offers it. */
  predicate ConsistentProfile(p: UserProfile) {
    p.freeUseConsumed ==> p.tier != FreeStudioUseAvailable
  }

  lemma DefaultConsistent()
    ensures ConsistentProfile(DefaultProfile) && CanUseCreatorStudioFree(DefaultProfile)
  {
  }

  /** Consuming preserves the invariant, and on a consistent profile the
      free use is available exactly when the tier says so. */
  lemma ConsumePreservesConsistency(p: UserProfile)
    requires ConsistentProfile(p)
    ensures ConsistentProfile(ConsumeFreeUse(p))
    ensures CanUseCreatorStudioFree(p) <==> p.tier == FreeStudioUseAvailable
  {
  }
}
