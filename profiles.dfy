/**
 * The user's profile record: the premium-status rule, the default record
 * created on first sign-in, the premium upgrade and the update guard. The
 * remote table is abstracted: each call to it is given its outcome as a
 * parameter, and clock readings are given as millisecond timestamps.
 */
module Profiles {

  datatype Option<T> = None | Some(value: T)

  /**
   * `premium_expires_at` as the status check reads it: absent or empty
   * (both falsy), a string `new Date` cannot parse (an invalid date, which
   * compares false with everything), or an instant in milliseconds.
   */
  datatype Expiry = NoExpiry | Unparsable | ExpiresAt(ms: int)

  datatype Notifications = Notifications(email: bool, push: bool, sms: bool)

  /** The fields of a `user_profiles` row the hook reads or writes. */
  datatype Profile = Profile(
    id: string,
    email: string,
    fullName: Option<string>,
    preferredCurrency: string,
    notifications: Notifications,
    isPremium: bool,
    premiumExpiresAt: Expiry)

  /** The signed-in user as the authentication hook reports it. */
  datatype User = User(id: string, email: string)

  // ---------------------------------------------------------------------------
  // checkPremiumStatus
  // ---------------------------------------------------------------------------

  /**
   * `checkPremiumStatus` at instant `nowMs`: a loaded profile flagged
   * premium whose expiry is absent, or strictly later than now.
   */
  function IsPremium(profile: Option<Profile>, nowMs: int): (premium: bool)
    ensures premium <==> (profile.Some? && profile.value.isPremium
      && (profile.value.premiumExpiresAt.NoExpiry?
          || (profile.value.premiumExpiresAt.ExpiresAt? && profile.value.premiumExpiresAt.ms > nowMs)))
  {
    if profile.None? || !profile.value.isPremium then false
    else match profile.value.premiumExpiresAt
      case NoExpiry => true
      case Unparsable => false
      case ExpiresAt(ms) => ms > nowMs
  }

  /** Without the flag there is no premium, whatever the expiry says. */
  lemma FlagIsRequired(p: Profile, nowMs: int)
    requires !p.isPremium
    ensures !IsPremium(Some(p), nowMs)
  {
  }

  /** Premium status only ever runs out: premium now means premium at every earlier instant. */
  lemma PremiumOnlyExpires(profile: Option<Profile>, earlier: int, later: int)
    requires earlier <= later
    ensures IsPremium(profile, later) ==> IsPremium(profile, earlier)
  {
  }

  /** At the expiry instant itself the profile is no longer premium. */
  lemma ExpiryInstantIsPast(p: Profile)
    requires p.premiumExpiresAt.ExpiresAt?
    ensures !IsPremium(Some(p), p.premiumExpiresAt.ms)
  {
  }

  // ---------------------------------------------------------------------------
  // createProfile
  // ---------------------------------------------------------------------------

  /** `email.split('@')[0]`: the text before the first '@', or all of it when there is none. */
  function LocalPart(email: string): (local: string)
    ensures local <= email
    ensures '@' !in local
    ensures |local| < |email| ==> email[|local|] == '@'
  {
    if email == [] || email[0] == '@' then []
    else [email[0]] + LocalPart(email[1..])
  }

  /** The local part is the longest '@'-free prefix: it is the whole address exactly when the address has no '@'. */
  lemma LocalPartIsWholeWithoutAt(email: string)
    ensures LocalPart(email) == email <==> '@' !in email
  {
    if '@' in email {
      assert '@' !in LocalPart(email);
    }
  }

  const DefaultCurrency := "INR"
  const DefaultNotifications := Notifications(true, false, false)

  /** The row `createProfile` inserts for a user. */
  function DefaultProfile(user: User): (p: Profile)
    ensures p.id == user.id && p.email == user.email
    ensures p.fullName == Some(LocalPart(user.email))
    ensures p.preferredCurrency == "INR"
    ensures p.notifications.email && !p.notifications.push && !p.notifications.sms
    ensures !p.isPremium && p.premiumExpiresAt == NoExpiry
  {
    Profile(user.id, user.email, Some(LocalPart(user.email)), DefaultCurrency, DefaultNotifications, false, NoExpiry)
  }

  /** A new profile is not premium, at any instant. */
  lemma NewProfileIsNotPremium(user: User, nowMs: int)
    ensures !IsPremium(Some(DefaultProfile(user)), nowMs)
  {
  }

  // ---------------------------------------------------------------------------
  // updateProfile and upgradeToPremiun
  // ---------------------------------------------------------------------------

  /** `Partial<UserProfile>`: the fields an update sets; the others keep their values. */
  datatype Patch = Patch(
    fullName: Option<Option<string>>,
    preferredCurrency: Option<string>,
    notifications: Option<Notifications>,
    isPremium: Option<bool>,
    premiumExpiresAt: Option<Expiry>)

  const NoChanges := Patch(None, None, None, None, None)

  /** The row as the table stores it after the update: the patched fields replaced, the rest kept. */
  function ApplyPatch(p: Profile, patch: Patch): (q: Profile)
    ensures q.id == p.id && q.email == p.email
    ensures patch == NoChanges ==> q == p
  {
    Profile(
      p.id,
      p.email,
      if patch.fullName.Some? then patch.fullName.value else p.fullName,
      if patch.preferredCurrency.Some? then patch.preferredCurrency.value else p.preferredCurrency,
      if patch.notifications.Some? then patch.notifications.value else p.notifications,
      if patch.isPremium.Some? then patch.isPremium.value else p.isPremium,
      if patch.premiumExpiresAt.Some? then patch.premiumExpiresAt.value else p.premiumExpiresAt)
  }

  /** Sending the same update twice stores what sending it once does. */
  lemma PatchIsIdempotent(p: Profile, patch: Patch)
    ensures ApplyPatch(ApplyPatch(p, patch), patch) == ApplyPatch(p, patch)
  {
  }

  /** 365 days in milliseconds. */
  const YearMs := 365 * 24 * 60 * 60 * 1000

  /**
   * The update `upgradeToPremiun` sends at instant `nowMs`: the flag, and the
   * given expiry or, when none (or an empty one) is given, one year from now.
   */
  function PremiumPatch(expiresAt: Expiry, nowMs: int): (patch: Patch)
    ensures patch.isPremium == Some(true)
    ensures expiresAt == NoExpiry ==> patch.premiumExpiresAt == Some(ExpiresAt(nowMs + 31536000000))
    ensures expiresAt != NoExpiry ==> patch.premiumExpiresAt == Some(expiresAt)
    ensures patch.fullName.None? && patch.preferredCurrency.None? && patch.notifications.None?
  {
    Patch(None, None, None, Some(true), Some(if expiresAt == NoExpiry then ExpiresAt(nowMs + YearMs) else expiresAt))
  }

  /**
   * An upgrade without an expiry makes the profile premium from the moment
   * of the upgrade until just before the same moment a year later.
   */
  lemma DefaultUpgradeLastsAYear(p: Profile, nowMs: int, t: int)
    ensures IsPremium(Some(ApplyPatch(p, PremiumPatch(NoExpiry, nowMs))), t) <==> t < nowMs + YearMs
  {
  }

  /** An upgrade with a parseable expiry makes the profile premium exactly until that instant. */
  lemma GivenUpgradeLastsUntilExpiry(p: Profile, expiresMs: int, nowMs: int, t: int)
    ensures IsPremium(Some(ApplyPatch(p, PremiumPatch(ExpiresAt(expiresMs), nowMs))), t) <==> t < expiresMs
  {
  }

  // ---------------------------------------------------------------------------
  // The hook's state
  // ---------------------------------------------------------------------------

  /** The answer of the table to a read of the user's row. */
  datatype FetchOutcome = Found(row: Profile) | NoRow | FetchFailed

  /** The answer of the table to an insert or an update. */
  datatype WriteOutcome = Written | WriteFailed

  /** What `updateProfile` returns. */
  datatype UpdateResult = NothingDone | Updated(row: Profile) | UpdateFailed

  const LoadFailed := "Failed to load profile"
  const CreateFailed := "Failed to create profile"
  const UpdateFailedMessage := "Failed to update profile"

  class ProfileStore {
    var user: Option<User>
    var profile: Option<Profile>
    var loading: bool
    var error: Option<string>

    /** The hook's initial state, for the given user. */
    constructor (user: Option<User>)
      ensures this.user == user && profile == None && loading && error == None
    {
      this.user := user;
      profile := None;
      loading := true;
      error := None;
    }

    /** `isPremium`: the status of the loaded profile at instant `nowMs`. */
    function Premium(nowMs: int): bool
      reads this
    {
      IsPremium(profile, nowMs)
    }

    /**
     * `createProfile`: without a user nothing happens; otherwise the default
     * row is inserted and, when the insert succeeds, becomes the profile.
     */
    method Create(outcome: WriteOutcome)
      modifies this
      ensures user == old(user) && loading == old(loading)
      ensures old(user).None? ==> profile == old(profile) && error == old(error)
      ensures old(user).Some? && outcome == Written ==> profile == Some(DefaultProfile(old(user).value)) && error == old(error)
      ensures old(user).Some? && outcome == WriteFailed ==> profile == old(profile) && error == Some(CreateFailed)
    {
      if user.None? {
        return;
      }
      if outcome == Written {
        profile := Some(DefaultProfile(user.value));
      } else {
        error := Some(CreateFailed);
      }
    }

    /**
     * `fetchProfile`: the user's row becomes the profile; a missing row is
     * created with the defaults; loading ends whatever happens.
     */
    method Fetch(fetched: FetchOutcome, created: WriteOutcome)
      modifies this
      ensures user == old(user)
      ensures old(user).None? ==> profile == old(profile) && error == old(error) && loading == old(loading)
      ensures old(user).Some? ==> !loading
      ensures old(user).Some? && fetched.Found? ==> profile == Some(fetched.row) && error == None
      ensures old(user).Some? && fetched == NoRow && created == Written
          ==> profile == Some(DefaultProfile(old(user).value)) && error == None
      ensures old(user).Some? && fetched == NoRow && created == WriteFailed
          ==> profile == old(profile) && error == Some(CreateFailed)
      ensures old(user).Some? && fetched == FetchFailed ==> profile == old(profile) && error == Some(LoadFailed)
    {
      if user.None? {
        return;
      }
      loading := true;
      error := None;
      match fetched {
        case Found(row) =>
          profile := Some(row);
        case NoRow =>
          Create(created);
        case FetchFailed =>
          error := Some(LoadFailed);
      }
      loading := false;
    }

    /**
     * `updateProfile`: without a user or a loaded profile nothing happens and
     * nothing is returned; otherwise the stored row, patched, becomes the
     * profile, or the error is set when the update fails.
     */
    method Update(patch: Patch, outcome: WriteOutcome) returns (result: UpdateResult)
      modifies this
      ensures user == old(user) && loading == old(loading)
      ensures old(user).None? || old(profile).None?
          ==> result == NothingDone && profile == old(profile) && error == old(error)
      ensures old(user).Some? && old(profile).Some? && outcome == Written
          ==> (profile == Some(ApplyPatch(old(profile).value, patch)) && error == None
               && result == Updated(profile.value))
      ensures old(user).Some? && old(profile).Some? && outcome == WriteFailed
          ==> profile == old(profile) && error == Some(UpdateFailedMessage) && result == UpdateFailed
    {
      if user.None? || profile.None? {
        return NothingDone;
      }
      error := None;
      if outcome == Written {
        profile := Some(ApplyPatch(profile.value, patch));
        result := Updated(profile.value);
      } else {
        error := Some(UpdateFailedMessage);
        result := UpdateFailed;
      }
    }

    /** `upgradeToPremiun` at instant `nowMs`: an update with the premium patch. */
    method Upgrade(expiresAt: Expiry, nowMs: int, outcome: WriteOutcome) returns (result: UpdateResult)
      modifies this
      ensures user == old(user) && loading == old(loading)
      ensures old(user).None? || old(profile).None?
          ==> result == NothingDone && profile == old(profile) && error == old(error)
      ensures old(user).Some? && old(profile).Some? && outcome == Written
          ==> (profile == Some(ApplyPatch(old(profile).value, PremiumPatch(expiresAt, nowMs))) && error == None
               && result == Updated(profile.value))
      ensures old(user).Some? && old(profile).Some? && outcome == WriteFailed
          ==> error == Some(UpdateFailedMessage) && result == UpdateFailed
      ensures old(user).Some? && old(profile).Some? && outcome == Written && expiresAt == NoExpiry
          ==> Premium(nowMs) && !Premium(nowMs + YearMs)
      ensures outcome == WriteFailed ==> profile == old(profile)
    {
      result := Update(PremiumPatch(expiresAt, nowMs), outcome);
      if user.Some? && profile.Some? && outcome == Written && expiresAt == NoExpiry {
        DefaultUpgradeLastsAYear(old(profile).value, nowMs, nowMs);
        DefaultUpgradeLastsAYear(old(profile).value, nowMs, nowMs + YearMs);
      }
    }
  }
}
