# Bogart Man Rewards — a verified model of the client logic

Bogart Man Rewards is a loyalty web app. Members sign up with a South African
ID number and collect points on purchases. They climb three tiers (silver,
gold, platinum), redeem rewards and deals, and find stores. Balances, tiers and
deletions all live behind remote calls. This project models the logic the client
itself holds, and proves properties of that model:

- **South African ID validation.** The 13-digit check-digit test is a method
  with a loop, checked against a specification predicate. It is proved to be the
  Luhn formula over all thirteen digits, and to have exactly one check digit for
  every twelve-digit prefix. The hex encoding of the ID hash is proved to
  round-trip.
- **The session snapshot.** `AuthProvider` is a class with the seven fields the
  provider keeps. Its methods are the auth event, the initial session check, the
  four-way user-data fetch and sign-out. The fetch either sets all four user
  fields or none of them.
- **The sign-in screen.** Mode-dependent validation fills an error map by
  mutation; the model proves that the map is empty exactly when every rule that
  applies holds. The screen also has the mode transitions, the OTP countdown and
  the resend guard.
- **Forms and dialogs.** The personal-information form covers validation, the
  save payload and the duplicate-phone branch. The settings screen covers
  per-key preference updates and the typed-`DELETE` gate. The help screen covers
  the ticket guard and the one-answer-open FAQ list.
- **List operations.**
  - Store filtering and ranking: an in-place sort on an array, proved to be a
    permutation of the filtered stores in the ranking order.
  - The sorted distinct city list and the favourites toggle.
  - Deal filtering, the "ending soon" window and the category chips.
  - Marking notifications read, and the unread count.
  - The active and used redemption lists, and the wallet cards.
  - Purchase totals.
- **Display arithmetic.** Ledger-type mapping, the tier threshold table,
  greeting names and initials, tier and reward progress bars.

Remote calls never run in the model. Their results are parameters of the
methods that use them, as `Option` or `Outcome` values. A helper that throws is
represented by `None` or `Threw`.

`fetchUserData` (src/contexts/AuthContext.tsx:69-85) has no request-sequence
or stale-result guard, so any completed fetch overwrites the snapshot, even one
that completes after sign-out: `AuthContext.StaleFetchAfterSignOut` shows a
signed-out client whose profile is repopulated that way. Its catch branch only
logs the error, so a failed fetch keeps the previous user's snapshot:
`AuthContext.AuthProvider.FetchUserData` changes none of the four user fields
on failure, and `AuthContext.ProfileErrorKeepsSnapshot` states it.

The rewards screen computes an active and a used redemption list
(src/pages/Rewards.tsx:58-59), but nothing reads them. The wallet tab draws
one card for every redemption of the history, in one list
(src/pages/Rewards.tsx:131). `RewardsPage.ActiveRedemptions` and
`RewardsPage.UsedRedemptions` model the two unused lists; `RewardsPage.Card`
models the cards that are drawn.

The modules are:
- `Text`, `Lists` and `Domain`: shared helpers and row types;
- `SAIdNumber` and `Validation`: the ID and phone rules;
- `AuthContext`;
- one module per screen or component: `AuthPage`, `PersonalInfo`, `Stores`,
  `Deals`, `Notifications`, `Settings`, `IndexPage`, `ProfilePage`,
  `TierProgressCard`, `RewardCard`, `RewardsPage`, `PurchaseHistory` and
  `HelpSupport`.

## Model

| member | source | states |
|---|---|---|
| SAIdNumber.ValidateSAIdNumber | src/lib/supabase-helpers.ts:8-17 | the loop that adds the even-position digits, followed by the doubled-odd-digits step, returns exactly `IsValidSAId`; anything that is not 13 ASCII digits is rejected |
| SAIdNumber.DigitCharsSum | src/lib/supabase-helpers.ts:14-15 | adding the characters of `n.toString()` gives the digit sum of `n` |
| SAIdNumber.DecimalString | src/lib/supabase-helpers.ts:14 | `toString()` of a natural number is a non-empty string of digits |
| SAIdNumber.CheckDigitFor | src/lib/supabase-helpers.ts:16 | `(10 - sum % 10) % 10` is the digit below 10 that brings the sum to a multiple of ten |
| SAIdNumber.CheckDigitIff | src/lib/supabase-helpers.ts:16 | a digit equals the computed check digit iff it completes the sum to a multiple of ten |
| SAIdNumber.EvenSumIgnoresLater | src/lib/supabase-helpers.ts:12 | the unweighted even-position sum below `n` depends only on the first `n` digits |
| SAIdNumber.OddDigitsIgnoreLater | src/lib/supabase-helpers.ts:13 | the odd-position digits below `n` depend only on the first `n` digits |
| SAIdNumber.ChecksumIgnoresCheckDigit | src/lib/supabase-helpers.ts:11-15 | the checksum never reads digit 12: two IDs that agree on the first twelve digits have the same sum |
| SAIdNumber.CheckDigitChar | src/lib/supabase-helpers.ts:16 | every twelve-digit prefix has a check-digit character |
| SAIdNumber.UniqueCheckDigit | src/lib/supabase-helpers.ts:16 | for a twelve-digit prefix, exactly one final digit is accepted |
| SAIdNumber.DoubledNumberDigitSum | src/lib/supabase-helpers.ts:13-15 | the carry argument: the digit sum of twice the number made of the digits equals the sum of the digit sums of each doubled digit |
| SAIdNumber.DoubledStep | src/lib/supabase-helpers.ts:14-15 | appending a doubled digit to an even number adds that product's digit sum |
| SAIdNumber.LuhnSplit | src/lib/supabase-helpers.ts:11-15 | the per-digit Luhn sum splits into the unweighted even-position sum plus the doubled odd-position digit sums |
| SAIdNumber.LuhnEquivalence | src/lib/supabase-helpers.ts:8-17 | the check accepts exactly the 13-digit strings whose Luhn sum over all thirteen digits is a multiple of ten |
| SAIdNumber.HexDigit | src/lib/supabase-helpers.ts:29 | each nibble becomes a lower-case hex character |
| SAIdNumber.PaddedHexIsNibbles | src/lib/supabase-helpers.ts:29 | `toString(16).padStart(2, "0")` of a byte is its high nibble then its low nibble |
| SAIdNumber.HexEncodeLayout | src/lib/supabase-helpers.ts:29 | the encoding has two characters per byte, high nibble first, in byte order |
| SAIdNumber.HexRoundTrip | src/lib/supabase-helpers.ts:29 | decoding two characters per byte gives back the bytes |
| Validation.SAPhoneForms | src/pages/Auth.tsx:23 | the phone pattern (`+27` or `0`, then nine digits) accepts exactly ten digits starting with 0, or `+` followed by eleven digits starting with 27 |
| AuthContext.ProfileOutcome | src/lib/supabase-helpers.ts:41-49 | `getUserProfile` throws on any error, including a missing row, and otherwise returns the row |
| AuthContext.LoyaltyOutcome | src/lib/supabase-helpers.ts:54-62 | `getLoyaltyAccount` throws on any error except PGRST116 (no row), which yields no account |
| AuthContext.RoleOutcome | src/lib/supabase-helpers.ts:67-76 | `hasRole` throws on any error, and otherwise is true iff a matching staff row exists |
| AuthContext.FetchAll | src/contexts/AuthContext.tsx:71-76 | the four results for one user id are gathered; the whole fetch fails iff one of the helpers throws |
| AuthContext.UserOf | src/contexts/AuthContext.tsx:98 | the user is the session's user, or none without a session |
| AuthContext.AuthProvider.constructor | src/contexts/AuthContext.tsx:61-67 | no user, no session, empty snapshot, both role flags false, loading |
| AuthContext.AuthProvider.FetchUserData | src/contexts/AuthContext.tsx:69-85 | success sets profile, account and both role flags together from the results for that id; a failure changes none of them; user, session and loading are untouched |
| AuthContext.AuthProvider.RefreshUserData | src/contexts/AuthContext.tsx:87-91 | nothing without a user; otherwise a fetch for the current user's id |
| AuthContext.AuthProvider.OnAuthStateChange | src/contexts/AuthContext.tsx:96-111 | session and user follow the event; with a user, a fetch for exactly that id is requested and the snapshot is kept until it completes; without one, the snapshot is cleared |
| AuthContext.AuthProvider.InitialSession | src/contexts/AuthContext.tsx:115-123 | session and user follow the stored session; a fetch is requested for its user; loading ends |
| AuthContext.AuthProvider.SignOut | src/contexts/AuthContext.tsx:152-160 | user, session, profile and account are cleared and both role flags are false |
| AuthContext.ProfileErrorKeepsSnapshot | src/contexts/AuthContext.tsx:70-84 | a failing profile query alone fails the whole fetch, so the snapshot is kept |
| AuthContext.MissingLoyaltyRowTolerated | src/lib/supabase-helpers.ts:60 | a missing loyalty row does not fail the fetch; it sets the account to none |
| AuthContext.StaleFetchAfterSignOut | src/contexts/AuthContext.tsx:101-104 | with no stale-result guard, a fetch that completes after sign-out shows a profile while no one is signed in |
| AuthPage.ToggledMode | src/pages/Auth.tsx:228 | the toggle sends login to signup and every other mode to login |
| AuthPage.RecordEntry | src/pages/Auth.tsx:66-79 | recording one rule's verdict adds exactly that field's message and keeps the others |
| AuthPage.FormErrorsEntry | src/pages/Auth.tsx:65-83 | a field has an entry exactly when its rule applies in the mode and fails, and the entry holds that rule's message |
| AuthPage.NoErrorsIffAccepted | src/pages/Auth.tsx:65-83 | the map is empty iff all of the following hold: the email is accepted; the password has 8+ characters unless resetting; when signing up, the name length is 2–100, the phone matches, the ID is valid and the passwords match; when verifying, the code has six characters |
| AuthPage.IdNumberMessages | src/pages/Auth.tsx:73-75 | the ID has an entry iff signing up with an invalid ID; the checksum message appears only when the 13-digit format passed, so there is at most one ID message |
| AuthPage.CollectErrors | src/pages/Auth.tsx:66-79 | the mutating fill of `newErrors` yields the rule-by-rule error map |
| AuthPage.AuthScreen.constructor | src/pages/Auth.tsx:35-48 | login mode, empty fields and errors, countdown 0, no pending email |
| AuthPage.AuthScreen.EditIdNumber | src/pages/Auth.tsx:206 | the ID box keeps only the digits of the input, in order; an all-digit input is kept whole |
| AuthPage.AuthScreen.ValidateForm | src/pages/Auth.tsx:65-83 | stores the rule-by-rule error map and returns true iff it is empty |
| AuthPage.AuthScreen.HandleSignup | src/pages/Auth.tsx:86-97 | success sets the pending email to the typed email, the countdown to 60 and the mode to otp_verify; a failure changes none of them; submitting ends |
| AuthPage.AuthScreen.HandleLogin | src/pages/Auth.tsx:99-108 | mode and pending email unchanged; submitting ends |
| AuthPage.AuthScreen.HandleForgotPassword | src/pages/Auth.tsx:110-122 | success returns to login; failure keeps the mode |
| AuthPage.AuthScreen.HandleVerifyOtp | src/pages/Auth.tsx:124-135 | nothing without a non-empty pending email (`!pendingEmail`); success returns to login |
| AuthPage.AuthScreen.HandleResendOtp | src/pages/Auth.tsx:137-147 | a request is made iff there is a non-empty pending email and the countdown is 0; success restarts the countdown at 60 |
| AuthPage.AuthScreen.HandleSubmit | src/pages/Auth.tsx:149-157 | the stored errors are those of the submitted inputs in the old mode, and the form counts as valid iff every rule that applies holds (`FormAccepted`); an invalid form runs no handler; a valid one runs the handler of its mode, with the transitions above (in OTP mode the return to login also needs a non-empty pending email) |
| AuthPage.AuthScreen.Tick | src/pages/Auth.tsx:58-62 | the countdown drops by one per second and stops at 0 |
| AuthPage.AuthScreen.ToggleMode | src/pages/Auth.tsx:228 | mode becomes the toggled mode |
| AuthPage.AuthScreen.GoToForgot | src/pages/Auth.tsx:233 | the link, shown only on the login form, switches the mode to forgot |
| AuthPage.AuthScreen.BackFromOtp | src/pages/Auth.tsx:165 | mode becomes signup |
| AuthPage.VerifyButtonEnabled | src/pages/Auth.tsx:180 | the verify button is enabled only for a six-character code |
| AuthPage.FilterKeepsAll | src/pages/Auth.tsx:206 | the digit filter leaves an all-digit string unchanged |
| PersonalInfo.NameError | src/pages/PersonalInfo.tsx:13-37 | no message iff the trimmed name has 2–100 characters; the too-short message iff it has fewer than 2 |
| PersonalInfo.InfoErrorsEntries | src/pages/PersonalInfo.tsx:34-46 | the name entry exists iff the trimmed name has the wrong length; the phone entry exists iff the trimmed phone is non-empty and not a South African number; the map is empty iff both are accepted |
| PersonalInfo.BlankPhoneAccepted | src/pages/PersonalInfo.tsx:39 | a phone that is only white space never has an error |
| PersonalInfo.SavePayloadFields | src/pages/PersonalInfo.tsx:52-61 | the row carries the user's id and e-mail, the trimmed name, and the trimmed phone, absent exactly when the input is blank |
| PersonalInfo.ValidatedPayload | src/pages/PersonalInfo.tsx:58-61 | the row built from a validated form has an allowed name length, no phone or a South African number, and the user's id |
| PersonalInfo.SaveResultOf | src/pages/PersonalInfo.tsx:64-82 | saved iff no error and a non-empty returned list; phone-taken iff the error has code 23505 or mentions "duplicate" |
| PersonalInfo.InfoForm.constructor | src/pages/PersonalInfo.tsx:21-24 | empty fields and errors, not saving |
| PersonalInfo.InfoForm.SyncFromProfile | src/pages/PersonalInfo.tsx:27-32 | with a profile, the fields take its name and phone, with a missing phone read as ""; without one they are kept |
| PersonalInfo.InfoForm.Validate | src/pages/PersonalInfo.tsx:34-46 | stores the field errors for the current inputs and returns true iff there are none |
| PersonalInfo.InfoForm.CollectInfoErrors | src/pages/PersonalInfo.tsx:35-45 | the mutating fill of the error map from the two verdicts |
| PersonalInfo.InfoForm.HandleSave | src/pages/PersonalInfo.tsx:48-88 | nothing without a user or with errors; otherwise the trimmed payload is sent and the reply is classified |
| PersonalInfo.InfoForm.Upsert | src/pages/PersonalInfo.tsx:52-87 | the row sent holds the trimmed name, the trimmed phone or none when blank, and the user's email or ""; the reply is classified; saving is off again afterwards |
| Stores.DistanceOf | src/pages/Stores.tsx:69-71 | a distance iff there is a location and both coordinates are truthy (present and non-zero), computed by the supplied distance function |
| Stores.WithDistances | src/pages/Stores.tsx:67-74 | one entry per store, in order, each carrying its distance |
| Stores.NoLocationNoDistances | src/pages/Stores.tsx:69 | without a location no store has a distance |
| Stores.Filtered | src/pages/Stores.tsx:77-85 | an order-preserving subsequence holding, as often as they occur in the input, exactly the stores whose name, address or city contains the lower-cased query (or the query is empty) and whose city equals the filter (or the filter is "all") |
| Stores.NoFiltersKeepAll | src/pages/Stores.tsx:79-83 | an empty query with "all" keeps every store |
| Stores.RanksBeforeIsCompare | src/pages/Stores.tsx:88-93 | `x` may precede `y` exactly when the comparator's result is not positive |
| Stores.CompareAntisymmetric | src/pages/Stores.tsx:88-93 | swapping the two stores negates the comparator's result |
| Stores.RanksBeforeTotal | src/pages/Stores.tsx:88-93 | any two stores are ordered one way or the other by the comparator |
| Stores.RanksBeforeTransitive | src/pages/Stores.tsx:88-93 | the comparator's order is transitive |
| Stores.AdjacentIsRanked | src/pages/Stores.tsx:88-93 | a list ordered pair by pair is ordered throughout |
| Stores.RankedOrder | src/pages/Stores.tsx:89-92 | in a ranked list, stores with a distance come first, in ascending distance, then the others in name order |
| Stores.RankInPlace | src/pages/Stores.tsx:88-93 | the in-place sort leaves the array ordered pair by pair and a permutation of its old contents |
| Stores.SiftDown | src/pages/Stores.tsx:88-93 | moves one element into the ordered prefix, keeping the multiset |
| Stores.Swap | src/pages/Stores.tsx:88-93 | exchanges two neighbours and nothing else |
| Stores.FilteredStores | src/pages/Stores.tsx:76-96 | the result is ranked and is a permutation of the filtered stores with their distances |
| Stores.ListedIffMatches | src/pages/Stores.tsx:76-96 | a store is listed iff it is in the list and passes both filters |
| Stores.InsertSorted | src/pages/Stores.tsx:65 | inserting into a strictly sorted list keeps it strictly sorted and adds exactly that city |
| Stores.Cities | src/pages/Stores.tsx:65 | the city list is strictly sorted and holds exactly the cities of the stores |
| Stores.CitiesDistinct | src/pages/Stores.tsx:65 | no city appears twice |
| Stores.ToggleFavorite | src/pages/Stores.tsx:98-100 | the id is present afterwards iff it was absent before; no other id changes |
| Stores.ToggleTwice | src/pages/Stores.tsx:98-100 | toggling twice restores membership |
| Deals.FilteredDeals | src/pages/Deals.tsx:64-68 | an order-preserving subsequence holding exactly the deals that pass the category and search tests, each as often as it occurs in the input |
| Deals.IsEndingSoon | src/pages/Deals.tsx:70-73 | ending soon iff the expiry lies strictly after now and strictly less than 604800000 ms (seven days) later |
| Deals.MissingDescriptionSearchesTitle | src/pages/Deals.tsx:66 | a deal without a description matches a non-empty query only through its title |
| Deals.EndingSoonWindow | src/pages/Deals.tsx:70-73 | the badge shows strictly within the seven days (604800000 ms) before expiry, and stays until expiry |
| Deals.CategoriesOf | src/pages/Deals.tsx:56 | each deal's category, in order |
| Deals.Categories | src/pages/Deals.tsx:56 | each category once, only categories of the deals, in the order of their first occurrence among the deals |
| Deals.ChipNeverEmpty | src/pages/Deals.tsx:56-68 | every chip selects at least one deal when the search box is empty |
| Deals.AfterFetch | src/pages/Deals.tsx:54-59 | deals and chips are replaced only by data that came with no error; loading ends |
| Deals.ChipsMatchAfterFetch | src/pages/Deals.tsx:54-59 | after any fetch every chip still selects a deal |
| Deals.ImageFor | src/pages/Deals.tsx:131 | the bundled picture is used iff there is no image URL, and its index is below 9 |
| Deals.FallbackRotates | src/pages/Deals.tsx:131 | among nine consecutive cards no two fall back to the same picture |
| Notifications.MarkRead | src/pages/Notifications.tsx:42 | same length and order; entries with the id are read, the rest unchanged |
| Notifications.AllRead | src/pages/Notifications.tsx:50 | same length and order; every entry read and otherwise unchanged |
| Notifications.Unread | src/pages/Notifications.tsx:47-53 | exactly the unread entries, each as often as it occurs in the list, in order |
| Notifications.UnreadIds | src/pages/Notifications.tsx:47 | the ids of the unread entries, in order |
| Notifications.UnreadIdsExact | src/pages/Notifications.tsx:47 | an id is listed iff some unread entry carries it |
| Notifications.UnreadCountIsCount | src/pages/Notifications.tsx:53 | the count is the number of positions holding an unread entry |
| Notifications.UnreadCountZeroIff | src/pages/Notifications.tsx:53 | the count is zero iff every entry is read |
| Notifications.MarkReadUnreadIds | src/pages/Notifications.tsx:40-43 | marking one id read removes exactly that id from the unread ids |
| Notifications.AllReadNoneUnread | src/pages/Notifications.tsx:50-53 | after marking all read the count is zero |
| Notifications.Inbox.constructor | src/pages/Notifications.tsx:21-22 | an empty list, loading |
| Notifications.Inbox.Fetched | src/pages/Notifications.tsx:24-38 | nothing without a user; otherwise returned data replaces the list and loading ends |
| Notifications.Inbox.MarkAsRead | src/pages/Notifications.tsx:40-43 | the list becomes `MarkRead` of the old list |
| Notifications.Inbox.MarkAllRead | src/pages/Notifications.tsx:45-51 | no-op without a user or unread entry; otherwise the unread ids are sent and every entry becomes read |
| Notifications.Inbox.Click | src/pages/Notifications.tsx:101 | clicking a read entry does nothing; an unread one is marked read |
| Settings.Prefs.Set | src/pages/Settings.tsx:61 | only the named key changes |
| Settings.DefaultsOnExceptWhatsApp | src/pages/Settings.tsx:19-27 | every default is on except WhatsApp |
| Settings.PrefsExtensional | src/pages/Settings.tsx:19-27 | the seven keys determine the preferences |
| Settings.SetBack | src/pages/Settings.tsx:60-62 | setting a key back to its old value undoes the change |
| Settings.SettingsScreen.constructor | src/pages/Settings.tsx:19-35 | default preferences, loading, dialog closed, empty word |
| Settings.SettingsScreen.PrefsLoaded | src/pages/Settings.tsx:37-58 | nothing without a user; a returned row replaces all seven flags, no row keeps them; loading ends |
| Settings.SettingsScreen.UpdatePref | src/pages/Settings.tsx:60-68 | the key changes locally first, with or without a user; the upsert of that key is sent only for a user |
| Settings.SettingsScreen.OpenDeleteDialog | src/pages/Settings.tsx:180 | the dialog opens on its first step with an empty word |
| Settings.SettingsScreen.ContinueToConfirm | src/pages/Settings.tsx:213 | moves to the confirmation step |
| Settings.SettingsScreen.CancelDialog | src/pages/Settings.tsx:216 | closes the dialog |
| Settings.SettingsScreen.GoBack | src/pages/Settings.tsx:244 | back to the first step, word cleared |
| Settings.SettingsScreen.EditConfirmText | src/pages/Settings.tsx:231 | the word is stored upper-cased |
| Settings.SettingsScreen.HandleDeleteAccount | src/pages/Settings.tsx:70-95 | no-op unless the word is DELETE and the provider has a user; otherwise an attempt is made; deleted iff there is also a session and the call succeeds, and then the provider is signed out; deleting is off again afterwards |
| Settings.ClickDelete | src/pages/Settings.tsx:236-241 | the final button is enabled only for DELETE while idle, so a click always passes the word check: nothing is attempted iff there is no user, the account is deleted iff there is also a session and the call succeeds, and the button is enabled again afterwards |
| Settings.LowercaseWordAccepted | src/pages/Settings.tsx:231-239 | typing "delete" yields DELETE |
| Settings.ConfirmNeedsSixLetters | src/pages/Settings.tsx:231-239 | only a six-character input can produce DELETE |
| IndexPage.MapTransactionType | src/pages/Index.tsx:48-54 | redeemed iff "redeem"/"redeemed"; bonus iff "bonus"; tier_bonus iff "tier_bonus"; earned for everything else |
| IndexPage.KindNameRoundTrip | src/pages/Index.tsx:48-54 | every kind's own name maps back to it |
| IndexPage.ToEntry | src/pages/Index.tsx:66-72 | a row becomes an entry with the same id, description and points and the mapped kind |
| IndexPage.Ledger | src/pages/Index.tsx:66-74 | the rows' count and order are kept |
| IndexPage.EntriesAfterFetch | src/pages/Index.tsx:62-77 | nothing without an account id or when the helper throws; otherwise the returned rows replace the entries |
| IndexPage.DisplayName | src/pages/Index.tsx:91 | never empty and without spaces, or "Member" |
| IndexPage.DisplayNameIsFirstWord | src/pages/Index.tsx:91 | the greeting is the name's text up to its first space |
| IndexPage.DisplayNameFallback | src/pages/Index.tsx:91 | no profile, or a name that is empty or starts with a space, gives "Member" |
| IndexPage.TierInfo | src/pages/Index.tsx:92-97 | the account's `current_tier`, or silver without an account; the next step is the table entry `NextTier` of that tier, which is absent only for platinum |
| Domain.NextTier | src/pages/Index.tsx:92-95 | no next tier only for platinum; the next tier is one rank up |
| Domain.ThresholdsIncrease | src/pages/Index.tsx:92-95 | a higher tier's threshold is larger |
| Domain.TierOrDefault | src/pages/Index.tsx:96 | the account's tier, or silver without one |
| ProfilePage.DisplayName | src/pages/Profile.tsx:21 | the full name when non-empty, otherwise "Member" |
| ProfilePage.DisplayEmail | src/pages/Profile.tsx:22 | the profile email when non-empty; otherwise the user's email when there is one; otherwise "" |
| ProfilePage.LifetimePoints | src/pages/Profile.tsx:24 | the account's lifetime points, or 0 |
| ProfilePage.Words | src/pages/Profile.tsx:26 | the pieces of the split that are not empty, in order |
| ProfilePage.Heads | src/pages/Profile.tsx:26 | one character per non-empty piece: the first character of each, in order; empty pieces contribute nothing |
| ProfilePage.Initials | src/pages/Profile.tsx:26 | the upper-cased first characters of the first two words of the name, in order (fewer when the name has fewer words) |
| ProfilePage.InitialsOfTwoWords | src/pages/Profile.tsx:26 | a two-word name gives the upper-cased first letters of both words |
| ProfilePage.InitialsFallback | src/pages/Profile.tsx:21-26 | a missing or empty name gives "M" |
| ProfilePage.TierInfo | src/pages/Profile.tsx:23-35 | the account's `current_tier`, or silver without an account; the next step is the table entry `NextTier` of that tier, which is absent only for platinum |
| TierProgressCard.Multiplier | src/components/TierProgress.tsx:11-30 | between 1x and 2x |
| TierProgressCard.MultiplierIncreases | src/components/TierProgress.tsx:11-30 | a higher tier has a larger multiplier |
| TierProgressCard.View | src/components/TierProgress.tsx:41-91 | progress is points / threshold × 100 for a non-zero threshold, and 100 without one; the bar is that progress capped at 100, and exactly 100 once progress reaches 100; the next-tier section shows iff both a next tier and a non-zero threshold are given; remaining is threshold minus points, unclamped |
| TierProgressCard.FullBarIffNothingRemaining | src/components/TierProgress.tsx:41-91 | with a positive threshold the bar is full iff nothing remains |
| TierProgressCard.SectionShownBelowTop | src/pages/Index.tsx:92-97 | with the table's values, the section shows for every tier but platinum |
| RewardCard.Progress | src/components/RewardCard.tsx:25 | for a non-zero cost, points / cost × 100 capped at 100; for a positive cost, 100 iff the balance covers it; for a zero cost, +Infinity (drawn as 100) for a positive balance, NaN for a zero one and -Infinity for a negative one |
| RewardCard.View | src/components/RewardCard.tsx:24-88 | redeemable iff the points cover the cost; the button is disabled iff not redeemable; otherwise the shortfall is shown and is positive |
| RewardCard.FullBarIffRedeemable | src/components/RewardCard.tsx:24-25 | with a positive cost the bar is full iff the reward is redeemable |
| RewardsPage.CurrentPoints | src/pages/Rewards.tsx:39 | the account's current points, or 0 |
| RewardsPage.ActiveRedemptions | src/pages/Rewards.tsx:58 | exactly the active redemptions, each as often as it occurs in the history, in order |
| RewardsPage.UsedRedemptions | src/pages/Rewards.tsx:59 | exactly the used redemptions, each as often as it occurs in the history, in order |
| RewardsPage.ActiveUsedPartition | src/pages/Rewards.tsx:58-59 | the two lists are disjoint and together as long as the redemptions that are active or used |
| RewardsPage.DisplayTitle | src/pages/Rewards.tsx:135 | the reward title when non-empty; otherwise the deal title when non-empty; otherwise "Reward" |
| RewardsPage.Card | src/pages/Rewards.tsx:131-148 | one wallet card, drawn for every redemption of the history; labelled "Active" iff active, else "Used"; code and expiry shown iff active |
| RewardsPage.OtherStatusLabelledUsed | src/pages/Rewards.tsx:139-142 | any status other than "active" is labelled "Used" and shows no code |
| RewardsPage.RedemptionsAfterFetch | src/pages/Rewards.tsx:51-56 | nothing without an account id or when the helper throws; otherwise the returned list replaces the old one |
| PurchaseHistory.Normalise | src/pages/PurchaseHistory.tsx:41-43 | array items are kept, anything else becomes the empty list; the other fields are unchanged |
| PurchaseHistory.NormaliseAll | src/pages/PurchaseHistory.tsx:40-44 | one normalised purchase per row, in order |
| PurchaseHistory.EmptyTotals | src/pages/PurchaseHistory.tsx:56-58 | all three totals of no purchases are 0 |
| PurchaseHistory.TotalPointsWhole | src/pages/PurchaseHistory.tsx:57 | `totalPoints` is the whole-number sum of the points earned |
| PurchaseHistory.TotalsOfPrepend | src/pages/PurchaseHistory.tsx:56-58 | `totalSpent`, `totalPoints` and `totalSaved` each equal the first purchase's field plus the total of the rest |
| PurchaseHistory.TotalAppend | src/pages/PurchaseHistory.tsx:56-58 | the fold over two lists is the sum of the folds |
| PurchaseHistory.TotalSingle | src/pages/PurchaseHistory.tsx:56-58 | one purchase's total is its own field |
| PurchaseHistory.TotalNonNegative | src/pages/PurchaseHistory.tsx:56-58 | non-negative fields give a non-negative total |
| PurchaseHistory.HistoryScreen.constructor | src/pages/PurchaseHistory.tsx:26-28 | no purchases, loading, nothing selected |
| PurchaseHistory.HistoryScreen.Fetched | src/pages/PurchaseHistory.tsx:30-54 | loading ends; purchases are replaced only for an account id and a non-empty returned list |
| PurchaseHistory.HistoryScreen.Click | src/pages/PurchaseHistory.tsx:114 | clicking the selected purchase deselects it; any other is selected |
| PurchaseHistory.ClickTwiceCloses | src/pages/PurchaseHistory.tsx:114 | two clicks on the same purchase open and then close it |
| HelpSupport.NextOpen | src/pages/HelpSupport.tsx:68 | clicking the open question closes it; clicking another opens that one |
| HelpSupport.ClickTwice | src/pages/HelpSupport.tsx:68 | two clicks on one question return it to open if it was open, and otherwise leave every question closed |
| HelpSupport.SupportScreen.constructor | src/pages/HelpSupport.tsx:25-28 | nothing open, empty form, not sending |
| HelpSupport.SupportScreen.ToggleFaq | src/pages/HelpSupport.tsx:68-76 | the clicked answer flips, and no other answer is shown |
| HelpSupport.SupportScreen.EditSubject | src/pages/HelpSupport.tsx:95 | the subject takes the input |
| HelpSupport.SupportScreen.EditMessage | src/pages/HelpSupport.tsx:99 | the message takes the input |
| HelpSupport.SupportScreen.SubmitTicket | src/pages/HelpSupport.tsx:30-36 | accepted iff neither subject nor message is only white space; then sending starts and the submit button is disabled |
| HelpSupport.SupportScreen.TimerFires | src/pages/HelpSupport.tsx:37-42 | subject and message are emptied and sending ends |
| HelpSupport.SubmitRound | src/pages/HelpSupport.tsx:30-43 | an accepted ticket leaves an empty form ready to send again; a refused one keeps the form |

## Left out

- `emailSchema` (the zod email check, src/pages/Auth.tsx:20) is a boolean parameter `emailAccepted`. Zod's own default messages for the name schema are the constants the code shows.
- `toLowerCase`/`toUpperCase` map ASCII letters only. Lengths count characters rather than UTF-16 code units. `trim` uses the full ECMAScript white-space set. String order (`Text.LexLess`, which `Stores.Cities` uses for `.sort()`) compares characters as Unicode scalar values, while JavaScript compares UTF-16 code units; the two orders differ only between a supplementary-plane character and one in U+E000–U+FFFF.
- `localeCompare` (src/pages/Stores.tsx:92) is a lexicographic order on characters. It is a total order, not the locale collation.
- The haversine distance (src/pages/Stores.tsx:21-27) is a function parameter. Map-pin projection is out of scope. A NaN coordinate is not modelled.
- Stores.RankInPlace: an insertion sort stands in for `Array.prototype.sort`. The contract states order and permutation only. It does not state stability, because the engine's sort algorithm is not part of this model.
- Stores.FilteredStores: calls that sort, so the order of ties (stores the comparator ranks equal) is not stated either; `Array.prototype.sort` is stable and keeps them in filtered order.
- SHA-256 (src/lib/supabase-helpers.ts:23-27) is a foreign primitive; only the hex encoding of its bytes is modelled. `generateOTPCode` uses randomness and is left out.
- Every remote query, upsert, auth call and `functions.invoke` is replaced by the result it returns, passed as a parameter. supabase/functions/delete-account/index.ts is not part of this model. It holds remote deletes and HTTP handling only.
- Timers (the OTP countdown, the deferred fetch after an auth event, the one-second ticket delay) are explicit steps: `Tick`, a returned fetch request, `TimerFires`.
- Overlapping asynchronous handlers are not modelled. Each handler runs to completion before the next step.
- No request-sequence guard is modelled, because the code has none (see `StaleFetchAfterSignOut`).
- Toasts, navigation, animation, icons and CSS classes are left out. So are the presentational components (LoyaltyCard, DealCard, PromoCard, SectionHeader, Logo, BottomNav, PointsHistory, BarcodeScreen) and the route tables.
- Date and number formatting (`toLocaleString`, `toFixed`, date-fns `format`) is left out. Timestamps are integers in milliseconds, so the `new Date` parsing of `valid_until` is not modelled.
- IndexPage.EntriesAfterFetch: the home screen calls `getPointsHistory(id, 3)`, but the helper takes one argument (src/lib/supabase-helpers.ts:81). The extra argument is ignored, so no three-row limit applies.
- The fields of `items_summary` entries are not checked beyond "is an array", as in the code.
- PurchaseHistory.TotalAppend: holds for the exact reals of the model only. The code adds IEEE doubles, whose addition does not associate, so the regrouped sum can differ in the last place (0.1 then 0.2 then 0.3 gives 0.6000000000000001, but 0.1 plus the sum 0.2 + 0.3 gives 0.6).
- PurchaseHistory.TotalsOfPrepend: holds for exact reals only, for the same reason. `totalSpent` and `totalSaved` (src/pages/PurchaseHistory.tsx:56, 58) are left folds of exact reals rather than of doubles, so rounding is not modelled. `totalPoints` adds whole numbers, which doubles add exactly below 2^53.
- TierProgressCard.View: the progress percentage divides exact reals rather than IEEE doubles, so rounding of the bar width is not modelled.
- RewardCard.Progress: division uses exact reals rather than IEEE doubles. For a zero cost, JavaScript's division result is named rather than computed: +Infinity clamps to 100, and NaN and -Infinity are their own values.
