# Portfolio site: visit tracking, achievements and embedded-app sizing

This project models, in Dafny, the two pieces of real logic in a personal
portfolio website, and proves properties of them.

1. **Visit tracking and the achievement engine.** The site keeps a
   string-to-string store in the browser's `localStorage`.
   - `trackPageView` records each visited page. It sets a `<page>Viewed` flag and counts case-study pages in `caseStudiesViewed`.
   - `PageTracker` turns each new route pathname into a page name.
   - `AchievementSystem` walks a fixed catalog of four achievements: `problem-hunter`, `framework-explorer`, `deep-diver` and `pm-enthusiast`.
   - It unlocks each achievement at most once. The `achievement_<id>` key is the guard.
   - It shows a toast for the last achievement it unlocked.
2. **Embedded apps.** `WebAppEmbed` and `StreamlitEmbed` build an iframe URL.
   - They track `isLoading` and `hasError` through the iframe's load and error events.
   - They accept height requests posted by the embedded app. A request must come from the app's own origin and have one of three shapes. The height is then clamped to bounds.

Modules, one per source file plus shared parts:

| module | file | models |
|---|---|---|
| `Wrappers` | wrappers.dfy | `Option`, for `null` |
| `Storage` | storage.dfy | `localStorage`: the class `LocalStorage` over a `map<string, string>` |
| `Numerals` | numerals.dfy | JavaScript `parseInt` (radix 10) and integer `toString` |
| `Tracking` | tracking.dfy | `lib/tracking.ts` |
| `PageTracker` | page_tracker.dfy | `components/PageTracker.tsx` |
| `Achievements` | achievements.dfy | `components/AchievementSystem.tsx` |
| `Session` | session.dfy | runs that interleave navigations, the dwell signal and polling passes, as `app/layout.tsx` wires them. A `Navigate` event is one run of the `PageTracker` effect. React re-runs that effect only when the pathname changes or the component remounts, so repeated identical `Navigate` events stand for reloads. Lemmas over all runs therefore cover more runs than can happen, and stay sound |
| `EmbedMessages` | embed_messages.dfy | message classification, clamping and URL building, shared by both embeds |
| `WebAppEmbed` | web_app_embed.dfy | `components/WebAppEmbed.tsx` |
| `StreamlitEmbed` | streamlit_embed.dfy | `components/StreamlitEmbed.tsx` |

State that the source updates in place is a class with methods:
- the store (`Storage.LocalStorage`);
- the toast state (`Achievements.AchievementSystem`);
- the two iframe components.

Each method's `ensures` ties the new state to a pure function of the old state. Examples are `Tracking.AfterPageView`, `Achievements.PassStore` and `EmbedMessages.HeightAfter`. The lemmas state the source's promises about those functions.

Choices made where the source relies on its environment:
- **`typeof window === "undefined"`** becomes the parameter `hasWindow` of `TrackPageView` and `TrackDeepDive`. `PageTracker` calls the recorder with a window present, because React effects run only in the browser.
- **`new URL(url).origin`** becomes the constructor parameter `appOrigin: Option<string>`. It is `None` when the URL constructor throws.
- **`event.data`** becomes `EmbedMessages.Message`. It is an object (its `type`, when a string, and its `height`, when an integer), a bare number, or anything else.
- **`parseInt`** returns `None` for `NaN`. `NaN + 1` prints as `"NaN"`.

Two behaviours of the code to note:
- **Malformed counter.** A malformed counter is not reset to 0. `parseInt` gives `NaN`, and `"NaN"` is written back (lib/tracking.ts:11-12). `NaN` never turns back into a number. `Tracking.NaNCounterSticks` proves that.
- **Accidental counter write.** The generic flag write `${page}Viewed` also hits the counter key when the page is `"caseStudies"`, for example the path `/caseStudies`. That write stores `"true"` in `caseStudiesViewed`. `Tracking.PageViewCounter` states this case. `Tracking.CaseStudiesPageClobbersCounter` shows a count of 2 being lost: after one more case study the counter reads `"NaN"` for good. So the claim that the counter stays a decimal numeral (`Tracking.VisitsKeepDecimalCounter`) holds only for runs that avoid that page.

## Model

| member | source | states |
|---|---|---|
| `Storage.Get` | lib/tracking.ts:10 | `getItem` answers the stored value exactly when the key is present, and `null` otherwise |
| `Storage.LocalStorage.GetItem` | lib/tracking.ts:10 | reading a key answers `Some(v)` exactly when the store maps it to `v` |
| `Storage.LocalStorage.SetItem` | lib/tracking.ts:6 | writing a key overwrites that key alone (last write wins) |
| `Numerals.LeadingDigits` | lib/tracking.ts:11 | the digits `parseInt` reads are the longest all-digit prefix |
| `Numerals.NatToString` | lib/tracking.ts:12 | `toString` of a natural number is a non-empty digit string with no leading zero whose value is the number |
| `Numerals.LeadingDigitsStopAtNonDigit` | lib/tracking.ts:11 | digits followed by a non-digit or the end are read in full and no further |
| `Numerals.ParseIntDigitsPrefix` | lib/tracking.ts:11 | `parseInt` of digits followed by a non-digit suffix is the value of the digits |
| `Numerals.ParseIntOfIntToString` | lib/tracking.ts:11-12 | `parseInt(n.toString()) == n` for every integer: the counter's write and read round-trip |
| `Numerals.ParseIntOfDigits` | lib/tracking.ts:11 | a stored digit string reads as its decimal value |
| `Numerals.ParseIntOfWords` | lib/tracking.ts:11 | `"true"`, `"NaN"` and `""` read as `NaN` |
| `Tracking.TrackPageView` | lib/tracking.ts:3-19 | without a window the store is unchanged; otherwise the new store is `AfterPageView` of the old one |
| `Tracking.TrackDeepDive` | lib/tracking.ts:21-24 | without a window the store is unchanged; otherwise `deepDive` is set to `"true"` |
| `Tracking.ViewedKeyInjective` | lib/tracking.ts:6 | different pages have different `<page>Viewed` keys |
| `Tracking.CaseStudyFlagIsNotCounter` | lib/tracking.ts:6-12 | a `work/` page's flag key is never the counter key |
| `Tracking.PageViewSetsFlag` | lib/tracking.ts:6 | after a visit, `<page>Viewed` reads `"true"` |
| `Tracking.PageViewCounter` | lib/tracking.ts:6-13 | a `work/` page stores the old count plus one (or `"NaN"`); `"caseStudies"` stores `"true"`; any other page leaves the counter as it was |
| `Tracking.CaseStudyVisitCounts` | lib/tracking.ts:9-13 | a `work/` visit raises a numeric count by exactly one; an absent or empty counter counts as 0 |
| `Tracking.WorkIndexKeepsCounter` | lib/tracking.ts:9 | visiting `"work"` (no trailing slash) leaves the counter unchanged |
| `Tracking.PageViewFrame` | lib/tracking.ts:3-19 | only `<page>Viewed` and `caseStudiesViewed` can change, and no key is removed. The `frameworksViewed` write only repeats the page's own flag |
| `Tracking.PageViewIdempotent` | lib/tracking.ts:6-18 | off `work/` pages, two visits leave the same store as one, the duplicate `frameworksViewed` write included |
| `Tracking.DeepDiveFlag` | lib/tracking.ts:21-24 | `trackDeepDive` sets `deepDive` to `"true"`, changes no other key, removes nothing, and is idempotent |
| `Tracking.DecimalCounterValue` | lib/tracking.ts:10-11 | an absent, empty or digit-string counter reads as a natural number |
| `Tracking.VisitsKeepDecimalCounter` | lib/tracking.ts:9-13 | from a decimal counter, visits that avoid `"caseStudies"` keep it decimal and raise it by exactly the number of `work/` visits, so it never decreases |
| `Tracking.NaNCounterSticks` | lib/tracking.ts:10-12 | once the counter reads as `NaN`, no sequence of visits makes it a number again |
| `Tracking.CaseStudiesPageClobbersCounter` | lib/tracking.ts:6-12 | visiting `"caseStudies"` turns a count of `"2"` into `"true"`, and the next case study stores `"NaN"` |
| `PageTracker.RemoveFirstSlash` | components/PageTracker.tsx:12 | `replace("/", "")` changes nothing when there is no slash, and otherwise removes exactly one character |
| `PageTracker.PageName` | components/PageTracker.tsx:12 | the page name is never empty |
| `PageTracker.OnPathnameChange` | components/PageTracker.tsx:10-15 | the store after the effect is `AfterNavigation`: one recorded visit for a non-empty pathname, and nothing otherwise |
| `PageTracker.RemoveFirstSlashAt` | components/PageTracker.tsx:12 | only the first `/` is removed: the result is the text before it followed by the text after it |
| `PageTracker.LeadingSlashStripped` | components/PageTracker.tsx:12 | a path starting with `/` loses only that slash; `"/"` becomes `"home"` |
| `PageTracker.PageNameExamples` | components/PageTracker.tsx:12 | `"/"` gives `"home"`, `"/about"` gives `"about"`, `"/work/cdp"` gives `"work/cdp"`, `"/work"` gives `"work"` |
| `PageTracker.NoPathnameNoTracking` | components/PageTracker.tsx:11 | a `null` or empty pathname leaves the store unchanged |
| `PageTracker.CaseStudyNavigationCounts` | components/PageTracker.tsx:12-13 | navigating to `/work/<x>` raises the case-study count by one |
| `PageTracker.WorkIndexNavigationKeepsCounter` | components/PageTracker.tsx:12-13 | navigating to `/work` leaves the counter unchanged |
| `Achievements.AchievementSystem.constructor` | components/AchievementSystem.tsx:63-65 | no achievements listed, no current achievement, toast hidden |
| `Achievements.AchievementSystem.CheckAchievements` | components/AchievementSystem.tsx:68-79 | the store becomes `PassStore` of the catalog; newly unlocked ids are appended in unlock order; the current achievement is the last one unlocked, or unchanged if none was; the toast shows when anything was unlocked |
| `Achievements.AchievementSystem.Evaluate` | components/AchievementSystem.tsx:69-78 | the loop over the catalog computes exactly `PassStore` and `PassUnlocked` for any list of achievements |
| `Achievements.AchievementSystem.Visit` | components/AchievementSystem.tsx:70-77 | one iteration of the `forEach`: it fires exactly when the guard is unset and the condition holds; then it sets the guard, appends the id, makes the achievement current and shows the toast; otherwise nothing changes |
| `Achievements.AchievementSystem.HideToast` | components/AchievementSystem.tsx:76 | the dismiss button or the 5-second timer hides the toast and changes nothing else |
| `Achievements.ProblemHunterCondition` | components/AchievementSystem.tsx:21-24 | `problem-hunter` holds exactly when the recorder's count is a number of at least 3; an absent or empty counter fails |
| `Achievements.SectionFlags` | components/AchievementSystem.tsx:50-56 | the five flags the condition reads are the `<page>Viewed` keys of home, about, work, frameworks and contact, in order |
| `Achievements.AllSectionsCondition` | components/AchievementSystem.tsx:49-58 | `pm-enthusiast` holds exactly when home, about, work, frameworks and contact all have their flag `"true"` |
| `Achievements.AllSectionsImpliesFrameworks` | components/AchievementSystem.tsx:31-58 | the `pm-enthusiast` condition implies the `framework-explorer` condition |
| `Achievements.KeyIsNotConditionKey` | components/AchievementSystem.tsx:21-70 | no `achievement_<id>` key is a key that a condition reads |
| `Achievements.ConditionIgnoresKey` | components/AchievementSystem.tsx:21-72 | writing a guard key changes no condition |
| `Achievements.PassFrame` | components/AchievementSystem.tsx:69-78 | a pass writes only the guard keys of the achievements it walks, and removes no key |
| `Achievements.PassKeepsConditions` | components/AchievementSystem.tsx:69-78 | every condition has the same value before and after a pass |
| `Achievements.PassGuard` | components/AchievementSystem.tsx:70-72 | after a pass, a guard reads `"true"` if it was absent or empty and the condition held; otherwise it is as before |
| `Achievements.PassUnlocksUnlockable` | components/AchievementSystem.tsx:69-74 | what the pass unlocks is exactly the unlockable entries of the starting store, in catalog order |
| `Achievements.UnlockableMembers` | components/AchievementSystem.tsx:71 | an entry is unlockable exactly when it is in the catalog, locked, and its condition holds |
| `Achievements.NothingToUnlock` | components/AchievementSystem.tsx:71 | a pass that finds nothing to unlock changes nothing |
| `Achievements.SecondPassIsNoOp` | components/AchievementSystem.tsx:70-72 | a second pass over the store the first pass left unlocks nothing and changes nothing |
| `Achievements.CatalogIdsDistinct` | components/AchievementSystem.tsx:15-60 | the four catalog ids are distinct |
| `Achievements.CatalogPass` | components/AchievementSystem.tsx:68-79 | summary of one catalog pass: what it unlocks (both directions), in catalog order, the guards it sets, the keys it keeps, and that it is idempotent |
| `Achievements.PassKeepsPmAfterFramework` | components/AchievementSystem.tsx:27-78 | if `pm-enthusiast` being set implies `framework-explorer` is set before a pass, the same holds after it |
| `Session.FlagIsNotGuard` | lib/tracking.ts:6 | no `<page>Viewed` key is the guard of a catalog achievement |
| `Session.RecordingKeepsGuard` | lib/tracking.ts:3-24 | recording visits and dwell time never changes a catalog guard |
| `Session.UnlockedStaysUnlocked` | components/AchievementSystem.tsx:70-72 | once unlocked, an achievement stays unlocked in every later run |
| `Session.RunKeepsPmAfterFramework` | components/AchievementSystem.tsx:69-78 | from a store where it holds (the empty one included), every run keeps `pm-enthusiast` set only if `framework-explorer` is set |
| `Session.RecordingKeepsTrueFlag` | lib/tracking.ts:6-23 | recording writes only `"true"` apart from the counter, so a `"true"` flag stays `"true"` |
| `Session.RunKeepsTrueFlag` | lib/tracking.ts:3-24 | in any run, a `"true"` value of a key other than the counter stays `"true"` |
| `Session.VisitedPageFlagged` | components/PageTracker.tsx:12-13 | a page visited somewhere in a run, other than `caseStudies` (whose flag key is the counter), has its flag `"true"` at the end |
| `Session.RecordingRunKeepsGuard` | lib/tracking.ts:3-24 | runs without a pass never change a catalog guard |
| `Session.CountOfThreeUnlocksProblemHunter` | components/AchievementSystem.tsx:21-72 | a count of 3 or more unlocks a still-locked `problem-hunter` on the next pass |
| `Session.CaseStudyNavigation` | components/PageTracker.tsx:12-13 | one visit to `/work/cdp` raises the count by one and leaves the `problem-hunter` guard alone |
| `Session.ThreeCaseStudyVisits` | lib/tracking.ts:9-13 | three visits to `/work/cdp` raise the count by three and leave the `problem-hunter` guard alone |
| `Session.ThreeCaseStudiesUnlockProblemHunter` | components/AchievementSystem.tsx:21-79 | from any store with a count of 0 or more (the empty store included) and `problem-hunter` locked, three visits to `/work/cdp` and one pass unlock it |
| `Session.SectionPageNames` | components/PageTracker.tsx:12 | the five section paths map to home, about, work, frameworks and contact |
| `Session.SectionFlagsAreNotCounter` | lib/tracking.ts:6-9 | none of the five section flags is the counter key |
| `Session.SectionsFlagged` | components/AchievementSystem.tsx:49-58 | visiting the five sections once each, in order, makes the `pm-enthusiast` condition hold |
| `Session.FiveSectionVisits` | components/AchievementSystem.tsx:49-58 | visiting the five sections once each makes the `pm-enthusiast` condition hold and leaves its guard alone |
| `Session.AllSectionsUnlockPmEnthusiast` | components/AchievementSystem.tsx:49-79 | from an empty store, the five section visits and one pass unlock `pm-enthusiast`, with no other achievement required first |
| `EmbedMessages.Classify` | components/WebAppEmbed.tsx:74-88 | a message is accepted exactly when it is an object with a non-zero height or a positive bare number; the request carries that height; the `streamlit:setFrameHeight` branch is taken exactly for objects of that type |
| `EmbedMessages.Clamp` | components/WebAppEmbed.tsx:77 | the result is within the bounds (the lower bound when they cross); a height already in range is kept; a height above the range gives the maximum and one below gives the minimum |
| `EmbedMessages.HeightAfter` | components/WebAppEmbed.tsx:64-88 | a message from a foreign origin, or arriving when the URL has no origin, or of no accepted shape, keeps the height; an accepted one sets the clamped request |
| `EmbedMessages.HeightAfterAllInRange` | components/StreamlitEmbed.tsx:51-77 | after any messages, the height is the starting one or within the bounds |
| `EmbedMessages.ForeignMessagesIgnored` | components/StreamlitEmbed.tsx:53-59 | messages that do not come from the app's origin never change the height |
| `EmbedMessages.RejectedShapes` | components/StreamlitEmbed.tsx:61-76 | a bare number of 0 or less, an object without a height or with height 0, and anything else are rejected |
| `EmbedMessages.EmbedUrl` | components/WebAppEmbed.tsx:35-37 | without parameters the URL is unchanged; with them the URL is kept, then `&` if it has a `?` and `?` otherwise, then the parameters, and the result has a query |
| `EmbedMessages.DefaultClampExamples` | components/WebAppEmbed.tsx:23-24 | with bounds 400 and 2000: 5000 gives 2000, 50 gives 400, 900 is kept |
| `WebAppEmbed.DefaultProps` | components/WebAppEmbed.tsx:18-26 | defaults: height 800, bounds 400 and 2000, adjustment on, no parameters |
| `WebAppEmbed.NetlyAiProps` | app/work/netlyai/page.tsx:206-211 | the NetlyAI embed has initial height 900 and adjustment off |
| `WebAppEmbed.WebAppEmbed.constructor` | components/WebAppEmbed.tsx:29-31 | height is `initialHeight`, `isLoading` is true, `hasError` is false |
| `WebAppEmbed.WebAppEmbed.HandleLoad` | components/WebAppEmbed.tsx:46-49 | load sets (isLoading, hasError) to (false, false), clearing an earlier error |
| `WebAppEmbed.WebAppEmbed.HandleError` | components/WebAppEmbed.tsx:52-55 | error sets (isLoading, hasError) to (false, true) |
| `WebAppEmbed.WebAppEmbed.ReceiveMessage` | components/WebAppEmbed.tsx:63-91 | the new height is `HeightAfter` when adjustment is on and the old height otherwise; the height stays the initial one or within the bounds; the flags are untouched |
| `WebAppEmbed.MessagesKeepHeightOk` | components/WebAppEmbed.tsx:29-87 | in any run of messages, the height stays `initialHeight` or within `[minHeight, maxHeight]` |
| `WebAppEmbed.AdjustmentOffKeepsHeight` | components/WebAppEmbed.tsx:63-91 | with `enableHeightAdjustment` false, no message ever changes the height |
| `WebAppEmbed.NetlyAiHeightFixed` | app/work/netlyai/page.tsx:209-210 | the NetlyAI embed stays at 900 whatever the app posts |
| `WebAppEmbed.DefaultBoundsExamples` | components/WebAppEmbed.tsx:22-88 | with the defaults, a 5000 request gives 2000, a 50 request gives 400, and a foreign origin changes nothing |
| `StreamlitEmbed.StreamlitUrl` | components/StreamlitEmbed.tsx:22-24 | the `src` is the general embed-URL rule applied to the parameter `embed=true` |
| `StreamlitEmbed.StreamlitEmbed.constructor` | components/StreamlitEmbed.tsx:16-18 | height 800, `isLoading` true, `hasError` false |
| `StreamlitEmbed.StreamlitEmbed.HandleLoad` | components/StreamlitEmbed.tsx:33-39 | load sets (isLoading, hasError) to (false, false) |
| `StreamlitEmbed.StreamlitEmbed.HandleError` | components/StreamlitEmbed.tsx:42-45 | error sets (isLoading, hasError) to (false, true) |
| `StreamlitEmbed.StreamlitEmbed.HandleMessage` | components/StreamlitEmbed.tsx:51-77 | the new height is `HeightAfter` with bounds 400 and 2000, so it is always within `[400, 2000]`; the flags are untouched |
| `StreamlitEmbed.HeightAlwaysInBounds` | components/StreamlitEmbed.tsx:16-74 | from 800, any messages leave the height within `[400, 2000]` |
| `StreamlitEmbed.ClampExamples` | components/StreamlitEmbed.tsx:65-74 | a 5000 request gives 2000 and a 50 request gives 400 |

## Left out

- Rendering is left out: JSX, framer-motion animation, the toast's markup, the fallback links and the `useInView` lazy loading. Before the iframe is in view, no event reaches the model.
- The timers are left out: the 2-second `setInterval` and the 5-second `setTimeout`. A poll is the `Session.Poll` event and the pass is `CheckAchievements`. The timer that hides the toast is `HideToast`, the same state change as the dismiss button.
- Registering and removing the DOM listeners is left out. The handlers are methods, and the model assumes a caller delivers the events.
- The effect re-running when `url`, the bounds or `enableHeightAdjustment` change is left out. Props are constant for the life of an object.
- `localStorage` throwing (disabled or full storage) is left out. The source has no `try`/`catch`, so the exception would reach the caller.
- Sharing storage across tabs is left out.
- `new URL(url).origin` comes in as the parameter `appOrigin`, because URL parsing belongs to the browser.
- `Numerals.ParseInt`: leading whitespace and the `0x` prefix are not handled; JavaScript's `parseInt` skips the first and reads the second as hexadecimal. No code path of the site writes a counter value of either form. Beyond 2^53 `parseInt` loses precision, and beyond 10^21 `toString` switches to exponent notation. The model keeps exact integers.
- `EmbedMessages.Classify`: heights are integers. Fractional, `NaN` or `Infinity` heights are left out. So is the coercion of a non-numeric truthy `height` on the `streamlit:setFrameHeight` branch.
- The dwell-time tracker that would call `trackDeepDive` is not part of this model. No caller appears in the source files modelled. `Session.DwellElapsed` stands for such a call.
- Display text for achievements is kept as data: the names, descriptions and icons. Nothing is proved about it.
