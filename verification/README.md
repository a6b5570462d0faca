# Anchor website blocker — a Dafny model of its core logic

Anchor blocks distracting websites. A user groups websites into *modes* in the
browser extension's popup; starting a *blocking session* with a mode installs
one or two declarativeNetRequest redirect rules per website, and stopping it
removes them. Next to the extension, the web app has three small pieces of
pure logic: the redirect sanitiser of the e-mail confirmation route, the id
generator of the tutorial checklist, and the contact form's server action.

The model, module by module:

- `Wrappers` (wrappers.dfy): `Option`, for the source's `null` and
  `undefined` values.
- `Strings` (strings.dfy): ECMAScript `trim` over the full WhiteSpace and
  LineTerminator set, and an ASCII `toLowerCase`.
- `Seqs` (seqs.dfy): `Array.prototype.filter` on values with its multiset,
  order (subsequence) and duplicate-freedom properties.
- `BlockingRules` (blocking_rules.dfy): the pure translation `Translate` of a
  website list into numbered rules, the loop `BuildRules` of
  `updateBlockingRules` proved equal to it, and the lemmas on counts, ids and
  filters.
- `Background` (background.dfy): the service worker as a class `Worker`
  whose fields are the stored mode list, the stored active-mode snapshot and
  the installed dynamic rules; every handler is a method that rewrites those
  fields, and `Dispatch` is the `onMessage` switch.
- `Popup` (popup.dfy): the mode editor's form state as a class `ModeEditor`,
  each handler specified by a pure transition on a `Form` value.
  `AddWebsite`, `RemoveWebsite` and `Save` preserve `CleanList` (no
  duplicates, every entry trimmed and non-blank); `EditMode` loads the stored
  list as it is, so the form is clean after it only when the mode's list was.
- `AuthConfirm` (auth_confirm.dfy): `getSafeRedirectPath` and the redirect
  decision of the confirmation route, with `verifyOtp` as a parameter.
- `TutorialStep` (tutorial_step.dfy): `makeSafeId`, with each regex replace
  written as a recursive function.
- `Contact` (contact_actions.dfy): `submitContact`, with the database insert's
  result as a parameter.

Nondeterministic inputs are parameters: `Date.now()` and `new Date()` are the
`newId` and `createdAt` arguments of `Worker.CreateMode` and
`Worker.Dispatch`; the answer of the background to a save is the `saved`
argument of `Popup.Save`; `verifyOtp` is a function argument of
`AuthConfirm.Confirm`; the insert on `contact_messages` is the `insert`
argument of `Contact.SubmitContact`.

`updateMode` on the active mode reinstalls the rules from the request's
websites but leaves the stored `active_mode` snapshot as it was
(chrome-extension/src/background.ts:159-163). The model keeps this behaviour:
after such an update `Worker.RulesMatchActive` can fail, the popup still
reads the old snapshot through GET_ACTIVE_MODE, and the start-up reload
(`Worker.ReloadRules`) reinstalls the old snapshot's rules. `Worker.UpdateMode`
only promises that `RulesMatchActive` is unchanged when the mode is not the
active one.

## Model

| member | source | states |
|---|---|---|
| Strings.Trim | chrome-extension/src/background.ts:218 | `s.trim()`: the result is no longer than the input |
| Strings.TrimSplit | web/app/contact/actions.ts:12-16 | trimming removes only whitespace: the input is the trimmed text framed by two all-whitespace strings |
| Strings.TrimShape | web/app/contact/actions.ts:12-16 | the trimmed text neither starts nor ends with whitespace, and is empty exactly when the input is all whitespace |
| Strings.TrimFixed | chrome-extension/src/popup/Popup.tsx:100-104 | a string without whitespace at either end is its own trim |
| Strings.TrimIdempotent | chrome-extension/src/popup/Popup.tsx:100-104 | trimming twice is trimming once |
| Strings.LeadingSpaceSpec | chrome-extension/src/background.ts:218 | the characters `trim` removes at the front are whitespace and the first kept one is not |
| Strings.TrailingStartSpec | chrome-extension/src/background.ts:218 | the characters `trim` removes at the end are whitespace and the last kept one is not |
| Strings.LowerChar | web/components/tutorial/tutorial-step.tsx:5 | an ASCII capital maps to the letter 32 code points above, in a-z; every other character is unchanged |
| Strings.Lower | web/components/tutorial/tutorial-step.tsx:5 | `toLowerCase` keeps the length and maps each character by `LowerChar` |
| Seqs.Filter | chrome-extension/src/background.ts:171 | every kept element was in the input and passes the test; the result is no longer than the input |
| Seqs.FilterSpec | chrome-extension/src/popup/Popup.tsx:112 | `filter` keeps each passing value exactly as often as it occurred, drops every failing one, and keeps the order (subsequence) |
| Seqs.FilterNoDuplicates | chrome-extension/src/popup/Popup.tsx:112 | filtering a duplicate-free list gives a duplicate-free list |
| Seqs.FilterAppend | chrome-extension/src/popup/Popup.tsx:112 | filtering distributes over concatenation |
| Seqs.FilterEmpty | chrome-extension/src/popup/Popup.tsx:112 | the filter is empty exactly when no element passes |
| BlockingRules.RulesFor | chrome-extension/src/background.ts:217-279 | one website yields one rule for a pattern and two for a plain domain |
| BlockingRules.Translate | chrome-extension/src/background.ts:214-280 | the rules of a website list: between one and two per website; counted exactly by `TranslateLength`, numbered by `TranslateIds`, laid out by `TranslateEntry` and `TranslatePrefix` |
| BlockingRules.TranslateLength | chrome-extension/src/background.ts:215-279 | the number of translated rules is the sum over the websites of 1 per pattern and 2 per plain domain |
| BlockingRules.RuleCountAppend | chrome-extension/src/background.ts:217 | one more website adds its own width to the count |
| BlockingRules.TranslateIds | chrome-extension/src/background.ts:215-279 | rule k (from 0) has id k+1 and priority 1 |
| BlockingRules.TranslateIdsUnique | chrome-extension/src/background.ts:215-279 | the ids of the translated rules are pairwise distinct |
| BlockingRules.TranslatePrefix | chrome-extension/src/background.ts:217-280 | the rules of the first m websites are a prefix of the rules of the whole list (list order is kept) |
| BlockingRules.TranslateEntry | chrome-extension/src/background.ts:217-279 | at the offset of website i: a pattern d gives one rule with filter d; a plain domain d gives `*://d/*` then `*://www.d/*`, numbered from offset+1 with priority 1 |
| BlockingRules.TranslateStep | chrome-extension/src/background.ts:217-280 | translating one more website appends that website's rules numbered after the previous ones |
| BlockingRules.WithoutIds | chrome-extension/src/background.ts:283-286 | removing ids keeps every installed rule whose id is not removed, as often as it was there and in order, and drops every other |
| BlockingRules.WithoutAllIds | chrome-extension/src/background.ts:210-211 | removing every installed id leaves no old rule |
| BlockingRules.IdsOf | chrome-extension/src/background.ts:210-211 | the collected ids are exactly the ids of the installed rules |
| BlockingRules.BuildRules | chrome-extension/src/background.ts:214-280 | the `forEach` loop with its `ruleId++` counter builds exactly `Translate(websites)` |
| Background.WebsitesOrEmpty | chrome-extension/src/background.ts:129 | `mode.websites \|\| []`: the given list, or the empty list when absent |
| Background.ResponseFor | chrome-extension/src/background.ts:40-98 | a handler's outcome maps to `success` exactly when it is `Done`, with no error then and no data either way; a failure carries its error message |
| Background.FindIndex | chrome-extension/src/background.ts:145 | `findIndex`: none exactly when no mode has the id; otherwise the first index whose mode has the id |
| Background.WithoutMode | chrome-extension/src/background.ts:171 | the kept modes are exactly those without the id, each as often as before, in their original order |
| Background.IsActiveId | chrome-extension/src/background.ts:161 | `activeMode && activeMode.id === modeId`, the test `updateMode` (line 161) and `deleteMode` (line 177) share; a predicate, characterised through the `Worker.UpdateMode` and `Worker.DeleteMode` contracts |
| Background.Worker.constructor | chrome-extension/src/background.ts:106-121 | the worker starts from the stored modes, stored snapshot and installed rules |
| Background.Worker.GetModes | chrome-extension/src/background.ts:106-112 | returns the stored mode list |
| Background.Worker.GetActiveMode | chrome-extension/src/background.ts:115-121 | returns the stored snapshot |
| Background.Worker.UpdateBlockingRules | chrome-extension/src/background.ts:208-289 | the installed rules become exactly the translation of the websites; no previously installed rule is left |
| Background.Worker.CreateMode | chrome-extension/src/background.ts:124-134 | exactly one mode is appended at the end, with websites defaulting to the empty list; earlier modes are unchanged and in order; rules and snapshot are untouched |
| Background.Worker.UpdateMode | chrome-extension/src/background.ts:140-166 | unknown id: "Mode not found" and nothing changes; otherwise only that entry's name and websites change, id and creation time kept; rules are reinstalled only when it is the active mode (an absent websites list then fails at `forEach` with rules unchanged); the snapshot is not rewritten |
| Background.Worker.DeleteMode | chrome-extension/src/background.ts:169-182 | every mode with the id is removed, the rest keep their order, no failure; if the snapshot has the id it becomes null and the rules empty; rules matching the snapshot is preserved |
| Background.Worker.StartBlockingSession | chrome-extension/src/background.ts:185-197 | unknown id: "Mode not found", snapshot and rules unchanged; known id: the first such mode becomes the snapshot and the rules its translation |
| Background.Worker.StopBlockingSession | chrome-extension/src/background.ts:200-205 | the snapshot becomes null and no rule stays installed, whatever the prior state |
| Background.Worker.ReloadRules | chrome-extension/src/background.ts:315-319 | at start-up the stored snapshot's rules are reinstalled; without a snapshot the rules are left alone |
| Background.Worker.Dispatch | chrome-extension/src/background.ts:24-103 | per message type, the response and the new state; a type outside the eight handled ones answers `{success:false, error:"Unknown message type"}` and changes nothing |
| Popup.AddWebsite | chrome-extension/src/popup/Popup.tsx:99-109 | blank input or an already listed website: nothing changes, the input is not cleared; otherwise the trimmed input is appended and the input cleared; duplicate-freedom and trimmed entries are preserved |
| Popup.WithoutWebsite | chrome-extension/src/popup/Popup.tsx:112 | `websites.filter(w => w !== website)`: every kept entry was listed and is not the removed website; multiplicities, order and the list invariant by `WithoutWebsiteSpec` |
| Popup.WithoutWebsiteSpec | chrome-extension/src/popup/Popup.tsx:111-113 | removal drops every occurrence, keeps every other entry as often as before and in order, and preserves the list invariant |
| Popup.RemoveWebsite | chrome-extension/src/popup/Popup.tsx:111-113 | only the website list changes, and as `WithoutWebsiteSpec` states |
| Popup.EditMode | chrome-extension/src/popup/Popup.tsx:115-120 | the edited mode, its name and its websites are loaded and the input cleared; the list is loaded as stored, so it is clean afterwards when the mode's list was |
| Popup.ValidationAlert | chrome-extension/src/popup/Popup.tsx:60-68 | no alert exactly when the trimmed name is non-empty and the list is non-empty; a blank name is reported first |
| Popup.SaveRequest | chrome-extension/src/popup/Popup.tsx:73-80 | UPDATE_MODE with the edited mode's id when editing, CREATE_MODE otherwise, with the trimmed name and the list |
| Popup.Save | chrome-extension/src/popup/Popup.tsx:57-97 | an invalid form alerts and sends nothing, the form unchanged; a valid one sends its request, and the form is reset exactly on success |
| Popup.ModeEditor.constructor | chrome-extension/src/popup/Popup.tsx:19-22 | the editor starts empty |
| Popup.ModeEditor.SetWebsiteInput | chrome-extension/src/popup/Popup.tsx:21 | only the input text changes |
| Popup.ModeEditor.SetModeName | chrome-extension/src/popup/Popup.tsx:20 | only the mode name changes |
| Popup.ModeEditor.HandleAddWebsite | chrome-extension/src/popup/Popup.tsx:99-109 | the new state is `AddWebsite` of the old one |
| Popup.ModeEditor.HandleRemoveWebsite | chrome-extension/src/popup/Popup.tsx:111-113 | the new state is `RemoveWebsite` of the old one |
| Popup.ModeEditor.HandleEditMode | chrome-extension/src/popup/Popup.tsx:115-120 | the new state is `EditMode` of the old one |
| Popup.ModeEditor.HandleCancelEdit | chrome-extension/src/popup/Popup.tsx:122-127 | cancel performs the same reset as a successful save |
| Popup.ModeEditor.HandleCreateMode | chrome-extension/src/popup/Popup.tsx:57-97 | the new state and the outcome are those of `Save` |
| AuthConfirm.SafeRedirectPath | web/app/auth/confirm/route.ts:6-14 | the result always starts with "/" and never with "//"; a local path is returned unchanged; null, empty, relative and network-path references give "/" |
| AuthConfirm.SafeRedirectPathIdempotent | web/app/auth/confirm/route.ts:6-14 | sanitising twice is sanitising once |
| AuthConfirm.Confirm | web/app/auth/confirm/route.ts:20-44 | missing token hash or type: error "No token hash or type"; verified: redirect to the sanitised next; failed: error carrying the message or "Unknown verification error"; every redirect path begins with exactly one "/" |
| TutorialStep.SkipRun | web/components/tutorial/tutorial-step.tsx:7 | the rest of a run of characters outside [a-z0-9] starts with a letter or digit, if anything |
| TutorialStep.SkipRunSpec | web/components/tutorial/tutorial-step.tsx:7 | what a run skip drops is a prefix of characters outside [a-z0-9] |
| TutorialStep.SkipRunStops | web/components/tutorial/tutorial-step.tsx:7 | the skip consumes the whole run and stops at the next letter or digit |
| TutorialStep.CollapseRunsRun | web/components/tutorial/tutorial-step.tsx:7 | letters and digits are copied and the maximal run of other characters after them becomes exactly one "-" |
| TutorialStep.CollapseRuns | web/components/tutorial/tutorial-step.tsx:7 | the result is over [a-z0-9-], has no two dashes in a row, and starts with a dash exactly when the input starts outside [a-z0-9] |
| TutorialStep.DropLeadingDashes | web/components/tutorial/tutorial-step.tsx:8 | the result does not start with a dash |
| TutorialStep.DropLeadingDashesSpec | web/components/tutorial/tutorial-step.tsx:8 | what is removed is a run of dashes at the front |
| TutorialStep.DropTrailingDashes | web/components/tutorial/tutorial-step.tsx:8 | the result does not end with a dash |
| TutorialStep.DropTrailingDashesSpec | web/components/tutorial/tutorial-step.tsx:8 | what is removed is a run of dashes at the end |
| TutorialStep.IdSuffix | web/components/tutorial/tutorial-step.tsx:4-10 | the suffix is a slug: non-empty, over [a-z0-9-], no dash at either end, no two dashes in a row |
| TutorialStep.MakeSafeId | web/components/tutorial/tutorial-step.tsx:3-11 | the id starts with "tutorial-step-" and the rest is a slug |
| TutorialStep.TrimDashesShape | web/components/tutorial/tutorial-step.tsx:8 | stripping edge dashes from a collapsed string leaves nothing or a slug |
| TutorialStep.TrimDashes | web/components/tutorial/tutorial-step.tsx:8 | `.replace(/^-+\|-+$/g, "")`: no dash at either end of the result; exactly the edge runs of dashes go (`DropLeadingDashesSpec`, `DropTrailingDashesSpec`) and the letters and digits stay (`TrimDashesKeepsAlnum`) |
| TutorialStep.Normalize | web/components/tutorial/tutorial-step.tsx:4-8 | the normalised title is empty or a slug; its letters and digits are those of the lower-cased title (`NormalizeKeepsAlnum`), and it is empty exactly when the title has none (`NoAlnumGivesItem`) |
| TutorialStep.SkipRunKeepsAlnum | web/components/tutorial/tutorial-step.tsx:7 | skipping a run keeps the letters and digits |
| TutorialStep.CollapseRunsKeepsAlnum | web/components/tutorial/tutorial-step.tsx:7 | collapsing runs keeps the letters and digits, in order |
| TutorialStep.DropEndsKeepsAlnum | web/components/tutorial/tutorial-step.tsx:6-8 | removing non-[a-z0-9] characters at either end keeps the letters and digits |
| TutorialStep.TrimDashesKeepsAlnum | web/components/tutorial/tutorial-step.tsx:8 | stripping edge dashes keeps the letters and digits |
| TutorialStep.TrimKeepsAlnum | web/components/tutorial/tutorial-step.tsx:6 | trimming keeps the letters and digits |
| TutorialStep.NormalizeKeepsAlnum | web/components/tutorial/tutorial-step.tsx:4-8 | the letters and digits of the lower-cased title all appear in the suffix, in order |
| TutorialStep.LowerAlnum | web/components/tutorial/tutorial-step.tsx:5 | after lower-casing, a character is in [a-z0-9] exactly when it was an ASCII letter or digit |
| TutorialStep.NoAlnumGivesItem | web/components/tutorial/tutorial-step.tsx:10 | the normalised title is empty exactly when the title has no ASCII letter or digit, and such a title gives "tutorial-step-item" |
| TutorialStep.CollapseRunsFixesSlug | web/components/tutorial/tutorial-step.tsx:7 | a string over [a-z0-9-] without double dashes and without a trailing dash is left alone by the run collapse |
| TutorialStep.SlugTitleKept | web/components/tutorial/tutorial-step.tsx:4-10 | a title that already is a slug is kept verbatim as the suffix |
| Contact.NormalizeEmail | web/app/contact/actions.ts:12-15 | the trimmed e-mail when it is a non-blank string, and null otherwise |
| Contact.NormalizeMessage | web/app/contact/actions.ts:16 | the trimmed message when it is a string, "" otherwise; empty exactly when missing, not a string or blank |
| Contact.SubmitContact | web/app/contact/actions.ts:5-37 | a missing or blank message: "Message is required." and no insert; otherwise the row holds the normalised e-mail and trimmed message; insert failure: "Something went wrong. Please try again."; success: ok with no error; ok exactly when error is null |
| Contact.PreviousStateIgnored | web/app/contact/actions.ts:5-7 | the previous state has no influence on the result |

## Left out

- Chrome platform APIs: `chrome.storage.local` is the fields of `Background.Worker`, the dynamic rule set is the field `rules`, messaging is `Worker.Dispatch`; notifications and alarms are not modelled.
- `requestUnlock` (chrome-extension/src/background.ts:292-303) only logs and shows a notification; `Worker.Dispatch` answers it with success and no state change. The alarm listener (lines 306-312) only logs and is not modelled.
- The `onInstalled` listener that writes an empty mode list when the key is absent: an absent key is modelled as the empty list, which is what `getModes` returns for it anyway.
- The redirect action of a rule: its URL is built by `chrome.runtime.getURL` and `encodeURIComponent`, so a `Rule` records the trimmed website (`site`) instead of the URL text, and the resource type (main frame) is implicit.
- AuthConfirm.SafeRedirectPath: like the source it checks only the first two characters, so a path such as `/\evil.com` is kept; browsers treat `\` as `/` in http(s) URLs and may resolve such a redirect to another host. The model promises only that the path begins with exactly one "/", not that the redirect stays on the site.
- Background.Worker.UpdateBlockingRules: `updateDynamicRules` can be refused by Chrome (a `urlFilter` with non-ASCII characters such as `bücher.de`, or more rules than the dynamic-rule limit); the model always installs the translation. Then the old rules stay and the handler fails.
- Background.Worker.StartBlockingSession: because of that refusal, the source can also end with the snapshot already stored (background.ts:193) while the old rules stay and the reply is `success:false`; the model promises `Done` and matching rules for every known id.
- Strings.LowerChar, TutorialStep.LowerAlnum, TutorialStep.NoAlnumGivesItem: the lowering is ASCII only. JavaScript lowers U+212A KELVIN SIGN to "k" and U+0130 to "i" followed by U+0307, so `makeSafeId` gives `tutorial-step-k` and `tutorial-step-i` for those titles, where the model gives `tutorial-step-item`; "no ASCII letter or digit" is the model's condition for the fallback, not the source's.
- Strings.Lower: maps only the ASCII capitals; JavaScript's `toLowerCase` also maps the rest of Unicode.
- Async interleaving: every background handler is atomic, although the source does separate storage reads and writes that concurrent messages could interleave.
- Background.Worker.Dispatch: an `Unknown` message carries a type outside the eight handled ones (its requires). The stored modes are well-formed records; a message without a `mode` object, or a stored mode without `websites`, makes the source throw a TypeError that is not modelled. For UPDATE_MODE it states success and the error for an unknown id only; the full new state is stated by `Worker.UpdateMode`.
- Background.Worker.ReloadRules: the source also skips the reload when the snapshot's `websites` is missing; a stored mode always has a list here.
- The popup's `isLoading` flag, the reload of the modes list after a save, and the alert texts "Failed to save mode: …" and "Error saving mode" after a failed send: they do not change the form state, which is all `Popup.Save` describes.
- `Date.now()` ids are not unique in the source; the model takes the id as given and does not assume uniqueness.
- The Supabase clients (session, database, realtime), the web sign-in forms, the mobile app and all rendering are not part of this model.
- Cross-device sessions, schedules and override rules appear in no code and are not modelled.
