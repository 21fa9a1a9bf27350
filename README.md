# Social media automation tool — a Dafny model of its form handlers

The application is a browser-only mock-up of a social media scheduling tool. Its
logic lives in the event handlers of five React components, each keeping its
state in a handful of fields. This project models those handlers and proves what
they guarantee:

- the post scheduling form (`SchedulePost`): the four ordered submit checks, the
  post built from the fields, the form reset, the platform checkboxes and the
  short-link alias helper;
- the application shell (`AppShell`): the active tab and the session's list of
  scheduled posts, which grows only through the form's schedule callback;
- the auto-forward rule list (`AutoForward`): add with validation, delete on
  confirmation, enable/disable toggle, platform display names;
- the URL shortener (`UrlShortener`): submit with URL and alias checks, the
  click counter, the public short address;
- the account connection table (`SocialConnect`): connect and disconnect per
  platform over the three starting rows, card colours;
- the shared records (`Types`, with `Common` for `Option`, handler outcomes and
  timestamps).

Each component is a class whose fields are the component's state. Each handler
is a method whose `ensures` gives the new state as a function of the old one.
The list updates the handlers make with `map` and `filter` are recursive
functions, and lemmas about those functions carry the properties: order kept,
only matching records changed, toggling twice is the identity, no duplicates
created, invariants preserved. Every check that shows an alert and returns is a
`Check.Fail` carrying the reason, and the state is then left as it was.

Inputs from the browser are parameters:
- the clock (`Date.now()`, `new Date()`) is `now: Time`, a millisecond count;
- the rule id `Date.now().toString()` is an `id: string`;
- `Math.random().toString(36).substring(2, 8)` is a `randomCode`/`randomAlias` string;
- the URL constructor is a predicate `parses: string -> bool`;
- `confirm` is a `confirmed: bool`;
- `prompt` is an `answer: Option<string>`, with `None` for a cancelled prompt.

Where the code and the intended design differ, the model follows the code, and
lemmas state the difference:
- `EndDateNeverCompared`: the end date of a repeating post is only checked for
  emptiness, never against the start date. The end-date input's `min`
  attribute has the browser refuse an earlier end date before the handler runs;
  that browser check is not modelled (see "Left out").
- `GeneratedCodeMayRepeat`: a generated short code is used without looking at the
  codes in use, so the list can end up with two links under one code. Only a
  custom alias is checked (`AliasLinkKeepsCodesDistinct`).
- `MakeRule`: a new rule is always enabled, because its flag is
  `draft.enabled || true`.
- `DisconnectAccounts`: a disconnected row keeps its username.
- `AcceptedPostWithoutContent`: the content check accepts a typed subscription
  URL even when auto-forward is off. The built post keeps that URL only when
  auto-forward is on. So an accepted post can carry neither content nor a
  subscription source.
- `SocialMediaAccount.accountId` is declared as always present in
  `src/types.ts`, but the connection table never sets it. The model makes it
  optional.
- The form keeps the repeat schedule as a string. Its select offers only the four
  values of the `repeatSchedule` union, so the model uses the `Repeat` datatype.

## Model

| member | source | states |
|---|---|---|
| `Types.PlatformKey` | src/types.ts:34 | each platform is written as one of the four literals facebook, instagram, twitter, tiktok |
| `Types.PlatformKeyInjective` | src/types.ts:43-44 | distinct platforms have distinct literals, so rule and account platforms range over exactly four values |
| `SchedulePost.ValidatePost` | src/components/SchedulePostForm.tsx:35-53 | a submission passes iff none of the four checks fails; when it is rejected, the reason is a failing check and every earlier check passed, so the "no content and no subscription" reason wins over all others |
| `SchedulePost.BuildPost` | src/components/SchedulePostForm.tsx:55-70 | the scheduled time is date, a space and time; target URL, alias, end date and subscription URL are present exactly when their enabling flag is set, and then carry the field; an empty account selection gives no account id |
| `SchedulePost.AcceptedPostWellFormed` | src/components/SchedulePostForm.tsx:35-70 | a post built from an accepted form has platforms, a target URL when it has a QR code, an end date when it repeats, and a non-empty account id when it has one |
| `SchedulePost.EndDateNeverCompared` | src/components/SchedulePostForm.tsx:50-53 | the verdict does not depend on which non-empty end date is given: no order between end date and date is checked |
| `SchedulePost.AcceptedPostWithoutContent` | src/components/SchedulePostForm.tsx:35-67 | with empty content, a typed subscription URL and auto-forward off, the form is accepted and the post has neither content nor subscription URL |
| `SchedulePost.Without` | src/components/SchedulePostForm.tsx:92 | removing a platform keeps exactly the other platforms and changes nothing when the platform is absent |
| `SchedulePost.WithoutConcat` | src/components/SchedulePostForm.tsx:92 | removal keeps order: removing from a concatenation is removing from each part and concatenating |
| `SchedulePost.TogglePlatform` | src/components/SchedulePostForm.tsx:90-96 | a listed platform is removed with the others kept in their order; an unlisted one is appended at the end; no other platform's membership changes |
| `SchedulePost.TogglePlatformKeepsNoDuplicates` | src/components/SchedulePostForm.tsx:90-96 | toggling never lists a platform twice |
| `SchedulePost.TogglePlatformTwice` | src/components/SchedulePostForm.tsx:90-96 | toggling twice restores the same set of platforms, and the same list when the platform was absent |
| `SchedulePost.SchedulePostForm.constructor` | src/components/SchedulePostForm.tsx:10-22 | every field starts at its initial value |
| `SchedulePost.SchedulePostForm.HandleSubmit` | src/components/SchedulePostForm.tsx:32-88 | a rejection changes no field and schedules nothing; otherwise the built post is handed over exactly once and every field is reset |
| `SchedulePost.SchedulePostForm.HandlePlatformChange` | src/components/SchedulePostForm.tsx:90-96 | the platform list becomes the toggled list, still without duplicates, and no other field changes |
| `SchedulePost.SchedulePostForm.GenerateShortLink` | src/components/SchedulePostForm.tsx:98-107 | without a target URL nothing changes; otherwise the short link is turned on and the random alias is filled in only when the alias was empty |
| `AutoForward.ValidateRule` | src/components/AutoForwardRules.tsx:27-35 | an empty source username is rejected first; otherwise equal source and target platforms are rejected; anything else passes |
| `AutoForward.MakeRule` | src/components/AutoForwardRules.tsx:37-44 | a new rule is enabled whatever the draft says, is dated now, has never been forwarded, and copies the draft's platforms and username |
| `AutoForward.AcceptedRuleWellFormed` | src/components/AutoForwardRules.tsx:27-44 | a rule made from an accepted draft has a username and two different platforms |
| `AutoForward.RemoveRule` | src/components/AutoForwardRules.tsx:59 | deleting never lengthens the list |
| `AutoForward.RemoveAbsentId` | src/components/AutoForwardRules.tsx:59 | deleting an id that no rule has leaves the list unchanged |
| `AutoForward.RemoveRuleMembers` | src/components/AutoForwardRules.tsx:59 | a rule survives deletion iff its id differs from the deleted one |
| `AutoForward.RemoveRuleConcat` | src/components/AutoForwardRules.tsx:59 | deletion distributes over concatenation, so the remaining rules keep their order |
| `AutoForward.RemoveRuleIdempotent` | src/components/AutoForwardRules.tsx:57-61 | deleting the same id twice is deleting it once |
| `AutoForward.ToggleRules` | src/components/AutoForwardRules.tsx:63-71 | the list keeps its length, every rule keeps its position and all fields but `enabled`, and `enabled` flips exactly on the rules with the id |
| `AutoForward.ToggleRulesTwice` | src/components/AutoForwardRules.tsx:63-71 | toggling the same id twice gives back the same list |
| `AutoForward.ToggleAndRemoveKeepWellFormed` | src/components/AutoForwardRules.tsx:57-71 | deleting and toggling keep every rule well formed |
| `AutoForward.GetPlatformName` | src/components/AutoForwardRules.tsx:81-92 | facebook, instagram and twitter get their capitalised names; any other value is returned as is |
| `AutoForward.PlatformNameIsCapitalized` | src/components/AutoForwardRules.tsx:81-92 | the display name is the capitalised value for the three known platforms, and differs from the value only for them |
| `AutoForward.RulePlatformName` | src/components/AutoForwardRules.tsx:81-92 | for the platform of a rule, the display name is the capitalised key, except TikTok, which stays "tiktok" |
| `AutoForward.AutoForwardRules.constructor` | src/components/AutoForwardRules.tsx:7-24 | the list holds the one sample rule and the draft is facebook to instagram, empty username, enabled |
| `AutoForward.AutoForwardRules.HandleAddRule` | src/components/AutoForwardRules.tsx:26-55 | a rejection changes nothing; otherwise exactly one new rule is appended after the unchanged old ones and the draft is reset; all rules stay well formed |
| `AutoForward.AutoForwardRules.HandleDeleteRule` | src/components/AutoForwardRules.tsx:57-61 | without confirmation nothing changes; with it the rules with the id are removed |
| `AutoForward.AutoForwardRules.HandleToggleRule` | src/components/AutoForwardRules.tsx:63-71 | the list becomes the toggled list |
| `UrlShortener.ShortCode` | src/components/URLShortener.tsx:11-13 | the code is the custom alias when one was typed, else the random code |
| `UrlShortener.ValidateLink` | src/components/URLShortener.tsx:18-37 | an empty URL is rejected first, then a URL the parser refuses, then a custom alias that a listed link already uses; a pass means the alias is empty or unused |
| `UrlShortener.AliasLinkKeepsCodesDistinct` | src/components/URLShortener.tsx:31-46 | an accepted link with a custom alias keeps all short codes distinct |
| `UrlShortener.GeneratedCodeMayRepeat` | src/components/URLShortener.tsx:31-46 | a generated code equal to a listed one is accepted and duplicates that code |
| `UrlShortener.IncrementClicks` | src/components/URLShortener.tsx:61-69 | the list keeps its length and positions; each link with the code gains exactly one click and nothing else changes |
| `UrlShortener.IncrementAbsentCode` | src/components/URLShortener.tsx:61-69 | a visit to a code no link uses changes nothing |
| `UrlShortener.IncrementTwice` | src/components/URLShortener.tsx:61-69 | two visits add exactly two clicks to the links with the code and none to the others |
| `UrlShortener.IncrementKeepsCodes` | src/components/URLShortener.tsx:61-69 | visits never lower a counter, never change a code, and keep distinct codes distinct |
| `UrlShortener.GetShortURL` | src/components/URLShortener.tsx:71-73 | the address is the origin, then `/s/`, then the code, and the code can be read back from it |
| `UrlShortener.ShortURLInjective` | src/components/URLShortener.tsx:71-73 | distinct codes on one origin have distinct addresses |
| `UrlShortener.URLShortener.constructor` | src/components/URLShortener.tsx:6-8 | both inputs are empty and the list is empty |
| `UrlShortener.URLShortener.HandleSubmit` | src/components/URLShortener.tsx:15-49 | a rejection changes nothing; otherwise one link with no clicks is put in front of the unchanged old list and both inputs are cleared |
| `UrlShortener.URLShortener.HandleIncrementClicks` | src/components/URLShortener.tsx:61-69 | the list becomes the list after one visit |
| `SocialConnect.InitialAccountsShape` | src/components/SocialMediaConnect.tsx:6-10 | the table starts with facebook, instagram and twitter, one row each, disconnected, with no username and no sync time |
| `SocialConnect.ConnectAccounts` | src/components/SocialMediaConnect.tsx:17-23 | the rows of the platform take the username, become connected and record the time; other rows are unchanged; length and platforms are kept |
| `SocialConnect.DisconnectAccounts` | src/components/SocialMediaConnect.tsx:29-35 | the rows of the platform become disconnected and lose the sync time but keep the username; other rows are unchanged; length and platforms are kept |
| `SocialConnect.ConnectKeepsUniquePlatforms` | src/components/SocialMediaConnect.tsx:17-23 | connecting keeps at most one row per platform |
| `SocialConnect.DisconnectKeepsUniquePlatforms` | src/components/SocialMediaConnect.tsx:29-35 | disconnecting keeps at most one row per platform |
| `SocialConnect.ConnectThenDisconnect` | src/components/SocialMediaConnect.tsx:20-32 | after connect then disconnect the platform's rows are disconnected, have no sync time and keep the supplied username |
| `SocialConnect.GetPlatformColor` | src/components/SocialMediaConnect.tsx:52-63 | blue iff facebook or twitter, pink iff instagram, grey iff anything else |
| `SocialConnect.AccountPlatformColor` | src/components/SocialMediaConnect.tsx:52-63 | for the platform of an account row, the card is grey exactly for TikTok and blue exactly for Facebook and Twitter |
| `SocialConnect.SocialMediaConnect.constructor` | src/components/SocialMediaConnect.tsx:6-10 | the table starts as the three initial rows |
| `SocialConnect.SocialMediaConnect.HandleConnect` | src/components/SocialMediaConnect.tsx:12-25 | a cancelled or empty prompt answer changes nothing; otherwise the table is connected under that username |
| `SocialConnect.SocialMediaConnect.HandleDisconnect` | src/components/SocialMediaConnect.tsx:27-37 | without confirmation nothing changes; with it the platform is disconnected |
| `AppShell.PlainPostScenario` | src/components/SchedulePostForm.tsx:35-70 | a post with content, date, time and one platform is accepted and scheduled for "date time" with no target URL and no end date |
| `AppShell.App.constructor` | src/App.tsx:12-13 | the page opens on the scheduling tab with no scheduled posts |
| `AppShell.App.SelectTab` | src/App.tsx:38-88 | a tab button makes its tab active; leaving the scheduling tab unmounts the form, whose fields start again from their initial values, while staying on it keeps them; the scheduled posts are kept |
| `AppShell.App.HandleSchedulePost` | src/App.tsx:15-17 | the post is appended as the new last element; the length grows by one and earlier posts keep their positions |
| `AppShell.App.SubmitScheduleForm` | src/App.tsx:82-88 | only on the scheduling tab, where the form is mounted: once a submission reaches the handler, the list grows by the built post exactly when the handler's checks pass, and every listed post stays well formed |

## Left out

- The QR code generator (src/components/QRCodeGenerator.tsx): its work is done by a rendering library, canvas export, the clipboard and object URLs, and its logo size is floating point.
- The build configuration (vite.config.ts).
- All rendering, styling, icons, and `getPlatformIcon` in src/components/SocialMediaConnect.tsx:39-50.
- The browser dialogs are inputs or outcomes: alerts are `Check.Fail` reasons, `confirm` is a boolean and `prompt` an optional string.
- The clock, `Math.random` and the URL constructor are parameters; the model does not parse URLs. A rule id is any string, not the decimal rendering of a clock reading.
- Date formatting (`format`, `toLocaleString`), the clipboard (`copyToClipboard`) and the "refresh" button's alert in the connection table.
- The controlled inputs' change handlers: each form input, and `handleInputChange` of the rule draft, writes one field with the typed or selected value. The handlers above are proved for any field values.
- The mock account list of the scheduling form (src/components/SchedulePostForm.tsx:25-30): it only fills the account select.
- The casts of the rule platforms at src/components/AutoForwardRules.tsx:39-40 have no run-time effect.
- The "check and forward now" button has no handler, and nothing ever updates `lastForwarded`.
- `AppShell.App.SelectTab`: the other four panels are modelled as standalone classes whose constructors stand for a fresh mount; the page does not hold them, so the loss of their state when their tab is left is not modelled (only the scheduling form's).
- `SchedulePost.ValidatePost` and `AppShell.App.SubmitScheduleForm`: the browser's own form validation is not modelled. The `required` attributes on date, time and (for a repeating post) end date (src/components/SchedulePostForm.tsx:220, 239, 271) and on the target URL when a QR code or short link is asked for (src/components/SchedulePostForm.tsx:373), the `type="url"` inputs (src/components/SchedulePostForm.tsx:177, 367) and the end date's `min` (src/components/SchedulePostForm.tsx:270) can stop a submission before the handler runs, so the model accepts a superset of what a browser lets through.
- `UrlShortener.URLShortener.HandleSubmit`: likewise the `type="url"` and `required` attributes of the URL input (src/components/URLShortener.tsx:84, 91) are not modelled; the handler's own empty-URL and parser checks are.
- The code has no retry on short-code collision, no check that the end date follows the start date, and no uniqueness of rule ids. The model has none of these either.
