# RocketMeet poll creation, modelled in Dafny

RocketMeet lets a user propose a meeting by offering candidate time slots. Invitees open a shared link and mark their availability. This project models how the create page submits a new poll (`pages/create.tsx`):

- **Slots.** `onTimesChange` turns the calendar widget's selections into `{start, end}` millisecond pairs. `areTimesValid` rejects an undefined list, and rejects the whole list if any slot starts before "now".
- **Checks and poll record.** `handleSubmit` runs its checks in a fixed order: title, then "no slots", then "slots in the past". The first check that fails picks the message the user sees, and nothing else changes. If every check passes, the page builds the poll record. The text fields and slots are copied unchanged, and the secret is encrypted.
- **Store reply.** On status 201 the page writes the `id -> "creator"` marker and the one-time `heroShowed` flag to local storage. It then navigates to `/poll/{id}/{plaintext secret}`. On any other status, or a thrown error, it re-enables the submit button and shows one generic error.
- **Hero banner.** `showHero` is derived from the stored flag.

Files:

- `wrappers.dfy`: `Option` and `Result`.
- `slots.dfy`: module `Slots`. Dates, selections, time slots, `ToTimes` (`onTimesChange`), `AnyStartsBefore` (the `some` scan) and `AreTimesValid`, with the all-or-nothing lemmas.
- `create_page.dfy`: module `CreatePage`.
  - The user-visible messages.
  - The poll record and `PreparePoll`, which is the check chain plus the record assembly.
  - The local-storage updates and their lemmas.
  - The creator link and its parser, with round-trip lemmas in both directions.
  - The component class `CreateForm`. Its fields are the page's React state plus `storage` (local storage), `navigation` (the router target) and `inFlight` (the poll and secret of the request being awaited).
- `scenarios.dfy`: client methods that use only the contracts to replay typical submissions.

Outside the model:

- The clock is the parameter `now`.
- The secret is a parameter of type `Secret`, which is what `nanoid(10)` yields: ten characters of the URL-safe alphabet.
- `encrypt` is the class's function-valued field. Apart from always returning a string, nothing about it is assumed.
- The settled `createPoll` call is a `Reply` value: `Responded(statusCode, id)` or `Thrown`.
- `handleSubmit` is split at its one `await`. `BeginSubmit` is the synchronous part and returns the request to send. `Resolve` handles the reply. `HandleSubmit` runs the two in sequence.

Where the code is more lenient than one might expect, the model follows the code:

- The title check is `!pollTitle`, so only the empty string is rejected. A title of blanks passes.
- `areTimesValid([])` is true. The empty list is rejected by the separate check before it (`PreparePoll` reports "Please select at least one time slot for invitees.").
- No check compares `start` with `end`.
- The code reads `Date.now()` once per slot. The model uses one `now`.

## Model

| member | source | states |
|---|---|---|
| `Slots.ToTimes` | pages/create.tsx:93-101 | one slot per selection, same length and order; each slot's start/end are that selection's `getTime()` values |
| `Slots.AnyStartsBefore` | pages/create.tsx:105 | the `some` scan is true exactly when some slot starts strictly before `now` |
| `Slots.AreTimesValid` | pages/create.tsx:103-107 | false for an undefined list; for a defined list true exactly when every slot starts at or after `now` |
| `Slots.StaleSlotRejectsAll` | pages/create.tsx:103-107 | a single slot starting before `now` rejects the whole list, whatever slots surround it |
| `Slots.ValidityOfConcat` | pages/create.tsx:105 | a concatenation of slot lists is valid iff both parts are (all-or-nothing) |
| `Slots.SelectionsValidity` | pages/create.tsx:93-107 | the slots stored by `onTimesChange` are valid iff every widget selection starts at or after `now` |
| `CreatePage.PreparePoll` | pages/create.tsx:120-150 | rejection iff empty title, undefined/empty slots or a past slot; empty title reports the title message whatever the slots; non-empty title with undefined/empty slots reports the no-slot message; otherwise a rejection is the past-slot message; on success title, description, location and times are the inputs unchanged and secret is `encrypt(secret)` |
| `CreatePage.MarkHeroShown` | pages/create.tsx:163-165 | afterwards `heroShowed` is "true" and every other key keeps its value; no key is removed |
| `CreatePage.HeroFlagWrittenOnce` | pages/create.tsx:163-165 | when the flag already reads "true", setting it again leaves storage unchanged |
| `CreatePage.RecordCreator` | pages/create.tsx:159-166 | after a creation with id `d` the keys are the old ones plus `d` and `heroShowed`; `d` maps to "creator" (unless `d` is the flag's key); the flag is "true"; every other key keeps its value |
| `CreatePage.RecordCreatorIdempotent` | pages/create.tsx:161-165 | recording the same creation twice gives the same storage as recording it once |
| `CreatePage.ShowHero` | pages/create.tsx:109-113 | the hero is hidden exactly when rendering in the browser and the stored `heroShowed` is "true" |
| `CreatePage.HeroHiddenAfterCreation` | pages/create.tsx:163-165 | after any successful creation the browser no longer shows the hero |
| `CreatePage.PollPath` | pages/create.tsx:167 | the navigation target is `/poll/`, then the poll id, then `/`, then the plaintext secret |
| `CreatePage.PollPathRoundTrip` | pages/create.tsx:167 | for an id without `/`, parsing the creator link gives back the id and the plaintext secret |
| `CreatePage.ParsedPathRebuilds` | pages/create.tsx:167 | every address the parser accepts is `/poll/` + id + `/` + secret, with no `/` in either segment |
| `CreatePage.CreateForm.constructor` | pages/create.tsx:30-39 | empty fields, undefined slots, enabled control, hidden empty response, no navigation, storage as given |
| `CreatePage.CreateForm.OnTitleChange` | pages/create.tsx:74-77 | the title becomes the input's value; nothing else changes |
| `CreatePage.CreateForm.OnLocationChange` | pages/create.tsx:79-84 | the location becomes the input's value; nothing else changes |
| `CreatePage.CreateForm.OnDescriptionChange` | pages/create.tsx:86-91 | the description becomes the input's value; nothing else changes |
| `CreatePage.CreateForm.OnTimesChange` | pages/create.tsx:93-101 | the slot state becomes the defined list `ToTimes(selections)`; nothing else changes |
| `CreatePage.CreateForm.BeginSubmit` | pages/create.tsx:115-153 | on a failed check: response `{true, message}`, no request, control still enabled, storage and navigation untouched; otherwise the request is the prepared poll, the control is disabled before the call, the response is untouched, and the state machine invariant holds |
| `CreatePage.CreateForm.Resolve` | pages/create.tsx:155-181 | status 201: storage is `RecordCreator(old, id)`, navigation is `/poll/{id}/{plaintext secret}`, control stays disabled; other status or thrown: control re-enabled, generic failure message, storage and navigation untouched |
| `CreatePage.CreateForm.HandleSubmit` | pages/create.tsx:115-182 | the whole handler: each of the three rejections, creation and failure spelled out as the final response, control state, storage, navigation and the one request sent |

## Left out

- Rendering, layout and React-Bootstrap components (pages/create.tsx:197-316): presentation only.
- The onboarding tour (`tourSteps`, `handleStartTour`, `handleJoyrideCallback`, pages/create.tsx:41-72, 184-195): UI driven by a third-party widget.
- `nanoid(10)`: randomness from a foreign library. The secret is an input of type `Secret`. Freshness across submissions is not modelled.
- `encrypt` (`src/helpers`) is not part of this model. It is an arbitrary function value, and no round-trip or secrecy property is claimed.
- `createPoll` (`src/utils/api/server`) is not part of this model. The network call, `async`/`await` and promise scheduling become the `Reply` input and the split into `BeginSubmit` and `Resolve`.
- `src/models/poll` is not part of this model. `Time` and `Poll` carry the fields the page uses.
- The calendar widget and JavaScript `Date` objects are reduced to integer time values. Invalid dates (NaN) and floating-point timestamps are not modelled.
- `AreTimesValid`: the source reads `Date.now()` separately for each slot. The model compares every slot with one `now`.
- `ShowHero` models the `typeof window` test as the parameter `inBrowser`. The storage writes in `Resolve` assume a browser, because the handler only runs on a click.
- `BeginSubmit` requires the control to be enabled, because the button is rendered with `disabled={disabled}` and cannot fire while a request is in flight or after navigation.
- `nanoid(10)` and `encrypt` run before the `try` (pages/create.tsx:142, 148). If either throws, the handler's promise rejects and `disabled` and `response` keep their values. The model treats both as total, so it does not capture that path.
- Exceptions thrown by `localStorage.setItem` inside the `try` (quota, privacy mode) are not modelled. Neither are 201 replies whose body has no `data`.
- Router mechanics are not modelled. Navigation is only the recorded target address. `ParsePollPath` splits an address into the two segments after `/poll/`. Unlike a `/poll/[id]/[secret]` route, it also accepts empty segments. The route's page is not part of this model.
- pages/how-to.tsx: static markup with no logic.
