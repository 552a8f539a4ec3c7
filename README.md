# Bizflow Experience Agent backend — a Dafny model of its core

The Experience Agent backend (`server.js`) records "agent interaction" events
from a concierge product. It keeps per-vertical counters in memory, serves
dashboard projections of those counters, caches onboarding progress, and
sends a course-delivery email. This project models the logic inside that
file. The external store and the email provider stay outside the model.

- **Vertical classifier** (`Catalog`). It covers the three-entry catalog
  `cleaning`, `photobooth` and `courses`, and `normalizeBusinessType`. A falsy
  label gives `cleaning`. Otherwise the label is lower-cased, and the result
  is the first catalog id, in catalog order, that occurs in it as a substring.
  If no id occurs, the result is `cleaning`. `includes` is modelled by a
  scanning function (`Text.Includes`) that is proved equal to a reference
  definition of substring occurrence (`Text.Occurs`).
- **Vertical statistics** (`Stats`). The `verticalStats` object is the class
  `VerticalStats` over a map from id to `Counters(interactions, deliveries)`.
  `Seed` is the startup `forEach` loop. `RecordInteraction` is the counter
  part of `logInteraction`. Both are proved against the pure functions
  `Record` and `Replay`, and the counting lemmas are proved about those
  functions.
- **Access gate** (`Gate`). This is the `requireApiKey` decision.
- **Course email** (`Mail`). This covers the subject and the three-line body.
  The body is proved to read back as its three lines, provided the address,
  the title and the note hold no line break. A line break inside one of them
  gives more lines.
- **Dashboard projections** (`Dashboard`). These are `verticalBreakdown` and
  `GET /api/dashboard/verticals`.
- **Route layer** (`Server`). It holds the configuration derived from the
  environment, the rows the server writes, and the request and response
  shapes. The class `Server` owns the statistics object and `progressBuffer`.
  Its handler methods apply the gate, then the required-field checks, then the
  side effects, in the source's order. The class also keeps two ghost logs,
  which the server itself does not have. The inserts handed to the store are
  in `storeWrites`. The emails handed to the
  provider are in `outbox`. With these logs, "a rejected or invalid request
  causes no collaborator call" can be stated as a postcondition.

Collaborator answers are parameters. An insert's outcome is
`StoreOutcome = Inserted | Rejected(msg) | Threw(msg)`:

- `Rejected` means the insert resolved with an `error`.
- `Threw` means the awaited insert rejected.

The difference matters in `logInteraction`. The counters are updated after
the insert returns, whatever error it reports. A rejected promise aborts the
function before the counters are touched (server.js:145-151). The email
provider's answer is a boolean. Timestamps are opaque strings passed in. The
startup fetch result is `Option<seq<Option<string>>>`, with `None` for a null
result or a failed fetch.

`initVerticalStats()` is started at server.js:96 without being awaited. The
model makes it a separate step, `Server.InitVerticalStats`. It can be called
after any handler, and it adds its rows to whatever the counters hold at that
point. A request counted before the fetch reads the store is then counted twice
when its row is among the fetched rows (`Server.LateSeedCountsTwice`).

Body fields are optional (`Option`) where `undefined` and `null` behave alike:
truthiness tests and `||` defaults. The `completed = false` and `metadata = {}`
defaults of `POST /api/onboarding/progress` apply to `undefined` only. Those two
fields are a `Field` (`Undefined | Null | Defined`), so a `null` sent by the
client stays `null` in the record.

Three behaviours of the code are easy to misread; the model keeps them as written:

- A label is matched against the catalog **ids**, not against their labels. So
  "Gold Wealth Academy", the label of `courses`, classifies as `cleaning`
  (`Catalog.AcademyLabelIsCleaning`). A delivery logged under that label
  counts under `cleaning` (`Server.AcademyLabelDeliveryCountsUnderCleaning`).
- When a label contains several ids, the first in catalog order wins, not
  whichever id it contains (`Catalog.NormalizeBusinessType`,
  `Catalog.EmbeddedIdWins`).
- `POST /api/playbook-run` does not classify its business type. It only
  replaces a falsy value with `cleaning`, so a stored run can carry a value
  outside the catalog (`Server.PlaybookTypeIsNotClassified`).

## Model

| member | source | states |
|---|---|---|
| `Text.ToLower` | server.js:71 | every ASCII upper-case letter becomes its lower-case form, every other character is kept, the length is unchanged and the result has no upper-case letter |
| `Text.Join` | server.js:172 | `join` with one separator: nothing for no parts, otherwise the first part followed by the separator when more parts follow |
| `Text.SplitJoin` | server.js:172 | splitting a join on its separator gives the parts back when no part holds the separator |
| `Text.Includes` | server.js:72 | the scan returns true exactly when the needle occurs as a contiguous slice of the haystack (the meaning of `includes`) |
| `Catalog.Find` | server.js:72 | `find` returns the entry at some index k whose id occurs in the candidate while no earlier entry's id does, and returns nothing only when no entry's id occurs |
| `Catalog.FindInCatalog` | server.js:58-74 | over the catalog, `find` tries `cleaning`, then `photobooth`, then `courses` |
| `Catalog.NormalizeBusinessType` | server.js:69-74 | the result is always a catalog id; a falsy input gives `cleaning`; otherwise it is the first id in catalog order occurring in the lower-cased input, or `cleaning` when none occurs |
| `Catalog.NormalizeFixesIds` | server.js:58-74 | every catalog id classifies as itself |
| `Catalog.NormalizeIdempotent` | server.js:69-74 | classifying a classified value gives the same value |
| `Catalog.NormalizeIgnoresCase` | server.js:71-72 | lower-casing the input first does not change the classification |
| `Catalog.EmbeddedIdWins` | server.js:71-73 | an id written in any case anywhere in the input is the result when no earlier catalog id occurs in the input |
| `Catalog.AcademyLabelIsCleaning` | server.js:58-74 | the `courses` label "Gold Wealth Academy" classifies as `cleaning`, since matching is against ids |
| `Catalog.CleaningLabelIsCleaning` | server.js:58-74 | the label "Cleaning Services" classifies as `cleaning` |
| `Catalog.PhotoboothLabelIsPhotobooth` | server.js:58-74 | the label "Photobooth Business" classifies as `photobooth` |
| `Stats.InitialStats` | server.js:64-67 | the starting map has exactly the catalog ids as keys, each with zero counters |
| `Stats.Lookup` | server.js:390-391 | the counters of an id, a missing entry reading as zero (`?.x ?? 0`) |
| `Stats.IsDeliveryMessage` | server.js:149 | a message is a delivery exactly when "course delivery" occurs in the lower-cased message, with an absent message read as "" |
| `Stats.MarkerInAnyCase` | server.js:149 | the marker written in any case anywhere in a message makes it a delivery |
| `Stats.Record` | server.js:147-151 | one interaction adds exactly 1 to `interactions` of the id, adds 1 to `deliveries` exactly for a delivery, creates a missing entry from zero, and leaves every other id unchanged |
| `Stats.ReplayCounts` | server.js:147-151 | after any sequence of interactions, an id has gained one interaction per event for it and one delivery per delivery event for it, and nothing else |
| `Stats.ReplayGrows` | server.js:147-151 | counters never decrease |
| `Stats.SeedEvents` | server.js:86-90 | the seed records one non-delivery interaction per row, under the row's classified type |
| `Stats.SeedEffect` | server.js:86-90 | seeding n rows raises the catalog total of `interactions` by exactly n, never lowers a counter and leaves every `deliveries` unchanged |
| `Stats.VerticalStats.constructor` | server.js:64-67 | the object starts with a zero entry per catalog id |
| `Stats.VerticalStats.Seed` | server.js:76-94 | without configuration or without rows nothing changes; otherwise the new map is the old one with the rows' interactions recorded in order, and every catalog id keeps an entry |
| `Stats.VerticalStats.RecordInteraction` | server.js:147-151 | the new map is the old one with one interaction, and a delivery when the message has the marker, recorded for the id |
| `Gate.Enforced` | server.js:39-41 | the gate is enforced exactly when the key is present and non-empty and the override is off |
| `Gate.Allowed` | server.js:39-54 | with no key or with the override every request passes; otherwise a request passes exactly when its header equals the key, which then is present and non-empty |
| `Mail.CourseEmail` | server.js:161-173 | the message goes to the requested address from the configured sender, with subject "Gold Wealth Academy access: " followed by the course title |
| `Mail.CourseEmailHasThreeLines` | server.js:161-172 | when the address, the title and the note hold no line break, the body reads back as exactly three lines: the delivery line, the access line, and the note, or "No extra notes provided." when the note is absent or empty |
| `Onboarding.StepsInOrder` | server.js:98-131 | four steps, `claim-workspace`, `configure-agent`, `invite-team`, `measure-and-iterate` in that order, every action an `/api/` route |
| `Onboarding.StepsStatus` | server.js:256 | "connected" exactly when the store is configured, else "unconfigured" |
| `Onboarding.StepsSummary` | server.js:258-261 | the wired text with a store, the offline text without one |
| `Dashboard.VerticalBreakdown` | server.js:387-392 | one entry per catalog type in catalog order, with that type's counters, or 0 when the entry is missing |
| `Dashboard.VerticalsView` | server.js:412-421 | one entry per catalog type in catalog order, with its goal and its counters, or 0 when the entry is missing |
| `Dashboard.ViewsAgree` | server.js:387-392 | the summary breakdown and the verticals listing report the same counters for each type |
| `Dashboard.BreakdownTotal` | server.js:387-392 | the breakdown's interactions add up to the catalog total of the map |
| `Dashboard.BreakdownAfterSeed` | server.js:86-90 | when the seed lands on zero counters, before any request is counted, the breakdown sums to the number of seeded rows and shows no deliveries |
| `Server.ConfigFromEnv` | server.js:32-56 | the store and the email provider count as configured only when all their settings are non-empty; the gate compares against `BIZFLOW_API_KEY` as given, the override is on exactly for the string "true", and the gate is enforced exactly when a key is set and the override is not "true" |
| `Server.AgentResponse` | server.js:140 | a truthy response is stored as given, a falsy one as null |
| `Server.CourseDeliveryMessage` | server.js:332 | the logged message ends with the course title and, whatever the title, carries the delivery marker |
| `Server.CourseDeliveryResponse` | server.js:333 | the note when truthy, otherwise "Access link delivered via SendGrid" |
| `Server.CourseDeliveryCountsUnderCourses` | server.js:330-335 | whatever the title, a course delivery raises both counters of `courses` by 1 and changes no other vertical |
| `Server.AcademyLabelDeliveryCountsUnderCleaning` | server.js:69-74 | a delivery message logged with the label "Gold Wealth Academy" raises both counters of `cleaning` and leaves `courses` unchanged |
| `Server.PlaybookTypeIsNotClassified` | server.js:436 | the stored business type differs from what the classifier would give exactly when it is truthy and not a catalog id; the label "Gold Wealth Academy" is such a value |
| `Server.LateSeedCountsTwice` | server.js:76-96 | a row counted by a request before the un-awaited seed reads the store is counted again by the seed: its type gains two interactions |
| `Server.Server.constructor` | server.js:32-67 | process start: the configuration read from the environment, zero counters per catalog id, an empty progress buffer, no insert or email handed over yet |
| `Server.Server.InitVerticalStats` | server.js:76-96 | without a store or without fetched rows the counters are unchanged; otherwise each fetched row adds one interaction to its classified type, on top of the counters as they stand when the fetch answers |
| `Server.Server.LogInteraction` | server.js:135-154 | the classified row is handed to the store; the counters are updated whatever error the insert reports, and not at all when the insert throws |
| `Server.Server.PostInteraction` | server.js:224-252 | 401 and no change when the gate refuses; 400 and no change when `user_id` or `message` is falsy; otherwise the row is written, the counters are updated, and the response carries the classified type or the store's error |
| `Server.Server.GetOnboardingSteps` | server.js:254-263 | 401 when the gate refuses; otherwise the four fixed steps, with status "connected" exactly when the store is configured and "unconfigured" otherwise, and the matching summary text |
| `Values.WithDefault` | server.js:266 | a destructuring default replaces `undefined` only: `null` and a given value are kept |
| `Server.Server.PostProgress` | server.js:265-314 | after the gate and the required fields, the classified record, with `completed` and `metadata` defaulted only when undefined, is appended to the buffer before the configuration check; 202 with the record and no store write without a store, else 200 or 500 as the store answers |
| `Server.Server.SendCourseEmail` | server.js:156-179 | false and no provider call when email is unconfigured; otherwise the composed message is handed over and the result is the provider's answer |
| `Server.Server.PostCourseDelivery` | server.js:316-350 | after the gate and the required fields, the email step runs, then an interaction is logged under `courses` whose counters both rise by 1 unless the insert throws; the response reports whether the email was sent |
| `Server.Server.GetSummary` | server.js:352-410 | baseline "unconfigured" payload without a store, a 500 with the error when a query fails, else "connected", the note "Live metrics from agent_interactions table." and one breakdown entry per catalog type carrying that type's current counters |
| `Server.Server.GetVerticals` | server.js:412-422 | one entry per catalog type, in catalog order, with its goal and its current counters |
| `Server.Server.PostPlaybookRun` | server.js:424-448 | after the gate and the required `playbookId`, the run is written with the business type as given (falsy gives `cleaning`) and no counter changes |

## Left out

- Express setup, CORS, static files, `res.sendFile` and `app.listen` (server.js:1-24, 492-499) are I/O plumbing.
- The read-only routes `/health`, `/api/agent`, `/api/test-db`, `/api/playbook-stats` and `GET /api/interactions/:user_id` (server.js:181-221, 450-489) only relay fixed text or store query results.
- Supabase queries are not modelled. Each insert is reduced to its outcome (`StoreOutcome`). The startup select is reduced to its rows or `None`. The `data` the store returns is not echoed in the responses.
- The dashboard summary's `totalInteractions`, `uniqueUsers` and `recentInteractions` (server.js:353-356, 386, 395-397) are computed from query results that are not modelled.
- SendGrid `setApiKey` and `send` (server.js:35-37, 167-178) are not modelled. The provider's answer is a boolean parameter, and its logging is left out.
- Timestamps from `new Date().toISOString()` are opaque string parameters.
- Console logging is left out.
- Concurrency between requests is left out. Each handler, and the startup seed, runs as one atomic step. The seed may run after any handler, but not in the middle of one.
- `value.toString()` on non-string inputs is left out. Body fields and environment values are optional strings. `completed` is a boolean and `metadata` a map from strings to strings, each possibly undefined or null.
- `Text.ToLower` lower-cases ASCII letters only, not Unicode `toLowerCase`.
- A fetch error thrown at startup and a null `data` are both modelled as `None`. Both leave the counters unchanged (server.js:84, 91-93).
