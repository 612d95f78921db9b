# aether-red: the chat task simulation, campaign controls and report search

The repository is a browser dashboard for a security-scanning product. Every page
renders hard-coded sample data. This model covers the three places where the pages do
more than render:

- **Chat** (`chat.dfy`, module `Chat`)
  - `Classify` is the keyword classifier. It lower-cases the input and picks the first
    matching category in priority order: pentesting ("pentest", "penetration"), recon
    ("recon", "reconnaissance"), rca ("rca", "root cause"), analysis ("analyze",
    "analysis"), and otherwise question.
  - `GenerateResponse` returns the canned reply text for that category.
  - The class `ChatSession` holds the page's state: the message list, the input box and
    the typing indicator.
    - `Send` is the send handler up to its first timer. It does nothing on blank input.
      Otherwise it appends the user message, clears the box, raises the indicator, and
      returns what it scheduled.
    - Each timer callback is a step method. For pentesting and recon these are
      `StartRun`, `AdvanceToScanning` and `Complete`. For every other category there is
      one `Reply`.
    - The two later run steps rewrite every message whose id equals the run's id
      (`RewriteById` for the scanning step, `FinishById` for the completing one).
    - `ClickSend` models the send button, which is disabled while the indicator is up.
      `PressKey` models the Enter key, which sends without that check.
- **Campaigns** (`campaigns.dfy`, module `Campaigns`)
  - The class `CampaignStore` holds the campaign list. Pause, resume and stop rewrite the
    status of the campaigns with the given id (`WithStatus`).
  - `Actions` gives the buttons each status renders.
  - The summary cards are `CountStatus` and `TotalVulnerabilities`.
- **Reports** (`reports.dfy`, module `Reports`)
  - `Search` keeps a report when its lower-cased name or campaign name contains the
    lower-cased query.
  - The class `ReportsPage` holds the query. The report list is a constant field, since
    the page never replaces it.
- **Text** (`text.dfy`, module `Text`): `toLowerCase` on ASCII letters, `includes`, and
  JavaScript's `trim` together with its white-space set.

Facts about the code that the model keeps:

- The categories are `pentesting`, `recon`, `rca`, `analysis` and `question`.
- The first phase of a run is called `Initialization`.
- A non-task reply carries `status: completed` and its `taskType`.
- Progress updates are matched by message id over the whole list, so any other message
  with the same id is rewritten too.
- The result card is built inside the `map` callback, so each message with the run's id
  gets its own random counts (`FinishById`).

Observations proved along the way:

- The keyword "reconnaissance" never decides a classification, because every text that
  contains it also contains "recon" (`ReconnaissanceImpliesRecon`).
- Progress moves forward only because the timers fire in order. `RewriteById` itself
  accepts the steps in any order; the invariant `Sound` holds whatever the order.

## Model

| member | source | states |
|---|---|---|
| Text.Lower | components/pages/Chat.tsx:218 | the lower-cased text has the input's length and each character is the ASCII-lowered input character |
| Text.LowerIdempotent | components/pages/Chat.tsx:218 | a lowered text has no upper-case letter and lowering it again changes nothing |
| Text.LowerAppend | components/pages/Reports.tsx:189-190 | lowering distributes over concatenation |
| Text.Contains | components/pages/Chat.tsx:219-222 | `includes`; characterised by `Text.ContainsIff` as an occurrence at some position |
| Text.ContainsIff | components/pages/Chat.tsx:219-222 | `includes` holds exactly when the keyword occurs at some position of the text |
| Text.ContainsEmpty | components/pages/Reports.tsx:189-190 | every text includes the empty string |
| Text.ContainsInside | components/pages/Chat.tsx:219 | an occurrence survives any text added before or after it |
| Text.ContainsTransitive | components/pages/Chat.tsx:220 | a text that includes `sub` includes every substring of `sub` |
| Text.Trim | components/pages/Chat.tsx:104 | `trim()`; `Text.TrimEmptyIffBlank` proves it empty exactly for blank strings |
| Text.TrimEmptyIffBlank | components/pages/Chat.tsx:104 | `trim()` gives the empty string exactly when every character is JavaScript white space |
| Chat.Classify | components/pages/Chat.tsx:217-224 | `determineTaskType`; characterised by `Chat.ClassifyIsFirstMatch` and `Chat.ClassifyCases` |
| Chat.ClassifyIsFirstMatch | components/pages/Chat.tsx:217-224 | the classifier equals a first-match scan of the keyword table, in priority order, over the lower-cased input |
| Chat.ClassifyCases | components/pages/Chat.tsx:217-224 | each category is returned exactly when its keywords occur and no earlier category's keywords do; question exactly when no keyword occurs |
| Chat.PentestWins | components/pages/Chat.tsx:219 | a pentest keyword anywhere in the input yields pentesting, whatever surrounds it |
| Chat.ClassifyIgnoresCase | components/pages/Chat.tsx:218 | inputs that lower-case alike are classified alike, and classify(s) == classify(lower(s)) |
| Chat.ReconnaissanceImpliesRecon | components/pages/Chat.tsx:220 | every text containing "reconnaissance" contains "recon" |
| Chat.NoKeywordLetters | components/pages/Chat.tsx:218-223 | an input whose lowered form lacks the letters p, c, o and n is classified as a question |
| Chat.PentestPromptIsPentest | components/pages/Chat.tsx:50-55 | the "Run Pentest" quick-action prompt is classified as pentesting and starts a run |
| Chat.ResponseFor | components/pages/Chat.tsx:229-244 | the five canned texts, one per category, character for character |
| Chat.GenerateResponse | components/pages/Chat.tsx:226-245 | `generateResponse`: the text of the input's category; see `Chat.ResponseDependsOnlyOnCategory` |
| Chat.ResponseDependsOnlyOnCategory | components/pages/Chat.tsx:226-245 | two inputs of the same category get the same response text |
| Chat.RunResults | components/pages/Chat.tsx:185-193 | a completed run reports 5..24 vulnerabilities, 10..59 hosts and exactly four findings |
| Chat.RunningMessage | components/pages/Chat.tsx:124-141 | the running message; `Chat.RunningMessageSnapshots` and `Chat.RunLifecycle` state its three snapshots |
| Chat.ReplyMessage | components/pages/Chat.tsx:203-210 | the completed reply; `Chat.ChatSession.Reply` appends it |
| Chat.Advance | components/pages/Chat.tsx:148-196 | what one callback does to a matching message; `Chat.RunningMessageSnapshots` and `Chat.RewriteKeepsSound` state its effect |
| Chat.RewriteById | components/pages/Chat.tsx:147-197 | a progress callback keeps the list's length; it advances each message with the run's id and keeps every other message as it was |
| Chat.RewriteKeepsIdentity | components/pages/Chat.tsx:147-197 | a progress callback keeps the order of ids and each message's role, text and category; with an absent id it changes nothing |
| Chat.RewriteAppend | components/pages/Chat.tsx:147-197 | a progress callback acts on each part of a concatenated list separately |
| Chat.RewriteIdempotent | components/pages/Chat.tsx:147-197 | applying the same callback twice equals applying it once |
| Chat.RewriteFreshTail | components/pages/Chat.tsx:147-164 | a callback for a newly appended message with a fresh id changes that message only |
| Chat.RunningMessageSnapshots | components/pages/Chat.tsx:131-184 | the run message goes Initialization/15, Scanning/45, Completed/100; it is running until the last step, which adds the results |
| Chat.FinishById | components/pages/Chat.tsx:168-197 | the completing callback keeps the list's length; each message with the run's id is completed with the card of its own position's draw, every other message is kept |
| Chat.FinishSameDraw | components/pages/Chat.tsx:168-197 | when every position draws the same numbers, completing equals the uniform rewrite with that one card |
| Chat.FinishCardOfOwnDraw | components/pages/Chat.tsx:169-193 | a message with the run's id gets the result card of its own position's draw |
| Chat.FinishDrawsPerMessage | components/pages/Chat.tsx:169-193 | two messages with the run's id whose draws differ get different result cards |
| Chat.FinishFreshTail | components/pages/Chat.tsx:168-197 | completing a newly appended message with a fresh id changes that message only, using its own draw |
| Chat.FinishKeepsSound | components/pages/Chat.tsx:168-197 | the completing callback keeps every message sound |
| Chat.RunLifecycle | components/pages/Chat.tsx:121-199 | a run with a fresh id, followed through its callbacks in timer order, leaves earlier messages alone and passes through exactly the three snapshots |
| Chat.RewriteKeepsSound | components/pages/Chat.tsx:146-165 | callbacks keep every message sound: never failed, only the three snapshots, results in range |
| Chat.ChatSession.constructor | components/pages/Chat.tsx:77-86 | the page starts with the welcome message only, an empty box and no typing indicator |
| Chat.ChatSession.SetInput | components/pages/Chat.tsx:98-101 | typing or a quick action sets the box and nothing else |
| Chat.ChatSession.Send | components/pages/Chat.tsx:103-120 | blank input leaves all state alone; otherwise one user message carrying the input is appended, the box is cleared, the indicator raised, and a run is scheduled exactly for pentesting and recon |
| Chat.ChatSession.ClickSend | components/pages/Chat.tsx:522-526 | the button does nothing while the input is blank or a reply is being typed; otherwise it sends and schedules a run exactly for pentesting and recon, a reply otherwise |
| Chat.ChatSession.PressKey | components/pages/Chat.tsx:247-252 | Enter without Shift sends non-blank input even while a reply is being typed, scheduling a run exactly for pentesting and recon; other keys change nothing |
| Chat.ChatSession.StartRun | components/pages/Chat.tsx:123-143 | appends the running message at Initialization/15 and lowers the indicator |
| Chat.ChatSession.AdvanceToScanning | components/pages/Chat.tsx:146-165 | rewrites the messages with the run's id to the scanning snapshot; the box and indicator are unchanged |
| Chat.ChatSession.Complete | components/pages/Chat.tsx:168-198 | rewrites each message with the run's id to completed, with the final snapshot and a result card from its own draw |
| Chat.ChatSession.Reply | components/pages/Chat.tsx:200-213 | appends one completed assistant reply with the category and no progress block or results, and lowers the indicator |
| Campaigns.WithStatus | components/pages/Campaigns.tsx:96-112 | a handler keeps length and order, sets only the status of campaigns with the id, and keeps all other fields and campaigns |
| Campaigns.UnknownIdUnchanged | components/pages/Campaigns.tsx:97-99 | a handler called with an id that is not in the list changes nothing |
| Campaigns.LastRewriteWins | components/pages/Campaigns.tsx:96-112 | two handlers on one id equal the second alone, so each handler is idempotent |
| Campaigns.PauseResumeRestores | components/pages/Campaigns.tsx:96-106 | pausing running campaigns and resuming them restores the list exactly |
| Campaigns.Actions | components/pages/Campaigns.tsx:241-293 | the buttons each status renders; `Campaigns.ButtonsOfferTransitions` ties them to the allowed transitions |
| Campaigns.ButtonsOfferTransitions | components/pages/Campaigns.tsx:241-293 | the rendered buttons offer exactly running→paused, running→stopped, paused→running and paused→stopped; completed and stopped offer none |
| Campaigns.ClickIsTransition | components/pages/Campaigns.tsx:241-293 | with unique ids, a click changes only its own card, along an allowed transition |
| Campaigns.WithStatusKeepsIds | components/pages/Campaigns.tsx:96-112 | a handler keeps every campaign's id, so distinct ids stay distinct |
| Campaigns.CountStatus | components/pages/Campaigns.tsx:145-147 | a status count is at most the list length |
| Campaigns.CountsPartition | components/pages/Campaigns.tsx:145-147 | the four status counts sum to the list length, so the three shown sum to at most it |
| Campaigns.CountAfterReplace | components/pages/Campaigns.tsx:145-147 | replacing one campaign moves one unit from its old status's count to its new one |
| Campaigns.PauseMovesCount | components/pages/Campaigns.tsx:96-100 | pausing a running campaign lowers the running count by one and raises the paused count by one |
| Campaigns.ReduceVulnerabilities | components/pages/Campaigns.tsx:208 | the left fold of `reduce`; `Campaigns.ReduceIsSum` equates it with the sum |
| Campaigns.TotalVulnerabilities | components/pages/Campaigns.tsx:208 | the "Total Vulnerabilities" figure; `Campaigns.TotalIsSum` equates it with the sum |
| Campaigns.ReduceIsSum | components/pages/Campaigns.tsx:208 | the left fold from an accumulator equals the accumulator plus the sum of vulnerabilitiesFound |
| Campaigns.TotalIsSum | components/pages/Campaigns.tsx:208 | the total equals the sum of vulnerabilitiesFound, and no status change alters it |
| Campaigns.SumIgnoresStatus | components/pages/Campaigns.tsx:96-112 | rewriting statuses leaves the vulnerability sum unchanged |
| Campaigns.SampleSummary | components/pages/Campaigns.tsx:21-94 | the initial list has 2 running, 1 paused and 2 completed campaigns, 322 vulnerabilities and distinct ids |
| Campaigns.CampaignStore.constructor | components/pages/Campaigns.tsx:21-94 | the store starts with the six sample campaigns, whose ids are distinct |
| Campaigns.CampaignStore.HandlePause | components/pages/Campaigns.tsx:96-100 | the list becomes the old list with the id's campaigns paused |
| Campaigns.CampaignStore.HandleResume | components/pages/Campaigns.tsx:102-106 | the list becomes the old list with the id's campaigns running |
| Campaigns.CampaignStore.HandleStop | components/pages/Campaigns.tsx:108-112 | the list becomes the old list with the id's campaigns stopped |
| Campaigns.CampaignStore.Click | components/pages/Campaigns.tsx:241-284 | a rendered button applies its handler to its card's id, changes that card alone, along an allowed transition; ids stay distinct |
| Campaigns.CampaignStore.Summary | components/pages/Campaigns.tsx:145-208 | the cards show the running, paused and completed counts, at most the list length in all, and the vulnerability sum |
| Reports.Search | components/pages/Reports.tsx:187-191 | a report is listed exactly when its lowered name or campaign name contains the lowered query, as many times as it occurs in the list; the result is no longer than the list |
| Reports.SearchIsSubsequence | components/pages/Reports.tsx:187-192 | the listed reports are an order-preserving subsequence of the list |
| Reports.EmptyQueryKeepsAll | components/pages/Reports.tsx:28 | the initial, empty query lists every report |
| Reports.SearchIgnoresQueryCase | components/pages/Reports.tsx:189-190 | a query and its lower-case form list the same reports |
| Reports.SearchIdempotent | components/pages/Reports.tsx:187-191 | searching the result again with the same query changes nothing |
| Reports.ReportsPage.constructor | components/pages/Reports.tsx:28-29 | the page starts with an empty query and lists the whole list |
| Reports.ReportsPage.Visible | components/pages/Reports.tsx:187-191 | the visible reports are a subsequence of the list, holding exactly the reports that match the current query, each as often as in the list |
| Reports.ReportsPage.SetSearchQuery | components/pages/Reports.tsx:169-170 | typing changes the query only; the list is a constant and the visible set follows the new query |

## Left out

- Rendering is not modelled: JSX, styling, animations, icons, charts, the task badges and the splitting of `**bold**` runs in message text.
- Timer delays, scrolling and focus are not modelled. Each timer callback is a step method, and the caller invokes them in the order the nested timeouts guarantee. Callbacks that fire after the page is gone are not modelled either.
- `Math.random` is not modelled. Each position of the list has a `Draw` parameter whose two counts are below 20 and 50, standing for the floor of the scaled random numbers; only the draws at positions whose id matches are used.
- Message ids from `Date.now()` are parameters. Message timestamps and report and campaign dates are opaque or left out.
- Text.Lower: folds ASCII letters only; Unicode case mapping beyond ASCII is a library behaviour and is not modelled.
- Chat.PentestPromptIsPentest: only the pentest quick-action prompt's category is proved. The recon, analysis and root-cause prompts are not, because proving the absence of keywords in long literal strings is too costly for the verifier.
- The hard-coded report list is not reproduced. `ReportsPage` takes its list as a constructor parameter.
- Pages with constant tables and no logic are not modelled: dashboard, vulnerabilities, false positives, recon, add host, host and organisation selector, landing page, top bar, sidebar, login modal and the page switch in App.tsx.
- The "New Campaign", "View Details", filter, date-range and download buttons have no handler in the source and are not modelled.
