# WingsNodeTeam Academy — a verified model of its core

The academy is a single-page learning app:

- **Catalogue and quizzes.** A catalogue of levels unlocks one after another. Each level is a run of lessons followed by a quiz. The quiz is the level's static question bank plus challenge questions generated by a language model.
- **Progression.** Completing a level credits XP and score once per level, and the user level follows the XP.
- **Side components.** An achievement notifier shows one toast at a time. A small markdown formatter renders lesson text. A command console answers a few commands. Two proxy back-ends (a serverless function pair and an Express server) forward chat and question-generation requests to the model provider.

This project models that core in Dafny and proves what the code promises.

| file | module | models |
|---|---|---|
| `types.dfy` | `Types` | the records of `types.ts` |
| `progression.dfy` | `Progression` | the pure rules of `App.tsx`: lock rule, catalogue lookup, `Math.round` credit, derived level, the `setUser` updater |
| `academy.dfy` | `AcademyApp` | `App.tsx` as a class: each piece of React state the handlers read or set is a field, each handler a method (`isQuizLoading`, the chat panel's state and `showPartnership` are not modelled) |
| `achievements.dfy` | `Achievements` | `AchievementManager`: one-shot detection, FIFO queue, visible slot, dismissal timer |
| `markdown.dfy` | `Markdown` | `renderFormattedText`: a pure scan and the imperative loop proved equal to it |
| `display.dfy` | `Display` | `UserAvatar` tiers and the `ProgressBar` clamp |
| `certificate.dfy` | `Certificate` | `getRank` |
| `terminal.dfy` | `Terminal` | `TerminalSection` and its `handleCommand` |
| `upstream.dfy` | `Upstream` | call outcomes, API messages, falsy-string defaults |
| `chat.dfy` | `ChatProxy` | the chat routes of `netlify/functions/chat.js` and `server.mjs` |
| `questions.dfy` | `QuestionsProxy` | the question routes of `netlify/functions/questions.js` and `server.mjs` |
| `gemini.dfy` | `GeminiService` | the client calls of `services/geminiService.ts` |
| `text.dfy`, `seqs.dfy`, `wrappers.dfy` | `Text`, `Seqs`, `Wrappers` | JavaScript string operations over `seq<char>`, sequence facts, `Option` |

Parameters stand in for what the model cannot see:

- **Constants module.** `LEVELS_DATA`, `PLAYLIST` and `ACHIEVEMENTS_DATA` live in a constants module that is not part of this model. They are parameters: a catalogue with ids 1..N in order, a non-empty playlist length, and a toast catalogue.
- **Environment.** The page-visibility flag, the awaited question generator and the `Date.now()` readings are parameters. `Date.now()` is read once per minted id, so the readings are a function of the item's position.
- **Outside calls.** Every network call, including the `JSON.parse` of its answer, is an `Outcome` (threw / non-ok status / answered).

## Model

| member | source | states |
|---|---|---|
| Progression.IsLocked | App.tsx:108 | definition of the lock rule: the locked flag is set, the previous id is not completed and the id is not 1; `LevelClick` and the map's display (App.tsx:308) use this one predicate |
| Progression.FindLevel | App.tsx:116 | the level found has the requested id and is in the catalogue; none is found exactly when the id is null or no level carries it |
| Progression.FindLevelNumbered | App.tsx:164 | in a catalogue numbered from 1, id k is found exactly when 1 <= k <= N, at index k-1 |
| Progression.RoundedShare | App.tsx:167-169 | the credit is the integer nearest to reward*correct/total, halves rounded up, as `Math.round` gives for non-negative values |
| Progression.ShareAtMostReward | App.tsx:168-169 | a quiz never earns more than its XP reward or 1000 points |
| Progression.ShareMonotone | App.tsx:167-169 | more correct answers never earn less |
| Progression.ShareExtremes | App.tsx:167-169 | a perfect quiz earns the whole reward; no correct answer earns nothing |
| Progression.DerivedLevel | App.tsx:185 | the user level is the 500-XP band the XP falls in, counted from 1 |
| Progression.Credit | App.tsx:171-187 | the first completion adds the earned XP and score and appends the id; a repeat changes neither; the level follows the XP; name and time are kept |
| Progression.CreditIdempotent | App.tsx:172-178 | completing a level a second time changes nothing, whatever the second quiz earned |
| Progression.CreditMonotone | App.tsx:171-187 | credit never lowers XP or score, keeps the id list duplicate-free, records the level and keeps every earlier id |
| Progression.LessonContextRecoversContents | App.tsx:124 | only for lessons whose contents are single lines: the generation context splits back on newlines into exactly the contents, in order (multi-line contents are covered by `LessonContextLines`) |
| Progression.LessonContextLines | App.tsx:124 | for any contents, the newline-split generation context is every line of every lesson's content, in lesson order |
| Progression.MergeQuestions | App.tsx:123-129 | the quiz is the static bank in its order followed by the challenge questions; no challenge questions leaves the bank alone |
| Progression.IdRange | components/UIComponents.tsx:56 | helper of `CompletedAll`: the integers 1..n, a set of exactly n elements |
| Progression.DistinctCard | App.tsx:172-174 | a duplicate-free id list has as many distinct ids as entries |
| Progression.CompletedAll | components/UIComponents.tsx:56 | a duplicate-free list of catalogue ids at least as long as the catalogue holds every id |
| AcademyApp.CompletedUser | App.tsx:164-187 | definition of the user `completeLevel` leaves: unchanged when the active id names no level, otherwise `Credit` with the rounded shares of the reward and of 1000; its bounds are `CompletedUserBounds` |
| AcademyApp.CompletedUserBounds | App.tsx:163-187 | completion never lowers XP or score, adds at most the level's reward and 1000 points, and nothing on a repeat |
| AcademyApp.Academy.QuizScoreBounded | App.tsx:143-161 | under the state invariant the attempt's score never exceeds its number of questions |
| AcademyApp.Academy.CompletedCountMeansAll | App.tsx:172-174 | once as many ids are recorded as the catalogue has levels, every level is completed |
| AcademyApp.Academy.constructor | App.tsx:15-52 | the initial state: no active level, an empty quiz, user Cadet at level 1 with no XP, no track playing |
| AcademyApp.Academy.LevelClick | App.tsx:107-113 | a locked level (locked flag set, previous id not completed, id not 1) changes nothing; otherwise it becomes active at lesson 0; the rule is the same predicate the map displays (App.tsx:308) |
| AcademyApp.Academy.NextLesson | App.tsx:115-141 | on the last lesson the quiz becomes the static bank followed by the questions generated from the lessons' joined contents, with cursor, score and selection reset; otherwise only the lesson cursor moves; no active level changes nothing |
| AcademyApp.Academy.AnswerSelect | App.tsx:143-151 | a second answer changes nothing; a first answer is recorded, shows the explanation and scores one point iff it is the correct index; the score stays at most index+1 <= count |
| AcademyApp.Academy.NextQuestion | App.tsx:153-161 | before the last question the cursor advances with the selection cleared; on the last one the level is completed; the cursor always stays in range |
| AcademyApp.Academy.CompleteLevel | App.tsx:163-193 | the user becomes the credited user, the level closes and is recorded, and the certificate opens iff the level is the catalogue's last; no active level changes nothing |
| AcademyApp.Academy.Tick | App.tsx:56-63 | a tick adds exactly one second to the time, only while the page is visible |
| AcademyApp.Academy.ToggleMusic | App.tsx:66-68 | playback flips |
| AcademyApp.Academy.NextTrack | App.tsx:70-74 | the next track index wraps modulo the playlist length, stays in range, and playback is on |
| AcademyApp.Academy.CloseLevel | App.tsx:475 | closing the level modal clears the active level and rewinds the lesson cursor |
| AcademyApp.Academy.CloseCertificate | App.tsx:500 | closing the certificate hides it |
| Achievements.Pick | components/UIComponents.tsx:52-56 | the picked ids are exactly the listed ones whose condition holds and that were not processed, in list order |
| Achievements.Detect | components/UIComponents.tsx:51-56 | an id is detected iff its condition (xp > 0, level >= 3, level >= 5, score > 0, at least 8 completed levels) holds and it was never processed; detections come in the fixed order, without repeats |
| Achievements.DetectOneShot | components/UIComponents.tsx:58-60 | once the detected ids are processed the same state detects nothing, and no later state detects them again |
| Achievements.PickNone | components/UIComponents.tsx:52-58 | nothing is enqueued when no listed id is newly unlocked |
| Achievements.Rendered | components/UIComponents.tsx:73-75 | the toast shows the catalogue entry with the visible id; nothing when the slot is empty or the id is not in the catalogue |
| Achievements.QueueEffectAsWritten | components/UIComponents.tsx:64-71 | definition of one run of the effect as written: the previous run's cleanup disarms its timer; a free slot with a queue takes the head and arms a new timer |
| Achievements.SettleAsWritten | components/UIComponents.tsx:64-71 | definition of React's re-run of the effect when a run changed the queue or the slot, its dependencies |
| Achievements.TimerFires | components/UIComponents.tsx:69 | definition of the timer callback: it clears the slot only when its timer is still pending |
| Achievements.AutoDismissLost | components/UIComponents.tsx:64-71 | as written, whenever a queued toast takes a free slot, the re-run leaves it shown with no pending timer, so the 7000 ms expiry changes nothing |
| Achievements.AutoDismissLostExample | components/UIComponents.tsx:64-71 | one instance: a single unlock on an empty slot is never dismissed by the timer |
| Achievements.Settle | components/UIComponents.tsx:64-69 | a free slot takes the queue head and the queue its tail; an occupied slot is kept; a timer is pending exactly while a toast is shown |
| Achievements.AutoDismissKept | components/UIComponents.tsx:69 | with the timer owned by the shown toast, its expiry clears the slot |
| Achievements.AchievementManager.constructor | components/UIComponents.tsx:46-48 | nothing processed, queued or visible |
| Achievements.AchievementManager.Observe | components/UIComponents.tsx:50-62 | the detected ids are marked processed and appended after the queue; each id is enqueued at most once over the component's life, and the queue is what was enqueued and not yet shown (FIFO) |
| Achievements.AchievementManager.Enqueue | components/UIComponents.tsx:58-60 | fresh ids are added to the processed set and to the queue's end, keeping the one-shot and FIFO invariant |
| Achievements.AchievementManager.SettleSlot | components/UIComponents.tsx:64-71 | the queue effect moves the head into a free slot and keeps the invariant; the timer is the corrected one of `Settle`, not the as-written one that `AutoDismissLost` shows cancelled |
| Achievements.AchievementManager.Click | components/UIComponents.tsx:80 | a click clears the slot, which the next queued toast then takes, under the corrected timer of `Settle` |
| Achievements.AchievementManager.Timeout | components/UIComponents.tsx:69 | under the corrected timer of `Settle`, the expiry clears a shown toast and the next queued one takes the slot; as written the timer is already cancelled (`AutoDismissLost`) |
| Achievements.AchievementManager.Toast | components/UIComponents.tsx:73-75 | what is rendered is the catalogue entry of the visible id |
| Markdown.FenceLang | components/UIComponents.tsx:262 | the language is the trimmed fence line after its backquotes, or `text` when nothing follows |
| Markdown.Classify | components/UIComponents.tsx:270-298 | outside code: a blank line breaks, else `### ` makes a heading, else `> ` a quote, else `* ` a list item, each with the prefix removed, else a paragraph of the whole line |
| Markdown.Step | components/UIComponents.tsx:253-298 | definition of one call of the callback on the three locals and the block it returns |
| Markdown.Scan | components/UIComponents.tsx:253-299 | definition of the callback applied to every line in order, with the nulls filtered out; its properties are the lemmas below |
| Markdown.Render | components/UIComponents.tsx:247-253 | the scan over `text.split('\n')` from the initial locals |
| Markdown.ScanLine | components/UIComponents.tsx:253-298 | the callback on one line updates the fence flag, the buffer and the language and returns the line's block exactly as one scan step prescribes |
| Markdown.RenderFormattedText | components/UIComponents.tsx:247-300 | the scan over the lines, threading the three mutable locals through the callback and dropping the nulls, yields exactly the blocks of the reference scan |
| Markdown.ScanWithoutFences | components/UIComponents.tsx:270-299 | without fences every line yields its own classification, in order |
| Markdown.ScanBuffers | components/UIComponents.tsx:266-269 | inside an open fence, lines only grow the buffer and yield nothing |
| Markdown.UnclosedFenceDropsRest | components/UIComponents.tsx:266-269 | the lines after a fence that is never closed render nothing, as the nulls are filtered out (line 299) |
| Markdown.ClosedFence | components/UIComponents.tsx:254-263 | a fenced block yields one code block with the opening fence's language and its lines joined by newlines, and the scan resumes outside code |
| Markdown.LangIrrelevant | components/UIComponents.tsx:251 | the language left over by a closed block has no effect on what follows |
| Markdown.FirstFence | components/UIComponents.tsx:254 | the first fence of the lines, or the end when there is none |
| Markdown.ScanAtMostOnePerLine | components/UIComponents.tsx:253 | each line yields at most one block |
| Display.Avatar | components/UIComponents.tsx:145-163 | default below level 3, shield for 3-5, zap for 6-8, crown from 9, each an iff |
| Display.AvatarMonotone | components/UIComponents.tsx:145-163 | a higher level never shows a lower tier |
| Display.ProgressPercent | components/UIComponents.tsx:211 | the percentage is within [0, 100] or NaN, and NaN exactly for 0/0 |
| Display.ProgressInRange | components/UIComponents.tsx:211 | with a positive maximum the bar shows the exact share within range, empty below it and full beyond it |
| Display.ProgressMonotone | components/UIComponents.tsx:211 | with a positive maximum more progress never shows a shorter bar |
| Certificate.GetRank | components/CertificateView.tsx:6-11 | ЛЕГЕНДА iff score > 4000, ЭКСПЕРТ iff 2500 < score <= 4000, СПЕЦИАЛИСТ iff 1000 < score <= 2500, НОВИЧОК iff score <= 1000 |
| Certificate.RankMonotone | components/CertificateView.tsx:6-11 | a larger score never earns a lower rank |
| Certificate.RankBoundaries | components/CertificateView.tsx:7-9 | the thresholds are strict: 1000, 2500 and 4000 belong to the lower rank |
| Terminal.Command | components/TerminalSection.tsx:29 | definition: the input trimmed, then lower-cased |
| Terminal.AfterEnter | components/TerminalSection.tsx:29-86 | definition of the lines after Enter: empty for `clear`, else the echo followed by the response if there is one; `HandleCommand` is proved to produce it |
| Terminal.Respond | components/TerminalSection.tsx:33-81 | help, status (name, level, XP, score, rank), wnt, whoami and ping each answer their response; the empty command answers nothing; any other command answers a not-found line naming it |
| Terminal.AfterEnterGrows | components/TerminalSection.tsx:30-86 | apart from clear, Enter keeps every earlier line, echoes the typed input and adds one response line iff the command is not empty |
| Terminal.BlankInputOnlyEchoes | components/TerminalSection.tsx:76-86 | a blank input only appends its echo |
| Terminal.ClearAnyCase | components/TerminalSection.tsx:29-75 | the command is trimmed and lower-cased: any all-white-space padding around any word that lower-cases to `clear` empties the console |
| Terminal.TerminalSection.constructor | components/TerminalSection.tsx:12-18 | the console opens with the banner and the hint, an empty input and no interaction |
| Terminal.TerminalSection.SetInput | components/TerminalSection.tsx:110 | typing replaces the input |
| Terminal.TerminalSection.HandleCommand | components/TerminalSection.tsx:26-88 | any key but Enter changes nothing; Enter leaves the lines the command prescribes (empty for clear) and an empty input |
| Upstream.OrElse | netlify/functions/chat.js:12 | `x \|\| fallback` for a string: absent and empty fall back, any other string is kept |
| ChatProxy.Latest | netlify/functions/chat.js:16 | `slice(-12)` keeps the last min(12, n) entries |
| ChatProxy.ApiRole | netlify/functions/chat.js:17 | `model` becomes `assistant`; every other role becomes `user` |
| ChatProxy.ChatMessages | netlify/functions/chat.js:15-19 | definition of the message list: system prompt, mapped latest history, user message; its shape is `ChatMessagesShape` |
| ChatProxy.ChatMessagesShape | netlify/functions/chat.js:15-19 | the list has 2 + min(12, n) messages: the system prompt first, the user message last, the latest history entries between them in order, with roles mapped and texts unchanged |
| ChatProxy.BuildMessages | server.mjs:16-22 | the push loop builds exactly that list |
| ChatProxy.NetlifyChat | netlify/functions/chat.js:3-39 | a missing key answers 500 missing_api_key and an unparseable body 500 function_error, both without a call; otherwise it sends the list with a non-array history as empty and a missing message as ''; a non-ok answer passes its status with upstream_error; a throw answers 500 function_error; success answers 200 with the content or '' |
| ChatProxy.ServerChat | server.mjs:12-30 | without a key the provider client is not built, nothing is sent and it answers 500 ai_error; otherwise the list is sent with the user message as posted; success answers 200 with the content or ''; any failure answers 500 ai_error |
| ChatProxy.RoutesAgree | server.mjs:14-22 | for a keyed request with a non-empty user message both routes send the same list, and on success they answer alike |
| QuestionsProxy.Prompt | netlify/functions/questions.js:12-19 | the prompt is the fixed instruction followed by the lesson material verbatim |
| QuestionsProxy.QuestionsRequest | netlify/functions/questions.js:29-32 | definition of the two messages: the JSON-only system message, then the prompt |
| QuestionsProxy.Interpolate | server.mjs:42 | definition: a template literal prints an absent value as `undefined` |
| QuestionsProxy.Normalise | netlify/functions/questions.js:41-44 | the answer is the model's `questions` array when it is one, and otherwise empty |
| QuestionsProxy.AbsentIsEmptyObject | netlify/functions/questions.js:41 | absent content behaves as an object without questions |
| QuestionsProxy.NetlifyQuestions | netlify/functions/questions.js:3-49 | a missing key answers 500 with no questions; everything else answers 200; a missing context is sent as ''; only a successful call yields questions |
| QuestionsProxy.ServerQuestions | server.mjs:32-60 | always 200; without a key nothing is sent and no questions are answered; otherwise an absent context is interpolated as `undefined`, and a failure answers no questions |
| QuestionsProxy.RoutesAgree | server.mjs:34-42 | with a key both routes answer the same questions, and they differ only in the prompt of an absent context |
| GeminiService.SendMessage | services/geminiService.ts:4-17 | an error status or a throw gives the protocol-error text; an empty or absent text gives the unstable-connection text; the reply is never empty |
| GeminiService.MintId | services/geminiService.ts:29 | what follows the id's last dash is the item's position in decimal |
| GeminiService.MintIdInjective | services/geminiService.ts:29 | ids minted at different positions differ, whatever clock reading each was minted at |
| GeminiService.Remint | services/geminiService.ts:29 | length and order are kept and only the id of each question is replaced, minted from the clock reading taken for that item |
| GeminiService.RemintDistinctIds | services/geminiService.ts:29 | the minted ids of one call are pairwise distinct, even though each item reads the clock anew |
| GeminiService.GenerateChallengeQuestions | services/geminiService.ts:19-33 | an error status, a throw or a non-array field gives no questions; otherwise the questions come with ids minted from per-item clock readings |
| Text.Trim | components/UIComponents.tsx:254 | definition of `trim` as the end trim of the start trim; its properties are the two lemmas below |
| Text.TrimStartSpec | components/UIComponents.tsx:254 | trimming the start removes exactly the leading ECMAScript white space |
| Text.TrimEndSpec | components/UIComponents.tsx:254 | trimming the end removes exactly the trailing ECMAScript white space |
| Text.TrimStartPadded | components/TerminalSection.tsx:29 | white space before a string that does not start with a space is all the start trim removes |
| Text.TrimEndPadded | components/TerminalSection.tsx:29 | white space after a string that does not end with a space is all the end trim removes |
| Text.LowerChar | components/TerminalSection.tsx:29 | Basic Latin capitals map to their small letters and other Basic Latin code points stay |
| Text.ToLower | components/TerminalSection.tsx:29 | same length, each code point lower-cased on its own |
| Text.Split | components/UIComponents.tsx:248 | `split` yields at least one piece and no piece holds the separator |
| Text.Join | App.tsx:124 | definition of `join`: the parts with the separator between consecutive ones |
| Text.TrimEmptyIffAllSpace | components/UIComponents.tsx:270 | a line trims to nothing iff it is all white space |
| Text.JoinSplit | components/UIComponents.tsx:248 | splitting on a separator and joining again gives back the text |
| Text.SplitJoin | App.tsx:124 | joining pieces that hold no separator and splitting again gives back the pieces |
| Text.NatToString | services/geminiService.ts:29 | the decimal rendering is non-empty and made of digits only |
| Text.NatToStringInjective | services/geminiService.ts:29 | different numbers print differently in a template literal |
| Text.SplitConcat | App.tsx:124 | splitting around one separator splits each side on its own |
| Text.SplitAll | App.tsx:124 | definition: the pieces of every part, in order |
| Text.SplitJoinAll | App.tsx:124 | splitting a join gives the pieces of every part, in order, whatever the parts hold |

## Left out

- AcademyApp.Academy.AnswerSelect, AcademyApp.Academy.NextQuestion, AcademyApp.Academy.CompleteLevel: these require a non-empty question list. With an empty list the quiz view dereferences a missing question while rendering, so the buttons that call these handlers are never shown.
- AcademyApp.Academy.NextLesson: the awaited generation runs atomically. The `isQuizLoading` flag and the interleaving of other events during the await are not modelled.
- Progression.RoundedShare: computes with exact integers rather than double-precision floating point. `Math.round(xpReward * (score / n))` can differ by floating-point error when the share lies at an exact half.
- Display.ProgressPercent: uses real arithmetic, not IEEE doubles. Negative zero and the rounding of the displayed text are not modelled.
- Text.LowerChar: lower-cases Basic Latin and basic Cyrillic only. The full Unicode case mapping of `toLowerCase` is not modelled.
- The achievement ids are a closed enumeration of the five ids the detector can enqueue. React's effect scheduling is modelled as an explicit settle step after every change to the queue or the slot.
- ChatProxy.NetlifyChat: assumes history entries, roles and `userMessage` are strings or absent. Other falsy JSON values (`0`, `false`, `null`) are not distinguished from absent.
- QuestionsProxy.Normalise: the elements of the model's array are taken as questions. The route does not validate their shape, and the model does not either.
- Network and parsing: `fetch`, the provider client, `JSON.parse` and `res.json()` are abstracted to `Upstream.Outcome`.
- ChatProxy.ServerChat, QuestionsProxy.ServerQuestions: take an absent key to stop the provider client from being built. An empty key is passed on, and the provider's answer (the upstream outcome) decides. The client library's own key check is not part of this model.
- Achievements.AchievementManager.SettleSlot, Achievements.AchievementManager.Click, Achievements.AchievementManager.Timeout: follow the corrected timer of `Achievements.Settle`. The source as written cancels the timer on the effect's re-run (see Findings), so there a shown toast leaves only on a click.
- GeminiService.Remint: the clock readings are an arbitrary function of the item's position. That `Date.now()` never decreases is not used, and not needed for distinct ids.
- The chat panel's `handleChatSend` (App.tsx:195-210) and its scrolling effect are not part of this model.
- Audio playback (App.tsx:77-97) is left out: it is a browser API.
- JSX markup, styling and the markup of response lines are left out; terminal responses are abstract values.
- The certificate canvas, the custom cursor, the tilt card and the crypto ticker are left out.
- The inline bold and code rewriting inside paragraphs and list items is left out; their text is kept as written.
- The terminal's scroll-into-view effect is left out.
- `LEVELS_DATA`, `PLAYLIST` and `ACHIEVEMENTS_DATA` are parameters, because the constants module is not part of this model.

## Findings

| source | as written | input that shows it | evidently intended | confidence | as-written member | corrected member |
|---|---|---|---|---|---|---|
| components/UIComponents.tsx:64-71 | the queue effect shows the head and arms a 7000 ms timer, but that same run changes the effect's dependencies; the re-run's cleanup clears the timer and the re-run returns early without arming a new one | one unlock on an empty slot: queue `[first_steps]`, nothing visible | a shown toast is dismissed after 7000 ms unless clicked first | high, not executed | Achievements.AutoDismissLost | Achievements.Settle |
