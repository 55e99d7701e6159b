# pickupConnect in Dafny

pickupConnect is the after-school pickup app of a workshop. It has several roles:

- A **student** signs in with a four-digit access code.
- A **parent** signs in with the child's code. The parent reports "on my way" and then "I'm here", chats with the child, and confirms the pickup once the instructor has released the child.
- The **instructor** sees a live feed of the requests that are under way. An arrival is announced aloud with a generated voice clip that is cached on the request.
- A **setup screen** connects the app to its backend.

This project models the application's core. It covers the central store of shared state, the instructor's feed and announcement loop, the base64 and PCM decoding of the voice clips, and the parent, student, keypad and setup screens. Properties of each are proved in Dafny.

The modules follow the source files:

| module | file | models |
|---|---|---|
| `Types` | `types.dfy` | the records: students, parents, chat messages, pickup requests, sessions |
| `Tables` | `tables.dfy` | `find`, the replace-by-id `map`, the remove-by-id `filter`, and the change-feed merge |
| `Text` | `text.dfy` | JavaScript `trim`, decimal printing of ids and access codes |
| `Store` | `store.dfy` | the provider: the pure per-table updates and the class `AppStore`, whose fields are the provider's state and whose methods are its actions |
| `Instructor` | `instructor.dfy` | the active-request feed, the selection of arrivals to announce, the announcement plan, and the class `Announcer` (the in-flight set) with the announcement loop |
| `Tts` | `tts.dfy` | the cleaning and forgiving-base64 decoding of a clip, the byte copy into an array, the even-length alignment and the little-endian 16-bit sample view, and the choice between native and raw PCM playback |
| `Chat` | `chat.dfy` | the message composer with its visible-text guard, and the new-message notification tracker |
| `ParentView` | `parentview.dfy` | countdown, current pickup, screens, status buttons, access-code form |
| `StudentView` | `studentview.dfy` | own request, status card with fallback, status-change notification tracker |
| `StudentLogin` | `studentlogin.dfy` | the four-digit keypad |
| `SetupView` | `setupview.dfy` | the connection-test status machine, the save guard, the pre-fill link |

Some conventions run through the model:

- Time (`Date.now()`), the random access code and the AI speech service are parameters.
- The string ids the store builds from the time (`req_…`, `m_…`, `s_…`, `p_…`, `sess_…`) use `Text.Decimal`.
- Optional record fields are `Option` values. A field that is "falsy" is absent or holds `false` or the empty string.

## Model

| member | source | states |
|---|---|---|
| Types.ShownStatus | components/ParentView.tsx:121 | the status both screens show: the request's own, `scheduled` without a request (also StudentView.tsx line 13) |
| Types.ShownChat | components/ParentView.tsx:122 | the chat both screens show: the request's own, empty without a request (also StudentView.tsx line 14) |
| Tables.FindFirst | store/mockStore.tsx:189 | the index found holds the predicate and every earlier element fails it; `None` only when no element holds it |
| Tables.MapWhere | store/mockStore.tsx:246 | rows with the key are replaced by `f` of themselves, all other rows and the length stay |
| Tables.ReplaceById | store/mockStore.tsx:150 | every row sharing the new row's key becomes the new row; the rest stay |
| Tables.RemoveById | store/mockStore.tsx:149 | exactly the rows without the key survive, in order; a table without the key is unchanged |
| Tables.RemoveCounts | store/mockStore.tsx:149 | a row without the id survives exactly as many times as it occurs; a row with the id never does |
| Tables.Apply | store/mockStore.tsx:147-166 | an insert appends the row; an update replaces every row sharing the row's id by it and keeps all other rows in place; a delete keeps every row without the id exactly as often as before and no row with it |
| Tables.RemoveAppend | store/mockStore.tsx:160 | removing by id distributes over concatenation |
| Tables.RemoveAfterReplace | store/mockStore.tsx:159-160 | an update followed by a delete of the same id ends as the delete alone |
| Tables.InsertUpdateDeleteCancels | store/mockStore.tsx:158-160 | insert, update and delete of one id leave the table as the delete alone would |
| Tables.InsertUpdateDeleteOnEmpty | store/mockStore.tsx:158-160 | on an empty table, insert, update and delete of one id leave it empty |
| Tables.UpdateEchoIsNoOp | store/mockStore.tsx:159 | receiving the same update twice is the same as receiving it once |
| Text.TrimStart | components/ParentView.tsx:148 | the result is a suffix that does not start with whitespace, and only whitespace was dropped |
| Text.TrimEnd | components/ParentView.tsx:148 | the result is a prefix that does not end with whitespace, and only whitespace was dropped |
| Text.TrimNonEmptyIff | components/ParentView.tsx:148 | `trim()` is non-empty exactly when the text has a non-whitespace character (both directions) |
| Text.Decimal | store/mockStore.tsx:260 | the decimal form of a number: at least one digit, only digits, no leading zero |
| Text.DecimalRoundTrip | store/mockStore.tsx:335 | reading back the printed number gives the number |
| Text.FourDigitDecimal | store/mockStore.tsx:335 | a number from 1000 to 9999 prints as exactly four digits |
| Store.StudentWithCode | store/mockStore.tsx:189 | the first student with the access code, `None` exactly when there is none |
| Store.StudentWithId | store/mockStore.tsx:257 | the first student with the id, `None` exactly when there is none |
| Store.ParentOfStudent | store/mockStore.tsx:200 | the first parent of the student, `None` exactly when there is none |
| Store.ParentWithId | components/ParentView.tsx:46 | the first parent with the id, `None` exactly when there is none |
| Store.RequestOfStudent | store/mockStore.tsx:241 | the first request of the student, `None` exactly when there is none |
| Store.StudentLoginId | store/mockStore.tsx:188-195 | the id `loginStudent` activates: present exactly when some student has the code; then the id of the first such student |
| Store.ParentLoginId | store/mockStore.tsx:197-207 | the id `loginParent` activates: present exactly when the code's first student has a parent; then the id of the first parent row of that student |
| Store.WithStatus | store/mockStore.tsx:239-274 | an existing request (every row sharing its id) gets the status and the time, with `hasAnnounced` reset to false on arrival and no other field changed; with no request, a known student gets exactly one new request appended and an unknown student changes nothing |
| Store.WithMessage | store/mockStore.tsx:276-308 | an existing request's chat gains the message at its end and nothing else changes; with no request, a known student gets a new scheduled request holding just the message, and an unknown student changes nothing |
| Store.WithAnnouncement | store/mockStore.tsx:310-316 | rows with the id get the announcement text; everything else is unchanged |
| Store.WithAudio | store/mockStore.tsx:318-324 | rows with the id get the audio; everything else is unchanged |
| Store.WithAnnounced | store/mockStore.tsx:326-332 | rows with the id get `hasAnnounced` set to true; every other row, and every other field, is unchanged |
| Store.ArrivalResetsAnnouncement | store/mockStore.tsx:239-274 | after a change to `arrived`, the student's request is arrived, freshly stamped and not announced |
| Store.MessageIsAppended | store/mockStore.tsx:276-308 | after a message for a known student, that student's chat is the old chat plus the message |
| Store.Activated | store/mockStore.tsx:390 | same sessions in the same order, and exactly those with the id are active |
| Store.CurrentSessionOf | store/mockStore.tsx:87 | the first active session, or the default when none is active |
| Store.ActivatedCount | store/mockStore.tsx:390 | after activation, the number of active sessions equals the number of sessions with that id |
| Store.UniqueIdCount | store/mockStore.tsx:390 | with unique ids, an id that occurs occurs exactly once |
| Store.NoIdCount | store/mockStore.tsx:390 | an id that does not occur is counted zero times |
| Store.ExactlyOneActive | store/mockStore.tsx:388-397 | with unique ids, activating an existing session leaves exactly one session active |
| Store.ActivatedIsCurrent | store/mockStore.tsx:87 | after activating an existing session, the current session is that session |
| Store.NewFamily | store/mockStore.tsx:334-357 | the new student and parent point at each other and have distinct ids; the code is four digits denoting the random roll; names and classroom are the given ones |
| Store.NewFamilyCanLogIn | store/mockStore.tsx:334-357 | after adding a family, its code logs the student in; when the code was unused, the new student is selected, and also the new parent when the student had none |
| Store.AppStore.constructor | store/mockStore.tsx:71-84 | the ids and flags come from what was persisted; the tables hold the demo data, one default session and an empty queue |
| Store.AppStore.CurrentSession | store/mockStore.tsx:87 | the derived current session (see `CurrentSessionOf`) |
| Store.AppStore.ToggleMute | store/mockStore.tsx:102-108 | the mute flag flips |
| Store.AppStore.UpdateGeminiApiKey | store/mockStore.tsx:111-118 | the key in the state becomes the given one |
| Store.AppStore.CheckConfiguration | store/mockStore.tsx:90-95 | configured exactly when both stored credentials are present and non-empty |
| Store.AppStore.ResetConfiguration | store/mockStore.tsx:439-444 | the app is no longer configured |
| Store.AppStore.LoginStudent | store/mockStore.tsx:188-195 | succeeds exactly when some student has the code; on success the first such student is active; on failure nothing changes |
| Store.AppStore.LoginParent | store/mockStore.tsx:197-207 | succeeds exactly when the code's student has a parent; the first parent of that student becomes active; on failure nothing changes |
| Store.AppStore.LoginAdmin | store/mockStore.tsx:209-217 | succeeds exactly for `admin`, and then sets the admin flag |
| Store.AppStore.LoginInstructor | store/mockStore.tsx:219-226 | succeeds exactly for `teach` or `admin`, and then sets the instructor flag |
| Store.AppStore.Logout | store/mockStore.tsx:228-237 | both active ids are cleared and both flags are false |
| Store.AppStore.UpdatePickupStatus | store/mockStore.tsx:239-274 | the queue becomes `WithStatus` of the old queue |
| Store.AppStore.SendMessage | store/mockStore.tsx:276-308 | the queue becomes `WithMessage` of the old queue, with the message stamped at `now` |
| Store.AppStore.SetAnnouncement | store/mockStore.tsx:310-316 | the queue becomes `WithAnnouncement` of the old queue |
| Store.AppStore.SetAudioAnnouncement | store/mockStore.tsx:318-324 | the queue becomes `WithAudio` of the old queue |
| Store.AppStore.MarkAsAnnounced | store/mockStore.tsx:326-332 | the queue becomes `WithAnnounced` of the old queue |
| Store.AppStore.AddStudent | store/mockStore.tsx:334-368 | the new family's student and parent are appended to their tables |
| Store.AppStore.AddSession | store/mockStore.tsx:370-386 | an inactive session ending two hours later is appended |
| Store.AppStore.ActivateSession | store/mockStore.tsx:388-397 | the sessions become `Activated` of the old ones |
| Store.AppStore.SeedDatabase | store/mockStore.tsx:399-403 | students, parents and sessions go back to the demo data and the default session |
| Store.AppStore.ResetSystem | store/mockStore.tsx:423-437 | all four tables are empty |
| Store.AppStore.OnStudentsChange | store/mockStore.tsx:147-151 | a student-table event is merged by `Apply` |
| Store.AppStore.OnParentsChange | store/mockStore.tsx:152-156 | a parent-table event is merged by `Apply` |
| Store.AppStore.OnPickupsChange | store/mockStore.tsx:157-161 | a pickup-table event is merged by `Apply` |
| Store.AppStore.OnSessionsChange | store/mockStore.tsx:162-166 | a session-table event is merged by `Apply` |
| Instructor.Visible | components/InstructorView.tsx:19-25 | the rows under way and in the chosen room, each exactly as often as in the queue, and no other row |
| Instructor.VisibleAppend | components/InstructorView.tsx:19-25 | the feed of a joined queue is the feed of the front followed by the feed of the back, so the kept rows stay in queue order |
| Instructor.SortedCons | components/InstructorView.tsx:26 | a request no older than the head of a newest-first list can go in front of it |
| Instructor.InsertByTime | components/InstructorView.tsx:26 | inserting into a newest-first list keeps it newest-first and adds exactly that request |
| Instructor.SortByTimeDesc | components/InstructorView.tsx:26 | the result is newest-first and a permutation of the input |
| Instructor.SameElements | components/InstructorView.tsx:26 | lists with the same multiset have the same members |
| Instructor.ActiveRequests | components/InstructorView.tsx:19-26 | no scheduled or dismissed request; with `ALL` every request under way is listed; otherwise only the room's; each shown row exactly as often as in the queue and nothing else; newest first |
| Instructor.Selected | components/InstructorView.tsx:64-65 | exactly the arrived, unannounced requests not in flight, in feed order |
| Instructor.SelectedStep | components/InstructorView.tsx:64-65 | selecting from a feed one element longer adds that element exactly when it is selectable |
| Instructor.PlanFor | components/InstructorView.tsx:29-58 | the announcement is skipped exactly when no clip is cached and the student or the parent is unknown; a generated clip is cached only when none was cached and it is non-empty; what plays is nothing when muted, else the cached clip, else the freshly cached one, so nothing plays when generation yields nothing |
| Instructor.AfterAnnouncement | components/InstructorView.tsx:43-53 | a skipped announcement changes nothing; otherwise each row of the request is marked announced and stores any new clip, with every other field (status, chat, timestamp, text, ids) kept, and other requests are unchanged |
| Instructor.MuteDoesNotChangeQueue | components/InstructorView.tsx:48-53 | muting changes only whether a clip plays: the request is still marked announced and a new clip still cached |
| Instructor.AnnouncedIsNotReselected | components/InstructorView.tsx:52-53 | once announced, a request is never selected again |
| Instructor.AnnounceAllStep | components/InstructorView.tsx:64-78 | announcing one more request extends the fold by one announcement |
| Instructor.PlayAndCacheAudio | components/InstructorView.tsx:29-58 | the queue becomes `AfterAnnouncement` of the plan and the payload played is the plan's; nothing plays when muted, the cached clip plays when sound is on, no empty clip plays, and the request keeps its status and chat |
| Instructor.Announcer.constructor | components/InstructorView.tsx:12-16 | nothing in flight and no request shown as processing |
| Instructor.Announcer.Claim | components/InstructorView.tsx:65-67 | claims exactly a selectable request; it is then in flight and cannot be selected again |
| Instructor.Announcer.Release | components/InstructorView.tsx:75-76 | the request leaves the in-flight set and no request is shown as processing |
| Instructor.Announcer.AnnounceIfSelectable | components/InstructorView.tsx:65-77 | a selectable request is announced and released again; otherwise nothing changes |
| Instructor.Announcer.CheckAndAnnounce | components/InstructorView.tsx:62-81 | announces exactly the selected requests, in feed order, with each announcement applied to the queue, and restores the in-flight set |
| Instructor.Announcer.ManualAnnounce | components/InstructorView.tsx:84-96 | runs exactly when the request is not in flight; then it announces it and clears the processing id; otherwise nothing changes |
| Store.LeoParentLogsIn | store/mockStore.tsx:197-207 | with the demo data, code 1234 signs in parent p1 |
| Instructor.ActiveSingleton | components/InstructorView.tsx:19-26 | a one-request queue lists the request exactly when it is shown |
| Instructor.SelectedSingleton | components/InstructorView.tsx:64-65 | a one-request feed selects it exactly when it is selectable |
| Store.LeoLeaves | store/mockStore.tsx:256-267 | Leo's parent leaving creates Leo's request, on the way |
| Instructor.LeoListedOnTheWay | components/InstructorView.tsx:19-26 | an on-the-way request for Leo is listed in his room's feed but not selected for announcement |
| Store.LeoArrives | store/mockStore.tsx:244-246 | the parent's arrival updates that request in place, arrived and not announced |
| Instructor.LeoArrivedIsSelected | components/InstructorView.tsx:64-65 | Leo's arrived, unannounced request is selected |
| Instructor.LeoIsAnnounced | components/InstructorView.tsx:29-58 | Leo's request is announced, not skipped |
| Tts.Clean | services/ttsService.ts:7 | keeps exactly the base64 alphabet and `=`, in order, and is the identity on clean text |
| Tts.CleanAppend | services/ttsService.ts:7 | cleaning distributes over concatenation |
| Tts.SextetChar | services/ttsService.ts:8 | the alphabet character of a 6-bit value, which decodes back to the value |
| Tts.StripPadding | services/ttsService.ts:8 | up to two trailing `=` are removed, and only from a length that is a multiple of four |
| Tts.DecodeGroups | services/ttsService.ts:8 | four characters give three bytes, partial groups fewer; every character is below 256 |
| Tts.Atob | services/ttsService.ts:8 | `atob`: on success, every character is below 256 and the length is three quarters of the unpadded input |
| Tts.Unpadded | services/ttsService.ts:8 | the reference encoder (without padding) writes only alphabet characters, with the length residue the decoder accepts |
| Tts.Encode | services/ttsService.ts:8 | the padded reference encoding has a length that is a multiple of four |
| Tts.QuadRoundTrip | services/ttsService.ts:8 | a full group decodes back to its three bytes |
| Tts.PairRoundTrip | services/ttsService.ts:8 | a two-byte tail decodes back |
| Tts.SingleRoundTrip | services/ttsService.ts:8 | a one-byte tail decodes back |
| Tts.GroupsRoundTrip | services/ttsService.ts:8 | decoding the unpadded encoding of any bytes gives the bytes |
| Tts.StripEncode | services/ttsService.ts:8 | removing the padding of the encoding gives the unpadded encoding |
| Tts.EncodingIsClean | services/ttsService.ts:7 | cleaning and whitespace removal leave an encoding unchanged |
| Tts.EncodeRoundTrip | services/ttsService.ts:5-15 | for any bytes, cleaning then `atob` of their encoding succeeds and gives back the bytes |
| Tts.CharCodes | services/ttsService.ts:11-13 | one byte per character, the character's code |
| Tts.DecodeBase64 | services/ttsService.ts:5-15 | fails exactly when `atob` of the cleaned text fails; otherwise a fresh array holding the character codes |
| Tts.Aligned | services/ttsService.ts:43-47 | an odd-length buffer gains one zero byte at the end, an even one is unchanged |
| Tts.Int16LE | services/ttsService.ts:50 | the signed 16-bit value of two little-endian bytes, in range, and equal to the bytes modulo 2^16 |
| Tts.Int16RoundTrip | services/ttsService.ts:50 | splitting a 16-bit value into its bytes and reading them back gives the value |
| Tts.PcmSamples | services/ttsService.ts:43-51 | one sample per byte pair, rounding up; each in range; sample i reads bytes 2i and 2i+1; an odd last byte becomes a sample of its own |
| Tts.PcmBytes | services/ttsService.ts:50 | the little-endian bytes of a sample list, two per sample |
| Tts.PcmSamplesCons | services/ttsService.ts:50 | the samples of a byte pair followed by more bytes are the pair's sample followed by theirs |
| Tts.PcmRoundTrip | services/ttsService.ts:50 | reading the bytes of any sample list gives the samples back |
| Tts.Align | services/ttsService.ts:42-47 | the buffer used is the data itself when even, otherwise a fresh copy with a zero byte added |
| Tts.SlotsInRange | services/ttsService.ts:57-59 | every channel-and-frame slot is inside the sample view |
| Tts.FillChannels | services/ttsService.ts:55-61 | every channel holds, at each frame, the interleaved sample for that frame and channel |
| Tts.PcmFrames | services/ttsService.ts:37-61 | the mono buffer has one frame per sample, each equal to the sample the byte view gives |
| Tts.PlayGeminiAudio | services/ttsService.ts:82-99 | nothing plays for empty input, when decoding throws, or when the payload decodes to no bytes; otherwise the bytes play natively when the native decoder accepts them, else as the PCM samples of those bytes |
| Chat.SendEnabledIff | components/ParentView.tsx:261 | the send button is enabled exactly when the input has visible text |
| Chat.Composer.constructor | components/ParentView.tsx:11 | the input starts empty |
| Chat.Composer.Edit | components/ParentView.tsx:255 | the input becomes the typed text |
| Chat.Composer.Send | components/ParentView.tsx:147-153 | sends exactly when the input has visible text; sends the untrimmed input as `WithMessage` and then clears it; otherwise nothing changes |
| Chat.NotifiesOncePerMessage | components/ParentView.tsx:58-68 | the same chat never notifies twice; one new message notifies exactly when it comes from the watched side |
| Chat.ChatTracker.constructor | components/ParentView.tsx:58 | the tracker starts at the current chat length |
| Chat.ChatTracker.OnChange | components/ParentView.tsx:59-68 | notifies exactly when the chat grew and its last message is from the watched side; the length is always recorded |
| ParentView.Remaining | components/ParentView.tsx:20 | the time left until the end, and zero once it has passed |
| ParentView.Countdown | components/ParentView.tsx:17-25 | hours below 24, minutes and seconds below 60; all zero once the session has ended |
| ParentView.CountdownIsExact | components/ParentView.tsx:20-24 | within a day of the end, hours, minutes and seconds add up to the whole seconds left |
| ParentView.CountdownDropsDays | components/ParentView.tsx:22 | an end one day later shows the same countdown: whole days are not shown |
| ParentView.CurrentUser | components/ParentView.tsx:46 | the first parent with the active id, `None` exactly when no parent has it |
| ParentView.CurrentPickup | components/ParentView.tsx:48 | with a signed-in parent: the first request in the queue for that parent's child, present exactly when the child has one; none without a signed-in parent |
| ParentView.ParentScreen | components/ParentView.tsx:72-145 | the code form exactly when no parent is signed in; the confirmation screen exactly when the status is `completed`; the dashboard otherwise |
| ParentView.Actions | components/ParentView.tsx:278-331 | after release only the confirmation is offered; otherwise "leaving" is offered unless on the way or arrived, and "here" unless arrived |
| ParentView.ActionsMoveForward | components/ParentView.tsx:278-331 | on the dashboard every offered action moves the pickup forward, an arrived parent is offered nothing, and only a released pickup can be confirmed |
| ParentView.CodeForm.constructor | components/ParentView.tsx:9-10 | an empty code and no error |
| ParentView.CodeForm.Type | components/ParentView.tsx:90-93 | the field keeps at most the first four characters typed |
| ParentView.CodeForm.Submit | components/ParentView.tsx:32-43 | signs in exactly as `loginParent` does and shows the error exactly on failure |
| ParentView.SignedInParentSeesOwnChild | components/ParentView.tsx:46-48 | with unique parent ids, a parent signed in by a code sees the request of that code's student |
| ParentView.HandleStatusUpdate | components/ParentView.tsx:155-161 | a status button updates the request of the signed-in parent's child |
| ParentView.StudentMessageAlertsParent | components/ParentView.tsx:58-68 | a message from the student ends the parent's chat and triggers the parent's notification |
| StudentView.MyRequest | components/StudentView.tsx:12 | the first request in the queue for the active student, `None` exactly when there is none |
| StudentView.CurrentCard | components/StudentView.tsx:105 | the configured card, or the scheduled card when the status has none |
| StudentView.CardFallback | components/StudentView.tsx:62-105 | `dismissed` has no card entry of its own and falls back to `scheduled`'s (only the scheduled icon pulses, which the model leaves out); no other two statuses share an entry |
| StudentView.IconLength | components/StudentView.tsx:62-103 | the lengths of the icon names, which tell the configured card entries apart |
| StudentView.StatusTracker.constructor | components/StudentView.tsx:17 | the tracker starts at the current status |
| StudentView.StatusTracker.OnStatus | components/StudentView.tsx:18-25 | notifies exactly on a change to on-the-way, arrived or released, and records every change |
| StudentView.AlertsAlongTheWorkflow | components/StudentView.tsx:18-25 | an unchanged status never alerts; each step up to release alerts; completion, `scheduled` and `dismissed` never do |
| StudentView.ParentMessageAlertsStudent | components/StudentView.tsx:28-43 | a message from the parent ends the student's chat and triggers the student's notification |
| StudentLogin.Keypad.constructor | components/StudentLogin.tsx:7-8 | an empty code and no error |
| StudentLogin.Keypad.HandlePress | components/StudentLogin.tsx:11-28 | the code stays at most four digits; a digit below four is appended and clears the error; the fourth digit submits; a rejected code raises the error and empties the code; a press at four changes nothing |
| StudentLogin.Keypad.HandleBackspace | components/StudentLogin.tsx:30-34 | drops the last digit (nothing on an empty code) and clears the error |
| SetupView.FailureMessage | components/SetupView.tsx:41-52 | a failed test always shows a message: the error's own when it has one |
| SetupView.LinkFields | components/SetupView.tsx:17-32 | the link fills the fields exactly when it is present, decodes, parses, and both values are non-empty, and then with those values |
| SetupView.Setup.constructor | components/SetupView.tsx:8-11 | empty fields, idle, no message |
| SetupView.Setup.ApplyLink | components/SetupView.tsx:17-32 | the fields take the link's values when it yields both, otherwise nothing changes; the status is kept, so `Trusted()` survives unless a link refills the fields while the status is `success` |
| SetupView.Setup.EditUrl | components/SetupView.tsx:122 | the URL changes and the status goes back to idle |
| SetupView.Setup.EditKey | components/SetupView.tsx:133 | the key changes and the status goes back to idle |
| SetupView.Setup.StartTest | components/SetupView.tsx:35-37 | testing, with the message cleared, on the credentials in the fields |
| SetupView.Setup.FinishTest | components/SetupView.tsx:38-53 | as written: a connection gives success; otherwise error with its message; whatever the fields hold by then |
| SetupView.Setup.FinishCurrentTest | components/SetupView.tsx:38-53 | corrected: the outcome applies only while the fields hold the tested credentials, and it keeps `Trusted()`: `success` means the fields were tested, across every screen action except a link refill after a success (see Left out) |
| SetupView.Setup.HandleSave | components/SetupView.tsx:56-61 | hands over the credentials exactly when both are filled and the status is success; with a trusted status these are credentials that connected |
| SetupView.StaleTestEnablesSave | components/SetupView.tsx:35-61 | editing during a test lets the old result enable saving credentials no test connected with |
| SetupView.StaleTestIsDropped | components/SetupView.tsx:35-61 | with the corrected finish, the same sequence leaves the screen idle with nothing to save |

## Findings

| source | as written | input that shows it | evidently intended | confidence | as-written member | corrected member |
|---|---|---|---|---|---|---|
| components/SetupView.tsx:35-53, 122, 133 | a test's outcome is applied to the screen whenever it arrives, even if the URL or key were edited while it ran | type URL A and a key, click "Test", change the URL to B before the test returns; the test of A succeeds, the status becomes `success` and Save stores B, which was never tested | editing resets the status to idle so that `success` always refers to the credentials in the fields; a stale outcome should be dropped | medium, not executed | SetupView.StaleTestEnablesSave | SetupView.Setup.FinishCurrentTest |

## Left out

- Backend calls are left out: `getSupabase`, the `supabase.from(...)` writes, the change-feed subscription and `refreshData`. Only the local state change of each action is modelled, with no rollback. The change-feed handlers receive their events as parameters.
- `localStorage` persistence is left out: login flags, active ids, the AI key and the credentials. What was stored is a constructor or method parameter, and `HandleSave` returns the credentials instead of writing them.
- `alert`, `window.location.reload`, the sound effects and the navigation after a save are left out.
- Timers are modelled as direct steps:
  - the 500 ms pause before an announcement;
  - the 500 ms delayed clearing of a rejected keypad code (the code is cleared in the same step);
  - the one-second countdown interval, which is `Countdown` evaluated at a given `now`.
- The asynchronous interleaving of announcements with other actions is left out. So are races between tabs or devices. `CheckAndAnnounce` runs its loop to the end against one store.
- The AI speech service is left out. It is a parameter of type `(string, string, string) -> Option<string>` that receives the arguments as the instructor screen passes them. Its first argument is the student's name, although the service declares it as an API key. The model keeps that call as it is.
- `Math.random` is left out. The access code's random roll (1000 to 9999) is a parameter.
- Audio playback is left out: the `AudioContext`, its resumption, the browser's native decoder (a parameter predicate in `PlayGeminiAudio`) and the buffer source.
- Tts.PcmFrames: the division of each sample by 32768.0 is floating point and is not modelled. Frames hold the integer samples.
- Tts.PcmFrames: the 16-bit view assumes a little-endian platform, as the source's own comment does.
- The JSON parsing of the setup link is a parameter: it gives the `url` and `key` values or fails.
- `initSupabase` is a parameter. Whether a client can be built and whether the probe query fails are given as the `Probe` outcome.
- Instructor.SortByTimeDesc: the order among requests with equal timestamps is not stated. The source relies on the engine's sort, which the language specifies as stable only in recent editions.
- Store.AppStore.AddStudent and Store.AppStore.AddSession: the admin forms only call these with names that have visible text. That guard is their precondition. The admin screen itself is not part of this model.
- Store.NewRequest: a new request from a status change has no `hasAnnounced` field, even for `arrived`. The code is followed here. A description of the system that says a request arriving is "not yet announced" still holds, because an absent flag reads as false.
- The status type in types.ts lists four statuses. The screens also use `released` and `completed`, so the model has all six.
- Store.WithStatus, Store.WithMessage and Store.NewFamily: the times one action reads from the clock are taken as equal. The source calls `Date.now()` separately for the request id and its timestamp, for a message and the request it creates, and for the new student's and parent's ids. The model passes a single `now`.
- StudentView.CardFallback: the pulse animation on the scheduled icon is styling and is left out. A dismissed request's card shares the scheduled entry but does not pulse.
- SetupView.Setup.ApplyLink: a link applied while the status is `success` replaces the fields without resetting the status, so `success` can then refer to credentials no test connected with. The link effect runs again when the query string changes. The model states when `Trusted()` survives and does not correct this path.
- The classroom tab buttons, scrolling and all styling are left out. `filter` is a parameter of `ActiveRequests`, and the card colours appear only as data.
