# Badge protocols, verified

This project models the parts of the conference badge and of its two services in which an ordering,
an interleaving, a crash or a malformed input decides the outcome, and proves what they promise for
every run and every input. One Dafny module stands for one component; `dafny verify dfyconfig.toml`
checks all of it.

**Sending a reply at most once.** `Ledger` and `LedgerRuns` model the gateway's durable ledger of
receipts and target guards, split at each `await`, with concurrent calls and crashes that lose what was
not flushed. `ReplyText`, `VoiceReply` and `VoiceInvariants` model the badge's half: the text that is
paged for review, the gate that enables Send only after every page was drawn, and the key that is saved
before the request; `VoiceController` performs these decisions on the controller's fields. `ReplySystem`
composes the device (with reboots, cancels and lost replies) with the ledgers and proves the end-to-end
guarantees.

**Storage and ownership on the badge.** `ProfileStore`, `ProfileStoreRuns` and `ProfileStoreBoots` cover
the profile cache and its durable block mask under power loss, both what is never loaded and what is;
`VoiceRecorder` and `BackgroundHttp` the two pairs of tasks that pass one buffer or one job between them;
`HttpGate` and `ConferenceTransport` the setup portal's header grammar and its byte-by-byte machine.

**Installer, codecs and small recognizers.** `PartitionTable` and `FlashPlan` cover the factory
installer, down to the content of the flash after the plan was executed in any order; `ProfileRecord`
the profile record and its migration; `SocialNetworks` and `AvatarRoute` handles, URLs, provider
recognition and the relay that must agree with them; `ConferenceClock` the calendar; `Morse` the unlock
recognizer; `TouchObservation` the contact recorder.

Code that updates objects or buffers is modelled by classes and methods with loops; each is proved equal
to a function of the old state, and the lemmas speak about these functions. Interleavings are runs over
single accesses to shared state.

## Reading the results

Where the code does not meet the obvious property, the project keeps the code as it is, gives the
concrete run or input, and proves exactly when the property holds:

- A status check answers from memory without waiting for storage. A final receipt outlives every later
  run exactly when the version that wrote it is flushed (`LedgerRuns.FinalReceiptLastsIffFlushed`), and a
  reply that is held until its own version is flushed always reports such a receipt
  (`LedgerRuns.ReplyLastsIffFlushed`). The platform's output gate holds replies that way, and `ReplySystem`
  releases them so; `LedgerRuns.UnflushedStatusReplyCanBeLost` is the run that the gate prevents.
- If a block-mask write takes effect but its verification fails, memory misses the durable bit. A later
  removal of another provider then writes the stale mask, and the removed profile can come back
  (`ProfileStoreRuns.RemovedProfileCanReappear`). Over all runs this happens exactly when the mask in
  memory misses the bit (`ProfileStoreRuns.BlockedRecordReappearsIff`); after a removal that reported
  success it never does (`ProfileStoreRuns.RemovedForGood`).
- A committed profile is not always kept: if the mask was not read on a boot, removing another provider
  writes the power-up mask, and the profile no longer loads (`ProfileStoreBoots.CommittedRecordCanBeLost`).
  Nothing else but its own save, its removal or a clearing has that effect
  (`ProfileStoreBoots.CommittedRecordStaysIff`).
- Replacing a remote identity blocks first only if the old record was found; otherwise the old one stays
  on offer until the rename (`ProfileStoreRuns.ReplacedIdentityOfferedIff`).
- `postWav` looks at its clip after one `collect` and `pollOrStart` collects again: polling without a
  clip while a cancelled job drains can start a transcription without audio
  (`BackgroundHttp.TranscriptionWithoutAudioCanStart`), exactly when the response arrives between the two
  (`BackgroundHttp.SoundlessStartIffCancelledResponse`).
- `strchr` accepts a NUL in handles; encoding such a profile succeeds and decoding refuses it
  (`ProfileRecord.DecodeOfEncodeIff`), its URL is not recognized (`SocialNetworks.RecognizeFindsAccountIff`)
  and the relay refuses it (`AvatarRoute.PhotoSourceIsServedIff`). Networks below -1 are stored as -1.
- The relay's table is an object literal, so a request for the network `constructor` is not refused: it
  throws (`AvatarRoute.ThrowsIff`); no source the badge names does (`AvatarRoute.PhotoSourceIsServedIff`).

Given from outside: keys are fresh random strings never drawn twice, a send reaches a ledger only as a
request of this device or under a key of another one, and a receipt in a response comes from the ledger
of the account that asked (`ReplySystem`); SHA-256 and MD5 are functions (collision-free where a
comparison decides); littlefs rename is atomic; atomics are sequentially consistent;
`decodeURIComponent` leaves text without `%` alone.

## Model

| member | source | states |
|---|---|---|
| Ledger.Charged | gateway/src/ledger.ts:38-45 | counting a request against a quota never touches receipts or guards |
| Ledger.ReplyLedger.ConsumeQuota | gateway/src/ledger.ts:38-45 | allowed exactly while the count of the current window is below the limit; the whole new state of the tables |
| Ledger.ReplyLedger.PermitBucket | gateway/src/ledger.ts:33-37 | the audio bucket is charged to its daily quota first; the whole new state |
| Ledger.ReplyLedger.SaveReceipt | gateway/src/ledger.ts:58-61 | the row is updated and, on failure only, this receipt's own guard is released |
| Ledger.ReplyLedger.LookUp | gateway/src/ledger.ts:46-57 | a stale pending receipt becomes unknown, any other is returned unchanged |
| Ledger.ReplyLedger.Reserve | gateway/src/ledger.ts:64-82 | the synchronous stretch of send up to the barrier: conflict, existing receipt, admission limits, guard, insert |
| Ledger.ReplyLedger.Settle | gateway/src/ledger.ts:98-111 | the verdict on the provider's answer is stored for exactly this key |
| Ledger.LiveReceiptsHaveDistinctTargets | gateway/src/ledger.ts:75-82 | no two pending, unknown or sent receipts share (sender, target) |
| Ledger.SaveKeeps | gateway/src/ledger.ts:58-61 | saving keeps guards and live receipts in step and frees at most its own key |
| Ledger.StatusKeeps | gateway/src/ledger.ts:46-57 | a status check never releases a guard nor changes a final receipt |
| Ledger.AdmitKeeps | gateway/src/ledger.ts:68-82 | admitting keeps guards and live receipts in step; a receipt admitted as pending owns its target |
| Ledger.RepeatedKeyNeverReservesAgain | gateway/src/ledger.ts:68-72 | a key that has a receipt is never reserved again, whatever the fingerprint |
| LedgerRuns.RunKeeps | gateway/src/ledger.ts:62-114 | every step of every interleaving, crashes included, keeps the invariant of tables, calls and POSTs |
| LedgerRuns.AtMostOneUnrefusedPost | gateway/src/ledger.ts:75-105 | in every run an earlier POST to the same (sender, target) was definitively refused, and no key is POSTed twice |
| LedgerRuns.DispatchOnlyAfterRefusal | gateway/src/ledger.ts:83-105 | when a POST is dispatched its guard is durable, its key new, and every earlier POST to that target was refused |
| LedgerRuns.EveryPostWasSent | gateway/src/ledger.ts:62-98 | in every run a POST carries the key and the request that send was called with, word for word |
| LedgerRuns.GuardsAreExactlyTheLiveReceipts | gateway/src/ledger.ts:58-82 | in memory and on disk a guard exists exactly for each pending, unknown or sent receipt with the same key |
| LedgerRuns.FinalReceiptsAbsorb | gateway/src/ledger.ts:46-61 | a flushed sent or failed receipt is changed by no later call, status check or crash |
| LedgerRuns.FinalReceiptLastsIffFlushed | gateway/src/ledger.ts:46-61 | in every run a sent or failed receipt survives every continuation if and only if storage has flushed the version that wrote it |
| LedgerRuns.ReplyLastsIffFlushed | gateway/src/ledger.ts:111-113 | a reply never predates the write of its receipt; a reply whose version is flushed, as every reply of send is, reports a receipt that lasts, and one whose receipt is not flushed does not |
| LedgerRuns.UnflushedStatusReplyCanBeLost | gateway/src/ledger.ts:46-57 | a concrete run in which, were the reply not held until its flush, a failed receipt would be reported and a crash bring the pending one back |
| ReplyText.CodePoint | firmware/devices_badge/voice_reply_ui.h:41-57 | a well-formed run stands for a code point in range and no surrogate (section 3 of RFC 3629) |
| ReplyText.TokenShowsExactlyWellFormedRuns | firmware/devices_badge/voice_reply_ui.h:36-61 | a multi-byte run is shown as a code point exactly when it is well formed (section 4 of RFC 3629), otherwise byte by byte |
| ReplyText.RunLengthUnique | firmware/devices_badge/voice_reply_ui.h:41-48 | at most one run length is well formed at an offset |
| ReplyText.DecoderAgrees | firmware/devices_badge/voice_reply_ui.h:45-57 | the decoder's masks and range checks accept exactly the well-formed runs and yield their code point |
| ReplyText.HexReads | firmware/devices_badge/voice_reply_ui.h:55-60 | the printed number determines the code point |
| ReplyText.NextToken | firmware/devices_badge/voice_reply_ui.h:36-61 | the loop always advances and returns the token of the specification |
| ReplyText.PagesPartitionTheLines | firmware/devices_badge/voice_reply_ui.h:63-98 | the pages 0..pages-1 are a partition of one fixed list of lines |
| ReplyText.LinesFitTheScreen | firmware/devices_badge/voice_reply_ui.h:63-98 | no line is longer than 30 columns |
| ReplyText.LinesHoldEveryVisibleCharacter | firmware/devices_badge/voice_reply_ui.h:63-98 | the lines hold every character that is neither space nor newline of the escaped text, in order |
| ReplyText.Emit | firmware/devices_badge/voice_reply_ui.h:67-73 | a finished line is kept exactly when it belongs to the requested page |
| ReplyText.ShiftLeft | firmware/devices_badge/voice_reply_ui.h:87-88 | the rest of a broken line moves to the front of the buffer, in place |
| ReplyText.PutChar | firmware/devices_badge/voice_reply_ui.h:79-92 | one character into the line buffer is one step of the layout |
| ReplyText.ScanText | firmware/devices_badge/voice_reply_ui.h:63-98 | for every byte string and page, the page of the list of lines, the page count, and whether anything was escaped |
| ReplyText.Paginate | firmware/devices_badge/voice_reply_ui.h:100-109 | the page is clamped, and an overlong text is replaced by a notice and marked incomplete |
| VoiceReply.VoiceSendGate.SetDraft | firmware/devices_badge/voice_reply_state.h:49-52 | a new draft is refused while a send is unresolved and always starts unreviewed; the whole new state |
| VoiceReply.VoiceSendGate.BeginSend | firmware/devices_badge/voice_reply_state.h:54-60 | sending starts only from a reviewed draft; the whole new state |
| VoiceReply.VoiceSendGate.Receipt | firmware/devices_badge/voice_reply_state.h:65-70 | only a terminal receipt ends an unresolved send; the whole new state |
| VoiceController.Controller.constructor | firmware/devices_badge/voice_reply.h:95-113 | after start-up whatever survived in flash leaves the send unresolved and the record and its copy in step |
| VoiceController.Controller.Forget | firmware/devices_badge/voice_reply.h:83-89 | the saved key is erased, or it stays in memory and every later send is blocked |
| VoiceController.Controller.Cancel | firmware/devices_badge/voice_reply.h:133-141 | a send that was handed over keeps its record and becomes uncertain; only one that was not is given up; nothing is saved |
| VoiceController.Controller.Send | firmware/devices_badge/voice_reply.h:167-188 | a request is queued only for a reviewed and eligible draft, after its record was stored, with the text on screen and the mention shown; if storage fails nothing is queued and every later send is blocked |
| VoiceController.Controller.Receive | firmware/devices_badge/voice_reply.h:228-244 | only a final receipt for the saved key, target, sender and account ends a send or touches the record; any other answer leaves it undecided |
| VoiceController.RenderKeepsPromise | firmware/devices_badge/voice_reply.h:343-351 | drawing extends the review by the next page only, and offers Send only once every page was drawn |
| VoiceController.Controller.DrawReview | firmware/devices_badge/voice_reply.h:343-351 | the pages drawn stay the exact measure of the review, which grows by the next page only; Send is offered only once all were drawn |
| VoiceInvariants.NextKeepsRecord | firmware/devices_badge/voice_reply.h:74-113 | every event keeps the saved record and its copy in memory in step, and a queued send has its record on flash |
| VoiceInvariants.NextKeepsReview | firmware/devices_badge/voice_reply.h:278-284 | no event makes the review run ahead of the pages drawn since the transcript arrived |
| VoiceInvariants.KeyErasedOnlyWhen | firmware/devices_badge/voice_reply.h:83-89 | the saved key disappears only while its request was never handed over, or when a matching terminal receipt has just come in |
| VoiceInvariants.KeySavedOnlyBySend | firmware/devices_badge/voice_reply.h:167-188 | a key is saved and a send queued only by the explicit Send that drew the key, with the transcript on screen as its text |
| VoiceInvariants.EnqueuedIsTheRecord | firmware/devices_badge/voice_reply.h:322-341 | the request handed to the network carries the key, owner, target and sender saved on flash, and the record stays |
| ReplySystem.RunKeeps | firmware/devices_badge/voice_reply.h:293-341 | every run of device, wire and ledgers keeps the system invariant |
| ReplySystem.KeyErasedOnlyWhenSafe | firmware/devices_badge/voice_reply.h:228-244 | the device erases its key only if the request was never enqueued or the ledger holds a final receipt for exactly that owner, key, target and sender |
| ReplySystem.AtMostOneUnresolvedRequest | firmware/devices_badge/voice_reply.h:167-188 | at most one key is ever unresolved, and it is the saved one |
| ReplySystem.KeyEnqueuedAtMostOnce | firmware/devices_badge/voice_reply.h:322-341 | no key is handed to the network twice |
| ReplySystem.SendEnabledOnlyAfterFullReview | firmware/devices_badge/voice_reply.h:343-357 | Send is enabled only when every page of the current transcript was drawn since it arrived, in every run |
| ReplySystem.OnlyReviewedTextIsEnqueued | firmware/devices_badge/voice_reply.h:167-188 | every text handed to the network was fully reviewed |
| ReplySystem.EveryPostWasReviewed | gateway/src/ledger.ts:62-105 | from the screen to the provider: every POST a ledger makes, except under a key of another device, is the request this device made under that key, for that account, target and sender, and its text was drawn in full before |
| ProfileStore.ProfileCache.SetBlock | firmware/devices_badge/profile_store.h:164-175 | the mask is durable and verified, or nothing is loaded any more in this boot; the whole new state and every state passed through |
| ProfileStore.ProfileCache.MountStore | firmware/devices_badge/profile_store.h:182-204 | mount, format-once flag and mask; the whole new state and every state passed through |
| ProfileStore.ProfileCache.LoadProfile | firmware/devices_badge/profile_store.h:206-225 | only a whole record of the right owner and workspace, and not a blocked one |
| ProfileStore.ProfileCache.SaveProfile | firmware/devices_badge/profile_store.h:227-266 | block, write, read back, rename, unblock; what lands in the temporary file need not be what was written; the whole new state and every state passed through |
| ProfileStore.ProfileCache.RemoveProfile | firmware/devices_badge/profile_store.h:268-278 | block first, then delete; the whole new state and every state passed through |
| ProfileStore.ProfileCache.ClearProfiles | firmware/devices_badge/profile_store.h:279-290 | block all first, then delete; the whole new state and every state passed through |
| ProfileStoreRuns.EveryInterruptionIsClean | firmware/devices_badge/profile_store.h:227-290 | power lost at any step of any operation leaves each provider's file as it was, whole and new if it is being saved, or gone if this operation removes it or formats; never a mix, even if a write reported good left other bytes |
| ProfileStoreBoots.BootLoadsIff | firmware/devices_badge/profile_store.h:182-225 | a boot in which everything works loads a record if and only if it is whole in its file and the flags on disk allow it |
| ProfileStoreBoots.SavedRecordIsLoaded | firmware/devices_badge/profile_store.h:227-266 | in every run, a record whose save reported success is loaded by the next boot |
| ProfileStoreBoots.InterruptedSaveLoadsOldOrNew | firmware/devices_badge/profile_store.h:227-266 | with power lost at any step of a save, the next boot loads the committed record or the new one; neither only while another identity is being replaced and blocked |
| ProfileStoreBoots.CommittedRecordStaysIff | firmware/devices_badge/profile_store.h:164-290 | over every run without a save or removal of the provider and without a clearing, its record keeps being loaded if and only if no removal of another provider takes effect while memory takes it for blocked |
| ProfileStoreBoots.CommittedRecordCanBeLost | firmware/devices_badge/profile_store.h:268-278 | a concrete run: the mask is not read on one boot, another provider is removed, and the next boot no longer loads the record |
| ProfileStoreRuns.FormatsAtMostOnce | firmware/devices_badge/profile_store.h:192-198 | over all boots and interruptions the partition is formatted at most once |
| ProfileStoreRuns.RevokedRecordNeverReappears | firmware/devices_badge/profile_store.h:206-290 | once a provider's block is on disk and in memory, no run of operations, failures, interruptions and boots loads anything for it but a record saved in that run |
| ProfileStoreRuns.RemovedForGood | firmware/devices_badge/profile_store.h:268-290 | a removal or clearing that reported success is final for every later run |
| ProfileStoreRuns.ReplacedIdentityNeverLoads | firmware/devices_badge/profile_store.h:242-266 | at every step of replacing a remote identity that was found, the provider is blocked or holds the new record |
| ProfileStoreRuns.ReplacedIdentityOfferedIff | firmware/devices_badge/profile_store.h:242-244 | the old identity stays on offer during a save that gets as far as writing if and only if it was not found (not readable, or of another owner or workspace), was not blocked, and the new file could be opened |
| ProfileStoreRuns.BlockedRecordReappearsIff | firmware/devices_badge/profile_store.h:164-175 | over runs: a durably blocked record can be loaded again without being saved if and only if the mask in memory misses its bit |
| ProfileStoreRuns.RemovedProfileCanReappear | firmware/devices_badge/profile_store.h:268-278 | memory does miss it: after a boot and a removal whose verification read fails, a later run loads the removed profile again |
| VoiceRecorder.VoiceRecorder.Step | firmware/devices_badge/voice_recorder.h:43-234 | one step of either task, whichever comes next, keeps the ownership invariant of the fields |
| VoiceRecorder.VoiceRecorder.StepStart | firmware/devices_badge/voice_recorder.h:43-56 | start touches no audio, is accepted only when idle or failed, and carries no cancel of an earlier recording |
| VoiceRecorder.VoiceRecorder.StepCancel | firmware/devices_badge/voice_recorder.h:64-75 | cancel touches no audio; once it returned nothing can be claimed, and the worker was told if there was anything to discard |
| VoiceRecorder.VoiceRecorder.StepTake | firmware/devices_badge/voice_recorder.h:93-102 | exactly the published buffer is handed out, whole, within the allocation, and for the first time |
| VoiceRecorder.VoiceRecorder.StepFree | firmware/devices_badge/voice_recorder.h:114-131 | the idle worker touches no audio, claims a published recording back only if it was cancelled, and sleeps on no unannounced start |
| VoiceRecorder.VoiceRecorder.StepDiscard | firmware/devices_badge/voice_recorder.h:147-163 | the memory is wiped throughout before the buffer is freed; DISCARDING is left only without a buffer, and for FAILED only with a code |
| VoiceRecorder.VoiceRecorder.StepOpen | firmware/devices_badge/voice_recorder.h:165-180 | a buffer is allocated only while there is none |
| VoiceRecorder.VoiceRecorder.StepCapture | firmware/devices_badge/voice_recorder.h:185-234 | a recording is published only with its buffer, at least one whole chunk, no error, and the size of exactly the chunks captured |
| VoiceRecorder.RunKeeps | firmware/devices_badge/voice_recorder.h:43-234 | every interleaving of the two tasks keeps the ownership invariant |
| VoiceRecorder.BufferHasOneOwner | firmware/devices_badge/voice_recorder.h:93-234 | the buffer belongs to the capture, the published result or the claiming take, to one of them only, and to nobody when idle or failed |
| VoiceRecorder.BufferLeavesExactlyOnce | firmware/devices_badge/voice_recorder.h:93-163 | every buffer is wiped and freed or handed out, once and for good, and what is handed out is a whole recording within the allocation |
| VoiceRecorder.CancelledCaptureIsNeverTaken | firmware/devices_badge/voice_recorder.h:64-102 | after a cancel returned no take succeeds until a new start is accepted |
| VoiceRecorder.PublishedAudioIsOnlyDiscardedWhenCancelled | firmware/devices_badge/voice_recorder.h:114-131 | a published recording keeps its bytes and stays until a take claims it, or the discard of a cancel |
| VoiceRecorder.RestingRecorderHasNothingPending | firmware/devices_badge/voice_recorder.h:114-131 | no wake-up is lost: with both tasks at rest no start goes unnoticed and no cancelled recording stays in memory |
| VoiceRecorder.FailureAlwaysHasACode | firmware/devices_badge/voice_recorder.h:155-163 | a failed recorder carries an error code and a published recording none |
| VoiceRecorder.Wipe | firmware/devices_badge/voice_recorder.h:147-154 | no sample is left in the buffer |
| VoiceRecorder.Levels | firmware/devices_badge/voice_recorder.h:220-229 | the true peak, and the mean rounded down, never above the peak |
| BackgroundHttp.BadgeBackgroundHttp.Collect | firmware/devices_badge/background_http.h:292-297 | one access to the response queue; a cancelled result is destroyed; the whole new state |
| BackgroundHttp.BadgeBackgroundHttp.CancelJob | firmware/devices_badge/background_http.h:63-66 | cancelling never touches what the worker owns; the whole new state |
| BackgroundHttp.BadgeBackgroundHttp.PollJob | firmware/devices_badge/background_http.h:298-305 | the polling half of a call with the consumer of its result; the whole new state |
| BackgroundHttp.BadgeBackgroundHttp.StartJob | firmware/devices_badge/background_http.h:306-321 | the starting half of a call; the clip moves only on success; the whole new state |
| BackgroundHttp.BadgeBackgroundHttp.ExecuteJob | firmware/devices_badge/background_http.h:339-402 | the worker runs a job and wipes its clip; the whole new state |
| BackgroundHttp.RunKeeps | firmware/devices_badge/background_http.h:272-350 | every interleaving of caller and worker keeps the ownership invariant |
| BackgroundHttp.OneJobWhileActive | firmware/devices_badge/background_http.h:292-350 | exactly one job exists while active and none otherwise, and the worker never finds the response queue occupied |
| BackgroundHttp.ResultBelongsToLastJob | firmware/devices_badge/background_http.h:298-337 | a result belongs to the job enqueued last, not cancelled, of the kind asked for; it is reported once; a 200 has a body, and the avatar caller then owns it |
| BackgroundHttp.EverythingLeavesOnce | firmware/devices_badge/background_http.h:272-291 | response buffers are freed or handed over, clips kept or wiped, never both, in every continuation, and nothing is left behind when idle |
| BackgroundHttp.CallerKeepsClipUnlessEnqueued | firmware/devices_badge/background_http.h:306-321 | a start fails exactly when a resource is missing, and then the caller keeps its clip and no job is left |
| BackgroundHttp.SoundlessStartIffCancelledResponse | firmware/devices_badge/background_http.h:124-130 | a poll without a usable clip goes on to start a job if and only if the job in flight was cancelled and its response arrives between the two collects |
| BackgroundHttp.TranscriptionHasAudioUnlessCancelled | firmware/devices_badge/background_http.h:124-130 | without a cancellation every transcription starts with a clip of 44 to 960044 bytes |
| BackgroundHttp.TranscriptionWithoutAudioCanStart | firmware/devices_badge/background_http.h:124-130 | a concrete interleaving that enqueues a transcription without audio |
| HttpGate.FoldAcceptsIff | firmware/devices_badge/conference_http_gate.h:33-61 | the line-by-line fold accepts exactly the order-free header grammar and learns exactly its summary |
| HttpGate.ParseLengthIsDecimal | firmware/devices_badge/conference_http_gate.h:45-48 | the digit loop accepts exactly decimal numbers up to 131072 and returns their value |
| HttpGate.AcceptedIsMessage | firmware/devices_badge/conference_http_gate.h:20-61 | every accepted header is the rendering of a request line and well-formed lines |
| HttpGate.AcceptanceMeans | firmware/devices_badge/conference_http_gate.h:20-70 | acceptance implies one Content-Length whose decimal value is the body length within its route limit for a POST, none or zero for a GET, the right media type, and a well-formed nonce |
| HttpGate.OrderDoesNotMatter | firmware/devices_badge/conference_http_gate.h:33-61 | every ordering of the header lines is accepted alike, with the same parsed request |
| HttpGate.AcceptedIff | firmware/devices_badge/conference_http_gate.h:20-70 | any message is accepted as a given request if and only if its size, request line, order-free lines, length, nonce and media type fit |
| HttpGate.RenderedRequestIsRecovered | firmware/devices_badge/conference_http_gate.h:20-70 | rendering a valid request with any further well-formed headers, a Host or none, in any order, and inspecting it gives back method, path, nonce and length |
| HttpGate.FindCrlf | firmware/devices_badge/conference_http_gate.h:17 | the loop finds the first CRLF |
| HttpGate.ReadLength | firmware/devices_badge/conference_http_gate.h:45-48 | the decimal loop agrees with the specification, including which error comes first |
| HttpGate.Inspect | firmware/devices_badge/conference_http_gate.h:20-70 | the whole loop equals the specification for every input, error codes included |
| ConferenceTransport.ChunkingDoesNotMatter | firmware/devices_badge/conference_transport.h:138-165 | for every split into chunks the connection reads the request, body and reply of a one-shot reading of the whole stream |
| ConferenceTransport.SameStreamSameReply | firmware/devices_badge/conference_transport.h:138-165 | two splits of the same bytes end in the same state |
| ConferenceTransport.HeaderEndIsFirst | firmware/devices_badge/conference_transport.h:143-157 | the one-shot reading cuts at the first blank line |
| ConferenceTransport.BodyIsContentLength | firmware/devices_badge/conference_transport.h:151-163 | a body handed over is exactly the Content-Length bytes after an accepted header |
| ConferenceTransport.ReplyIsSentInOrder | firmware/devices_badge/conference_transport.h:75-86 | whatever the socket takes, the wire carries a prefix of the reply in order, and all of it exactly when both strings are used up |
| ConferenceTransport.Connection.FinishHeader | firmware/devices_badge/conference_transport.h:108-118 | gate, handler and body buffer; the whole new state |
| ConferenceTransport.Connection.ReceiveBody | firmware/devices_badge/conference_transport.h:158-162 | the bulk copy equals feeding the bytes one by one |
| ConferenceTransport.Connection.Tick | firmware/devices_badge/conference_transport.h:138-165 | one received chunk equals feeding its bytes one by one |
| PartitionTable.ParsedIsPrinted | web-flasher/src/factory.js:53-87 | every accepted sector is an ordered, aligned table inside the flash and is its own printing byte for byte |
| PartitionTable.PrintedIsParsed | web-flasher/src/factory.js:53-87 | every such table prints to a sector that parses back to it |
| PartitionTable.OrderedIsDisjoint | web-flasher/src/factory.js:80-84 | accepted entries never overlap, start at 0x9000 or later and end within 16 MiB |
| PartitionTable.ParsePartitionSector | web-flasher/src/factory.js:53-87 | the record loop equals the specification for every input |
| FlashPlan.ManifestAcceptsIff | web-flasher/src/guards.js:47-63 | a release is accepted exactly when it has the three components, each once, in any order and within its space |
| FlashPlan.ValidateManifest | web-flasher/src/guards.js:54-62 | the loop that deletes offsets from a map equals the specification |
| FlashPlan.SortedSorts | web-flasher/src/factory.js:147 | the sort keeps every file and orders them by address |
| FlashPlan.PlanNeverOverlaps | web-flasher/src/factory.js:147-155 | the overlap error is unreachable: a plan exists exactly when the checks before it pass |
| FlashPlan.PlanIsDisjoint | web-flasher/src/factory.js:142-155 | the sector-rounded writes are aligned, pairwise disjoint and inside 16 MiB |
| FlashPlan.ComponentsAreWritten | web-flasher/src/factory.js:118-141 | executed in any order, every component is at its offset byte for byte, the table padded to its sector |
| FlashPlan.ErasedRangesAreBlank | web-flasher/src/factory.js:39-42 | executed in any order, both erased ranges read 0xFF throughout, and every address outside them and outside the sectors of the artifacts keeps its byte |
| FlashPlan.CreateFactoryPlan | web-flasher/src/factory.js:118-162 | the loops over artifacts, chunks and ranges equal the specification |
| ProfileRecord.NameIsTextIff | firmware/factory_badge/main/services.cpp:71-89 | a name is accepted exactly when, trimmed, it is the UTF-8 text of at most 60 shown code points in at most 120 bytes |
| ProfileRecord.EncodeFits | firmware/factory_badge/main/services.cpp:117-140 | every valid profile encodes, in at most 439 of 768 bytes |
| ProfileRecord.DecodeOfEncodeIff | firmware/factory_badge/main/services.cpp:135-149 | decoding an encoded profile gives it back if and only if its handle has no NUL and its network is at least -1 |
| ProfileRecord.EncodeOfDecode | firmware/factory_badge/main/services.cpp:135-149 | encoding a decoded record gives it back byte for byte |
| ProfileRecord.MigrationSurvives | firmware/factory_badge/main/services.cpp:150-164 | every accepted record of version 1 or 2 becomes a valid profile that survives re-encoding |
| ProfileRecord.ReadName | firmware/factory_badge/main/services.cpp:71-89 | the decoding loop equals the specification |
| ProfileRecord.PutFields | firmware/factory_badge/main/services.cpp:117-125 | the writing loop equals the specification, including the limit |
| ProfileRecord.GetFields | firmware/factory_badge/main/services.cpp:126-134 | the reading loop equals the specification |
| SocialNetworks.HandleRoundTrip | firmware/factory_badge/main/social_networks.h:93-113 | a stored handle and its profile URL are both read back as that handle |
| SocialNetworks.HandleIsCanonical | firmware/factory_badge/main/social_networks.h:93-109 | every result is valid for its network and its own canonical form |
| SocialNetworks.RecognizeFindsAccountIff | firmware/factory_badge/main/social_networks.h:118-152 | the profile URL of a named network is recognized as that provider and handle if and only if the handle has no NUL |
| SocialNetworks.CheckChars | firmware/factory_badge/main/social_networks.h:43-47 | the character loop equals the specification |
| SocialNetworks.CheckDomain | firmware/factory_badge/main/social_networks.h:49-59 | the label loop equals the specification |
| SocialNetworks.ReadHandle | firmware/factory_badge/main/social_networks.h:93-109 | editing the input step by step equals the specification |
| AvatarRoute.PhotoSourceIsServedIff | services/avatar/src/route.ts:20-29 | every photo source is accepted by the relay as that provider and the lowercased handle, if and only if the handle has no NUL |
| AvatarRoute.RecognizedIsServed | services/avatar/src/route.ts:7-18 | every provider and handle recognized in a link matches the relay's pattern |
| AvatarRoute.LabelsArePattern | services/avatar/src/route.ts:6-13 | the badge's label loop and the relay's label pattern accept the same texts |
| AvatarRoute.DomainIsPattern | services/avatar/src/route.ts:13 | the badge's domain check and the relay's domain pattern are the same |
| AvatarRoute.ThrowsIff | services/avatar/src/route.ts:20-28 | parse throws if and only if the network is `constructor`, which the table inherits, and its segment decodes |
| ConferenceClock.CalendarEpoch | firmware/devices_badge/conference_clock.h:36-47 | the loops over years and months equal the day count |
| ConferenceClock.EpochIsIncreasing | firmware/devices_badge/conference_clock.h:36-47 | later valid date-times have strictly larger epochs |
| ConferenceClock.DateAtIsInverse | firmware/devices_badge/conference_clock.h:12-13 | every epoch from 2024 to the end of 2099 is the epoch of a valid date-time |
| ConferenceClock.EpochIsOntoRange | firmware/devices_badge/conference_clock.h:36-47 | every valid date-time has an epoch in the range and is the date of it: a bijection |
| ConferenceClock.BcdRoundTrip | firmware/devices_badge/conference_clock.h:33-35 | binary-coded decimals decode both ways and nothing else decodes |
| ConferenceClock.ClockRoundTrip | firmware/devices_badge/conference_clock.h:49-63 | a time written to the registers reads back as the same epoch |
| ConferenceClock.DecodedIff | firmware/devices_badge/conference_clock.h:54-63 | registers are accepted exactly when they hold the digits of a valid date-time, which is then the one returned |
| Morse.UnlocksExactly | firmware/factory_badge/main/morse_unlock.h:24-55 | a sample unlocks if and only if the attempt it belongs to, found and read from the samples alone, has the seven symbols and no conflicting input |
| Morse.CorrectPrefixSurvives | firmware/factory_badge/main/morse_unlock.h:31-65 | no correct prefix is rejected by the buffer or ended by a pause; it uses at most 18 of 32 places and shows its own symbols |
| Morse.RejectionLasts | firmware/factory_badge/main/morse_unlock.h:6-9 | after a wrong attempt nothing unlocks, whatever its suffix, until the inputs were disabled or found released for 2.5 seconds |
| Morse.GivenUpAttemptClears | firmware/factory_badge/main/morse_unlock.h:32-36 | a wrong attempt found released for 2.5 seconds is cleared, and the next press begins a new one |
| Morse.MorseUnlock.AppendSymbol | firmware/factory_badge/main/morse_unlock.h:60-63 | the terminated buffer grows by one symbol, or the attempt is rejected; the whole new state |
| Morse.MorseUnlock.Release | firmware/factory_badge/main/morse_unlock.h:38-49 | the end of a press; the whole new state |
| Morse.MorseUnlock.Update | firmware/factory_badge/main/morse_unlock.h:24-55 | the whole new state for every sample, with wrapping clocks |
| TouchObservation.QueueIsMostRecent | firmware/factory_badge/main/touch_observation.h:115-155 | finished contacts are popped, counted as dropped modulo 2^32, or among the most recent 64 still queued, in order |
| TouchObservation.PoppedContactIsGenuine | firmware/factory_badge/main/touch_observation.h:74-155 | a contact began right after a real released sample, holds only real pressed samples up to a real release, and carries their times, ends and true extents; its gap is from the contact before it |
| TouchObservation.EveryPressIsRecordedOnce | firmware/factory_badge/main/touch_observation.h:74-113 | every real press right after a real release is recorded as exactly one contact, and no sample belongs to two |
| TouchObservation.MaxDxIsTrue | firmware/factory_badge/main/touch_observation.h:131-138 | the extent is a true maximum reached by one of the samples |
| TouchObservation.Observation.Enqueue | firmware/factory_badge/main/touch_observation.h:143-151 | the ring gives up its oldest contact when full and adds the newest: a bounded queue |
| TouchObservation.Observation.FinishContact | firmware/factory_badge/main/touch_observation.h:139-154 | the whole new state |
| TouchObservation.Observation.Active | firmware/factory_badge/main/touch_observation.h:57-67 | the deadline ends the session and its open contact; the whole new state |
| TouchObservation.Observation.ObserveSample | firmware/factory_badge/main/touch_observation.h:74-113 | the whole new state for every sample |
| TouchObservation.Observation.PopContact | firmware/factory_badge/main/touch_observation.h:115-121 | the oldest unread contact leaves the queue; the whole new state |

## Left out

- VoiceRecorder.VoiceRecorder.StepTake: the three assignments of take between its two atomic accesses are one step, because the worker cannot touch the buffer while the state is claimed.
- ConferenceTransport.ChunkingDoesNotMatter: the body handler always queues a reply, as every path of the portal's does; one that did not would be called again for each later chunk.
- ReplyText.ScanText: the escape is not injective, since a typed `[U+00E9]` and the escaped character show alike and only the footer differs; drawing the footer is not part of this model.
- FlashPlan.CreateFactoryPlan: the library sort is the function `Sorted`, not an in-place loop.
- AvatarRoute.PhotoSourceIsServedIff: speaks of `parse` on the path text; the URL parser before it may rewrite the Threads handles `.` and `..`, and lowercasing beyond ASCII is not modelled.
- The owner row of the gateway (`assertOwner`), its SQL text, JSON encoding of receipts, message texts and the preparation of the provider request: given results or single branches.
- Timeouts and deadlines of the portal transport and of the HTTPS worker: they only close a connection or change a code.
- The text of the portal's reply headers and its diagnostics counters.
- Voice endpoint configuration and the URL allow-lists of the background worker: read-only checks of constants.
- The voice screens' recorder buttons, the fallback transcription offer, diagnostics commands and drawing.
- The metadata text inside a cached profile: the record is opaque with a collision-free digest.
- The partition map fields of the manifest, the constant header fields and the source-layout inspection: comparisons with constants.
- Reading the flash back, USB transport, backup verification and boot selectors of the installer.
- Clock synchronization commands, Wi-Fi, TLS, sockets, microphone, I2C and NVS internals: their results are parameters of each step.
- Touch calibration, orientation filtering and hold gestures: floating point or single branches.
- Weak memory order: atomics are sequentially consistent and queues first-in first-out.
