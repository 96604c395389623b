# InferVoyage: models and proofs of its stateful cores

InferVoyage serves chat completions of local inference engines to organisations with
users, API keys, rate limits and usage reports, and comes with a chat page for the browser.
This project models its five stateful cores in Dafny and proves what they promise over every
input and every run. `dafny verify dfyconfig.toml` checks all of it.

The text between server and browser is a subset of the event stream format of section 9.2 of
the WHATWG HTML standard; JSON enters as an encoder and a decoder with the properties that
section 7 of RFC 8259 gives them; Retry-After is that of section 10.2.3 of RFC 9110.

## The modules

**Streaming.** `InferenceStream` holds the two relay loops of `stream_complete` (Ollama and
OpenAI-compatible engines), with their token counts. `StreamPost` is the browser's buffered
line parser. `EndToEnd` joins them: what the engine said is what the page accumulates,
wherever the network cuts the text, and a text that stops early, or whose body is aborted, is
heard as whole chunks. `StreamRuns` interleaves any number of runs over the inference slots,
through every exit path, with faults and disconnects at every suspension point; permits are
taken and given back by the single steps that do so in the source. `StreamEvents` says what a
run records and tells its callback by the events that happen to it. `Text` has the string
functions.

**Rate limiting.** `RateLimit` is the Lua script, with tokens counted in sixtieths so that a
request costs 60, a second refills `rpm` and the cap is `60 * burst`. `RateLimitTheory`
compares it with a bucket ticked once a second that never expires, bounds its bursts, and
shows that Retry-After is exact. `RateLimitExact` says for which limits each of these holds,
over all integers.

**Accounts.** `Otp` is the table of one-time codes behind a session that commits or rolls
back; `OtpTheory` reduces it to one machine for each (email, purpose); `OtpRuns` proves bounds
and conservation over all runs; `OtpExact` says what each request comes to. `RefreshTokens` is
the rotation of refresh tokens.

**Conversations.** `Conversations` is the server's log, `ChatStore` the browser's cache,
`ChatFlows` the page's handlers over both. `ChatAgreement` compares the two one flow at a
time, `ChatRuns` over any sequence of flows, and `Delivery` follows a reply from the engine
to the stored row.

**Tenants.** `Tenant` is the database with its foreign keys and the deletes written by hand,
`TenantRuns` its reachable states, `Usage` the reports over its logs.

Methods of classes and loops follow the source statement by statement and are proved equal to
a function of their inputs and the old state; the theorems are then about runs of those
functions. Every induction is written out: automatic induction is switched off on all lemmas.

## What turned out false, and when it holds

- *One terminal record for each run.* It fails in three ways. A run that has recorded a
  timeout, a connection failure or a bad status is recorded again if closing the response or
  the client is then interrupted by another exception. A run whose success is recorded is
  recorded again as an error when the token counters refuse a count of the engine, which they
  do just when it is negative, too large for a double (from 2^1024 - 2^970 on), or no number
  (backend/app/services/inference_service.py:497-504); its callback is then never called. And
  a run is recorded again as cancelled when a callback lets a cancellation escape. The number
  of records is exactly one plus the number of these events (`StreamRuns.Accounting`);
  `StreamRuns.InterruptedTwice` and `StreamRuns.RefusedCountTwice` are such runs.
- *A reply that was streamed is stored.* It is, unless the body is aborted before the line of
  the terminator is complete, as it always is when the relay is left by an exception. The
  client's read then rejects, the stored reply stays empty however much was shown, and the
  page replaces what it showed by an error (`Delivery.ReplyIsStored`,
  `Delivery.StoredUnlessFailed`).
- *The promises of the rate limiter.* Neither limit is checked where it is stored
  (backend/app/routers/admin/orgs.py:71-74, 100-103), so each promise has its condition over
  all integers. All runs stay within the burst and the refill if and only if
  `0 <= burst <= 2 * rpm` (`RateLimitExact.BurstBoundExactly`). A later call is allowed just
  when the time promised by a denial has come, as long as nothing else is allowed, if and only
  if `rpm >= 1` and `burst >= 1` (`RateLimitExact.RetryAfterExactly`). The bucket is the ticked
  one that never expires, and denied calls can be deleted from any run, if and only if
  `rpm >= 0` and `burst <= 2 * rpm` (`RateLimitExact.RefinesExactly`,
  `RateLimitExact.DeniedForgottenExactly`); when keys are dropped as soon as they may be,
  deleting is harmless for `rpm >= 60` as well and for no other limits
  (`RateLimitExact.DeniedForgottenPromptlyExactly`), as a denied call renews the key.
- *The page agrees with the server.* A conversation the page holds is always a suffix of the
  server's list. It is the whole list from the moment it is fetched or created, until the
  list of conversations is loaded anew (`ChatRuns.LoadedConversationsAgree`); one listed with
  messages does not become it in any other way than being fetched
  (`ChatRuns.UnfetchedConversationsDiffer`). Deleting the active
  conversation activates another one without fetching it
  (frontend/src/stores/chatStore.ts:170-179), so messages sent there are shown alone.
- *`verify_otp` refuses a sixth attempt.* Its test for more than five attempts after the
  increment can never succeed (backend/app/services/otp_service.py:130-132).

## Model

| member | source | states |
|---|---|---|
| InferenceStream.RelayOllama | backend/app/services/inference_service.py:375-427 | said of the lines by index: each reply read has one frame, at the place that is the number of replies before it, with the reply's own content and `stop` just when it is `done`; reading goes up to and including the first `done` reply, or up to the first failing line, on which the loop fails, or to the end; the counts are those of the `done` reply, whatever was said before, or zero and the number of replies that say something |
| InferenceStream.PayloadIsRead | backend/app/services/inference_service.py:298-311 | a data line does what its payload says, whatever white space stands around it: `[DONE]` ends the loop, text that is not JSON is skipped, JSON of another shape fails the loop, and a usable payload becomes exactly its item; a line that does not start with the field name is skipped, and every other line has a payload |
| InferenceStream.RelayOpenAi | backend/app/services/inference_service.py:294-359 | said of the raw lines by index: each usable payload read has one frame, at the place that is the number of those before it; reading goes up to the first terminator, which never fails and after which no line matters, up to JSON of another shape or content that cannot be added to a completion count that is no number, on which the loop fails, or to the end; the prompt count is that of the last payload that reports, the completion count its own plus the contents after it |
| InferenceStream.CountedAppend | backend/app/services/inference_service.py:321-342 | counting payload by payload, with a usage report overwriting the count, is the last usage plus what came after it |
| InferenceStream.StumbleAt | backend/app/services/inference_service.py:321-342 | the first payload whose content cannot be counted, because the last usage before it has a completion count that is no number, or none |
| StreamPost.LineMeans | frontend/src/api/client.ts:195-206 | whatever white space stands around a line or before its data: the terminator finishes, data that decodes to some content is that content, and any other data, or a line that is no data line, fires nothing |
| EndToEnd.ChunkLine | frontend/src/api/client.ts:195-206 | the line of a frame fires exactly its chunk's callback and never ends the loop |
| EndToEnd.PartialLine | frontend/src/api/client.ts:195-206 | a data line cut short of its end, the terminator's included, fires nothing |
| StreamPost.HandleLines | frontend/src/api/client.ts:195-207 | the inner loop fires the callbacks of its lines up to the first terminator, and what remains to be reported is the rest, or nothing after a terminator; it returns early just when it fired `onDone` |
| StreamPost.HandleLeftover | frontend/src/api/client.ts:175-188 | what is left in the buffer at the end of the body is reported like a line, followed by `onDone` unless it was the terminator |
| StreamPost.TakeRead | frontend/src/api/client.ts:191-207 | one read: the callbacks it fires plus those owed for the kept buffer and any future text are those of the whole, whether the body will end cleanly or be aborted |
| StreamPost.ReadBody | frontend/src/api/client.ts:171-209 | fragmentation independence for arbitrary text: the callbacks are those of splitting the concatenated text at once, cutting at the first terminator and finishing once; an aborted body loses its unfinished last line and rejects just when no terminator line was complete |
| StreamPost.ApiStreamPost | frontend/src/api/client.ts:140-210 | the callbacks in each case, and whether the promise rejects: fetch failed, refused, no body, or the reference report on the body |
| StreamPost.DoneOnceAndLast | frontend/src/api/client.ts:195-209 | whatever the lines, the report on a clean body is chunks with content followed by exactly one `onDone`, which comes last; that on an aborted body is the same, or chunks with content alone |
| Delivery.AlwaysWellStreamed | frontend/src/api/client.ts:171-209 | the same for the whole parser on any text and any decoder |
| EndToEnd.ReportFrames | backend/app/services/inference_service.py:359-359 | frames followed by any text at all are heard as their chunks and then as that text |
| EndToEnd.HeardInFull | backend/app/services/inference_service.py:424-437 | what a run emitted, cut into reads anywhere, is heard as one callback for each chunk with content, and one `onDone` unless the run failed and its body was aborted; it accumulates to the concatenated contents |
| EndToEnd.CutShort | frontend/src/api/client.ts:173-209 | a text that stops anywhere, even inside a frame, is heard as the first n chunks whole, never as part of one, all n of them if the last frame arrived; it is done once if the body ended cleanly or the terminator's line was complete, and else never |
| EndToEnd.SaidIsRelayed | backend/app/services/inference_service.py:384-427 | the relayed contents are the upstream contents up to and including the first `done` line |
| EndToEnd.OllamaToBrowser | backend/app/services/inference_service.py:375-437 | end to end on the Ollama path: for every sequence of upstream lines and every cut of the emitted text, the page accumulates exactly what the engine said; it is done once if the relay did not fail, and else the promise rejects |
| EndToEnd.SpokenIsServed | backend/app/services/inference_service.py:294-342 | the relayed contents are those of the usable payloads before the terminator, as far as they can be counted |
| EndToEnd.OpenAiToBrowser | backend/app/services/inference_service.py:294-437 | the same end to end on the path of OpenAI-compatible engines |
| EndToEnd.SampleIsFaithful | backend/app/services/inference_service.py:359-359 | the assumption about JSON can be satisfied: a concrete escaping codec has every property assumed |
| Delivery.ReplyIsStored | frontend/src/pages/Chat.tsx:246-317 | a message is sent, and any part of what the relay emitted arrives, in any pieces, before the body ends or is aborted: the server's log ends with the user's text and the contents of the chunks that arrived whole, and the page shows the same; or, just when the body was aborted before the terminator's line was complete, with an empty reply, and the page shows an error |
| Delivery.StoredUnlessFailed | frontend/src/pages/Chat.tsx:257-288 | of all that the Ollama path emitted, the stored reply is what the engine said if and only if the relay did not fail or nothing was said |
| StreamRuns.InferenceSlots.Enter | backend/app/services/inference_service.py:87-101 | entering is refused just when no permit is left; otherwise one permit goes and the counter rises |
| StreamRuns.InferenceSlots.Leave | backend/app/services/inference_service.py:104-107 | leaving gives the permit back and lowers the counter |
| StreamRuns.InferenceSlots.DrainEnds | backend/app/main.py:216-223 | the drain ends just when every permit is free |
| StreamRuns.StreamServer.Handle | backend/app/services/inference_service.py:87-107 | every event of every run, with the slots entered and left as the source does, is the step of the specification; whoever leaves finds the counter positive |
| StreamRuns.AdvancePermitted | backend/app/services/inference_service.py:97-107 | every step on every path keeps: a run takes one permit when it is admitted and gives one back when it stops holding a slot |
| StreamRuns.AdvancePays | backend/app/services/inference_service.py:97-107 | the slots change by exactly what the run takes and gives back, and a permit is taken only when there is one |
| StreamRuns.SlotSafety | backend/app/services/inference_service.py:86-107 | over all interleavings: no run takes more than one permit or gives back more than it took; a run that is over has given back what it took, on every exit path; the counter is the number of runs in a slot, counter plus permits is the maximum, no run ever waits in `acquire`, and the counter is zero just when no run holds a slot |
| StreamRuns.AdvanceBooks | backend/app/services/inference_service.py:276-481 | every step on every exit path keeps the books of a run: how many records and callback calls, the counts they carry, the last record, and the cause it names |
| StreamRuns.Accounting | backend/app/services/inference_service.py:276-481 | every admitted run that is over has one record, plus one for each interrupted clean-up, refused success and escaped cancellation, a success being refused just when a count is negative, too large for a double, or no number; exactly one if and only if there were none; its last record names its outcome; the callback gets the counts on success, is told of a disconnect once without tokens, and is never called after a timeout or an error |
| StreamRuns.EndsByItsFault | backend/app/services/inference_service.py:429-481 | over all interleavings, a run that is over, its clean-up undisturbed, has one record, that of the first cause its history keeps, or, with no cause, a success, and an error after it just when its counts are refused |
| StreamEvents.FaultIsTold | backend/app/services/inference_service.py:429-481 | said of the events, over all interleavings: a run that meets an exception at any point where it can, and is not disturbed afterwards, is over with exactly this added to what it had on record: a timeout while its client is open, cancelled when the browser went away, and else an error; its callback is called once more, without tokens, just when the browser went away; before the reply is read to its end nothing was on record |
| StreamEvents.BadReplyIsTold | backend/app/services/inference_service.py:284-292 | a status other than 200, and a reply on which the reading loop fails, are recorded once, as an error, and the callback is never called |
| StreamEvents.ReplyIsTold | backend/app/services/inference_service.py:437-455 | a reply read to its end, and nothing else happening to its run, is recorded once as a success and its callback gets exactly the counts of what the engine sent; counts that are refused add an error instead, and no call |
| StreamEvents.OllamaIsTold | backend/app/services/inference_service.py:375-455 | over all interleavings, the run whose engine sent these lines records and tells just what the reading loop returned for them |
| StreamEvents.OpenAiIsTold | backend/app/services/inference_service.py:294-455 | the same for OpenAI-compatible engines |
| StreamEvents.AdmittedUnlessFull | backend/app/services/inference_service.py:87-101 | over all interleavings, a run is refused just when as many runs hold a slot as there are, and else admitted |
| StreamEvents.AdmittedGoesOn | backend/app/services/inference_service.py:276-292 | an admitted run goes on to its engine and, at status 200, to its reply |
| StreamEvents.FaultedRunEnds | backend/app/services/inference_service.py:429-481 | closing what was opened, and the end of the callback if it is called, ends a run that met an exception |
| StreamEvents.FinishedRunEnds | backend/app/services/inference_service.py:433-455 | closing, the terminator and the end of the callback end a run whose reply was read to its end, its slot given back before the terminator |
| StreamRuns.InterruptedTwice | backend/app/services/inference_service.py:459-473 | a concrete run recorded as an error and again as cancelled |
| StreamRuns.RefusedCountTwice | backend/app/services/inference_service.py:439-481 | whatever refused counts a reply ends with, a run recorded as a success and again as an error, its callback never called |
| StreamRuns.RefusedCounts | backend/app/services/inference_service.py:497-504 | a negative count, the first integer that no double can hold and a value that is no number are refused; the integer before it is not |
| RateLimit.RateLimiter.CheckRateLimit | backend/app/services/rate_limit_service.py:13-45 | for any limits: a call is allowed just when the tokens left, refilled by the elapsed time under the cap, cover one request, which is then deducted; a denial at a positive rate promises the least number of seconds after which they do; other organisations keep theirs |
| RateLimit.RateLimiter.Drop | backend/app/services/rate_limit_service.py:35-42 | expiry removes one organisation's key only |
| RateLimitTheory.TicksAtOnce | backend/app/services/rate_limit_service.py:28-30 | refilling lazily by elapsed time under the cap is ticking second by second |
| RateLimitTheory.TicksAdd | backend/app/services/rate_limit_service.py:28-30 | refilling over a+b seconds is refilling over a and then over b |
| RateLimitTheory.LazyRefinesTicked | backend/app/services/rate_limit_service.py:13-45 | with a positive `rpm` and `0 <= burst <= 2 * rpm`, every run from any bucket gives the verdicts of a bucket that is ticked every second and never expires, whichever keys expire |
| RateLimitExact.RefinesExactly | backend/app/services/rate_limit_service.py:13-45 | for all integer limits: every run from an absent key gives the verdicts of that bucket if and only if `rpm >= 0` and `burst <= 2 * rpm` |
| RateLimitExact.DeniedForgottenExactly | backend/app/services/rate_limit_service.py:32-43 | for all integer limits: deleting a denied call from a run changes no other verdict, whichever keys expire in either run, if and only if `rpm >= 0` and `burst <= 2 * rpm` |
| RateLimitExact.DeniedForgottenPromptlyExactly | backend/app/services/rate_limit_service.py:35-42 | the same with keys dropped as soon as they may be, if and only if that holds or `rpm >= 60` |
| RateLimitExact.RenewalMatters | backend/app/services/rate_limit_service.py:38-43 | for every larger burst and slower rate, a run in which a denied call renews the key and so changes a later verdict |
| RateLimitTheory.BurstBound | backend/app/services/rate_limit_service.py:19-44 | with a positive `rpm` and `0 <= burst <= 2 * rpm`, in any window of any run the allowed calls number at most burst plus the refill of its length |
| RateLimitExact.TwoBurstsExceed | backend/app/services/rate_limit_service.py:35-36 | for every positive burst with `burst > 2 * rpm` there is a run beyond that bound |
| RateLimitExact.BurstBoundExactly | backend/app/services/rate_limit_service.py:19-44 | for all integer limits: the bound holds of all runs if and only if `0 <= burst <= 2 * rpm` |
| RateLimitTheory.RetryAfterExact | backend/app/services/rate_limit_service.py:38-43 | with positive limits, after a denial, while nothing is allowed, a later call is denied before the promised time and allowed from then on, and every denial promises that same time, which is between 1 and `ceil(60 / rpm)` seconds away and at most 60 |
| RateLimitExact.RetryAfterExactly | backend/app/services/rate_limit_service.py:28-43 | for all integer limits: in every run, after each denial and while nothing is allowed, a later call is allowed just when the promised time has come, if and only if `rpm >= 1` and `burst >= 1` |
| RateLimitExact.NothingAllowed | backend/app/services/rate_limit_service.py:19-43 | without a positive burst no call is ever allowed, from any bucket and at any rate |
| Otp.Session.Close | backend/app/database.py:43-52 | returning commits what is pending, raising drops it |
| Otp.Session.StoreOtp | backend/app/services/otp_service.py:44-86 | refused with three rows in the last fifteen minutes, otherwise one pending row is added |
| Otp.Session.VerifyOtp | backend/app/services/otp_service.py:89-154 | by the fields of the newest row: locked or verified, nothing changes; late or wrong, one attempt more is committed although the call fails; right, the match and its attempt are left pending; with no row nothing changes |
| Otp.Session.IssueCode | backend/app/routers/auth.py:567-597 | the committed effect of requesting a code, which is none when the mail fails |
| Otp.Session.VerifyCode | backend/app/routers/auth.py:406-440 | the committed effect of verifying a code; the right code on an open row that has not expired succeeds just when the token is accepted, and a bad token noticed afterwards undoes the match |
| Otp.Session.ResetPassword | backend/app/routers/auth.py:651-685 | the committed effect of a reset, including verifying on the fly within one transaction |
| OtpTheory.NewestIsLast | backend/app/services/otp_service.py:104-111 | the row chosen by `ORDER BY created_at DESC LIMIT 1` is the key's last one |
| OtpTheory.HandleProjects | backend/app/services/otp_service.py:44-154 | a request acts on the rows of its own key as the one-key machine does |
| OtpTheory.HandleLeavesOthers | backend/app/services/otp_service.py:104-107 | and leaves the rows of every other key alone |
| OtpRuns.KeysAreIndependent | backend/app/services/otp_service.py:44-154 | after any requests, each key's rows are those of its own requests alone |
| OtpRuns.WindowStays | backend/app/services/otp_service.py:56-67 | every move keeps at most three rows in any closed quarter of an hour |
| OtpRuns.ConservedStays | backend/app/routers/auth.py:651-685 | every move keeps: committed verifications = verified rows + completed resets |
| OtpRuns.GuessBound | backend/app/services/otp_service.py:56-148 | in any closed ten minutes of any run, at most 15 wrong codes are compared for one key, plus four for each reset completed in them |
| OtpRuns.TableTheorem | backend/app/services/otp_service.py:56-148 | in every reachable table: at most three rows of a key in any closed fifteen minutes, at most five attempts a row and exactly those spent on it, and the conservation of verifications |
| OtpRuns.AttemptsAreDurable | backend/app/services/otp_service.py:126-148 | in every reachable table, a wrong or expired code, tried at a verifying endpoint or on the fly in a reset, fails the request and raises the committed count of the key's newest row by one, changing no other row of any key |
| OtpExact.VerifyIsExact | backend/app/services/otp_service.py:118-154 | in every reachable table, for every state of the key's newest row: the right code on an open row that has not expired is fine with an accepted token, and verifies exactly that row; a bad token changes nothing; every refusal is given for its own reason, and leaves one attempt more or nothing; other keys keep their rows |
| OtpExact.ResetIsExact | backend/app/routers/auth.py:651-685 | in every reachable table a reset is fine just when the newest code was verified, or is open and right, and has not expired; then exactly its row is gone |
| OtpExact.IssueIsExact | backend/app/services/otp_service.py:56-84 | in every reachable table a code is refused just when three rows of its key are no older than fifteen minutes, or when its mail is not sent, and then nothing is kept; otherwise one row is added, with that digest, untried and good for five minutes |
| OtpExact.HistoryIsExact | backend/app/services/otp_service.py:126-154 | the history of a key grows by exactly what each request came to: issued, late, wrong, confirmed or redeemed |
| RefreshTokens.RefreshStore.RevokeAll | backend/app/services/auth_service.py:125-131 | every token of the user goes and no other |
| RefreshTokens.RefreshStore.RefreshEndpoint | backend/app/routers/auth.py:479-504 | an unknown token revokes all of its user's and no other, a known one is replaced by one new token, or dropped when the account is suspended, and every other token stays |
| RefreshTokens.DeadStaysDead | backend/app/services/auth_service.py:103-131 | an issued token that is no longer active never becomes active again |
| RefreshTokens.AcceptedAtMostOnce | backend/app/routers/auth.py:479-488 | in any run each token is accepted at most once, and using it again is answered as a replay |
| RefreshTokens.PurgeIsFinal | backend/app/routers/auth.py:480-485 | after a replay or a password reset no token issued earlier to that user is ever accepted, and other users' tokens are untouched |
| RefreshTokens.RotationKeepsCount | backend/app/routers/auth.py:487-500 | a successful refresh keeps the number of the user's active tokens and changes no other token |
| RefreshTokens.LogOutIsFinal | backend/app/routers/auth.py:516-535 | after its logout, or its timing out, an issued token is never accepted again, and no other token is touched |
| RefreshTokens.GoodUntilEnded | backend/app/routers/auth.py:479-504 | a token issued by a login or a refresh stays active, and its use is accepted, until it is used, logged out, timed out or purged |
| Conversations.ConversationService.GetConversation | backend/app/routers/conversations.py:127-162 | the owner and nobody else gets every row of the conversation exactly once, ordered by position |
| Conversations.ConversationService.ListConversations | backend/app/routers/conversations.py:63-100 | only the user's conversations, each at the place that is the number of newer ones of theirs, and all those whose place is below the limit |
| Conversations.ConversationService.SaveMessage | backend/app/routers/conversations.py:224-275 | the owner, and nobody else, appends one row whose position is the number of rows; nothing else changes |
| Conversations.ConversationService.UpdateMessage | backend/app/routers/conversations.py:278-318 | a row of that identifier takes the content, keeping its role and position, just when the caller owns the conversation and there is one; nothing else changes |
| Conversations.ConversationService.DeleteMessagesFrom | backend/app/routers/conversations.py:321-358 | exactly the rows from the named row's position on are deleted, just when the caller owns the conversation and it has that row |
| Conversations.DenseOperations | backend/app/routers/conversations.py:243-256 | with dense positions, truncating at position p leaves precisely the first p messages, the list is read in order of insertion, and the next append gets the next position |
| Conversations.AlwaysDense | backend/app/routers/conversations.py:243-354 | in every reachable state every conversation's positions are 0, 1, ..., n-1 in order of insertion and its identifiers differ |
| ChatStore.Store.DeleteConversation | frontend/src/stores/chatStore.ts:167-179 | exactly that conversation goes and the others keep their order; another becomes active only if it was the active one, then the first one left, and none just when none is left |
| ChatStore.Store.ReceiveSaved | frontend/src/stores/chatStore.ts:195-213 | message by message: in that conversation those of the role without an identifier take the identifier and position; every other message, field and conversation stays |
| ChatStore.Store.UpdateLocalMessage | frontend/src/stores/chatStore.ts:244-255 | message by message: in that conversation the last takes the content if it is the assistant's; every other message, field and conversation stays |
| ChatStore.Store.EditLocalUserMessage | frontend/src/stores/chatStore.ts:257-268 | message by message: in that conversation the one at the index, if any, takes the content; every other message, field and conversation stays |
| ChatStore.Store.TruncateLocalMessages | frontend/src/stores/chatStore.ts:270-277 | that conversation keeps the prefix before the index, all of it if it is no longer; every other conversation stays |
| ChatStore.Store.ReceiveList | frontend/src/stores/chatStore.ts:84-103 | the cache is the listed conversations, in their order and without messages |
| ChatStore.Store.ReceiveConversation | frontend/src/stores/chatStore.ts:105-130 | that conversation takes the server's rows, field for field; every other stays |
| ChatFlows.ChatPage.ListConversations | frontend/src/stores/chatStore.ts:84-103 | what is listed is the user's own, each once, and the cache holds these without their messages |
| ChatFlows.ChatPage.StartConversation | frontend/src/stores/chatStore.ts:132-151 | an empty conversation on both sides, first in the cache and active |
| ChatFlows.ChatPage.FetchConversation | frontend/src/stores/chatStore.ts:105-130 | the conversation in the cache takes the server's rows; refused, nothing changes but that none is active |
| ChatFlows.ChatPage.DeleteConversation | frontend/src/stores/chatStore.ts:167-184 | it goes on both sides, and the first one left becomes active if it was; refused, nothing changes |
| ChatFlows.ChatPage.RunCompletionStream | frontend/src/pages/Chat.tsx:255-288 | the callbacks of the stream, in order, and the handler of its rejection act on cache and server as specified |
| ChatFlows.ChatPage.SendMessage | frontend/src/pages/Chat.tsx:303-316 | two placeholders, two saves and the stream, over cache and server together |
| ChatFlows.ChatPage.HandleEditSubmit | frontend/src/pages/Chat.tsx:323-350 | rewrite, cut after it on both sides, and a new answer |
| ChatFlows.ChatPage.HandleRetry | frontend/src/pages/Chat.tsx:356-368 | cut from it on both sides, and a new answer |
| ChatAgreement.BackFillTwo | frontend/src/stores/chatStore.ts:208-210 | with one placeholder of each role, back-filling by role gives each the identifier of its own row |
| ChatAgreement.AtHeard | frontend/src/pages/Chat.tsx:268-279 | a stream that ended well leaves the last message and the stored row with all it carried |
| ChatAgreement.SendEffect | frontend/src/pages/Chat.tsx:303-316 | sending appends the user's text and the whole reply on both sides |
| ChatAgreement.SendLost | frontend/src/pages/Chat.tsx:257-288 | with a rejected stream the appended reply is empty on the server and an error on the page |
| ChatAgreement.SendRefused | frontend/src/pages/Chat.tsx:268-288 | a request that is refused leaves an empty row on the server and its own message, marked as an error, in the reply's place on the page |
| ChatAgreement.EditEffect | frontend/src/pages/Chat.tsx:323-350 | editing rewrites the message, drops what follows and appends the reply on both sides |
| ChatAgreement.RetryEffect | frontend/src/pages/Chat.tsx:356-368 | retrying replaces the message and what follows by the reply on both sides |
| ChatRuns.DoKeeps | frontend/src/pages/Chat.tsx:291-369 | every completed flow keeps every cached conversation a suffix of the server's list at its offset |
| ChatRuns.CacheAgreement | frontend/src/stores/chatStore.ts:84-277 | after any completed flows: message i of the page is the server's message at position k + i, and the lists are equal if and only if the offset k is zero |
| ChatRuns.LoadedConversationsAgree | frontend/src/stores/chatStore.ts:105-150 | a conversation fetched or created, and not listed anew since, is the same list on both sides, index by index its position |
| ChatRuns.UnfetchedConversationsDiffer | frontend/src/stores/chatStore.ts:167-179 | a conversation listed with messages and never fetched never agrees, whatever is sent, edited or retried in it |
| Tenant.Database.DeleteOrg | backend/app/routers/admin/orgs.py:116-148 | from any database without dangling references the four statements go through if and only if no row of another organisation refers to this one's users or keys; otherwise nothing changes |
| Tenant.Database.DeleteUser | backend/app/routers/admin/users.py:137-180 | a user the caller reaches is gone, with exactly the keys they created, their conversations and the messages in these or by them; every log stays, and only its references to the user and those keys are cleared; every other row is what it was; otherwise not found |
| Tenant.Database.RevokeKey | backend/app/routers/admin/api_keys.py:122-151 | the first call makes the key inactive and changes nothing else; the second removes it, clearing the references of logs to it and nothing else; a key out of reach, or for an operator one created by somebody else, is not found |
| Tenant.Database.CreateKey | backend/app/routers/admin/api_keys.py:58-86 | the new key carries the organisation and user of the caller's claim; it is refused, changing nothing, just when one of them is gone |
| Tenant.Database.RotateKey | backend/app/routers/admin/api_keys.py:89-119 | the digest of a key within the caller's reach changes and nothing else; a key of another organisation, or for an operator one created by somebody else, is not found |
| Tenant.OrgStatements | backend/app/routers/admin/orgs.py:128-148 | each statement of `delete_org` leaves no dangling reference if and only if the organisation is enclosed |
| Tenant.OwnedIsEnclosed | backend/app/routers/admin/orgs.py:128-148 | the ownership invariant is enough for that |
| Tenant.UserStatements | backend/app/routers/admin/users.py:153-180 | each statement of `delete_user` leaves no dangling reference in any database |
| Tenant.KeyStatements | backend/app/routers/admin/api_keys.py:140-151 | so do those of `revoke_api_key` |
| TenantRuns.StepKeeps | backend/app/routers/admin/api_keys.py:70-76 | every request, deleting conversations and messages included, keeps the ownership invariant: key.org = creator.org, log.org = org of its user and key, message.user = its conversation's user, and claims outlive their rows |
| TenantRuns.DeletesAlwaysGoThrough | backend/app/routers/admin/orgs.py:128-148 | in every reachable database every statement of both deletes, on its own, leaves no dangling reference |
| TenantRuns.DeleteOrgIsExact | backend/app/routers/admin/orgs.py:128-148 | in every reachable database, deleting an organisation removes every row of it, removes no row of another and changes none |
| TenantRuns.DeleteUserIsExact | backend/app/routers/admin/users.py:137-180 | in every reachable database, whoever reaches a user deletes them, and with them exactly their own keys, conversations and messages |
| TenantRuns.InsertsAreExact | backend/app/services/usage_service.py:28-45 | a log, user, conversation or message is inserted just when every row it refers to is there, and a log carries the claim's organisation, user and key, and the sum of its tokens |
| TenantRuns.IssuedIsExact | backend/app/dependencies/auth.py:77-103 | in every reachable database a login's claim is the user's organisation and role, and an active key's its creator, their organisation and the role of an operator; no other is issued |
| TenantRuns.ConversationDeletesAreExact | backend/app/routers/conversations.py:204-358 | a conversation is deleted by its user alone, with exactly its messages, and messages of it exactly as asked |
| TenantRuns.OwnershipIsNeeded | backend/app/routers/admin/orgs.py:134-144 | a database without dangling references, but not owned, on which the statement of `delete_org` that deletes the users is refused |
| TenantRuns.DeletesStayInside | backend/app/routers/admin/users.py:144-180 | in every reachable database, a caller below platform admin deletes users and rotates, revokes or deletes keys without touching a user, key, log, conversation or chat message of another organisation |
| Usage.SeenWithinOrganisation | backend/app/routers/admin/usage.py:47-55 | in every reachable database, a caller with a claim once issued sees exactly the logs of the claim's organisation, below organisation admin exactly their own of these, and as platform admin all, or those of the organisation asked for, in each case those of the period with both its ends |
| Usage.SummaryIsSums | backend/app/routers/admin/usage.py:41-83 | each figure of a summary, requests, prompt, completion and total, is the sum of its own column over the selected logs |
| Usage.GroupByDate | backend/app/routers/admin/usage.py:99-127 | the grouped query maps a date to the count and token sum of what was selected on it |
| Usage.GetDailyUsage | backend/app/routers/admin/usage.py:90-136 | fifteen consecutive dates, each with its day's logs, whose totals are those of all visible logs in the period |
| Usage.NoneDropped | backend/app/routers/admin/usage.py:119-134 | every log of the last fourteen days falls on one of the fifteen dates |
| Usage.TotalsAddUp | backend/app/services/usage_service.py:36-38 | in every reachable database total = prompt + completion at every scope and period |
| Usage.DeletingUserConserves | backend/app/routers/admin/users.py:153-176 | deleting a user changes no summary but that user's own, which becomes empty |
| Usage.RevokingKeyConserves | backend/app/routers/admin/api_keys.py:140-151 | revoking or deleting a key changes no summary |

## Left out

- StreamPost.ReadBody: does not model `TextDecoder`; the wire is characters, in the order they arrive.
- Delivery.ReplyIsStored: takes the body of a relay that is left by an exception to be aborted, as ASGI servers do; what they and proxies do with a connection is not part of this model.
- EndToEnd.HeardInFull: rests on an encoder and decoder with the stated properties, not on JSON text itself.
- InferenceStream.RelayOpenAi: token counts are integers, empty values or anything else; fractional ones are not modelled.
- InferenceStream.RelayOllama: keeps the fields that are only copied (id, creation time, model, role) as one opaque stamp of the chunk.
- StreamRuns.SlotSafety: the non-streaming `complete` is modelled only as holding a slot; its metrics are not, since a reply that fails validation after its success record is recorded again.
- StreamRuns.Accounting: tells the exceptions apart as the handlers do; which library errors end up in which class is not modelled (a read timeout of the HTTP client is not `asyncio.TimeoutError`, so it counts as an error).
- RateLimit.RateLimiter.CheckRateLimit: does not model the rounding of doubles nor of numbers written to Redis as text, clocks that go back, eviction, a Redis failure, or limits that change during a run; the conversion of an infinite wait to an integer is that of the platforms Redis runs on.
- Otp.Session.VerifyOtp: reads the clock once for a request, where the code reads it again at each test.
- OtpRuns.GuessBound: requests are atomic and have increasing times; concurrent requests within one database transaction, where the code takes no locks, are not modelled.
- RefreshTokens.RefreshStore.RefreshEndpoint: one request is one step; two refreshes interleaved between the test and the revocation are not modelled.
- ChatRuns.CacheAgreement: covers completed flows of one page, with no failed call and no stream error, the final update of a reply included; the code swallows such failures and the lists may then differ.
- Conversations.ConversationService.SaveMessage: one request is one step; titles, model names and update times are left out.
- TenantRuns.DeletesAlwaysGoThrough: organisation names and slugs, e-mail uniqueness, key expiry and the role checks in front of the endpoints are left out.
- Usage.GetDailyUsage: the database's `date` function is taken to be that of UTC.
- Passwords, hashing, JWT signing, mail delivery, Google token verification and random generation: hashing is injective, identifiers are fresh, and whether a mail was sent or a token accepted is an input.
- `cleanup_expired_otps` (backend/app/services/otp_service.py:157): nothing calls it.
- Update times: the order of the list endpoint is a parameter; renaming and the persistence of the active conversation.
- Rendering, themes, health checks, Prometheus gauges, deployment files and load tests.
