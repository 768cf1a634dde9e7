# A model of the AI receptionist's core, with proofs

The project models, in Dafny 4.11, the parts of the receptionist where correctness is hardest to see
by reading, and proves properties of them over every input, every run or every interleaving. Each
module follows one part of the program:

- `Text`, `Assembler`, `SentenceEnds`: UTF-16 text, the incremental sentence assembler, and where a
  sentence ends.
- `Speech`, `SpeechSafety`, `SpeechInFull`: the safe speech stream, whose listener can never un-hear
  anything, what keeps heard text clean, and when a reply is said in full.
- `AgentTurn`: one turn of the agent runtime driving assembler, stream, model and tools.
- `Qualification`, `QualificationValues`, `QualificationOutcomes`: the dialogue engine that fills a
  schema of questions, what a captured value is worth, and how a conversation comes out.
- `Truncate`, `ContextBudget`: truncation, the token estimate and the two budget loops.
- `RollingRecap`: the bounded recap of a long conversation.
- `Workflow`: resumable runs with step retries and dead letters.
- `Availability`, `SlotChecks`: slot generation against a declarative specification, and the re-check.
- `CallPath`, `Gateway`, `GatewayStarts`, `CallTelemetry`: call states, the gateway's start protocol,
  which starts succeed, and its ordered log.
- `SpeechChunks`, `PhoneTranscript`, `Audio`: speakable pieces, the transcript of what was heard, the
  G.711 codec and the audio queue.
- `Ics`, `RateLimit`, `Crm`: calendar text, the sliding-window limiter, and customer merging.

Code that updates fields is a class whose methods are proved against specification functions; the
lemmas are about those functions. The gateway's start protocol is a state machine, one step per stretch
of code between two awaits. Regular-expression content, parsers, the model, tools, validators' phrase
lists, the sanitizer and time zones are parameters: any behaviour of theirs is allowed unless a
precondition says otherwise.

## Assumptions

- `AgentTurn`: a model call is one attempt, as in the default policy; with more attempts a retry would feed
  a second stream into the same assembler (`packages/runtime/llm-adapter.ts:163-204`).
- `RateLimit`: the clock does not go back; the two statements about the reset time also need a limit of at least one.
- `Workflow`: store calls succeed, except the log write after a call, which may fail; a workflow's steps
  do not change between attempts.
- `Availability`: the slot length is positive.
- `RollingRecap`: saves succeed, the first transcript is no longer than one fetch, and a fetch returns at
  least four messages more than the window; with three the recap stops growing (`ThreeSpareAreTooFew`).
- `PhoneTranscript`: writes succeed. `Crm`: one tenant, one call at a time; the customer passed to the
  two recording methods is the one as read, and totals are right when it is still current.
- `Gateway`: new ids are unused ones, and a media session reports its end only after it was registered.

## Where the code and its comments part

- Segment validation is said to guarantee that heard text passes the whole-reply gate
  (`packages/runtime/agent-runtime.ts:689-691`). Text is judged before markdown is stripped from it
  (`packages/runtime/response-validator.ts:376-395`), and no channel of the program shows markdown:
  `StrippingCanExposeALeak` and `StrippingCanLeaveNothing` are concrete segments, `AcceptSafeIff` is the
  exact condition, and a turn in which no segment looks like markdown meets it (`PlainTurnIsClean`).
- The reply cap can be exceeded by one unit, in the one case `SpeechSafety.ExceedsIff` names; `EmptySegmentExceedsTheLimit`.
- A turn cancelled at the validation checkpoint (`packages/runtime/agent-runtime.ts:672`) leaves held
  segments that are never retracted, although the release policy retracts whatever is not released
  (`packages/runtime/speech-stream.ts:28-35`). `AgentTurn.Conclude` says exactly when, and
  `RunWithHeldAtTheEnd` is such a turn.
- "At most maxToolRounds + 1" model calls, and the repairs (`packages/runtime/agent-runtime.ts:80`), does
  not count the one re-run of a stream that failed: `AgentTurn.CallsExceedIff` says when the bound is
  exceeded, `AgentTurn.Run` for which inputs there is a re-run, and `RunBeyondTheBound` is such a turn.
- "Never cut before a combining mark" (`packages/language/truncate.ts:24-25`) can be undone by stepping
  off a trailing virama and by the word jump; `Truncate.ClusterRuleHoldsIff` is the exact condition.
- A limit of no recent messages keeps all of them (`packages/runtime/context-builder.ts:130`), because the
  window is cut with a negated count; `ContextBudget.WindowIsCappedIff`.
- Nothing uncertain is said to be accepted without a yes (`packages/qualification/engine.ts:16-18`). A
  value heard badly is kept when its field needs no confirmation and the caller goes on to the next
  question, as a later comment intends (`packages/qualification/engine.ts:204-211`);
  `QualificationValues.KeptUnconfirmedIff`, and `PassedOverInARun`.
- Completed steps are said never to run again (`packages/workflows/engine.ts:164-166`). A step whose success
  could not be logged is; `Workflow.CalledAgainIff`.
- Hours that run past midnight offer slots that the re-check refuses; `GeneratedSlotsCanBeBookedIff`.
- A start that waited for another one's set-up is not checked against the call's numbers when the
  session has already ended (`packages/voice/gateway.ts:200`); see `Gateway.LateStartIsNotChecked`.
- With a limit of zero the limiter's reset time is not a number; the model answers `None`
  (`RateLimit.ResetMissingIff`).

## Model

| member | source | states |
|---|---|---|
| Text.NormalizeIsJoinedWords | packages/runtime/response-assembler.ts:159-161 | Collapsing whitespace and trimming is the same as splitting into words and joining them with single spaces. |
| Text.NormalizeCut | packages/runtime/response-assembler.ts:159-161 | Normalizing a text cut next to whitespace is normalizing both halves and putting one space between them, when both say something. |
| Assembler.ScanIsStable | packages/runtime/response-assembler.ts:127-146 | A boundary decided on a prefix of the stream is the boundary in every longer text; the one exception, a newline run that reaches the end of the prefix, is stated exactly. |
| Assembler.DrainInTwo | packages/runtime/response-assembler.ts:83-103 | Draining the buffer, then appending text and draining again, emits the same segments and leaves the same state as draining everything at once. |
| Assembler.FeedInTwo | packages/runtime/response-assembler.ts:83-103 | Pushing two pieces is pushing their concatenation, from every state the assembler can be in. |
| Assembler.ChunkingIndependence | packages/runtime/response-assembler.ts:83-103 | For every text and every way of splitting it into deltas, the emitted segments, the buffer and the held sentence are those of one push of the whole text. |
| Assembler.TwoChunkingsAgree | packages/runtime/response-assembler.ts:22-27 | Two different splittings of the same text give the same segments and the same final state. |
| SentenceEnds.ScanMeans | packages/runtime/response-assembler.ts:127-157 | The boundary scan cuts at the first sentence end, waits exactly where the first candidate is undecided, and finds none exactly where there is no candidate. A sentence end is a maximal run of newlines, or one of terminators with whitespace behind it that is not a lone dot, or whose word before is neither a Latin letter nor listed and whose next visible unit exists and is no digit, currency sign or lower-case letter. |
| SentenceEnds.SegmentsEndSentences | packages/runtime/response-assembler.ts:83-146 | Over every stream and split into deltas: each segment before the flush is the normalized text from where the last one ended to the first sentence end that makes it as long as the minimum; what is not emitted yet has no such end, unless a candidate before it is undecided. |
| SentenceEnds.ListedWordsGoOn | packages/runtime/response-assembler.ts:150-157 | Concrete text: "Rs. A" is cut after the dot exactly when "Rs" is not a listed abbreviation. |
| Assembler.ScanCutsClean | packages/runtime/response-assembler.ts:127-146 | Text is only ever cut next to whitespace. |
| Assembler.DrainKeepsText | packages/runtime/response-assembler.ts:83-103 | What is emitted, held and buffered, normalized and joined, is the text that went in; a held sentence is shorter than the minimum and an emitted one is not. |
| Assembler.NothingIsLost | packages/runtime/response-assembler.ts:33-34 | The segments of a completed stream, the flushed one included, joined with single spaces are the whitespace-normalized stream; every segment before the flush has the minimum length and none is empty. |
| Assembler.SentenceAssembler.Push | packages/runtime/response-assembler.ts:83-103 | The class with its buffer, held sentence and segment list does what the specification of one push says, whatever was pushed before. |
| Assembler.SentenceAssembler.FlushRest | packages/runtime/response-assembler.ts:111-119 | Flushing emits the held sentence and the rest as one last segment, or nothing, and leaves the assembler spent. |
| Assembler.SentenceAssembler.NextBoundary | packages/runtime/response-assembler.ts:127-146 | The scanning loop finds the boundary the specification of the scan gives: cut, wait or none; SentenceEnds.ScanMeans says where that is. |
| Assembler.SentenceAssembler.AbbreviationBefore | packages/runtime/response-assembler.ts:150-157 | The backward walk over a word decides exactly whether the dot belongs to a listed abbreviation or a single Latin letter. |
| Speech.AcceptConsistent | packages/runtime/speech-stream.ts:193-236 | Accepting a segment, in each of its branches (dropped, rejected, over length, held, released), keeps replay and conservation and never takes back what was heard. |
| Speech.EveryCallConsistent | packages/runtime/speech-stream.ts:104-244 | After any call a listener that replays the events holds exactly the released and the held list, event numbers are gap-free, emitted = released + held + retracted, and released text and events only grow. |
| Speech.EveryRunConsistent | packages/runtime/speech-stream.ts:104-244 | The same after every sequence of calls from a fresh stream. |
| Speech.FirstReasonStays | packages/runtime/speech-stream.ts:157-175 | Why streaming was given up is recorded by the first revoke or truncation that names it, and no later call changes it. |
| Speech.SafeSpeechStream.BeginRound | packages/runtime/speech-stream.ts:104-109 | Opens a round with a fresh assembler unless the stream is revoked: the new state of the object is the step of the specification applied to the old one. |
| Speech.SafeSpeechStream.OnDelta | packages/runtime/speech-stream.ts:111-115 | Feeds one delta and accepts every segment it completes, in order: the new state of the object is the step of the specification applied to the old one. |
| Speech.SafeSpeechStream.EndRound | packages/runtime/speech-stream.ts:122-132 | Flushes and accepts the rest, or retracts what is held when the round ended in tool calls: the new state of the object is the step of the specification applied to the old one. |
| Speech.SafeSpeechStream.FailRound | packages/runtime/speech-stream.ts:139-142 | Retracts what is held and drops the assembler: the new state of the object is the step of the specification applied to the old one. |
| Speech.SafeSpeechStream.DoCommit | packages/runtime/speech-stream.ts:145-151 | Releases everything held, or refuses when revoked or nothing is held: the new state of the object is the step of the specification applied to the old one. |
| Speech.SafeSpeechStream.DoRevoke | packages/runtime/speech-stream.ts:157-163 | Retracts what is held, for good; the first fallback reason stays: the new state of the object is the step of the specification applied to the old one. |
| Speech.SafeSpeechStream.DoTruncate | packages/runtime/speech-stream.ts:169-175 | Stops speaking and keeps what was heard: the new state of the object is the step of the specification applied to the old one. |
| Speech.SafeSpeechStream.AcceptOne | packages/runtime/speech-stream.ts:193-236 | Decides one segment: the new state of the object is the step of the specification applied to the old one. |
| Speech.SafeSpeechStream.RetractSegments | packages/runtime/speech-stream.ts:238-243 | Moves the held count to the retracted one and emits one event: the new state of the object is the step of the specification applied to the old one. |
| SpeechSafety.ClaimsOnlyGrow | packages/runtime/response-validator.ts:206-213 | More verified actions never permit fewer claims. |
| SpeechSafety.MoreActionsStaySafe | packages/runtime/response-validator.ts:206-213 | What was clean stays clean as further actions are verified. |
| SpeechSafety.EveryCallWithinLimit | packages/runtime/speech-stream.ts:104-244 | With no assumption about stripping: every call keeps released and held text, joined, within the channel limit, except for one unit more when a segment stripped to nothing stands next to one of exactly the limit. |
| SpeechSafety.EveryRunWithinLimit | packages/runtime/speech-stream.ts:104-244 | So does every sequence of calls from a fresh stream. |
| SpeechSafety.ExceedsIff | packages/runtime/speech-stream.ts:217-224 | Exactly when one more segment takes a reply within the limit over it: the segment is emitted, everything said before it stripped to nothing, and its spoken form has just the length of the limit. |
| SpeechSafety.EmptySegmentExceedsTheLimit | packages/runtime/speech-stream.ts:217-224 | Counterexample: an emptied segment, then one of exactly the limit; the join is one unit longer. |
| SpeechSafety.PlainCallKeeps | packages/runtime/response-validator.ts:389-395 | Where no segment of a model call looks like markdown, stripping spoils none of them. |
| SpeechSafety.StrippingCanLeaveNothing | packages/runtime/response-validator.ts:389-395 | Counterexample: an opening code fence on a line of its own is released as the empty text, which the whole-reply gate rejects. |
| SpeechSafety.StrippingCanExposeALeak | packages/runtime/response-validator.ts:376-395 | Because text is judged before markdown is stripped, a concrete segment passes the guard and leaks once its bold markers are gone. |
| SpeechSafety.AcceptSafeIff | packages/runtime/speech-stream.ts:193-236 | Exactly when one more segment leaves a clean stream clean: it is not emitted, or its spoken form says something and is clean after everything said so far. |
| SpeechSafety.SafeThroughoutIff | packages/runtime/speech-stream.ts:193-236 | For any list of segments: the stream is clean after each of them exactly when none that is emitted is spoiled by stripping. |
| SpeechSafety.EveryCallSafe | packages/runtime/speech-stream.ts:104-244 | Every call keeps heard and held text clean under the actions verified so far, if no segment this call emits is spoiled by stripping. |
| SpeechSafety.HeardPassesTheGate | packages/runtime/agent-runtime.ts:692-698 | Clean heard text passes the whole-reply validation. |
| SpeechSafety.AcceptAllPrefix | packages/runtime/speech-stream.ts:193-236 | Heard or held text is a gap-free prefix of the segments offered to the stream. |
| SpeechSafety.RoundGoesOn | packages/runtime/speech-stream.ts:111-115 | During a round the stream holds or has released a gap-free prefix of what the deltas so far say. |
| SpeechSafety.RoundEnds | packages/runtime/speech-stream.ts:122-132 | At the end of a round without tool calls it is a gap-free prefix of everything the model call says, and all of it unless the stream was stopped. |
| SpeechSafety.HeardIsWhatTheModelWrote | packages/runtime/response-assembler.ts:22-34 | Where no heard segment looks like markdown, on any channel, the heard text is the beginning of the whitespace-normalized text of the model call, and all of it when every segment was heard. |
| SpeechInFull.CapsIff | packages/runtime/speech-stream.ts:217-224 | A segment that passes the guard caps the stream exactly when what is said before it, a space if that is not empty, and its spoken form are together longer than the limit; otherwise it is released, or held in a tool-offering round. |
| SpeechInFull.SaidInFullIff | packages/runtime/speech-stream.ts:104-236 | A call that answers, on a stream nothing has stopped, is released or held in full exactly when each of its segments says something, leaks nothing and claims nothing unverified after those before it, and fits; nothing else drops a sentence. |
| SpeechInFull.PlainTextIsSaid | packages/runtime/response-validator.ts:369-399 | That is so where no segment looks like markdown, the normalized text fits and no beginning of it leaks or claims. |
| AgentTurn.ToolRoundIsUnheard | packages/runtime/agent-runtime.ts:552-558 | Text of a tool-offering round that ended in a tool call is retracted without having been heard. |
| AgentTurn.AnsweredRound | packages/runtime/agent-runtime.ts:552-556 | A round that answered leaves in the stream a gap-free prefix of that one call. |
| AgentTurn.LiveRound | packages/runtime/agent-runtime.ts:458-558 | One streamed model call, from the start of the round to its end or failure: which of the four ends it has, in terms of the call and the stream before it; whether it produced text; what the stream then holds; and that heard and held text is consistent, within the limit, and clean if stripping spoils no segment of the call. |
| AgentTurn.CallModel | packages/runtime/agent-runtime.ts:469-558 | What a round does after its model call: run tools, make the call again, stop, or leave with a draft; exactly one of them, decided by how the call ended, what was heard of it, whether it produced text, and whether a stream was already run again. |
| AgentTurn.RunTools | packages/runtime/agent-runtime.ts:560-670 | The actions of exactly the executed calls of a round are appended, in order, after the earlier ones. |
| AgentTurn.ModelLoop | packages/runtime/agent-runtime.ts:458-670 | The bounded loop ends after at most maxToolRounds tool rounds and one re-run; a loop that is not cancelled made exactly one call per tool round, one more, and one per re-run; there is a re-run exactly when, after tool rounds only, a live stream fails after producing text of which nothing was heard; the actions are the system's and then those of each tool round in order; afterwards the stream holds or has released text of the last call only. |
| AgentTurn.CallsExceedIff | packages/runtime/agent-runtime.ts:79-80 | A turn makes more than maxToolRounds + 1 model calls exactly when it used every tool round and a stream was run again; with repairs counted, and the allowed ones added to the bound, only when no repair was left besides. |
| AgentTurn.RunBeyondTheBound | packages/runtime/agent-runtime.ts:505-516 | Concrete turn: no tool rounds and no repairs allowed, the first stream breaks off after "OK", and a second call is made. |
| AgentTurn.Settle | packages/runtime/agent-runtime.ts:672-711 | Settlement leaves nothing held; a streamed reply is exactly the heard text; what was held is released exactly when nothing was heard, the provider did not fail, the stream is not revoked and the draft is fit to be said; the invariant event fires exactly when text heard before settlement fails the whole-reply gate; clean text stays clean. |
| AgentTurn.CompleteReply | packages/runtime/agent-runtime.ts:720-760 | The complete path says in every case what the reply is: the transformed draft when it passes, or when only its language is wrong and no repair completed; the transformed repair when one was allowed, completed and passes; and in exactly the other cases the fallback line, which is told of unsupported claims. A repair is called exactly when the draft fails and one is allowed; the turn is cancelled exactly when that call was aborted by the caller and nothing is committed. |
| AgentTurn.Conclude | packages/runtime/agent-runtime.ts:672-843 | From the validation checkpoint to persistence: the guarantees of the whole turn, the reply among them; it stops at that checkpoint exactly when the caller aborts there with nothing committed and nothing heard outside a tool round; what is released is what Settle says; and something is held at the end exactly when it was held before, the caller aborts at that checkpoint, and no action has succeeded. |
| AgentTurn.Run | packages/runtime/agent-runtime.ts:205-843 | Every turn: a cancelled one was cancelled by the caller, has persisted nothing, committed no action and released no speech; a refused one made no model call; every reply is determined: the joined released text if there is any, else the provider-failure line when the last call failed, else what CompleteReply makes of the content of the last call; a delivered one persisted exactly the two rows, and one whose transcript could not be appended persisted nothing; if anything was heard the reply is exactly that, from the last model call alone, gap-free; text is held at the end only after cancellation at the validation checkpoint; heard text is within the limit, and clean with the invariant event silent if stripping spoils no segment of the last call; calls and repairs are counted, and there is a re-run exactly in the case the inputs name (RunsAgain). |
| AgentTurn.PlainTurnIsClean | packages/runtime/agent-runtime.ts:689-698 | Where no segment of the last model call looks like markdown, the invariant event is silent and the streamed reply passes the gate. |
| AgentTurn.RunWithHeldAtTheEnd | packages/runtime/agent-runtime.ts:672 | Concrete turn: the model says "OK" with a tool on offer, the caller aborts at the validation checkpoint, and "OK" is still held when the turn is over. |
| AgentTurn.StreamedReplyIsTheModelsText | packages/runtime/agent-runtime.ts:683-719 | Where no heard segment looks like markdown, a streamed reply is a prefix of the normalized text of the last model call. |
| SpeechInFull.RunPlainly | packages/runtime/agent-runtime.ts:205-843 | A whole turn without tools and aborts whose first call answers with such a text: the delivered and persisted reply is exactly the normalized text. |
| Qualification.NextField | packages/qualification/engine.ts:438-450 | The next question is a field without value, not unresolved, with attempts left and not skipped; there is none exactly when no field is like that. |
| Qualification.NextFieldIsFirst | packages/qualification/engine.ts:438-450 | It is the first such field of the schema. |
| Qualification.ConfirmFacts | packages/qualification/engine.ts:131-223 | Answering a read-back, in all of its branches, touches that field only, keeps waiting only at the price of an attempt, and otherwise settles or reopens it. |
| Qualification.QuestionFacts | packages/qualification/engine.ts:234-247 | An answer to the question asked fills the field, gives it up or costs an attempt. |
| Qualification.AnswerStepFacts | packages/qualification/engine.ts:125-247 | The answering part of an utterance, read-back and question together, lowers what is left to do. |
| Qualification.EveryUtterance | packages/qualification/engine.ts:96-263 | One utterance keeps the invariant, changes what is known about one field at most, leaves closed conversations alone, and, when it says anything while in progress, strictly lowers 3 per attempt left + 2 per unfilled field + the flags for the pending question. |
| Qualification.ConversationInvariant | packages/qualification/engine.ts:96-458 | On every reachable snapshot: a field awaiting confirmation is the one asked last, has a value and attempts left; a field that was asked has a value exactly while its own read-back is open; unresolved fields are listed once and unanswered; and complete means every field is filled, given up or skipped. |
| Qualification.ConversationEnds | packages/qualification/engine.ts:96-263 | However the caller answers, the conversation is complete or closed within 3 times all attempts + 2 times the fields + 1 non-empty utterances. |
| Qualification.ApplyUtterance | packages/qualification/engine.ts:96-263 | The statement-by-statement engine on a copied snapshot computes the specified step. |
| Qualification.Answer | packages/qualification/engine.ts:125-247 | The answering part of the engine, statement by statement, is the specified answer step. |
| QualificationValues.UtteranceValues | packages/qualification/engine.ts:125-293 | One utterance, from every snapshot of the invariant: each known value it changed has the text, raw words and measure the parser found in that utterance, or is the value known before, now confirmed; and it is confirmed, or certain enough without needing confirmation, or verbatim, or about to be read back, or out of attempts. |
| QualificationValues.ReadBackIff | packages/qualification/engine.ts:271-293 | The answer to a question is read back exactly when it was parsed and the field asks for confirmation, or the parser was less than 0.8 sure and the field is not in the caller's own words. |
| QualificationValues.NothingIsAcceptedSilently | packages/qualification/engine.ts:14-18 | In every conversation that is not closed, a known value of a confirm field is confirmed, being read back, or out of attempts. |
| QualificationValues.KeptUnconfirmedIff | packages/qualification/engine.ts:131-223 | A value being read back is kept unconfirmed, with attempts left, exactly when it is uncertain, its field asks for no confirmation, and the answer is neither yes, no, nor a number said again. |
| QualificationValues.PassedOverInARun | packages/qualification/engine.ts:204-211 | Concrete conversation: a name parsed at 0.5 is read back, the caller goes on, and the conversation is complete with that name unconfirmed. |
| QualificationOutcomes.ConversationOutcomes | packages/qualification/engine.ts:96-263 | In every conversation: a value that disqualifies has ended it, unless it is still being confirmed or its attempts are spent; whoever is disqualified is so by such a value of the named field; and the unresolved fields are exactly the required ones the caller does not know or was asked for too often. |
| QualificationOutcomes.ClosesIff | packages/qualification/engine.ts:108-123 | Which utterances close a conversation and as what, in the order of precedence; and exactly when a person is asked for. |
| Qualification.Confirm | packages/qualification/engine.ts:131-223 | The read-back part of the engine, statement by statement, is the specified confirmation step. |
| Truncate.TruncateChars | packages/language/truncate.ts:81-112 | The walk-back loops and the word jump return the prefix of the specified length, never longer than asked. |
| Truncate.NeverSplitsAPair | packages/language/truncate.ts:86-111 | The cut never separates the two halves of a surrogate pair, whatever the text. |
| Truncate.ClusterWalkMonotone | packages/language/truncate.ts:90-97 | Walking off a cluster from a later position never ends earlier. |
| Truncate.WordJumpMonotone | packages/language/truncate.ts:102-111 | The 24-unit jump back to a word boundary keeps the order of cuts. |
| Truncate.KeptIsMonotone | packages/language/truncate.ts:81-112 | A larger limit never keeps less, in spite of both walks and the jump. |
| Truncate.IncompleteReopensTheCluster | packages/language/truncate.ts:99-100 | Counterexample: stepping off a trailing virama can leave a combining mark just after the cut. |
| Truncate.WordJumpReopensTheCluster | packages/language/truncate.ts:102-111 | Counterexample: the word jump can go back to a full stop that carries a combining mark. |
| Truncate.ClusterRuleHoldsIff | packages/language/truncate.ts:81-112 | For every text and limit: what is returned is cut off from a combining mark exactly when there is a word boundary to jump to, it is no whitespace and a mark follows it; or there is none, and the text where the cluster walk stopped ends on a virama or joiner without consisting of those alone. |
| Truncate.TruncationIsTight | packages/language/truncate.ts:81-112 | No more is cut off than the rules ask for: the three walks stop at the last place that is fit, and the jump goes to the last word boundary within its reach. |
| Truncate.EstimateTokens | packages/language/tokens.ts:130-150 | The loop over code points computes the specified weighted estimate, rounded up, at least one for a non-empty text. |
| Truncate.EstimateCovers | packages/language/tokens.ts:130-150 | Four times the estimate covers the weighted text and, above one token, exceeds it by less than four; only the empty text costs nothing. |
| Truncate.CostOfCharacters | packages/language/tokens.ts:130-150 | The weighted text is the sum of the weights of its characters, a surrogate pair counted once. |
| Truncate.EstimateIsMonotone | packages/language/tokens.ts:130-150 | The estimate of a longer cut of the same text is never smaller. |
| Truncate.TruncateToEstimatedTokens | packages/language/truncate.ts:120-139 | The binary search returns the longest cut of the text that fits the token budget. |
| Workflow.BackoffGrows | packages/workflows/engine.ts:14-16 | The retry wait is at least five minutes, never shrinks, and is six hours exactly from the fifth attempt on. |
| Workflow.BackoffTable | packages/workflows/engine.ts:14-16 | The waits are 5, 15, 45 and 135 minutes, then six hours. |
| Workflow.Run.ExecuteStep | packages/workflows/engine.ts:208-269 | A step succeeds and is recorded, or uses all its retries without that, or stops at once after a timeout; the call after one that is to be retried is of the same step. |
| Workflow.Run.Execute | packages/workflows/engine.ts:152-206 | An attempt starts at the stored step and ends succeeded; failed, and due again exactly from the backoff of its attempt on; or dead-lettered, exactly when attempts are used up or the outcome is unknown. The step it did not get past has used its retries or timed out. |
| Workflow.Run.Process | packages/workflows/engine.ts:112-123 | A claimed run gets exactly one more attempt, without another look at its row, or is dead-lettered when its workflow or event is gone. |
| Workflow.WorkflowEngine.StartRun | packages/workflows/engine.ts:128-150 | A duplicate event changes nothing; an unmatched one is skipped; otherwise the first attempt runs. |
| Workflow.WorkflowEngine.ClaimDue | supabase/migrations/0009_workflows.sql:87-108 | The store's atomic claim: up to the batch size of due runs, those due longest first, are marked running; none of them is due any more and no other run changes. |
| Workflow.WorkflowEngine.OverlappingClaims | packages/workflows/types.ts:46-47 | Two claims, at any times, share no run. |
| Workflow.WorkflowEngine.ProcessDue | packages/workflows/engine.ts:92-126 | Every run this pass claims is attempted once more or dead-lettered; all other runs, every finished or otherwise claimed one among them, stay untouched. |
| Workflow.NeverAgain | packages/workflows/engine.ts:169-192 | In the whole life of a run a step whose success was recorded is never called again, nothing is called after a timeout, and steps never go back. |
| Workflow.CalledAgainIff | packages/workflows/engine.ts:234-267 | An executor that did its work is called again for the same step exactly when the write recording it failed and the step has a retry left or a later attempt of the run was made. |
| Workflow.WorkedTwice | packages/workflows/engine.ts:244-262 | Concrete run: the log write after the first success fails, and the executor works a second time. |
| Workflow.StepRetriesAreBounded | packages/workflows/engine.ts:234-267 | In one attempt a step is called at most its own maximum number of times. |
| Workflow.RunIsBounded | packages/workflows/engine.ts:152-206 | A run calls nothing beyond its maximum attempts, each step at most its maximum times per attempt, and succeeds only when every step did. |
| Availability.ParseBusy | packages/scheduling/availability.ts:45-53 | The busy list comes out sorted and holds exactly the readable intervals, widened by the buffer. |
| Availability.OverlapsAny | packages/scheduling/availability.ts:55-61 | On a sorted list the early-exit scan answers like a scan of the whole list. |
| Availability.AddMember | packages/scheduling/availability.ts:113-138 | One member and day: to each start exactly the member is added that offers it there. |
| Availability.AddDay | packages/scheduling/availability.ts:107-141 | One day: every start gets, in staff order, exactly the members that offer it; none on a holiday. |
| Availability.Assign | packages/scheduling/availability.ts:143-158 | The first limit starts are dealt out round robin. |
| Availability.GenerateSlots | packages/scheduling/availability.ts:68-159 | The generated list is exactly the first limit bookable starts in increasing order, each given to one of the members free then, and no bookable start is passed over. |
| SlotChecks.AnswerIsUnique | packages/scheduling/availability.ts:68-159 | The specification determines the answer: two lists that meet it are equal. |
| SlotChecks.CandidatesIff | packages/scheduling/availability.ts:80-138 | A start can be given to exactly those active members that have it on the grid of their hours on some day of the window, inside notice and horizon, clear of every buffered busy time. |
| SlotChecks.OffersMeans | packages/scheduling/availability.ts:80-138 | What it takes to offer a start, in minutes and milliseconds: a working day, whole slots from opening on that end by closing, notice, horizon, window and time of day, and every busy time with its buffer. |
| SlotChecks.TakesTurns | packages/scheduling/availability.ts:143-158 | As long as the same members are free, no two of as many slots in a row as there are members go to the same one. |
| SlotChecks.CanBookIff | packages/scheduling/availability.ts:161-181 | The re-check accepts exactly what an active member with that id has free on some day, stated over the query itself. |
| SlotChecks.IsSlotAvailable | packages/scheduling/availability.ts:161-181 | True exactly when an active member with that id offers that start within the proposed slot; the cap of five hides nothing. |
| SlotChecks.GeneratedSlotsCanBeBookedIff | packages/scheduling/availability.ts:161-181 | A generated slot passes the re-check exactly when, on a local date it touches, an active member of that id has hours with a grid slot at its start. |
| SlotChecks.GeneratedSlotsCanBeBooked | packages/scheduling/availability.ts:161-181 | In particular every slot of a member whose opening hours stay within one local date. |
| SlotChecks.HoursPastMidnight | packages/scheduling/availability.ts:161-181 | Counterexample: hours to 26:00 offer a slot that the re-check refuses. |
| CallPath.PathTo | packages/voice/call-state.ts:73-88 | On any finite table the breadth-first search returns a legal path of minimal length, or none exactly when there is no path. |
| CallPath.TerminalAbsorbs | packages/voice/call-state.ts:27-50 | No path leaves a terminal state. |
| CallPath.CallRows.CreateOrGet | packages/voice/in-memory-call-store.ts:54-79 | Check-and-insert: an existing call is returned unchanged, a new one is added. |
| CallPath.CallRows.Transition | packages/voice/in-memory-call-store.ts:116-121 | A transition is stored exactly when the row is in the expected state and the edge is legal. |
| CallPath.CallRows.Walk | packages/voice/gateway.ts:565-574 | Walking the path through the guarded store keeps every stored history a path of the graph, and from the current state it arrives exactly when the target can be reached. |
| Gateway.StepKeeps | packages/voice/gateway.ts:183-336 | Each step between two awaits keeps the protocol invariant. |
| Gateway.EveryRunKeeps | packages/voice/gateway.ts:183-336 | The invariant holds after every interleaving of starts, reattaches, ends, status changes and outbound calls. |
| Gateway.ClaimKeeps | packages/voice/in-memory-call-store.ts:94-101 | The conversation claim is granted only where nobody holds it and no session was built on it. |
| Gateway.RegisterKeeps | packages/voice/gateway.ts:312-317 | Registration puts a new session under a call that has none. |
| Gateway.OneSessionPerCall | packages/voice/gateway.ts:176-182 | A provider call gets at most one session over the whole history. |
| Gateway.HistoriesGrow | packages/voice/gateway.ts:183-336 | The history of opened and of finalized sessions is never rewritten, so that statement covers all time. |
| Gateway.FinalizedAtMostOnce | packages/voice/gateway.ts:576-581 | Each session is finalized at most once, and the registered ones are exactly those opened and not finalized. |
| Gateway.RegistriesAreInverse | packages/voice/gateway.ts:153-154 | The session map and the provider-call map are inverse to each other at every moment. |
| Gateway.OneSetUpAtATime | packages/voice/gateway.ts:155-164 | The single-flight guard never lets two set-ups of one call run at once. |
| Gateway.SuccessfulStartsAgree | packages/voice/gateway.ts:183-336 | All successful starts of one call name the same session. |
| GatewayStarts.StartAlone | packages/voice/gateway.ts:183-336 | After any run, a start of a call with no live session and no set-up under way, which then runs alone, returns. It succeeds with a registered session exactly when it is routed, there is room, and its row is absent and outbound was not asked for, or stored with the same numbers, a compatible direction, not ended and not claimed. Each other case has its refusal reason and leaves the store as it was; the row it creates is an incoming one. |
| GatewayStarts.StartReattaches | packages/voice/gateway.ts:223-229 | A start of a call with a live session attaches its socket to that session exactly when it has the numbers of the call, and otherwise changes nothing and is refused. |
| GatewayStarts.SecondStartJoins | packages/voice/gateway.ts:193-204 | A second start during a set-up gets the refusal of the first, or its session, and the socket that came last, if its numbers are the same, and is refused otherwise. |
| Gateway.OnlyTheRightCaller | packages/voice/gateway.ts:194-203 | A session only speaks to a socket with the call's own numbers, and a successful start had them, except one that waited while the session ended. |
| Gateway.LateStartIsNotChecked | packages/voice/gateway.ts:194-204 | Concrete run: such a late start from another number is told that it succeeded. |
| CallTelemetry.AppendedAll | packages/voice/in-memory-call-store.ts:123-129 | Appending a batch of new numbers adds all of it; the duplicate filter drops nothing. |
| CallTelemetry.SessionLog.OnEvent | packages/voice/gateway.ts:511-525 | An event is buffered in order and the buffer flushed when full. |
| CallTelemetry.SessionLog.OnTranscriptTurn | packages/voice/gateway.ts:527-530 | A turn is numbered when it is spoken. |
| CallTelemetry.SessionLog.Flush | packages/voice/gateway.ts:532-554 | Flushing numbers the buffered events where the last batch stopped and queues one ordered write. |
| CallTelemetry.SessionLog.WriteNext | packages/voice/gateway.ts:548-553 | A write stores the events, then the turns unless the events failed; a failed write is lost, later ones go on. |
| CallTelemetry.SessionLog.Drained | packages/voice/gateway.ts:532-554 | What is stored is always in emission order and unaltered, and gap-free when no write failed. |
| Ics.EscapeIsOnePass | packages/platform/ics.ts:36-41 | The four sequential replacements equal one pass over the characters. |
| Ics.EscapeRoundTrip | packages/platform/ics.ts:34-41 | Unescaping an escaped text gives the text with CRLF read as LF (section 3.3.11 of RFC 5545). |
| Ics.EscapedIsOneLine | packages/platform/ics.ts:34-41 | An escaped text contains no line feed. |
| Ics.CutIsNear | packages/platform/ics.ts:50-53 | In UTF-8 a character boundary is never more than three octets before a position. |
| Ics.FoldIcsLine | packages/platform/ics.ts:43-58 | The folded line consists of whole characters in lines of at most 75 octets, the leading space included; each but the last is as long as it can be: every later position up to its room falls inside a character (section 3.1 of RFC 5545). |
| Ics.FoldRoundTrip | packages/platform/ics.ts:43-58 | Unfolding a folded line without line feed gives the line back. |
| Ics.BuildCalendar | packages/platform/ics.ts:60-88 | Unfolding the whole calendar text gives all its lines back. |
| RateLimit.MemoryRateLimiter.Sweep | packages/platform/rate-limit.ts:32-40 | Sweeping removes exactly the idle buckets, and only when a window has passed since the last sweep. |
| RateLimit.SweepMeans | packages/platform/rate-limit.ts:32-40 | A sweep happens once a window and leaves exactly the buckets with a request in it, unchanged. |
| RateLimit.MemoryRateLimiter.Request | packages/platform/rate-limit.ts:43-70 | The closure's loops compute the specified answer and bucket state. |
| RateLimit.CheckRefines | packages/platform/rate-limit.ts:42-71 | With a non-decreasing clock one check answers like a limiter that remembers its whole history. |
| RateLimit.RunRefines | packages/platform/rate-limit.ts:23-72 | So does every sequence of checks. |
| RateLimit.LimitHolds | packages/platform/rate-limit.ts:23-72 | No window ever holds more than the limit of admitted requests per key. |
| RateLimit.AllowedIff | packages/platform/rate-limit.ts:42-71 | In any run a request is admitted exactly when fewer than the limit were admitted for its key in the window before it; what is left, and the reset time of an admitted one, are exact. |
| RateLimit.RemainingIsExact | packages/platform/rate-limit.ts:42-71 | Exactly as many further requests of that key are admitted at the same instant as an admitted request was told, whatever came before; all of them in a window of no length. |
| RateLimit.ResetIsFirstAdmission | packages/platform/rate-limit.ts:56-62 | For a history within the limit, a rejected caller's reset time is the first instant at which it would be admitted. |
| RateLimit.AdmittedFromReset | packages/platform/rate-limit.ts:42-71 | The limiter itself, in any run over any keys: after a rejection, the next request of that key is admitted if and only if it comes at the announced reset time or later, as long as those of its key in between came before it. |
| RateLimit.ResetMissingIff | packages/platform/rate-limit.ts:56-62 | In any run a request's reset time is missing exactly when the limit is zero. |
| RollingRecap.FoldSummary | packages/runtime/memory-manager.ts:43-54 | The shrinking loop computes the specified recap. |
| RollingRecap.RecapIsTheLongestTail | packages/runtime/memory-manager.ts:43-54 | The recap is within its cap and is the longest tail of the old recap and the new lines that fits, at least the start of the newest line. |
| RollingRecap.EveryMessageOnce | packages/runtime/memory-manager.ts:73-106 | Over every conversation each message is handed to the recap at most once, in order and without gaps, at most two are outside both recap and window after a turn, and the cap holds; four spare fetched messages are enough. |
| RollingRecap.ThreeSpareAreTooFew | packages/runtime/memory-manager.ts:73-91 | With three spare messages or fewer a recap that has begun is never extended again. |
| ContextBudget.FirstFitIsLeast | packages/runtime/context-builder.ts:177-191 | Degrading until it fits gives the form with the fewest reductions that fits, or the fully reduced one. |
| ContextBudget.FirstFitDegrades | packages/runtime/context-builder.ts:177-191 | Knowledge loses its last snippets only, the recap goes only after all knowledge, history loses its oldest messages only after both and never the last two. |
| ContextBudget.TwoLoopsAreOne | packages/runtime/context-builder.ts:177-240 | The character loop followed by the token loop finds the first form within both ceilings: nothing is cut that neither made necessary. |
| ContextBudget.NextToReduce | packages/runtime/token-budget.ts:99-119 | The report names a component with content exactly when the estimate is over the ceiling and something is left to cut. |
| ContextBudget.DegradeByChars | packages/runtime/context-builder.ts:177-191 | The three-part character loop is the specified degradation. |
| ContextBudget.DegradeByTokens | packages/runtime/context-builder.ts:230-240 | The token loop is the specified degradation. |
| ContextBudget.WindowIsCappedIff | packages/runtime/context-builder.ts:130-131 | The message window has at most n messages exactly when n is positive or there are none at all and n is zero; it is always the newest ones; at zero it is all of them. |
| ContextBudget.WindowOfZeroKeepsAll | packages/runtime/context-builder.ts:129-131 | Counterexample: a limit of no messages lets two through. |
| ContextBudget.BoundKnowledge | packages/runtime/context-builder.ts:137-152 | Knowledge is cut to the snippet count and the character allowance: each snippet from its end only, to what those before it leave, and not at all when there is room. |
| ContextBudget.BuildContext | packages/runtime/context-builder.ts:123-240 | The context is the least reduced form of the separately bounded parts within both ceilings; history is the newest messages, each trimmed, and within its limit exactly when that is positive or there is no history. |
| SpeechChunks.Sentences | packages/voice/sentence-chunker.ts:27-36 | The text is cut exactly at its sentence ends, and the pieces are the trimmed stretches between them that say something; every non-space character is kept in order. |
| SpeechChunks.MergeShort | packages/voice/sentence-chunker.ts:38-46 | Each merged piece joins a stretch of consecutive sentences, as many as it takes to reach the minimum and no more; only the last may be shorter. |
| SpeechChunks.SplitLong | packages/voice/sentence-chunker.ts:53-67 | A long piece is cut behind the last comma before the limit, else at the last space, else at the limit, and again until the rest fits; every non-space character is kept in order in non-empty pieces within the limit. |
| SpeechChunks.ChunkForSpeech | packages/voice/sentence-chunker.ts:23-51 | The reply follows one plan: cut into sentences, short ones merged, long ones split; every non-space character is spoken once, in order, in non-empty pieces of at most the maximum length. |
| PhoneTranscript.DeferredAssistantStore.AppendMessages | packages/voice/phone-channel-adapter.ts:152-159 | The last assistant row is held, all others are written in order. |
| PhoneTranscript.HeardOnly | packages/voice/phone-channel-adapter.ts:197-202 | The transcript has the whole reply only when it was delivered; otherwise the delivered words and the interruption marker, or the not-heard marker when there are none. |
| PhoneTranscript.DeferredAssistantStore.Resolve | packages/voice/phone-channel-adapter.ts:176-184 | The held row is written with what was heard, if it is the one asked for; otherwise nothing changes. |
| PhoneTranscript.PhoneTurnHandler.HandleTurn | packages/voice/phone-channel-adapter.ts:253-281 | A reply that was never reported is written as not heard before the next turn's rows. |
| PhoneTranscript.PhoneTurnHandler.RecordDelivery | packages/voice/phone-channel-adapter.ts:330-332 | A report about any turn but the held one changes nothing. |
| PhoneTranscript.PhoneTurnHandler.Close | packages/voice/phone-channel-adapter.ts:334-341 | At the end of the call every reply has been written. |
| PhoneTranscript.PhoneTurnHandler.WrittenInTurns | packages/voice/phone-channel-adapter.ts:138-195 | At any time of a call the store holds, turn by turn, the caller's words and then the reply as heard, each once; only the last reply may be missing, and none is when nothing is held. |
| Audio.LinearToMulaw | packages/voice/audio.ts:15-25 | The exponent loop finds the segment, and the byte is the specified code. |
| Audio.CodecError | packages/voice/audio.ts:15-35 | Decoding a code is off by at most half a step of its segment, a thirty-second of the biased magnitude. |
| Audio.CodecIsMonotone | packages/voice/audio.ts:15-35 | The codec keeps the order of samples, across both signs. |
| Audio.CodesRoundTrip | packages/voice/audio.ts:28-35 | Coding a decoded byte gives the byte back exactly when it is not the code of minus zero. |
| Audio.BoundedAudioQueue.Push | packages/voice/audio.ts:95-109 | The queue holds a suffix of what was pushed within its ceiling, drops only the oldest audio, and counts every dropped byte. |
| Audio.BoundedAudioQueue.Drain | packages/voice/audio.ts:111-116 | Draining hands out that suffix in order; handed out plus lost is everything pushed. |
| Crm.MergeConservesTotals | packages/crm/crm-service.ts:139-157 | A merge moves the loser's appointments and revenue to the keeper; live totals do not change. |
| Crm.UpsertConservesTotals | packages/crm/crm-service.ts:78-115 | No upsert changes the totals over live customers. |
| Crm.UpsertInserts | packages/crm/crm-service.ts:78-115 | Where nobody live has the email or phone of the draft, one row is added as the draft says and no other changes. |
| Crm.UpsertApplies | packages/crm/crm-service.ts:78-115 | Otherwise the row with the email, before the one with the phone, takes what the draft says; the other one, if there is one, is merged into it; no other row changes. |
| Crm.UpsertKeepsKeysUnique | packages/crm/crm-service.ts:78-115 | Non-empty emails and phones stay distinct among live rows. |
| Crm.UpsertIdentifies | packages/crm/crm-service.ts:72-77 | Afterwards every live row with the draft's email or phone is the one returned. |
| Crm.UpsertNeverGoesBack | packages/crm/crm-service.ts:60-67 | No customer's stage goes back, and a merged one's keeper is at least as far. |
| Crm.UpsertKeepsFacts | packages/crm/crm-service.ts:104-112 | Known emails, phones and sources stay; a name gives way only to a newer one; a merge fills the keeper's gaps. |
| Crm.UpsertIsIdempotent | packages/crm/crm-service.ts:78-115 | Sending the same draft again changes nothing exactly when it has an email or a phone. |
| Crm.CrmService.MarkMerged | packages/crm/crm-service.ts:42-43 | The loser is stamped and its whole timeline repointed. |
| Crm.CrmService.Merge | packages/crm/crm-service.ts:139-157 | After a merge no timeline entry belongs to a merged row. |
| Crm.CrmService.UpsertCustomer | packages/crm/crm-service.ts:78-115 | The service's steps compute the specified upsert. |
| Crm.CrmService.RecordAppointment | packages/crm/crm-service.ts:125-131 | Given the customer as stored, the live total grows by the delta and the stage does not go back. |
| Crm.CrmService.RecordRevenue | packages/crm/crm-service.ts:133-137 | Given the customer as stored, the live total grows by the amount; other amounts change nothing. |

## Left out

- Gateway: the session objects and registries are values of a state machine, so update in place is not captured; the media session, transfers, timers and the reconnect window are not modelled.
- Gateway capacity: the check reads the size and then awaits, so the configured maximum is not a bound; nothing is claimed about it.
- Gateway state when the store fails mid-walk or two walks race: only the stored history is covered.
- Qualification events, the human-readable disqualification reason and the low-speech-confidence override, which can re-arm a read-back after the attempt budget.
- AgentTurn: prompts, retrieval, telemetry, escalation and state patches of a turn.
- Workflow: real step deadlines and sleeps, timers, event dispatch, and a process that dies, or a store call other than the log write after a success that fails, in the middle of a run, which leaves the row running. A parameter interpolation that throws counts as a failed call.
- Availability: IANA zone data and the instants an ambiguous local time resolves to; the proposed instants of a re-check are compared as instants, not as strings.
- ContextBudget: roles, customer facts and tool descriptors, which are never cut below their own fixed limits, and the list of what was trimmed; limits are whole numbers.
- Ics: the conversion of a text to UTF-8 octets and the fields of an event.
- SpeechChunks: the limit must be positive; with a limit of zero the source loops for ever.
- Crm: normalization of emails and phones, and concurrent upserts.
- Audio: packing samples into bytes, levels and durations.
- CRM, call and workflow stores over the database, telephony, speech and model providers, HTTP and configuration: input and output only.
- Knowledge chunking: its sentence pattern drops text such as the "3." of "3.5kW", so nothing is preserved there.
