# Request relay, Linear bridge and their smaller guards

A Dafny model of the parts of the plugins where a wrong step is hard to see from one function.

`Basics` holds what every module shares.

**The request relay** (`Wire`, `Restoration`, `Marks`, `Pinning`, `Recurrence`, `StableContext`, `NextRequest`,
`Request`). A native Messages request is a list of messages made of blocks, each with at most one `cache_control` mark.
The relay restores the turn the host queried, moves native's per-request context to where later requests replay it, and
puts the message marks on blocks that recur. The transforms are functions on values, with their properties proved about them; the class
`Request.Request` changes one body in place, in the source's order, and is tied to those functions. Marks in document
order are a list, so "deleted", "moved" and "repeated next to itself" can be said exactly.

**The stream reader** (`Framing`, `Capture`, `Reassembly`). Server-sent event text is cut at blank lines and handled
event by event. Framing follows the subset of section 9.2.6 of the WHATWG HTML Living Standard that the code reads.

**The admission and Stop protocol** (`Admission`, `Progress`, `StopStarted`, `RoutingScan`). Native tasks are append-only event
logs with compare-and-set on the last event id; the bridge keeps durable intents. `Admission` is a state machine: any
number of workers, each between two reads or writes, may stop anywhere and start again, while a dispatcher and people
append events. `Progress` says what a worker that is let run gets done, since doing nothing would be safe.
`StopStarted` and `RoutingScan` are the worklist and the paged scan as loops.

**Guards** (`Acceptance`, `ConnectorGate`, `SharedPause`, `History`, `FormatSchema`): the pull-request proof from
Actions jobs, the connector approval gate, the cooldown shared through one file, replay of native history, and the
schema sent for structured output.

Contracts of code outside this model, taken as given: `block_task` and `unblock_task` with an expected event id append
one event if that id is the last one, and only then (a block given a run id also asks for that run); event ids only
grow; every native task has one `created` row; `native_intent_prepare` inserts if absent and `native_intent_settle`
keeps an applied intent (`store.py` lines 890-929); request ids of guarded unblocks do not collide. JSON text is read by
functions passed in; time is a number passed in.

Where the code and its own words part, or the words leave the case open:

- `Capture` splits a frame with `str.splitlines`, which also ends lines at U+0085, U+2028, U+2029 and some controls. A
  payload with one of these inside, legal in JSON, is cut short. `Framing.PayloadComesBack` gives the exact condition,
  `Framing.LineSeparatorCutsPayload` an input.
- "Split/joined text runs are equivalent for matching, but never across media, metadata or cache directives": what the
  last words mean for a mark on text is settled by `Restoration.Exact`. A text the host marked is one whole text of
  native's; native's marks stand on the first texts of what is left, each on exactly the host's text.
  `Restoration.RunsMatterExactly` says for which frames native's cut of its runs matters.
- A request that ends with two different date lines is not stable after one pass (`StableContext.StableTwice`,
  `StableContext.TwoDatesNotStable`).
- Stripping a schema strengthens it under `not`, and where matches are counted (`FormatSchema.StrengthensUnderNot`,
  `FormatSchema.StrengthensWhatIsCounted`); `FormatSchema.Moves` says which way it goes where.
- The longest cooldown is kept across clients and restarts unless a process dies between truncating the shared file and
  writing it (`SharedPause.PauseShrinks`, `SharedPause.TornWriteForgets`).

## Model

| member | source | states |
|---|---|---|
| Restoration.Exact | plugins/claude-subscription-directsdk/admission.py:426-494 | Whatever native sent and whatever either side marked, a frame is accepted exactly when, run by run and at every depth: each text the host marked is one whole text of native's, marks not contradicting; in the bare text between, native's marked texts come first and are, one for one, the host's first texts, and what both have left joins to the same, or goes on in the frame's last run; and the protected block that ends the run is the host's |
| Restoration.Sound | plugins/claude-subscription-directsdk/admission.py:426-494 | An accepted turn is lossless at every depth: its reading is the host's, native's reading starts with it, and every mark either side placed is kept at its own place |
| Restoration.RestoresHost | plugins/claude-subscription-directsdk/admission.py:445-494 | With marks erased at every depth, the restored turn is the queried frame |
| Restoration.Extends | plugins/claude-subscription-directsdk/admission.py:469-494 | A frame, or a frame with bare text after it, restores to the frame itself |
| Restoration.SelfRestoring | plugins/claude-subscription-directsdk/admission.py:445-494 | A frame restores from itself if and only if all its blocks are objects with boolean error flags |
| Restoration.Idempotent | plugins/claude-subscription-directsdk/admission.py:469-494 | Restoring the restored turn against the same frame changes nothing |
| Restoration.RunsMatterExactly | plugins/claude-subscription-directsdk/admission.py:469-494 | How native cut its runs of bare text never changes the answer if and only if the host marked no bare text, at any depth, or its frame is one nothing restores (an element that is no object, an error flag that is no boolean) |
| Restoration.RunsMatterUnderHostMark | plugins/claude-subscription-directsdk/admission.py:478-490 | The input where it does: the host marked a bare text |
| Restoration.MarkInsideRunRefused | plugins/claude-subscription-directsdk/admission.py:478-490 | An input that reads as the frame and is refused: the mark native put is not on the first text of its run |
| Restoration.RestoreSequence | plugins/claude-subscription-directsdk/admission.py:469-494 | The two-index loop computes the matcher and ends, nested tool results included |
| Restoration.TurnIsLossless | plugins/claude-subscription-directsdk/admission.py:405-523 | Unless refused (`RefusedExactly` says when), the newest turn goes out as the host queried it, nothing native sent in it is lost, and every other message is untouched |
| Restoration.RefusedExactly | plugins/claude-subscription-directsdk/admission.py:496-516 | A frame with a tool result is refused if and only if the message after the last assistant is missing, no user message or no list; or a queried id is missing, empty or repeated; or native's result ids, by position, are not those in order; or the matcher refuses |
| Restoration.OthersUnchanged | plugins/claude-subscription-directsdk/admission.py:412-417 | Without a queried frame, or without a tool result in it, the request goes out as it came |
| Marks.OrderStaysSorted | plugins/claude-subscription-directsdk/admission.py:348-353 | Deletions and one neighbour repeated keep a list sorted under any reflexive order |
| Pinning.OnlyHitIs | plugins/claude-subscription-directsdk/admission.py:148-152 | The frame is found exactly when it stands at one place and no other |
| Pinning.TargetIsLast | plugins/claude-subscription-directsdk/admission.py:331-346 | A block is the target if and only if it is the last cacheable one that recurs: before the message after the last answer, or, in that user message, among the most leading blocks that equal the frame, unless a tool result ends these; there is none if and only if no such block is cacheable |
| Pinning.TurnStartIs | plugins/claude-subscription-directsdk/admission.py:236-278 | A block is the start of the open turn if and only if it is the last cacheable one of the last user message before the first thinking of the turn the last answer belongs to |
| Pinning.ContextBeforeIs | plugins/claude-subscription-directsdk/admission.py:143-157 | Native's opening context is found if and only if no assistant has spoken and the first user message holds plain text, then the frame, which is not empty, at its only place |
| Pinning.FrameFirstIs | plugins/claude-subscription-directsdk/admission.py:127-162 | Then the turn goes out beginning with the frame, nothing but that text gone, or the transform raises |
| Pinning.DropFirstIs | plugins/claude-subscription-directsdk/admission.py:158-161 | Of the marks on dropped blocks the first goes to the block now first, unless it is null or that block has one; an element that is no object raises |
| Pinning.PinContent | plugins/claude-subscription-directsdk/admission.py:325-356 | Past `_frame_first`, pinning changes nothing but block marks: roles, texts, nested content and message marks stay |
| Pinning.PinOrder | plugins/claude-subscription-directsdk/admission.py:127-161 | Through dropping, folding and keeping, the block marks in document order are native's with some deleted and at most one repeated next to itself |
| Pinning.PinKeepsTtlOrder | plugins/claude-subscription-directsdk/admission.py:298-358 | Marks sorted under any reflexive order of TTLs are still sorted |
| Pinning.PinBudget | plugins/claude-subscription-directsdk/admission.py:288-295 | The count of marks in the whole body grows by at most one, and only up to four |
| Recurrence.PinRecurs | plugins/claude-subscription-directsdk/admission.py:331-358 | After pinning, every block mark is at or before the target, and for any next request that replays the messages and the frame, both requests are the same through that mark once marks are erased |
| Recurrence.DistanceCounts | plugins/claude-subscription-directsdk/admission.py:279-281 | The distance compared with the lookback is the number of flattened positions from the turn start to the target, both included |
| Recurrence.KeepIs | plugins/claude-subscription-directsdk/admission.py:279-295 | The start of the open turn takes a mark only when unmarked, before the target and more than twenty positions away: a copy of the next mark below four marks, else that mark itself if it stands before a marked target; every other block keeps its mark |
| Recurrence.TurnStartReachable | plugins/claude-subscription-directsdk/admission.py:279-295 | Said of the request as it came, the start of the open turn ends marked or within twenty positions of the target if and only if it is so already, or a later block is marked and either the body, with the marks after the target counted once, is below four, or a mark strictly between can move and there is one at the target or after it; that count is never above the entry count |
| Recurrence.PinTwice | plugins/claude-subscription-directsdk/admission.py:298-358 | Pinning a pinned body changes nothing |
| StableContext.DateMoves | plugins/claude-subscription-directsdk/admission.py:194-219 | The date line moves whole to the end of the first system message, its own message goes, and every other message keeps all but marks |
| StableContext.DateIs | plugins/claude-subscription-directsdk/admission.py:198-211 | A date line moves if and only if it is all the last message says, that message is the system's but not its first, and the first ends in a text without that line at its end |
| StableContext.DateLineIs | plugins/claude-subscription-directsdk/admission.py:165-168 | A text is a date line if and only if it is the opening words, digits as dddd-dd-dd and a full stop |
| StableContext.DateMarkMoves | plugins/claude-subscription-directsdk/admission.py:212-217 | The line's mark, its block's or else its message's, goes to the block now last unless it is null or that block has one; all else is as it was |
| StableContext.ReminderGoes | plugins/claude-subscription-directsdk/admission.py:220-231 | Found reminders go, and only they: plain text before the queried frame |
| StableContext.RemindersIs | plugins/claude-subscription-directsdk/admission.py:218-225 | Reminders are found if and only if an assistant has answered, the frame is more than tool results, and the last user message holds plain text, then the frame at its only place |
| StableContext.TurnBeginsWithFrame | plugins/claude-subscription-directsdk/admission.py:171-233 | In an expected request with such a turn, the turn that goes out begins with the frame, and is what it was without that text |
| StableContext.UnexpectedUnchanged | plugins/claude-subscription-directsdk/admission.py:184-196 | A request with another role, content that is no string or list, an untyped block, a text block without text, or a frame of other than objects goes out as it came |
| StableContext.AssistantsUntouched | plugins/claude-subscription-directsdk/admission.py:171-233 | Messages keep order and role, at most one trailing system message goes, and assistants keep everything but marks |
| StableContext.StableOrder | plugins/claude-subscription-directsdk/admission.py:212-230 | The block marks are native's, in order, some deleted; the only addition can be the popped message's own mark, at the end |
| StableContext.StableCount | plugins/claude-subscription-directsdk/admission.py:212-230 | Removed marks move and never multiply: the count does not grow |
| StableContext.StableTwice | plugins/claude-subscription-directsdk/admission.py:194-233 | A stable request forwards unchanged if and only if native did not end it with two different date lines |
| StableContext.TwoDatesNotStable | plugins/claude-subscription-directsdk/admission.py:194-219 | The request where it does not: an environment message, then two date lines |
| StableContext.RewriteBudget | plugins/claude-subscription-directsdk/admission.py:799-801 | Both transforms together add at most one mark to the body and none beyond four |
| StableContext.RewriteKeepsTtlOrder | plugins/claude-subscription-directsdk/admission.py:799-801 | Both transforms together keep any reflexive TTL order |
| NextRequest.RewriteRecurs | plugins/claude-subscription-directsdk/admission.py:127-523 | End to end, restoration included: for a native request and the one that follows it (its messages replayed through the last assistant, the queried frame, an answer, a later user turn with any context before its frame; once somebody answered, the same date line at the end of both or none), what the relay sends for both is the same, marks apart, from the start through every block mark of the first |
| NextRequest.OpeningRecurs | plugins/claude-subscription-directsdk/admission.py:127-161 | The first pair of a conversation as native sends it: an opening request with context before the frame and the date in its environment, then one with the date at the end; the mark ends on the frame, and both are the same through it |
| Request.Request.Breakpoints | plugins/claude-subscription-directsdk/admission.py:114-123 | The worklist counts every mark of the body, nested ones included, once |
| Request.Request.FrameFirst | plugins/claude-subscription-directsdk/admission.py:127-161 | In place: the first turn loses native's context exactly as specified, or nothing changes |
| Request.Request.Fold | plugins/claude-subscription-directsdk/admission.py:348-353 | In place: popping every later mark and defaulting the first onto the target |
| Request.Request.KeepTurnMark | plugins/claude-subscription-directsdk/admission.py:243-295 | In place: adding or moving one mark, decided on the counted body |
| Request.Request.PinMessageBreakpoint | plugins/claude-subscription-directsdk/admission.py:298-358 | In place: the pinned messages; a body reported unchanged is unchanged |
| Request.Request.StableRequestContext | plugins/claude-subscription-directsdk/admission.py:171-233 | In place: the stable messages; a body reported unchanged is unchanged |
| Request.Request.StreamToolInput | plugins/claude-subscription-directsdk/admission.py:386-402 | Every tool object ends with the flag, values native set stay, and no mark is added |
| Request.Request.RestoreQueriedTurn | plugins/claude-subscription-directsdk/admission.py:405-523 | In place: the restored turn, or a refusal that leaves the messages as they were |
| Request.Request.Rewrite | plugins/claude-subscription-directsdk/admission.py:792-801 | The relay's whole sequence: marks outside the messages stay, and past restoration the count grows by at most one and only up to four |
| Framing.PayloadComesBack | plugins/claude-subscription-directsdk/admission.py:535-541 | A one-line payload is read back if and only if nothing in it ends a line for `splitlines` and it does not start with a space |
| Framing.LineSeparatorCutsPayload | plugins/claude-subscription-directsdk/admission.py:539 | The payload a raw U+2028 cuts short |
| Framing.SeparatorIs | plugins/claude-subscription-directsdk/admission.py:537 | Frames part at two line ends in a row, each with or without a carriage return, and nowhere else |
| Framing.LinesCarry | plugins/claude-subscription-directsdk/admission.py:539 | A frame carries what follows the field name on its `data:` lines, in order, and nothing of its other lines |
| Framing.TwoLinesJoin | plugins/claude-subscription-directsdk/admission.py:539 | Two data lines are joined by one line feed |
| Framing.ChunksDoNotMatter | plugins/claude-subscription-directsdk/admission.py:535-541 | Feeding chunk by chunk equals feeding the whole text, wherever it is cut, a line end included, raised errors included |
| Framing.StreamRuns | plugins/claude-subscription-directsdk/admission.py:535-541 | A text made of compact frames and blank lines is taken frame by frame, in order, with nothing left |
| Capture.StreamRoundTrip | plugins/claude-subscription-directsdk/admission.py:526-593 | Events written as frames, LF or CRLF, cut into chunks anywhere, are handled as those events in order |
| Capture.WrittenSpells | plugins/claude-subscription-directsdk/admission.py:526-541 | A text written event by event, each frame with its line end twice after it, is one that law speaks of |
| Capture.Capture.Feed | plugins/claude-subscription-directsdk/admission.py:535-541 | The reading loop drains every whole frame of the pending text and keeps the rest |
| Capture.Capture.Dispatch | plugins/claude-subscription-directsdk/admission.py:543-593 | The handlers change the fields as the event specification says, or raise; `Tracked` and `TablesTracked` say what that comes to |
| Reassembly.Tracked | plugins/claude-subscription-directsdk/admission.py:555-588 | After every event of a well-formed message each block is its start plus its own pieces joined, whatever came between them, and open and unparsed arguments are exactly those of the blocks that have them |
| Reassembly.TablesTracked | plugins/claude-subscription-directsdk/admission.py:586-588 | After every event, each field and each usage entry has the value of the last `message_delta` that names it, else the one the message started with, and no other is there |
| Reassembly.CallHas | plugins/claude-subscription-directsdk/admission.py:573-580 | A finished call has an empty object when its arguments were only white space, else what they parse to, and only a call that does not parse is dropped |
| Reassembly.Reassembled | plugins/claude-subscription-directsdk/admission.py:555-593 | At the message's stop the blocks are those, in order, without exactly the tool calls whose arguments do not parse, the fields and usage are as last said, and it is complete if and only if the last stop reason the stream names, else the start's, is neither null, empty nor false, and no arguments are open |
| Reassembly.StreamReassembled | plugins/claude-subscription-directsdk/admission.py:526-593 | The same from the text of the stream, cut anywhere |
| Admission.CreatedAtMostOnce | plugins/linear/bridge.py:1940-1982 | In every run, with crashes and retries, the native create is called at most once for the issue |
| Admission.AdmittedOnlyUntouched | plugins/linear/bridge.py:1992-2110 | In every run our unblock for the parked pair is in the log at most once, directly after that pair, and the intent says accepted only when it is there |
| Admission.UnblocksFollowTheirToken | plugins/linear/bridge.py:1039-1075 | In every run each of our guarded unblocks, a PR-park resume included, directly follows the event it was signed for |
| Admission.StopOnceAndNeverOverAPerson | plugins/linear/bridge.py:3042-3134 | In every run at most one block carries a Stop; when it was appended every resume or finish at or after the second of the click was our own initial unblock; an applied Stop has its block in the log or read the work as finished; `Progress.StopIsMade` is the other half |
| Admission.LogOnlyGrows | plugins/linear/bridge.py:1077-1083 | What stood before an event when it was appended still stands before it |
| Progress.StopIsMade | plugins/linear/bridge.py:3042-3134 | From any reachable state, a worker at a Stop nobody has overtaken, let run while at most three neutral events come in, ends with the Stop's block in the log and its intent applied |
| Progress.RecordedIsSettled | plugins/linear/bridge.py:3073-3080 | A Stop whose block is in the log already is settled as applied, whatever is answered and whatever comes in, without a second block |
| Progress.OvertakenStandsDown | plugins/linear/bridge.py:3098-3106 | A Stop a person overtook blocks nothing and records whether the person came strictly later |
| Progress.StopGivesWay | plugins/linear/bridge.py:3081-3129 | A task that is over settles the Stop as applied without a block; one that cannot be read, or refuses the block four times, leaves the log alone and the intent to be reconciled |
| Progress.AssignmentIsAdmitted | plugins/linear/bridge.py:1940-1991 | From any reachable state, a worker let run undisturbed takes an assignment, new or begun before, to a task unblocked right after the parked pair with its admission applied and accepted |
| Progress.BoundIsAdmitted | plugins/linear/bridge.py:1992-2110 | The same from a bound task whose creation a crash left unsettled |
| Progress.TouchedIsRefused | plugins/linear/bridge.py:2058-2068 | A task anything touched first is left as it is and its admission recorded as not accepted |
| Progress.UnblockIsJudged | plugins/linear/bridge.py:2094-2107 | An unblock nobody answered is accepted if and only if it stands in the log right after the parked pair |
| Progress.AppliedIsFinal | plugins/linear/store.py:905-929 | In every run a creation, an admission or a Stop settled as applied stays so, whatever is retried, crashes or comes in later |
| StopStarted.Board.StopStarted | plugins/linear/bridge.py:1085-1121 | For any graph of starts, cycles included, and whatever others do to a task while it is tried, the worklist ends, looks at every descendant but the root exactly once, leaves the tasks as specified and reports exactly the stopped ones |
| StopStarted.Board.StopOne | plugins/linear/bridge.py:1109-1120 | Up to three guarded tries while anyone may append events, change the status and start another run, between the reads and before the block |
| StopStarted.GuardSeesEvents | plugins/linear/bridge.py:1109-1120 | A block lands only on the history that was looked at |
| StopStarted.GuardIs | plugins/linear/bridge.py:1114-1120 | The guard holds if and only if nobody appended an event since the history was read nor changed the run of a running task |
| StopStarted.CaughtIs | plugins/linear/bridge.py:1109-1120 | A task is stopped if and only if it is untouched at every look up to one of the first three whose guard holds |
| StopStarted.QuietStop | plugins/linear/bridge.py:1109-1120 | With nobody else coming in, a visited task is blocked if and only if it is not blocked, in triage, done or archived and no event carries this Stop or is a person's resume or finish after the click; every other stays as it is |
| StopStarted.StoppedUntouched | plugins/linear/bridge.py:1090-1093 | Whatever others do, a stopped task's history ends with the Stop, and nothing before it is this Stop or such a resume or finish |
| StopStarted.LeftToStop | plugins/linear/bridge.py:1109-1120 | A visited task still needs the Stop afterwards if and only if it needed it at each of the three looks and in the end, and each time others changed its history or its run before the block |
| StopStarted.SecondRunStopsNothing | plugins/linear/bridge.py:1085-1093 | Repeating the Stop over visited tasks nobody outran, in any order and with nobody coming in, stops nothing and changes nothing |
| StopStarted.StoppedOnce | plugins/linear/bridge.py:1085-1093 | A task one run stopped is never stopped by another, whatever others do meanwhile |
| RoutingScan.Scan | plugins/linear/bridge.py:2872-2882 | The pages read are the shortest prefix that ends, is enough or meets the bound of five |
| RoutingScan.HumanRoutingChanged | plugins/linear/bridge.py:2849-2871 | For any newest-first history under any paging the answer is no if and only if five pages reach the fence and after it, in the whole history, nobody but this app changed state, assignee or delegate, the other app's pause report apart |
| RoutingScan.AppSetStartedState | plugins/linear/bridge.py:4049-4069 | The answer is yes if and only if five pages reach the newest state move, that move and every strictly later routing change are this app's and it led to the current state, or there is no move on record and creator and changes are this app's |
| RoutingScan.AppSetIs | plugins/linear/bridge.py:4049-4069 | What that comes to, in terms of the entries of the whole history |
| Acceptance.AcceptsExactlyTheProved | plugins/linear/acceptance.py:183-284 | Accepted if and only if the reads are complete, the pinned requirements are nonempty, the own pull request shows the same head and base unclosed both times, and every required name has a success from a trusted run on a base workflow and no job of that name on the head did anything else |
| Acceptance.RefusalHasGround | plugins/linear/acceptance.py:173-284 | Every class but success has its ground in what was read: a pull request closed or changed, a read refused or not whole, a requirement or head of another kind, a required job of the head that says so, or a required name nothing trusted ran |
| Acceptance.RefusesAsItsJobs | plugins/linear/acceptance.py:244-284 | When all reads are whole, each required name has a job that could prove it or one that refuses, and all that refuse say the same class, the answer is that class |
| Acceptance.UnprovableExactly | plugins/linear/acceptance.py:244-273 | The answer is "unprovable" at the end if and only if some required name ran, but never where it could be proved, and no job of a required name did anything but succeed, nor is any awaited |
| Acceptance.EligibleIs | plugins/linear/acceptance.py:144-159 | A run is evidence if and only if it is of the exact head and the repository itself, started by one of three events, from a YAML workflow below the workflows directory, reached without climbing |
| Acceptance.ClimbsIs | plugins/linear/acceptance.py:144-146 | A workflow path is not trusted exactly for a part that is "..", wherever it stands |
| Acceptance.MoreJobsNeverHelp | plugins/linear/acceptance.py:229-262 | One more job that is not a success never turns a refusal into an acceptance |
| Acceptance.ActionsFallback | plugins/linear/acceptance.py:183-284 | The loops over runs, jobs and names end with the class of the specification, success exactly when proved |
| Acceptance.OutcomesSucceed | plugins/linear/acceptance.py:243-264 | All outcomes of one name are successes if and only if a counted job exists and every job of that name succeeded |
| ConnectorGate.AtMostOneAllow | plugins/claude-account-connectors/plugin.py:72-98 | Over any callbacks, raising ones included, at most one allow is answered |
| ConnectorGate.AllowsOnlyTheAsked | plugins/claude-account-connectors/plugin.py:72-134 | In every run with a recorded output, exactly one callback allowed anything: an earlier permission for that call, with the requested tool, authorized, from the right source, without parent, with stored and sent arguments canonically those requested |
| ConnectorGate.OutputIsTheAllowedCalls | plugins/claude-account-connectors/plugin.py:100-134 | A recorded output answers the one allowed call, with the requested tool and arguments |
| ConnectorGate.FinishedAreKnown | plugins/claude-account-connectors/plugin.py:100-125 | Finished calls are known calls |
| ConnectorGate.AllowedExactly | plugins/claude-account-connectors/plugin.py:72-98 | A permission is allowed if and only if nothing was approved yet, it is for the tool asked for, authorized, from the account's connectors, without parent, its arguments and those its call was opened with are those asked for, and both answers are on offer; the allow carries the call and the first allowing option, and nothing but session and approval changes |
| ConnectorGate.PermissionRaises | plugins/claude-account-connectors/plugin.py:72-92 | It raises if and only if the session differs, no rejecting option is offered, or a check it comes to cannot be made |
| ConnectorGate.DeniedBy | plugins/claude-account-connectors/plugin.py:78-95 | Everything else is denied, by the first rejecting option |
| ConnectorGate.EventDoes | plugins/claude-account-connectors/plugin.py:100-134 | An event that fits records its input; a last one finishes its call, and records its own status and output only for the approved call |
| ConnectorGate.EventRefused | plugins/claude-account-connectors/plugin.py:100-119 | One that does not fit raises, finishes nothing and records no result |
| ConnectorGate.OutputNeverChanges | plugins/claude-account-connectors/plugin.py:100-134 | Once recorded, the output stays |
| ConnectorGate.NativeGate.OnPermission | plugins/claude-account-connectors/plugin.py:72-98 | The permission callback changes the fields as specified, also when it raises |
| ConnectorGate.NativeGate.OnToolEvent | plugins/claude-account-connectors/plugin.py:100-134 | The event callback leaves what it changed before it raised |
| SharedPause.SyncAgrees | plugins/linear/api.py:444-468 | After a sync file and client agree; the pause is at least the file's, the client's and the caller's, at least a minute ahead for an unreadable file, and no budget is older than any of them knew |
| SharedPause.SyncExactly | plugins/linear/api.py:444-468 | The pause is the latest of the three and no later; for each budget the newest entry stays, at equal times the file's before the caller's before the client's |
| SharedPause.FileOnlyGrows | plugins/linear/api.py:444-468 | Over any interleaving of clients the saved pause never decreases and no saved budget gets older while the file stays readable and each sync ends |
| SharedPause.PauseShrinks | plugins/linear/api.py:444-468 | A readable file's pause shrinks exactly at a write torn after the truncation, or at a disturbance from outside, that leaves less |
| SharedPause.TornWriteForgets | plugins/linear/api.py:464-466 | The run in which it does, and a gate lets a request through early |
| SharedPause.PauseHoldsForAll | plugins/linear/api.py:514-517 | A pause any client recorded refuses every client's later gate check that comes before its end |
| SharedPause.PassesExactly | plugins/linear/api.py:514-517 | A gate lets a request through if and only if its time has come for the client's own pause and for the file's; never on a file that cannot be read |
| SharedPause.LimitedAnswerPauses | plugins/linear/api.py:469-498 | A limited answer leaves file and client paused past the moment it came |
| SharedPause.UntilIsAhead | plugins/linear/api.py:484-498 | The pause asked for lies ahead and covers every reset that counts |
| SharedPause.UntilIs | plugins/linear/api.py:484-498 | The pause is the latest time the answer names, `retry-after` of a limited answer or a reset of an exhausted budget, of any when none is, or a minute ahead when it names none |
| SharedPause.ObservationsSpread | plugins/linear/api.py:413-422 | A budget observation reaches every client that syncs later: it then knows one at least as new, and only ones somebody made |
| SharedPause.BudgetsAreObserved | plugins/linear/api.py:444-468 | In every run, each budget entry of the file and of every client is one that some step brought in |
| SharedPause.BudgetsConverge | plugins/linear/api.py:413-422 | While nothing else touches the file, it and the client that synced last hold, for each budget, the newest observation any client made, up to equal times, and nothing where there was none |
| SharedPause.AdmissionIsMonotone | plugins/linear/api.py:393-400 | More important work is admitted wherever less important work is, a mutation wherever a query is |
| SharedPause.AdmitsExactly | plugins/linear/api.py:385-400 | Essential work always goes; normal work as a mutation or with five percent of every current budget left; optional work with twenty |
| SharedPause.FractionIsSmallest | plugins/linear/api.py:385-392 | The remaining fraction is the smallest among the budgets whose hour is not over, or one |
| SharedPause.LinearAPI.PauseState | plugins/linear/api.py:444-468 | The client and the shared file end with the longest pause and the newest budgets |
| SharedPause.LinearAPI.Pause | plugins/linear/api.py:469-498 | A limited or exhausted answer pauses both; any other answer without budget headers changes nothing |
| SharedPause.LinearAPI.Gate | plugins/linear/api.py:514-517 | A request passes only at or after the synced pause, and only if its priority is admitted |
| History.GoesOn | plugins/claude-subscription-directsdk/directsdk.py:130-194 | Appending messages that begin with a frame-producing assistant message appends frames and keeps every earlier frame and the session id |
| History.OnlyRegrouped | plugins/claude-subscription-directsdk/directsdk.py:140-194 | User and tool blocks and assistant frames keep their order, none is lost, and no two user frames are adjacent |
| History.PreparedIs | plugins/claude-subscription-directsdk/directsdk.py:140-194 | A history is prepared if and only if every message can be read, no system message follows one that left frames, and the last block asked for is the user's or a tool's |
| History.VisibleIs | plugins/claude-subscription-directsdk/directsdk.py:171-177 | An assistant message not replayed is one frame: its content, then a use per call with its id, its native name and its arguments; when it raises instead |
| History.ToolAsks | plugins/claude-subscription-directsdk/directsdk.py:178-183 | A tool message is one result for the call it names, a text kept as one, with its error flag |
| History.StripIs | plugins/claude-subscription-directsdk/directsdk.py:91-98 | The projected text lacks exactly the white space at both ends |
| History.UneditedReplays | plugins/claude-subscription-directsdk/directsdk.py:154-168 | A turn the host left as it was replays exactly its native messages without usage |
| History.EditedIsNotReplayed | plugins/claude-subscription-directsdk/directsdk.py:154-180 | After a visible edit none of them is replayed and the frame holds the visible content |
| History.PrepareHistory | plugins/claude-subscription-directsdk/directsdk.py:140-194 | The loop that extends the last user frame in place builds that history, or raises |
| FormatSchema.OnlyWeakens | plugins/claude-subscription-directsdk/directsdk.py:231-246 | Every instance valid against a document is valid against the stripped one, however deep references are followed and whatever the scalar keywords and patterns mean, if stripping goes only the weaker way at its root and every reference goes the way it must, as Moves has it |
| FormatSchema.Moves | plugins/claude-subscription-directsdk/directsdk.py:231-246 | Which way stripping goes: weaker everywhere, or stronger where no node read that way drops anything; `not` turns the way; `oneOf`, an `if` with branches, and `contains` beside `maxContains` ask for both ways; `additionalProperties` asks that no name beside it goes, a reference goes the way of its target, `enum` and `const` ask for values stripping leaves alone |
| FormatSchema.ReferenceUnderNot | plugins/claude-subscription-directsdk/directsdk.py:231-246 | A document with a bound and a reference under not, whose target is left alone, is one that stripping only weakens |
| FormatSchema.UntouchedFits | plugins/claude-subscription-directsdk/directsdk.py:231-246 | A schema native accepts already, without references of its own, goes both ways, so it may stand, or be referred to, under anything |
| FormatSchema.SchemaTablesStay | plugins/claude-subscription-directsdk/directsdk.py:239-242 | A table that holds schemas only loses no name |
| FormatSchema.StrippedOnce | plugins/claude-subscription-directsdk/directsdk.py:231-246 | Stripping twice is stripping once, and it changes nothing exactly when native accepts the node already |
| FormatSchema.StrippedAt | plugins/claude-subscription-directsdk/directsdk.py:215-246 | A key is gone from a node if and only if the node declares a type native rejects it beside, or it is the type list of an enum; an array's larger minItems is 1; all else is as it was, stripped |
| FormatSchema.StrippedAccepted | plugins/claude-subscription-directsdk/directsdk.py:215-246 | Nowhere in the result is a rejected keyword beside its type, an enum beside a type list, or an array's minItems above one |
| FormatSchema.StrengthensUnderNot | plugins/claude-subscription-directsdk/directsdk.py:231-246 | A schema with not and a valid instance that the stripped schema refuses |
| FormatSchema.StrengthensWhatIsCounted | plugins/claude-subscription-directsdk/directsdk.py:231-246 | The same under contains beside maxContains |

## Left out

- FormatSchema.OnlyWeakens: `unevaluatedItems`, `unevaluatedProperties`, anchors, dynamic references and references other than `#` and `#/$defs/name` are outside.
- Message content other than absent, a string or a list, and Python's equality of 1, True and 1.0, are not distinguished.
- Bytes: the model starts at parsed bodies, so that an untouched payload is forwarded byte for byte is not stated; UTF-8 decoding of chunks is outside.
- `\d` in the date line is an ASCII digit; Python also takes other decimal digits.
- In the stream reader a message without a content list, and text fields that are not strings, are outside; a `message_delta` changes neither content nor usage through its fields.
- In admission, the checks against Linear (assignment, scope, closure, unbound Stop) go either way at every point they are made; recording finished chat work and the proof a takeover needs are not modelled, a retried refused admission is.
- In `Admission`, a Stop's legacy unguarded path and its notices, and the run id the native block also checks, are not modelled.
- Acceptance: required checks come sorted and without duplicates; when several workflow lookups fail, the first in the order of jobs decides between the two error classes, not the first by path; receipt details are left out.
- The gate's discovery results, budget log lines, deadlines, credentials, HTTP, gzip, sockets and GraphQL text are left out.
- `drop_message_breakpoints`, `content_blocks` for images, and `normalize_input_schema` would only add easy members.
