# Verified model of the outreach CRM

A Dafny model of the parts of this CRM whose promises span many calls, many runs or many interleavings.
Each source file keeps its form: loops are methods with invariants, services are classes whose methods
are tied to a specification function of their old state, pure rules are functions; the promises are then
proved of those functions, for all inputs and all runs.

Every `.dfy` file holds one module of the same name.

**Spintax** (`Template`, `Document`, `Parser`, `Rewriting`, `Spintax`, `SpinMeaning`, `SpinDraws`,
`Variants`, `ExactVariants`). `spin` stashes placeholders behind sentinels, rewrites the leftmost
innermost group until none is left or its fuel is spent, and restores the placeholders. `Document` gives
templates a meaning as trees that knows nothing of that loop; `Parser` shows that every text, balanced or
not, is the source of exactly one well-formed tree. The results of `spin` are exactly the renderings of
that tree: none missing, none extra, and each choice takes the option whose part of [0, 1) its own draw
falls into. `countVariants` is the product of the option counts of the same tree. Its own comment says
"count the distinct renderings": it never counts too few, and counts exactly if and only if no choice is
nested in an option of another (`Nested`) and no two ways to choose give one text (`Clear`). Where no
option's text starts with another's of its group (`Apart`), nesting alone decides.

**Meta templates** (`Preview`, `PreviewAgrees`, `MetaTemplate`, `MetaFields`, `MetaProblems`).
`firstSpintaxVariant` collapses groups with a different, global regular expression, which needs a free
character before a group, refuses one before a closing brace, and runs ten times at most. Its comment
says "so nested spintax collapses fully". `Pass` is one replace seen on the tree of any text, nested
groups and stray braces included; the preview shows what `spin` would send with every first option chosen
if and only if nothing is in the way for good (`Free`) and `Needed`, computed once from the tree, is at
most ten. A group is in the way when it has one option only, holds a merge field, or stands directly
behind an opening or before a closing brace: so `{a|{b|c}}`, `{x|y}}` and `{Hi {{name}}|Bye}` are never
collapsed. Ten passes can be too few for a template with nothing in the way: 1024 adjacent groups whose
first options are empty need an eleventh. `toMetaTemplate` is invertible exactly when the message has no
literal `{{digits}}` in range, the blanks read from its body are 1..n by first use when the message has
none at all, and its problems are characterised on the message. Two field names that every JavaScript
object inherits pass as known, and get a sample that is no text.

**Inbound replies** (`Decisions`, `Threads`, `ReplyProtocol`, `CannedSteps`, `CannedRuns`, `Handovers`,
`Pipeline`, `LeadRuns`, `Enrolments`, `Lock`). `ReplyProtocol` is `maybeAutoReply` with one control point
per await, any number of webhook and worker runs interleaved with people changing switches, modes,
contacts and threads, and with exceptions, of which the one in the handover to people is swallowed. With
Redis up and no claim expired, jobs map injectively to human messages; with Redis down two runs can both
answer, and `Threads` shows what the stored history still guarantees. `CannedSteps` decides when a
message gets a canned sequence step as well as a reply, whichever comes first. Every guard stands before
the claim lookup; a worker, one of any number of retries, that begins after the reply was queued runs the
step exactly when one of them is closed at the moment the worker comes to it, the enrolment is with the
automation and the contact is neither missing nor excluded at its last step, and a step is due. So both
happen when the reply is already on record, or a switch is turned off in between. If nothing of the kind
happens to the conversation from the moment the replying run meets its first guard, both happen in one
case only: ten later messages have pushed ours out of the window, so that the worker hands over instead,
that update fails unnoticed, and a step is due; `CannedRuns` constructs such a run. `Handovers` reduces
an undisturbed pass to one verdict on the state it began in, and says in any interleaving when an
enrolment ends up with people. `LeadRuns` and `Enrolments` say what the inbound rules write to leads and
deals, which status stands, who is excluded and what the counters count after any run. `Lock` shows that
mutual exclusion needs releases to act in time, and exactly when a late delete breaks it.

**Collection** (`CollectionQueries`, `CollectionIngest`, `CollectionRunner`). `executeJob` with its
persisted cursor, stale-token restart, limit and exceptions. Successive limited runs fetch exactly the
pages of one unlimited run; each gives up fewer places than a page holds. A run with any failures
followed by an undisturbed one over the same places equals one undisturbed run exactly when no new place
was lost. A place is lost in two ways: an exception between saving its company and its contact, after
which the place is a known duplicate and the contact is never created, and, in a job that enrols, a
failed enrolment, which is swallowed and never tried again.

**Deletes** (`Relational`, `CampaignDelete`, `ContactDelete`). Tables as maps of rows with nullable link
columns, statements as conditional updates and deletes, foreign keys checked after every statement,
rollback at the first violation. `deleteCampaign` never violates one. `deleteContact` does so exactly
when another contact's lead, message or analysis hangs off this contact's enrolments or messages.

**Cached entities** (`Cache`, `BaseService`, `Campaigns`, `CampaignRuns`). The cache as an
insertion-ordered map with expiry and eviction, and the campaign state machine read through it. While
every write goes through `update`, `remove` or is followed by `invalidate`, reads serve the table. A
cancelled campaign stays cancelled over every run, and a completed one leaves that status only through a
reopening retry or a delete unless the scheduler completed it behind a live copy. Three writes leave a
copy behind: `retryFailed` reopening a campaign, the engine's own status writes, and a refused save,
which changes the shared copy but not the row. An active campaign can then be deleted; `CampaignRuns`
shows that in every run this happens exactly when the delete finds a live copy with another status, that
a copy is stale exactly while it is live and such a write has not been settled, and that every event that
finds no such copy is legal. A minute's pause, or one `invalidate`, after each such write is enough.

`Seqs`, `Options` and `Text` hold sequence laws, an option type, character classes and decimal numerals.

## Model

| member | source | states |
|---|---|---|
| Text.ParseDecInvertsDec | backend/src/common/utils/spintax.util.ts:52-77 | reading back the decimal written into a sentinel gives the stash index |
| Text.TrimMeans | frontend/src/utils/metaTemplate.ts:54 | trimming takes white space from both ends, and all of it |
| Template.PlaceholderMatches | backend/src/common/utils/spintax.util.ts:31 | every text of the form braces, spaces, name, spaces, braces is matched in full, whatever follows |
| Template.PlaceholderShape | backend/src/common/utils/spintax.util.ts:31 | and nothing else is matched |
| Template.StashPlaceholders | backend/src/common/utils/spintax.util.ts:48-53 | the loop writes one sentinel per placeholder and stashes the placeholders in order |
| Template.TokensExpand | backend/src/common/utils/spintax.util.ts:48-53 | stashing loses nothing: expanding the holes gives the template back |
| Template.RestoreStr | backend/src/common/utils/spintax.util.ts:74-78 | restoring inverts the sentinels when the copy holds no NUL, each hole becoming its placeholder verbatim |
| Document.RenderDenotes | backend/src/common/utils/spintax.util.ts:65-69 | whatever the random source, the drawn result takes one alternative in every group |
| Document.RenderReaches | backend/src/common/utils/spintax.util.ts:65-69 | for every way of choosing alternatives some random source draws it |
| Document.RenderLocal | backend/src/common/utils/spintax.util.ts:61-69 | a rendering depends on its own draws only |
| Parser.ParseWf | backend/src/common/utils/spintax.util.ts:17-21 | any text at all parses to a well-formed tree, stray braces being literal |
| Parser.FlatParse | backend/src/common/utils/spintax.util.ts:17-21 | printing the parsed tree gives the text |
| Parser.ParseFlat | backend/src/common/utils/spintax.util.ts:17-21 | parsing a printed well-formed tree gives the tree, so the tree of a text is unique |
| Rewriting.FindGroup | backend/src/common/utils/spintax.util.ts:21 | the brace-free group found is the leftmost; none is found only if there is none |
| Rewriting.Locate | backend/src/common/utils/spintax.util.ts:62-71 | replacing the match in the text is resolving, on the tree, the first group to close |
| Rewriting.NothingLeft | backend/src/common/utils/spintax.util.ts:62-63 | on a tree without groups the pattern matches nowhere, whatever stray braces remain |
| Spintax.StepRender | backend/src/common/utils/spintax.util.ts:65-71 | resolving that group uses the next random number, if it has a choice, and changes no rendering |
| Spintax.ResolveGroups | backend/src/common/utils/spintax.util.ts:58-72 | the loop ends with the rendering of the tree and no group left: the fuel never stops it early |
| Spintax.Spin | backend/src/common/utils/spintax.util.ts:44-79 | returns the text unchanged without a brace or above the length limit, else the rendering with placeholders restored |
| SpinMeaning.SpunIsExpansion | backend/src/common/utils/spintax.util.ts:44-79 | up to the limit and without NUL, the result is an expanded rendering |
| SpinMeaning.SpinIsRendering | backend/src/common/utils/spintax.util.ts:44-79 | a text is a rendering of the template if and only if some random source makes `spin` return it |
| SpinMeaning.TreeIsUnique | backend/src/common/utils/spintax.util.ts:44-79 | the tree whose renderings are meant is the only well-formed one with the text's pieces |
| SpinMeaning.SpinWithoutGroups | backend/src/common/utils/spintax.util.ts:38-45 | a text without groups comes back unchanged, stray braces and placeholders included |
| SpinMeaning.NulBreaksSpin | backend/src/common/utils/spintax.util.ts:32-33 | the assumption about NUL is needed: a literal sentinel is swallowed |
| SpinDraws.PickExactly | backend/src/common/utils/spintax.util.ts:68-69 | a draw r among n options picks number k if and only if k/n <= r < (k+1)/n |
| SpinDraws.GroupTakes | backend/src/common/utils/spintax.util.ts:62-71 | in any tree a group draws once everything inside it has drawn and takes the alternative whose part the draw falls into; one alternative draws nothing |
| SpinDraws.TokensField | backend/src/common/utils/spintax.util.ts:48-53 | a merge field is stashed as it stands, whatever follows |
| SpinDraws.SpinTakes | backend/src/common/utils/spintax.util.ts:44-79 | in a template of text, merge fields and groups of plain options, the m-th choice takes the option whose part the m-th draw falls into, and everything else is sent as it stands |
| SpinDraws.SpinOneGroup | backend/src/common/utils/spintax.util.ts:68-69 | one group of n options sends number k when the first draw lies in [k/n, (k+1)/n) |
| Variants.CountVariants | backend/src/common/utils/spintax.util.ts:87-106 | the loop returns the product of the option counts over all groups of the same tree |
| Variants.DropFirst | backend/src/common/utils/spintax.util.ts:97-102 | dropping the matched group divides that product by the group's option count |
| ExactVariants.ResultsAreSpun | backend/src/common/utils/spintax.util.ts:44-79 | the set of texts computed from the tree holds exactly what some random source makes `spin` return, and the text itself above the length limit |
| ExactVariants.NoChoice | backend/src/common/utils/spintax.util.ts:87-106 | the count is one if and only if the template has no choice at all |
| ExactVariants.WaysBelowChoices | backend/src/common/utils/spintax.util.ts:81-106 | the count is at least the number of ways to choose, and equal to it if and only if no choice stands inside an option of another |
| ExactVariants.TextsBelowWays | backend/src/common/utils/spintax.util.ts:81-106 | there are at most as many texts as ways to choose, and as many if and only if no two ways give one text |
| ExactVariants.ApartIsClear | backend/src/common/utils/spintax.util.ts:81-106 | that is so wherever, in every group, no option's text starts with the text of another |
| ExactVariants.CountIsExact | backend/src/common/utils/spintax.util.ts:81-106 | `countVariants` bounds the number of different results of `spin`, and is that number if and only if no choice is nested in another and no two ways to choose give one text |
| ExactVariants.CountIsExactIfApart | backend/src/common/utils/spintax.util.ts:81-106 | where no option starts with another of its group, the count is exact if and only if no choice is nested in another |
| ExactVariants.CountOfLongText | backend/src/common/utils/spintax.util.ts:44-46 | above the length limit the count is exact if and only if there is no choice |
| ExactVariants.CountNotExact | backend/src/common/utils/spintax.util.ts:81-106 | a nested template counts 4 and has 3 results |
| Preview.FirstSpintaxVariant | frontend/src/utils/metaTemplate.ts:39-48 | stopping early at a fixpoint gives the same as ten passes |
| Preview.GroupMatches | frontend/src/utils/metaTemplate.ts:43 | a stretch without braces inside a pair of them is matched, in full, exactly when it has a pipe and no closing brace follows |
| Preview.PassWrites | frontend/src/utils/metaTemplate.ts:43 | on any text one global replace is one `Pass` over its tree: it collapses exactly the groups seen by the pattern that have a free character before them |
| Preview.SeenPrint | frontend/src/utils/metaTemplate.ts:43 | the pattern matches at a group of the tree exactly when it has two options or more, no brace inside and no closing brace behind it |
| Preview.CollapseWrites | frontend/src/utils/metaTemplate.ts:39-48 | k global replaces are k passes over the tree |
| PreviewAgrees.SpinKeepsFirst | backend/src/common/utils/spintax.util.ts:44-79 | with a random source that returns zero, `spin` keeps every first option of any text |
| PreviewAgrees.PassFree | frontend/src/utils/metaTemplate.ts:43 | a pass neither creates nor removes an obstacle |
| PreviewAgrees.NeededHalves | frontend/src/utils/metaTemplate.ts:42-46 | where nothing is in the way each pass takes one off the number of passes needed |
| PreviewAgrees.PassesSuffice | frontend/src/utils/metaTemplate.ts:42-46 | k passes leave no group if and only if nothing is in the way and at most k are needed |
| PreviewAgrees.PreviewKeepsFirst | frontend/src/utils/metaTemplate.ts:38-48 | k passes leave exactly the first options if and only if nothing is in the way and at most k are needed |
| PreviewAgrees.PreviewAgreesWithSpin | frontend/src/utils/metaTemplate.ts:38-48 | on any text the preview equals what `spin` sends under the zero source if and only if nothing is in the way and at most ten passes are needed |
| PreviewAgrees.ObstaclesStay | frontend/src/utils/metaTemplate.ts:41-46 | with an obstacle no number of passes gives the first options |
| PreviewAgrees.Obstacles | frontend/src/utils/metaTemplate.ts:41-43 | a choice that ends its group, a choice beside a stray brace, and a group with a merge field inside are obstacles |
| PreviewAgrees.LightFits | frontend/src/utils/metaTemplate.ts:42 | a template whose groups, each counted double for every group around it, number fewer than 2^k needs at most k passes |
| PreviewAgrees.EmptyFirstsFit | frontend/src/utils/metaTemplate.ts:42 | n adjacent groups with empty first options need at most k passes if and only if n is below 2^k |
| PreviewAgrees.TenPassesNotAlwaysEnough | frontend/src/utils/metaTemplate.ts:41-42 | a template with nothing in the way on which ten passes leave a group standing |
| MetaTemplate.MergeAt | frontend/src/utils/metaTemplate.ts:56-57 | a matched merge field has a lower-cased name of letters and underscores, and no digit or brace after its two braces |
| MetaFields.MergeMatches | frontend/src/utils/metaTemplate.ts:56-57 | every text of braces, spaces, a name of letters and underscores, spaces, braces is matched in full, whatever follows, with its name as key, A-Z turned into a-z letter by letter |
| MetaFields.MergeShape | frontend/src/utils/metaTemplate.ts:56-57 | and nothing else is matched |
| MetaTemplate.ToMetaTemplate | frontend/src/utils/metaTemplate.ts:50-86 | the loop numbers the fields of the collapsed, trimmed message by first occurrence; one sample per blank, from the context, the table or the fallback; the problems found in the draft |
| MetaTemplate.ConvertOrder | frontend/src/utils/metaTemplate.ts:57-62 | the fields recorded are distinct and only ever appended |
| MetaTemplate.BlanksInOrder | frontend/src/utils/metaTemplate.ts:58-63 | the blanks read from the body of a message without blanks of its own are each an earlier number or the next one, the last being the number of fields |
| MetaTemplate.FirstUseMeans | frontend/src/utils/metaTemplate.ts:58-63 | so every number from 1 to n occurs, after all smaller ones |
| MetaTemplate.NoNewBlank | frontend/src/utils/metaTemplate.ts:56-63 | the conversion creates no numbered blank except in place of a field |
| MetaTemplate.BodyBlanks | frontend/src/utils/metaTemplate.ts:56-64 | the blanks read from the body are the numbers of the fields if and only if the message has no numbered blank of its own, which are otherwise read in between |
| MetaTemplate.ConvertInvertible | frontend/src/utils/metaTemplate.ts:50-86 | filling the blanks gives back the message with normalised field names if and only if it has no numbered blank of its own in range |
| MetaTemplate.MetaTemplateInvertible | frontend/src/utils/metaTemplate.ts:50-86 | the same for a whole draft, with distinct parameters, and the body's blanks 1..n by first use when the message has none of its own |
| MetaFields.ParamsAreFields | frontend/src/utils/metaTemplate.ts:86 | each parameter is the merge field of its key, and would be found under that key again |
| MetaFields.SamplesMean | frontend/src/utils/metaTemplate.ts:66-70 | the sample of each field: the context's own value if it gives one, the table's, none that is text for the two inherited names, else a stopgap |
| MetaProblems.StartsIff | frontend/src/utils/metaTemplate.ts:74-76 | the draft starts with a blank if and only if the message starts with a merge field or a numbered blank |
| MetaProblems.EndsIff | frontend/src/utils/metaTemplate.ts:77-79 | the draft ends with a blank and stops if and only if the message ends with a merge field or a numbered blank and stops |
| MetaProblems.ProblemsMean | frontend/src/utils/metaTemplate.ts:72-84 | each problem is reported if and only if the message has it; none is reported if and only if the message is not empty, neither starts nor ends with a field, and has known fields only |
| Decisions.CountTrailingAiReplies | backend/src/modules/ai/inbound-ai.decisions.ts:80-88 | the backward loop counts our messages since a person wrote; zero means each of ours was followed by a person |
| Decisions.TrailingCounts | backend/src/modules/ai/inbound-ai.decisions.ts:80-88 | the count is the number of our messages behind the last one from a person |
| Decisions.GuardsMean | backend/src/modules/ai/inbound-ai.service.ts:350-382 | on the ten-message window the two history guards pass if and only if our latest message is among those ten and a person wrote after it |
| Decisions.Advance | backend/src/modules/ai/inbound-ai.decisions.ts:209-216 | a status is kept or strictly raised, reaches at least the requested rank, and never leaves the top |
| Threads.ApplyKeepsPolite | backend/src/modules/ai/inbound-ai.service.ts:350-382 | with no help from Redis, a trigger appends a reply only where one was earned |
| Threads.AlwaysPolite | backend/src/modules/ai/inbound-ai.service.ts:350-382 | over any run, every automatic message answers a person who wrote after our previous message |
| Threads.NeverFirstNeverTwice | backend/src/modules/ai/inbound-ai.service.ts:352-382 | automation never opens a thread and never writes directly after another outgoing message |
| Threads.RepeatedTriggerSilent | backend/src/modules/ai/inbound-ai.service.ts:373-382 | a second trigger after a recorded reply stays silent |
| Threads.TriggerExactly | backend/src/modules/ai/inbound-ai.service.ts:350-382 | a trigger the other guards let through appends one message of ours if and only if a person wrote after our latest of the last ten |
| ReplyProtocol.NextPcFacts | backend/src/modules/ai/inbound-ai.service.ts:307-463 | a run enqueues only from a claim it made itself, and passes the lookup only without a claim |
| ReplyProtocol.StepEffect | backend/src/modules/engine/ai-analysis.processor.ts:147-217 | what one step of either path can change, with exceptions that escape and a handover failure that is swallowed |
| ReplyProtocol.ApplyKeeps | backend/src/modules/ai/inbound-ai.service.ts:384-457 | every event except the expiry of a claim keeps one holder per message and one job per run |
| ReplyProtocol.PlayKeeps | backend/src/modules/ai/inbound-ai.service.ts:307-463 | the invariant holds after every interleaving |
| ReplyProtocol.AtMostOneReply | backend/src/modules/ai/inbound-ai.service.ts:423-457 | with Redis up, every job answers the message of its run, a person wrote it, and no other job answers it |
| ReplyProtocol.DownAnswersTwice | backend/src/common/redis/redis.service.ts:79-86 | with Redis down two interleaved runs both queue a reply, from any world in which nothing stops one |
| ReplyProtocol.LoopGuardThenSequence | backend/src/modules/ai/inbound-ai.service.ts:376-392 | a worker that finds our message last stops at the loop guard and runs the sequence |
| ReplyProtocol.AnswerThenRecord | backend/src/modules/ai/inbound-ai.service.ts:435-462 | the webhook path queues a reply which, once recorded, closes the loop guard |
| ReplyProtocol.RecordedReplyRunsSequence | backend/src/modules/engine/ai-analysis.processor.ts:154-188 | a run in which the prospect gets both a reply and a canned step |
| CannedSteps.PlainNext | backend/src/modules/ai/inbound-ai.service.ts:307-421 | control goes to a stop other than the claim exactly from a closed guard, a declining model or an earlier stop |
| CannedSteps.CannedExactly | backend/src/modules/engine/ai-analysis.processor.ts:147-201 | in every interleaving a worker runs a canned step exactly when something other than the claim stopped it and the sequence then fired |
| CannedSteps.ReplyOrSequence | backend/src/modules/engine/ai-analysis.processor.ts:154-188 | once a reply is queued, any worker that begins afterwards runs a canned step as well exactly when it meets a closed guard before the claim lookup and the sequence then fires |
| CannedSteps.WorkerAlone | backend/src/modules/ai/inbound-ai.service.ts:314-392 | a worker on a claimed message that is not interleaved runs a canned step exactly when its enrolment is with the automation, its contact is present and not excluded, and a switch is off or the loop guard closed |
| CannedSteps.IncomingKeepsOpen | backend/src/modules/ai/inbound-ai.decisions.ts:80-88 | incoming messages never close the loop guard, whatever leaves the ten-message window |
| CannedSteps.NeverBoth | backend/src/modules/engine/ai-analysis.processor.ts:185-188 | if nothing disturbs the conversation from the first guard of the run that queues the reply on, in particular the reply is not yet recorded, a worker that begins afterwards runs a canned step if and only if its handover to people failed and the sequence then fired |
| CannedSteps.BothExactly | backend/src/modules/engine/ai-analysis.processor.ts:147-201 | in either order, a message has a reply exactly when some run queued one, and a canned step exactly when some worker was stopped by something other than the claim and the sequence fired |
| CannedRuns.SwallowedHandover | backend/src/modules/ai/inbound-ai.service.ts:537-546 | the one case left by `NeverBoth` happens: ten messages fill the window, the handover update fails unnoticed, reply and canned step are both sent |
| CannedRuns.CannedThenReply | backend/src/modules/engine/ai-analysis.processor.ts:154-201 | a worker finds the model silent and runs the sequence; executed again, it answers |
| Handovers.PassAlone | backend/src/modules/ai/inbound-ai.service.ts:307-463 | an undisturbed pass comes to the first verdict that applies to the state it began in, and changes only what that verdict stands for: claim and job for a reply, people in charge when asked for or when nothing of ours is on record |
| Handovers.WholePass | backend/src/modules/engine/ai-analysis.processor.ts:216-257 | the same from its beginning on either path, a worker looking the contact up first |
| Handovers.WithPeopleExactly | backend/src/modules/ai/inbound-ai.service.ts:420-427 | in every interleaving an enrolment is with people if and only if the last word on it, a person's switch or a run that ended asking for people and whose update went through, put it there |
| Handovers.AsksExactly | backend/src/modules/ai/inbound-ai.service.ts:363-427 | a run ends asking for people if and only if the model declined, or it found nothing of ours among the ten latest messages |
| Handovers.RequestsAreHonoured | backend/src/modules/ai/inbound-ai.service.ts:537-546 | a run that ends so leaves its enrolment with people, unless its own update failed or somebody hands it back |
| Pipeline.FindLead | backend/src/modules/ai/inbound-ai.service.ts:154-158 | the contact's earliest lead, or proof that there is none |
| Pipeline.Service.EnsureLeadForHumanReply | backend/src/modules/ai/inbound-ai.service.ts:146-211 | returns the contact's lead, created and counted or enriched, for human messages only |
| Pipeline.Service.ExecuteBusinessRules | backend/src/modules/engine/ai-analysis.processor.ts:262-385 | opt-out stops everything else; a qualifying analysis creates the lead or moves it forward and may hand over; a doubtful one hands over; otherwise the enrolment has replied, counted unless the answer is a refusal |
| Pipeline.Service.MaybeCreateDealFromAnalysis | backend/src/modules/ai/inbound-ai.service.ts:220-295 | a converting human message ends with an open deal on an existing lead |
| Pipeline.ApplyKeeps | backend/src/modules/ai/inbound-ai.service.ts:146-295 | each atomic step keeps one lead per contact, one open deal per lead, counters below links |
| Pipeline.PlayKeeps | backend/src/modules/ai/inbound-ai.service.ts:146-295 | and so does every run, people's edits included |
| Pipeline.AutomaticIsForward | backend/src/modules/engine/ai-analysis.processor.ts:314-322 | an automatic step loses no lead and raises or keeps every status |
| Pipeline.TerminalStays | backend/src/modules/ai/inbound-ai.decisions.ts:183-203 | over any automatic run a lead at the end of the funnel keeps its status |
| Pipeline.DealsNeedIntent | backend/src/modules/ai/inbound-ai.decisions.ts:132-181 | a new deal implies a human message, high interest, both thresholds and one concrete detail, and hangs off that contact's lead |
| LeadRuns.ReplyWrites | backend/src/modules/ai/inbound-ai.service.ts:146-198 | the first human message makes the contact an engaged, linked and counted lead; a later one only fills in missing links |
| LeadRuns.RulesWrite | backend/src/modules/engine/ai-analysis.processor.ts:284-336 | a qualifying analysis creates an interested (high) or engaged (medium) lead linked to campaign and enrolment, counted, or raises the contact's lead that far; any other leaves leads alone |
| LeadRuns.ConvertsExactly | backend/src/modules/ai/inbound-ai.decisions.ts:132-181 | a conversation converts if and only if every signal is there |
| LeadRuns.PromoteWrites | backend/src/modules/ai/inbound-ai.service.ts:220-295 | a converting message gives the contact's lead one proposal unless a deal is open, and raises it to qualified |
| LeadRuns.LeadsCounted | backend/src/modules/engine/ai-analysis.processor.ts:326-334 | over any run `stats_leads` grows by exactly the leads created with a link to the campaign, except those made to carry a deal |
| Enrolments.HandedOverExactly | backend/src/modules/engine/ai-analysis.processor.ts:338-357 | over any run an enrolment is with people if and only if it was before, an analysis handed it over or an analysis job failed |
| Enrolments.StandingIsLatest | backend/src/modules/engine/ai-analysis.processor.ts:275-378 | over any run the status of an enrolment is the one set last |
| Enrolments.ExcludedExactly | backend/src/modules/engine/ai-analysis.processor.ts:269-282 | over any run a contact is opted out if and only if it was before or a message of its own asked for it |
| Enrolments.StopIsOverwritten | backend/src/modules/engine/ai-analysis.processor.ts:275-378 | an ordinary answer after a stop leaves the enrolment with the status replied, the contact still opted out |
| Enrolments.CountersTally | backend/src/modules/engine/ai-analysis.processor.ts:277-380 | over any run `stats_replied` and `stats_opted_out` grow by exactly the analyses of each kind |
| Enrolments.OptOutsCountMessages | backend/src/modules/engine/ai-analysis.processor.ts:277-282 | a contact that asks twice to stop is counted twice |
| Lock.ApplyKeepsOwned | backend/src/common/redis/redis.service.ts:92-107 | every step whose release acts in time leaves each working holder the owner Redis knows |
| Lock.MutualExclusion | backend/src/common/redis/redis.service.ts:88-107 | in every interleaving of in-time releases at most one caller holds an unexpired lock |
| Lock.AcquireExactly | backend/src/common/redis/redis.service.ts:88-96 | a caller gets the lock for its time if and only if no unexpired key stands in its way |
| Lock.CompareExactly | backend/src/common/redis/redis.service.ts:98-102 | a release takes the key for its own if and only if it holds its token and has not expired |
| Lock.ReleaseFrees | backend/src/common/redis/redis.service.ts:98-104 | a release in time frees the lock for the next caller |
| Lock.DelBreaksExactly | backend/src/common/redis/redis.service.ts:100-103 | a delete breaks ownership if and only if its comparison matched and another holder has since taken over |
| Lock.LateReleaseBreaks | backend/src/common/redis/redis.service.ts:100-103 | a late delete lets two callers hold the lock |
| CollectionQueries.BuildQueries | backend/src/modules/collection/collection-runner.service.ts:400-426 | the loop returns the first occurrences of the candidate queries in order |
| CollectionQueries.DedupDistinct | backend/src/modules/collection/collection-runner.service.ts:414-423 | no two queries agree ignoring case, and every candidate is represented |
| CollectionQueries.CursorSurvivesNewKeywords | backend/src/modules/collection/collection-runner.service.ts:392-399 | appending keywords only appends queries, so a saved query index keeps its meaning |
| CollectionQueries.QueriesSearchTerms | backend/src/modules/collection/collection-runner.service.ts:400-426 | the queries are the searches for every category and keyword that is not blank, in city and country as far as given, with a default term without categories; each is there up to case and nothing else is |
| CollectionIngest.IngestFacts | backend/src/modules/collection/collection-runner.service.ts:248-355 | whatever fails, ids and numbers stay unique, rows only grow, and a completed place is known from then on |
| CollectionIngest.NewPlaceStored | backend/src/modules/collection/collection-runner.service.ts:313-388 | a new place becomes a company, a contact of that company with its number, a log line naming both and, in a job that enrols, an enrolment |
| CollectionIngest.KnownPlaceLogged | backend/src/modules/collection/collection-runner.service.ts:263-311 | a known or numberless one becomes a log line that names the rows it was recognised by |
| CollectionIngest.IngestAllFacts | backend/src/modules/collection/collection-runner.service.ts:201-208 | the same over a stream of places |
| CollectionIngest.KnownPlacesIdle | backend/src/modules/collection/collection-runner.service.ts:286-311 | known places change nothing but the log, which gains one line each |
| CollectionIngest.HarmlessRun | backend/src/modules/collection/collection-runner.service.ts:357-390 | a run that loses no place leaves the rows of an undisturbed run over the places it completed, whatever failed |
| CollectionIngest.LostIsScarred | backend/src/modules/collection/collection-runner.service.ts:313-352 | a lost place leaves a company without contact or a contact never enrolled, and no later ingestion heals it |
| CollectionIngest.ReplayCompletes | backend/src/modules/collection/collection-runner.service.ts:199-208 | a run with any failures, then an undisturbed one over the same places, equals one undisturbed run in companies, contacts and enrolments if and only if no place was lost |
| CollectionIngest.RetryRecovers | backend/src/modules/collection/collection-runner.service.ts:303-390 | retrying a new place finds its contact on file exactly when the failure was not between company and contact, and enrolled exactly when it was not the enrolment |
| CollectionRunner.Runner.IngestPage | backend/src/modules/collection/collection-runner.service.ts:199-208 | a page is read up to the limit or the first exception, with every place counted once |
| CollectionRunner.Runner.ExecuteJob | backend/src/modules/collection/collection-runner.service.ts:126-242 | terminates; a completed run records a cursor from which the pages ahead continue, lost fewer places than a page and only at its limit; with a positive `daily_limit` it adds at most that many contacts, exactly that many unless exhausted, 100 standing in for none; an exception leaves cursor and total as they were, but for a cleared stale token, and is the provider's own answer at the page it stopped at or came from the database |
| CollectionRunner.Runner.Tick | backend/src/modules/collection/collection-runner.service.ts:102-121 | afterwards the job has run today or is no longer active: a refused quota counts as today's run and keeps it active, a refused key pauses it, any other exception fails it, cursor and total kept; a job that ran today is left alone |
| CollectionRunner.Runner.RunCollectionCycle | backend/src/modules/collection/collection-runner.service.ts:85-122 | the same for exactly the jobs that are active, in any order, and nothing without an API key; other jobs are untouched, and a second tick changes nothing |
| CollectionRunner.ProgressRestarts | backend/src/modules/collection/collection-runner.service.ts:177-195 | only the persisted token can be stale, and dropping it loses no page |
| CollectionRunner.ProgressPage | backend/src/modules/collection/collection-runner.service.ts:197-217 | fetching a page moves exactly that page from ahead to done, and its unread tail to lost |
| CollectionRunner.TrailMeans | backend/src/modules/collection/collection-runner.service.ts:210-217 | each page is followed by the one its answer names, or by the first of the next query, until the queries end |
| CollectionRunner.ChainCovers | backend/src/modules/collection/collection-runner.service.ts:148-228 | the pages of successive runs followed by those still ahead are the pages ahead at the first start |
| CollectionRunner.LimitedRunsFetchTheSame | backend/src/modules/collection/collection-runner.service.ts:148-228 | limited runs together fetch exactly the pages of one unlimited run, none twice |
| CollectionRunner.LostIsBounded | backend/src/modules/collection/collection-runner.service.ts:201-217 | each run gives up fewer places than one page holds |
| Relational.Store.Transaction | backend/src/modules/campaigns/campaigns.service.ts:362-450 | statements run in order; the first broken constraint rolls everything back; the counts are the rows each statement matched |
| Relational.DeleteKeeps | backend/src/entities/message.entity.ts:88-98 | a delete breaks no foreign key when no column refers to what it deletes |
| Relational.UpdateKeeps | backend/src/entities/lead.entity.ts:93-107 | nulling nullable link columns breaks nothing |
| Relational.GoneAt | backend/src/modules/campaigns/campaigns.service.ts:374-433 | once a statement cleared a link, no later state has it |
| CampaignDelete.DeleteIsAccepted | backend/src/modules/campaigns/campaigns.service.ts:362-450 | all foreign keys hold after every one of the ten statements, from any well-formed database |
| CampaignDelete.DeleteIsExact | backend/src/modules/campaigns/campaigns.service.ts:362-450 | together they remove exactly the campaign, its enrolments, its templates and their follow-ups, and unlink what referred to them |
| CampaignDelete.ValueSurvives | backend/src/modules/campaigns/campaigns.service.ts:291-314 | leads, deals, messages, analyses, contacts, jobs and results survive with their payload; unrelated rows are untouched; no dangling link is left |
| CampaignDelete.DeleteCampaign | backend/src/modules/campaigns/campaigns.service.ts:337-464 | refused when missing or active, else the exact result and a report whose every count is the number of rows removed or unlinked |
| ContactDelete.DeleteIsAcceptedIff | backend/src/modules/contacts/contacts.service.ts:430-464 | the foreign keys allow the nine statements if and only if no other contact's row hangs off this contact's enrolments or messages |
| ContactDelete.DeleteIsExact | backend/src/modules/contacts/contacts.service.ts:430-464 | together they remove the contact's rows and their dependents and only detach scrape results |
| ContactDelete.OwnedIsClean | backend/src/modules/contacts/contacts.service.ts:418-429 | when dependent rows belong to the same contact, every contact can be deleted and exactly its own analyses go |
| ContactDelete.DeletesKeepOwnership | backend/src/modules/contacts/contacts.service.ts:430-464 | both deletes preserve that ownership and the schema |
| ContactDelete.DeleteContact | backend/src/modules/contacts/contacts.service.ts:430-470 | deleted exactly when found and allowed, otherwise the database is unchanged |
| Cache.EvictionFacts | backend/src/common/base/base.service.ts:133-140 | exactly a quarter, rounded down, is dropped, none of it expiring later than anything kept |
| Cache.NewestStays | backend/src/common/base/base.service.ts:58-60 | the entry just cached is not among those evicted |
| BaseService.ReadFacts | backend/src/common/base/base.service.ts:49-63 | a read keeps the table and the bound, leaves what it served cached, and at most evicts other entries |
| BaseService.HandleKeeps | backend/src/common/base/base.service.ts:49-95 | every operation keeps the bound of 500 entries and coherence |
| BaseService.ReadsServeTheTable | backend/src/common/base/base.service.ts:49-95 | after any run of reads, updates, removals and invalidated writes, a read returns what the table holds |
| BaseService.HandleWrites | backend/src/common/base/base.service.ts:65-81 | an update applies its change to its own row, a removal takes it, nothing else in the table changes |
| BaseService.ReadLasts | backend/src/common/base/base.service.ts:49-63 | a row read from the table is served from the cache for a minute and not longer |
| BaseService.ReadKeepsOthers | backend/src/common/base/base.service.ts:58-61 | while fewer than 500 entries are cached a read drops none |
| BaseService.Service.EvictOldest | backend/src/common/base/base.service.ts:133-140 | the deleting loop leaves exactly the entries outside the oldest quarter |
| BaseService.Service.FindById | backend/src/common/base/base.service.ts:49-63 | live copy, else row cached for a minute, else not found |
| BaseService.Service.Update | backend/src/common/base/base.service.ts:70-75 | not found, or the row as it is in the table afterwards |
| BaseService.Service.Remove | backend/src/common/base/base.service.ts:77-81 | removes row and copy, or reports not found |
| Campaigns.StepIsLegal | backend/src/modules/campaigns/campaigns.service.ts:87-93 | with a fresh copy an operation moves the stored status along an allowed edge, deletes no active campaign, and leaves the copy fresh if and only if it does not bypass the cache |
| Campaigns.StepSync | backend/src/modules/campaigns/campaigns.service.ts:243-274 | every operation makes copy and row differ, makes them agree, or changes nothing |
| Campaigns.StepIsLocal | backend/src/modules/campaigns/campaigns.service.ts:186-193 | no operation touches another campaign |
| Campaigns.UpdateWrites | backend/src/modules/campaigns/campaigns.service.ts:186-193 | an update is refused exactly off the seven edges, keeps what it does not name, and writes only once saved |
| Campaigns.TransitionWrites | backend/src/modules/campaigns/campaigns.service.ts:725-737 | a transition needs an edge, changes the status alone, and writes only once saved |
| Campaigns.RetryWrites | backend/src/modules/campaigns/campaigns.service.ts:243-274 | a retry reopens a completed campaign with somebody requeued, and writes nothing else |
| Campaigns.DeleteWrites | backend/src/modules/campaigns/campaigns.service.ts:337-360 | a delete is refused for a campaign read as active, else takes the row |
| Campaigns.OtherWrites | backend/src/modules/engine/campaign-scheduler.service.ts:104-106 | the engine completes or pauses a campaign stored as active and no other; a new campaign is a draft |
| CampaignRuns.StaleExactly | backend/src/common/base/base.service.ts:49-63 | in every run a copy differs from its row exactly while it is live and a bypassing write to it has not been settled |
| CampaignRuns.RunsAreLegal | backend/src/modules/campaigns/campaigns.service.ts:725-737 | an event that finds no such copy is legal, whatever came before |
| CampaignRuns.SpacedIsInTouch | backend/src/common/base/base.service.ts:18-19 | a minute without touching the campaign after a bypassing write, or an `invalidate`, is enough for that |
| CampaignRuns.InvalidateProtects | backend/src/modules/campaigns/campaigns.service.ts:269 | over every run, an `invalidate` right after each bypassing write is enough |
| CampaignRuns.ActiveDeletedExactly | backend/src/modules/campaigns/campaigns.service.ts:352-357 | in every run an active campaign disappears if and only if a delete finds a live copy of it with another status |
| CampaignRuns.ActiveIsNeverDeleted | backend/src/modules/campaigns/campaigns.service.ts:352-357 | an event that finds no copy left behind deletes no active campaign |
| CampaignRuns.CancelledIsAbsorbing | backend/src/modules/campaigns/campaigns.service.ts:92 | over every run a cancelled campaign stays cancelled until deleted |
| CampaignRuns.CompletedIsReopened | backend/src/modules/campaigns/campaigns.service.ts:262-271 | over every run in which the scheduler did not complete it behind a live copy, a completed campaign leaves that status only through a retry that requeues somebody, or a delete |
| CampaignRuns.CompletedLeftExactly | backend/src/modules/campaigns/campaigns.service.ts:91 | in every run, exactly which event takes a campaign out of the completed status, given the live copy |
| CampaignRuns.ReopenedIsDeletable | backend/src/modules/campaigns/campaigns.service.ts:267-271 | after a reopening retry the active campaign can be deleted if and only if the cached copy has not expired |
| CampaignRuns.RefusedPauseIsDeletable | backend/src/modules/campaigns/campaigns.service.ts:725-731 | after a pause whose save was refused the active campaign can be deleted if and only if the cached copy has not expired |
| CampaignRuns.PauseUndoesCompletion | backend/src/modules/engine/campaign-scheduler.service.ts:104-106 | pausing after the scheduler completed a campaign undoes the completion if and only if a copy is still live |
| CampaignRuns.FailedSaveLies | backend/src/modules/campaigns/campaigns.service.ts:725-731 | a refused save leaves the new status in the cached copy and the old one in the row |
| CampaignRuns.DeletedWhileActive | backend/src/modules/campaigns/campaigns.service.ts:243-274 | a concrete run that deletes a campaign stored as active |
| Campaigns.CampaignsService.UpdateCampaign | backend/src/modules/campaigns/campaigns.service.ts:186-193 | reads through the cache, checks the edge, changes the shared copy, then saves |
| Campaigns.CampaignsService.TransitionTo | backend/src/modules/campaigns/campaigns.service.ts:725-731 | the same for activate and pause |
| Campaigns.CampaignsService.RetryFailed | backend/src/modules/campaigns/campaigns.service.ts:243-274 | writes the row only, and only for a completed campaign with somebody requeued |
| Campaigns.CampaignsService.DeleteCampaign | backend/src/modules/campaigns/campaigns.service.ts:337-456 | refuses an active copy, else removes row and copy |

## Left out

- Spintax.Spin: lengths are counted in Dafny characters, not UTF-16 code units, and `Math.random` is a stream of reals, so floating-point rounding in `Math.floor(random() * n)` is not modelled.
- SpinMeaning.SpinIsRendering: copy holding a NUL character is excluded, as the source assumes; `NulBreaksSpin` shows why.
- SpinDraws.SpinTakes: options are plain text here; for groups and merge fields inside options see `GroupTakes`, which speaks of the tree.
- PreviewAgrees.PreviewAgreesWithSpin: copy above the length limit or holding a NUL character is excluded, where `spin` returns the text or swallows a sentinel.
- ExactVariants.CountIsExact: copy holding a NUL character is excluded; copy above the length limit is covered by `CountOfLongText`.
- MetaTemplate.ToMetaTemplate: problems are values, not sentences, and `metaTemplateName` is not modelled.
- ReplyProtocol.AtMostOneReply: a claim that expires after its 24 hours while triggers are still arriving is excluded.
- CannedSteps.ReplyOrSequence: speaks of workers that begin after the replying run returned, as the webhook handler orders them; a worker that begins earlier is covered by `CannedExactly`.
- Threads.AlwaysPolite: each queued reply is recorded before the next trigger; what the send queue does in between is not part of this model.
- Pipeline.PlayKeeps: each operation is one atomic step, since nothing in the schema stops two concurrent inserts for one contact; deals made by hand are excluded, moving an open one is not.
- Enrolments.StandingIsLatest: runs are of the inbound pipeline; what the sender, the sequence engine and people write to the same status, mode and exclusion are not events here (nor for `HandedOverExactly` and `ExcludedExactly`).
- Pipeline.Service.ExecuteBusinessRules: enrichment fields of a lead, timestamps and notifications are not modelled.
- Lock.MutualExclusion: tokens are distinct; an error from Redis during acquire means no lock.
- CollectionRunner.Runner.ExecuteJob: the provider is a function of query and token, pages hold at most 20 places, and a token issued within the run is accepted; phone normalisation is an input; request counting and logging are not modelled.
- CollectionRunner.Runner.RunCollectionCycle: one tick at a time, reading each selected job's row when its turn comes rather than at the selection.
- Relational.Store.Transaction: ids are numbers, every column that is not a link is one payload, and users, companies and import files are not tables of the model; other transactions do not interleave.
- CampaignDelete.DeleteCampaign: the cached read before the transaction is an argument here and modelled in `Campaigns`; how the driver reports affected rows is not modelled.
- BaseService.Service.Update: both reads use one clock value; entities are values, so the sharing of a cached object is modelled by writing the cached copy, and references kept by other requests are not.
- CampaignRuns.RunsAreLegal: operations are sequential; counters that other services increment are not modelled.
- `batchCreate`, paginated listing, contact groups, opt-out and contact updates: short updates that add only easy members.
- `addContacts`, `getSendPreview` and template approval: enrolment by filter, counting and remote state.
- The OpenAI and Places calls, the sender, the distributor and the sequence engine: environment, entering as arbitrary results or events.
- `isOwnEcho`, the auto-reply override's parsing, and the rate limiter: single branches.
