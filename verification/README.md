# Boardwalk: a verified model

Boardwalk is a server of resources and actors. This project models, in Dafny,
the parts of it whose behaviour is hardest to see from one function: the event
layer, the CaQL query language, the identity stores, and two long-lived state
machines. `dafny verify dfyconfig.toml` checks all of it.

| modules | what they model |
|---|---|
| `EventBus`, `BusRuns`, `BusLimits`, `BusOrder`, `BusGaps`, `BusNotices`, `BusRefinement`, `BusFlow` | the bus: claim, send, commit, refund; quotas, order, and the agreement of the asynchronous with the synchronous publish |
| `Streams`, `StreamRuns`, `Handoff`, `HandoffOrder` | sequences, replay rings, the reverse index, and the handoff from replay to live events |
| `Coalescing` | the queue that keeps the latest envelope per key |
| `Lexer`, `LexerRoundTrip`, `Parser`, `ParserRoundTrip`, `Grammar`, `QueryText` | CaQL text, tokens and trees, and their round trips |
| `Documents`, `QueryAst`, `QueryEval`, `Projections`, `Topics` | evaluation, projection, globs and topic patterns |
| `Identities`, `Resolution` | the indexed and the scanning identity store, and stable resource ids on top of them |
| `PeerStreams` | WebSocket connections and reference-counted upstream streams |
| `Jobs` | the job of the job-runner example |

Objects that the code updates in place are classes whose methods are proved
equal to functions of the old state, and the steps of the run models are proved
to be those functions. Concurrent protocols are step functions:
a run is any sequence of steps, and a step that is not enabled changes nothing.
Theorems about runs quantify over all sequences. Subscriptions keep a cell in
the model after their entry leaves the bus, because receivers and outstanding
claims outlive the entry.

## What was found

- A synchronous publish ignores outstanding asynchronous claims, so a mixed run
  can deliver more than a limit (`BusRuns.MixedRunOverdelivers`).
  `BusLimits.MixedRunsWithinLimitIff` gives the exact condition: the publish
  must leave room for every claim that can still deliver. Claims that are
  cancelled or already dropped do not count, so the condition is weaker than the
  guard under which the quota law itself survives
  (`BusRuns.GuardedIffWithinLimits`).
- Resolving an id reads and writes the store in separate lock acquisitions. Two
  concurrent resolve calls that bring one id for different identities can both
  return it, and the first identity loses its record (`Resolution.RaceCollides`);
  the node's own directory (`runtime/node.rs`, line 204) later refuses the second
  registration, but the stored identity is already gone.
  `Resolution.EveryInterleavingConsistentIff` and
  `Resolution.SequentialConsistentIff` say exactly when ids are stable.
- With serialized publishing the lines of a late subscriber are sure to come in
  order exactly when, at its snapshot, its bus entry or its receiver is already
  gone, or every envelope queued for it is still in the ring
  (`HandoffOrder.OrderIsDecidedAtTheSnapshot`); with a ring of one they can come
  in reverse (`HandoffOrder.LateReaderOutOfOrder`).
- The comment above `publish` says that it matches `try_publish` under every
  policy but Backpressure. When asynchronous publishes overlap it does not: a
  Disconnect subscriber can get a gap and a notice that names nothing
  (`BusGaps.OverlappingPublishesLeaveAGap`). `BusGaps.PrefixIff` says exactly when
  the prefix is safe and `BusNotices.NoticeIff` exactly when the notice is. That
  publishes do not overlap is enough for both (`BusGaps.OneAtATimeIsGapFree`), but
  not necessary.
- Projection drops the empty path, which `FieldPath::from_segments` can build;
  `Projections.KeptForEveryTargetIff` says that no other path is affected.
- String literals are read byte by byte, so text that is not ASCII changes on
  the way through the lexer; the round trips are stated as equivalences.
- A retried job is queued but its runner has returned: it never runs again
  (`Jobs.RetriedNeverRuns`).
- Progress of a job with more than 42 949 672 steps can fall behind, because the
  product saturates at 32 bits (`Jobs.PercentOfHugeJob`);
  `Jobs.PercentIsShareIff` says exactly when it is right.
- The informal grammar in `caql/mod.rs` allows one `not` before a primary; the
  parser accepts any number, and the model follows the parser; `Grammar` states
  the language it accepts.

## Model

| member | source | states |
|---|---|---|
| `EventBus.Bus.TryPublish` | crates/boardwalk/src/events/bus.rs:249-364 | the fan-out loop that visits every subscription, counts, and removes at the end leaves exactly the map `FanOut`; its result counts, from the slots before and after, the channels that took the envelope as a new item, those that were full and unchanged, those where it took the place of its key, and lists in order the full Disconnect subscriptions that are gone |
| `EventBus.Bus.Claim` | crates/boardwalk/src/events/bus.rs:462-524 | the locked first phase: quota taken, in-flight raised, Coalesce queues pushed at once; the claims come in visiting order, and `ClaimReports` says what its counts count |
| `EventBus.SyncFate` | crates/boardwalk/src/events/bus.rs:282-354 | a visited subscription has exactly one fate, read from its slot before and after: not asked and unchanged, taken, overwritten, lost, cut off, or removed because its reader is gone |
| `EventBus.FanOutReports` | crates/boardwalk/src/events/bus.rs:281-362 | for any visiting order, `delivered`, `dropped` and `coalesced` are the numbers of subscriptions with those fates and `disconnected` lists the cut-off ones in order |
| `EventBus.ClaimReports` | crates/boardwalk/src/events/bus.rs:467-501 | the same for the first phase of `publish`, over the subscriptions with a coalescing queue |
| `EventBus.Bus.Unsubscribe` | crates/boardwalk/src/events/bus.rs:233-244 | says whether the entry existed; removing closes a Coalesce queue and keeps what is queued |
| `EventBus.RemovedAtTheEnd` | crates/boardwalk/src/events/bus.rs:281-362 | collecting ids and removing them after the loop is the same as removing each on the spot |
| `EventBus.ClaimedIsFilter` | crates/boardwalk/src/events/bus.rs:467-515 | the claims of a publish are exactly the visited subscriptions that match and have quota, each once; `ClaimedInOrder` adds their order |
| `EventBus.ClaimedInOrder` | crates/boardwalk/src/events/bus.rs:467-515 | the claims come in visiting order |
| `BusRuns.NextKeepsInv` | crates/boardwalk/src/events/bus.rs:393-618 | every step of subscribe, unsubscribe, pop, receiver drop, claim, send, commit, cancel, guard drop and guarded synchronous publish keeps the quota law of every subscription |
| `BusRuns.RunKeepsInv` | crates/boardwalk/src/events/bus.rs:393-618 | the same over whole runs of any number of publishers and subscriptions |
| `BusRuns.NextKeepsLaw` | crates/boardwalk/src/events/bus.rs:249-618 | the law of a live entry (remaining + claims + committed = limit, in-flight = claims) survives every step, guarded or not |
| `BusRuns.QuotaConservation` | crates/boardwalk/src/events/bus.rs:496-515 | in every guarded run: remaining + active claims + committed deliveries = limit, in-flight = active claims, deliveries never exceed the limit even through claims that outlive the entry, and no live limited subscription is without quota and claims |
| `BusRuns.AsyncOnlyIsGuarded` | crates/boardwalk/src/events/bus.rs:393-618 | every run without synchronous publishes satisfies the guard, so the quota law holds of all of them |
| `BusRuns.SyncOnlyIsGuarded` | crates/boardwalk/src/events/bus.rs:249-364 | every run of synchronous publishes with limits of at least one satisfies the guard |
| `BusRuns.SyncWithinLimitsIff` | crates/boardwalk/src/events/bus.rs:282-354 | from a state that keeps the quota law, one synchronous publish leaves committed deliveries plus outstanding claims within every limit if and only if every matching subscription with room has unclaimed quota left |
| `BusRuns.GuardedIffWithinLimits` | crates/boardwalk/src/events/bus.rs:282-354 | a mixed run keeps committed deliveries plus outstanding claims within every limit at each of its points if and only if every synchronous publish in it meets that guard |
| `BusLimits.MixedRunsWithinLimitIff` | crates/boardwalk/src/events/bus.rs:282-318 | for every run that mixes both publishes: at no point is the limit exceeded, nor can the outstanding claims still exceed it, if and only if every synchronous publish that delivers finds room in the limit for the committed deliveries, the claims that can still deliver, and itself |
| `BusLimits.NeverExceedsIff` | crates/boardwalk/src/events/bus.rs:496-515 | from any state of any run, no continuation without further synchronous publishes delivers more than the limit of an open subscription if and only if its committed deliveries and deliverable claims fit the limit |
| `BusLimits.DeliverAll` | crates/boardwalk/src/events/bus.rs:539-615 | some continuation of pops, sends and commits delivers every claim that is not cancelled or already resolved otherwise |
| `BusLimits.FitsMeans` | crates/boardwalk/src/events/bus.rs:282-318 | what that condition asks of an entry: fewer deliverable claims than unclaimed quota plus claims in flight; unclaimed quota is enough |
| `BusRuns.MixedRunOverdelivers` | crates/boardwalk/src/events/bus.rs:282-318 | a mixed run, for any two envelopes, in which a limit of one lets both through |
| `BusRuns.OneClaimedIsReachable` | crates/boardwalk/src/events/bus.rs:496-515 | the state that counterexample starts from is reached by a subscribe and a claim |
| `BusRuns.RemovalCauses` | crates/boardwalk/src/events/bus.rs:566-611 | outside synchronous publishes an mpsc entry leaves the map only by unsubscribe or by a commit for it that was not a drop |
| `BusRuns.ExhaustionMeansLimitReached` | crates/boardwalk/src/events/bus.rs:566-582 | a commit that removes an entry for exhaustion completes exactly the `limit`-th delivery and leaves no claim behind |
| `BusOrder.ChannelsAreFifo` | crates/boardwalk/src/events/bus.rs:282-354 | in every run what was sent is what was popped plus what is queued, in order; queues stay within capacity and at most one notice fires |
| `BusOrder.RemovedReaderDrains` | crates/boardwalk/src/events/bus.rs:233-244 | in every run a coalescing reader whose subscription is gone gets what is queued, in order, and then the end; a reader still on the bus gets no end |
| `BusOrder.DroppedReceiverGetsNothing` | crates/boardwalk/src/events/bus.rs:84-95 | in every run nothing is sent to a subscription after its receiver is dropped, and the next synchronous publish that it wants removes it |
| `BusOrder.GapFreePrefix` | crates/boardwalk/src/events/bus.rs:371-387 | for a Disconnect subscriber under synchronous publishes, popped plus queued is a prefix of the matching envelopes, all of them while it lives; the one notice names the last of that prefix |
| `BusGaps.PrefixIff` | crates/boardwalk/src/events/bus.rs:467-524 | over every run of both kinds of publishes with different envelopes, on any channel: at no point can the publishers under way break the prefix of offered envelopes if and only if every publish that claims or delivers finds everything offered before it on the channel |
| `BusGaps.StaysPrefixIff` | crates/boardwalk/src/events/bus.rs:539-561 | without new publishes the prefix cannot be broken if and only if it holds and the only claim that can still deliver is for the next envelope offered |
| `BusGaps.OneAtATimeIsGapFree` | crates/boardwalk/src/events/bus.rs:563-615 | when publishes to a Disconnect subscription, of either kind, come one at a time and are not cancelled, popped plus queued is a prefix of the offers, all of them while it is live and none is under way, and the one notice names its end |
| `BusGaps.OverlappingPublishesLeaveAGap` | crates/boardwalk/src/events/bus.rs:390-393 | three overlapping asynchronous publishes, for any envelopes, of which the first and the third are delivered and the notice names nothing |
| `BusNotices.NoticeIff` | crates/boardwalk/src/events/bus.rs:467-612 | over every run of both kinds of publishes whose envelopes have different stream positions, for a Disconnect subscription: at no point is the notice wrong about the last envelope on the channel, nor can the publishers under way make it wrong, if and only if every publish that an open subscription takes part in finds what it needs: a claim, room for itself and all claims that can deliver, or a full queue with no such claim and the bookkeeping done; a synchronous publish, room for itself and those claims (all but one if nothing is uncommitted), or its last quota, or at a full queue no such claim and the bookkeeping done |
| `BusNotices.StaysRightIff` | crates/boardwalk/src/events/bus.rs:539-612 | without new publishes the notice cannot be wrong if and only if the claims that can deliver fit in the queue, or the queue is full and one claim alone is left with the bookkeeping done, or a claim has overflowed and nothing else is under way, or the entry is gone and nothing can be delivered after its notice |
| `BusNotices.NextKeepsMarks` | crates/boardwalk/src/events/bus.rs:249-618 | no claim's stream position is on the channel before it lands or recorded as last delivered before it commits, and the last delivered one was sent, after every step |
| `BusRefinement.AsyncAloneIsSync` | crates/boardwalk/src/events/bus.rs:393-618 | an undisturbed asynchronous publish from a quiet state ends with the same subscriptions, queues, notices and result as one synchronous publish |
| `BusRefinement.Publish` | crates/boardwalk/src/events/bus.rs:393-618 | the object's `publish`, claiming and then sending and committing in a loop, run undisturbed on a quiet bus, leaves the map of `FanOut` and returns the counts of `try_publish`, which report the fate of the envelope at every subscription |
| `BusRefinement.Take` | crates/boardwalk/src/events/bus.rs:195-618 | any locked step of any run (subscribe, unsubscribe, claim, synchronous publish, send, commit, guard drop), taken by the bus object through its own method, reaches the map of the next world and the next state of the publisher |
| `BusRefinement.ClaimAndCancel` | crates/boardwalk/src/events/bus.rs:419-436 | a publish cancelled while its first send waits drops all its guards, and every channel subscription is as it was before the claim |
| `BusRefinement.TalliesAgree` | crates/boardwalk/src/events/bus.rs:464-467 | counting at the claim and then at the commits gives the counts of the synchronous loop, in the same order |
| `BusFlow.StepKeepsFlow` | crates/boardwalk/src/events/bus.rs:539-615 | no step puts an envelope on a reader's channel a second time, under any policy, with cancellation |
| `BusFlow.StepKeepsLossless` | crates/boardwalk/src/events/bus.rs:545-551 | under Backpressure with uncancelled publishers every matching envelope reaches the reader or is still claimed for it |
| `Streams.EventIdsAreInjective` | crates/boardwalk/src/events/sequencer.rs:54-73 | two event ids are equal only for the same stream and sequence, whatever dashes and digits the stream name has |
| `Streams.DecimalRoundTrip` | crates/boardwalk/src/events/sequencer.rs:54-73 | the decimal rendering of a sequence reads back and is all digits |
| `Streams.StreamRegistry.Allocate` | crates/boardwalk/src/events/sequencer.rs:54-73 | the next sequence of the stream from one, its event id, and the reverse entry |
| `Streams.ReplayCache.Record` | crates/boardwalk/src/events/replay.rs:51-67 | appends to the stream's ring, dropping the oldest when full, and evicts that one from the index |
| `Streams.ReplayCache.EventsAfter` | crates/boardwalk/src/events/replay.rs:71-81 | the retained envelopes above the bound, in ring order |
| `Streams.ReplayCache.Admit` | crates/boardwalk/src/events/bus.rs:253-275 | an envelope that is too large is evicted from the index and not recorded; any other is recorded, and only the id that falls out of its ring leaves the index |
| `Streams.RecordKeepsSuffix` | crates/boardwalk/src/events/replay.rs:51-67 | a ring is always the last max(capacity, 1) recorded envelopes |
| `Streams.NewerIsFilter` | crates/boardwalk/src/events/replay.rs:71-81 | the answer holds exactly the retained envelopes above the bound, and keeps ascending order |
| `Streams.NewerConcat` | crates/boardwalk/src/events/replay.rs:71-81 | the replay of two stretches of the ring is their replays in turn, and one envelope is replayed exactly when it is above the bound |
| `StreamRuns.RunKeepsInv` | crates/boardwalk/src/runtime/context.rs:280-302 | what every interleaving of reserve, index, accept or reject, ring update and eviction steps keeps |
| `StreamRuns.RingAndIndexAgree` | crates/boardwalk/src/events/replay.rs:51-81 | over every run rings are the last accepted envelopes, and once evictions are done the index holds exactly the ids in some ring or not yet published, each with its own stream |
| `StreamRuns.SequencesAreDense` | crates/boardwalk/src/events/sequencer.rs:54-73 | under any interleaving the sequences handed out on a stream are exactly 1..n; the next one has not been handed out, and no two calls have the same |
| `StreamRuns.ReplayIsOrdered` | crates/boardwalk/src/events/replay.rs:71-81 | with serialized publishing a replay is strictly increasing and exactly the retained accepted events above the bound |
| `StreamRuns.PublishEnvelope` | crates/boardwalk/src/runtime/context.rs:274-302 | an undisturbed publish takes the registry and the cache through the reserve, index, record or reject, and evict steps of the run model |
| `Handoff.ResponseBody` | crates/boardwalk/src/http/routes.rs:1528-1566 | the two loops of the response body emit the snapshot and then the received events not yet replayed |
| `Handoff.LinesAreTheResponseBody` | crates/boardwalk/src/http/routes.rs:1528-1566 | the lines of the step system are what those loops produce from the snapshot and the popped envelopes |
| `Handoff.NoEventTwice` | crates/boardwalk/src/http/routes.rs:1503-1566 | for every interleaving, policy and cancellation no two emitted lines have the same event id |
| `Handoff.HandedOverExactlyOnce` | crates/boardwalk/src/http/routes.rs:1503-1566 | for every run up to the snapshot and every continuation that settles, with a Backpressure reader and publishers on its stream that are asynchronous and not cancelled once it is there: the client has exactly the recorded envelopes that were among the last max(capacity, 1) recorded before the snapshot, or were fanned out since the subscription, each once; everything recorded after the snapshot is among them |
| `Handoff.RingIsEndOfLog` | crates/boardwalk/src/events/replay.rs:50-68 | in every run the ring holds the last max(capacity, 1) envelopes of the stream that the run recorded |
| `Handoff.TakeSnapshot` | crates/boardwalk/src/http/routes.rs:1504-1506 | the snapshot step is what the replay cache object answers for everything after sequence zero |
| `Handoff.TakeRecord` | crates/boardwalk/src/events/bus.rs:273-275 | the recording step of a publisher is what the replay cache object does |
| `HandoffOrder.OrderIsDecidedAtTheSnapshot` | crates/boardwalk/src/http/routes.rs:1503-1558 | with serialized publishing, for every run up to the snapshot and every policy of a plain queue: in every continuation all lines come in ascending order if and only if the reader's entry or receiver is gone at the snapshot, or every envelope then queued for it is still in the ring |
| `HandoffOrder.GoneRunsInOrder` | crates/boardwalk/src/http/routes.rs:1534-1558 | once its entry or receiver is gone before the receive loop looks, no continuation brings a live line, so the lines are the snapshot's, in order |
| `HandoffOrder.LateReaderOutOfOrder` | crates/boardwalk/src/http/routes.rs:1503-1566 | a serialized run with a ring of one, for any two envelopes of the stream, whose lines are the second and then the first |
| `Coalescing.ExtractKeyIsLookup` | crates/boardwalk/src/events/coalesce.rs:160-182 | the shortcut for paths rooted at `data` gives the value the path has in the whole envelope |
| `Coalescing.CoalesceState.Offer` | crates/boardwalk/src/events/coalesce.rs:72-98 | replace the slot with the same key, else append, else drop; dropped exactly when the receiver is there, the queue has `capacity` items and none has the key, and otherwise queued unless the receiver is gone |
| `Coalescing.PushMeans` | crates/boardwalk/src/events/coalesce.rs:72-98 | the outcome and the new queue from the keys alone: replaced exactly when a queued envelope has the key, and then the first such; dropped exactly when full without one; the end of the queue otherwise |
| `Coalescing.CoalesceState.TryRecv` | crates/boardwalk/src/events/coalesce.rs:123-133 | pops the front; empty or disconnected otherwise |
| `Coalescing.CoalesceState.CloseSender` | crates/boardwalk/src/events/coalesce.rs:140-143 | sets the closed flag and keeps the queue |
| `Coalescing.CoalesceState.MarkReceiverDropped` | crates/boardwalk/src/events/coalesce.rs:149-153 | sets both flags and keeps the queue |
| `Coalescing.PushKeepsKeysDistinct` | crates/boardwalk/src/events/coalesce.rs:72-98 | after an offer resolvable keys are still pairwise distinct, and no other slot has the offered key |
| `Coalescing.LatestPerKeyInFirstArrivalOrder` | crates/boardwalk/src/events/coalesce.rs:72-143 | over every run: within the given capacity, keys distinct, each slot holds the latest offer of its key in first-arrival position; every offer was popped, is queued, was overwritten or was dropped, and only one of these; every dropped one found the queue full without its key |
| `Coalescing.ClosingLosesNothing` | crates/boardwalk/src/events/coalesce.rs:105-143 | after closing, a reader gets every queued envelope in order and only then the end |
| `Lexer.Tokenize` | crates/boardwalk/src/caql/lex.rs:44-267 | the tokenizer loop with its inner loops returns what the scan of the remaining text defines, token by token or the first error; `LexInvertsWriting` and `BadTextIsRefused` say what that is |
| `Lexer.ScanString` | crates/boardwalk/src/caql/lex.rs:157-203 | the inner loop of a string literal: escapes, closing quote, both unterminated errors |
| `Lexer.ScanNumber` | crates/boardwalk/src/caql/lex.rs:204-222 | the extent of a number lexeme, which `NumberIs` and `NumbersOnly` describe character by character |
| `Lexer.ScanAt` | crates/boardwalk/src/caql/lex.rs:50-263 | one round of the loop at an index is one scan of the remaining text |
| `Lexer.OffsetsIncrease` | crates/boardwalk/src/caql/lex.rs:44-267 | for every text token offsets strictly increase and lie inside it |
| `LexerRoundTrip.LexInvertsWriting` | crates/boardwalk/src/caql/lex.rs:44-267 | any way to write a token list lexes to it: keywords in any letter case, numbers in any form that reads as their value, string characters escaped or not, white space of five kinds wherever two tokens would run together; strings come as UTF-8 bytes, unchanged if and only if they are ASCII |
| `LexerRoundTrip.BadTextIsRefused` | crates/boardwalk/src/caql/lex.rs:113-264 | after any tokens, a lone `!`, an unterminated string or escape, a number that does not read, or a character that starts no token is refused at its own offset with its own reason |
| `LexerRoundTrip.NumberIs` | crates/boardwalk/src/caql/lex.rs:204-222 | optional sign, digits and dots, optional exponent with optional sign: the scanner takes exactly that text before anything that cannot continue it |
| `LexerRoundTrip.NumbersOnly` | crates/boardwalk/src/caql/lex.rs:204-222 | whatever the scanner takes whole has that form |
| `LexerRoundTrip.WordsMean` | crates/boardwalk/src/caql/lex.rs:231-252 | a word is a keyword if and only if it is that keyword up to the case of its letters, and otherwise an identifier |
| `LexerRoundTrip.LexInvertsRender` | crates/boardwalk/src/caql/lex.rs:44-267 | rendering tokens as text with spaces and tokenizing gives the list back with increasing offsets; unchanged if and only if the string contents are ASCII |
| `LexerRoundTrip.EncodeAsciiIff` | crates/boardwalk/src/caql/lex.rs:157-190 | bytes pushed as characters give the text back if and only if it is ASCII |
| `Parser.ParseQuery` | crates/boardwalk/src/caql/parse.rs:9-30 | every successful parse consumes all tokens and yields a query in the grammar's range: binary connectives, non-empty paths, no array after `contains` |
| `Parser.Parse` | crates/boardwalk/src/caql/parse.rs:9-30 | the parser object returns exactly what the grammar functions say, with the offset its errors report |
| `Parser.TokenParser.Selection` | crates/boardwalk/src/caql/parse.rs:58-70 | the projection loop follows the grammar |
| `Parser.TokenParser.Path` | crates/boardwalk/src/caql/parse.rs:72-94 | the dotted-path loop follows the grammar |
| `Parser.TokenParser.Or` | crates/boardwalk/src/caql/parse.rs:96-104 | the `or` loop builds left-nested binary nodes |
| `Parser.TokenParser.And` | crates/boardwalk/src/caql/parse.rs:106-114 | the `and` loop builds left-nested binary nodes |
| `Parser.TokenParser.Not` | crates/boardwalk/src/caql/parse.rs:116-128 | `not`, `exists` or a comparison |
| `Parser.TokenParser.Primary` | crates/boardwalk/src/caql/parse.rs:130-142 | parenthesised predicate or comparison |
| `Parser.TokenParser.Comparison` | crates/boardwalk/src/caql/parse.rs:143-167 | operator or `contains`, and the value after it |
| `Parser.TokenParser.Value` | crates/boardwalk/src/caql/parse.rs:170-198 | literals and arrays |
| `ParserRoundTrip.ParseInvertsPrint` | crates/boardwalk/src/caql/parse.rs:9-199 | for every query the grammar can express, printing with the fewest parentheses and parsing gives the same query and consumes every token |
| `ParserRoundTrip.OperandParses` | crates/boardwalk/src/caql/parse.rs:116-142 | a written operand, parenthesised in any way, parses to what it stands for with any continuation that does not start with a dot |
| `ParserRoundTrip.DisjunctionParses` | crates/boardwalk/src/caql/parse.rs:96-104 | a written condition parses to what it stands for and the `or` loop goes on from it |
| `ParserRoundTrip.ValueParses` | crates/boardwalk/src/caql/parse.rs:170-198 | printed literals, nested arrays included, parse back |
| `ParserRoundTrip.ParsedQueriesReprint` | crates/boardwalk/src/caql/parse.rs:9-30 | printing what was parsed and parsing again gives the same result, and different queries print differently |
| `Grammar.ParserIsTheGrammar` | crates/boardwalk/src/caql/parse.rs:9-199 | for every token list: it parses to a query if and only if it is a sentence of the grammar that means the query, with `and` above `or`, both to the left, `not` on operands, and any parentheses |
| `Grammar.AcceptedIsSentence` | crates/boardwalk/src/caql/parse.rs:9-199 | the sentence of an accepted token list, rebuilt from the parse |
| `Grammar.SentenceIsAccepted` | crates/boardwalk/src/caql/parse.rs:9-199 | every sentence parses to what it means and leaves no token |
| `QueryText.Parse` | crates/boardwalk/src/caql/mod.rs:50-53 | text parsing is the lexer followed by the parser |
| `QueryText.ParseInvertsWriting` | crates/boardwalk/src/caql/mod.rs:50-53 | any text of a query, in any letter case and spacing, parses to the query with its strings as UTF-8 bytes; to the query itself if and only if its string literals are ASCII |
| `QueryText.SentencesParse` | crates/boardwalk/src/caql/mod.rs:50-53 | any text of any sentence of the grammar, with ASCII strings, parses to what the sentence means |
| `QueryText.ParseInvertsText` | crates/boardwalk/src/caql/mod.rs:50-53 | the same for the text with one space between all tokens |
| `Documents.Walk` | crates/boardwalk/src/query/eval.rs:58-70 | the cursor loop finds the value a path names, or nothing at the first miss |
| `Documents.LookupConcat` | crates/boardwalk/src/query/ast.rs:116-128 | walking a longer path is walking its parts in turn, and one step finds exactly the field of an object |
| `QueryEval.Evaluate` | crates/boardwalk/src/query/eval.rs:28-56 | evaluation with early exit never errs and says whether all conjuncts, or some disjunct, hold |
| `QueryEval.ComparisonsMean` | crates/boardwalk/src/query/eval.rs:72-125 | every operator by what it says: `=` and `!=` on the value of the literal, a missing field as null; `<`, `<=`, `>`, `>=` on two numbers or two strings only; `like` on strings; `in` on some equal item |
| `QueryEval.TextLessMeans` | crates/boardwalk/src/query/eval.rs:96-102 | one string is below another if and only if, after a common prefix, it ends or has the smaller character |
| `QueryEval.ConnectivesFold` | crates/boardwalk/src/query/eval.rs:28-47 | conjunctions and disjunctions grow by one operand as `and` and `or` do, from true and false |
| `QueryEval.FieldTestsMean` | crates/boardwalk/src/query/eval.rs:49-53 | `contains` holds if and only if the field is an array with an equal element, `exists` if and only if the field is there |
| `QueryEval.OperatorsAreDual` | crates/boardwalk/src/query/eval.rs:72-115 | `!=` negates `=`; on comparable operands `<` negates `>=`, `<=` negates `>`, and `=` is both `<=` and `>=` |
| `QueryEval.TextOrderIsTotal` | crates/boardwalk/src/query/eval.rs:96-102 | the order used on strings is total and asymmetric |
| `QueryEval.TextOrderIsTransitive` | crates/boardwalk/src/query/eval.rs:96-102 | the order used on strings is transitive |
| `QueryEval.GlobIsDeclarative` | crates/boardwalk/src/query/eval.rs:127-149 | the backtracking matcher holds if and only if the text splits into one run per pattern character, `*` any run and `?` one character |
| `Projections.Project` | crates/boardwalk/src/query/eval.rs:13-26 | the path-by-path loop gives the restriction of the target to the set of requested non-empty paths |
| `Projections.InsertRestricts` | crates/boardwalk/src/query/eval.rs:151-165 | inserting the value at one more resolving path is restricting to one more path, including prefixes of earlier paths |
| `Projections.ProjectionIsConfluent` | crates/boardwalk/src/query/eval.rs:13-26 | order and repetition of the requested paths do not matter |
| `Projections.ProjectionLaws` | crates/boardwalk/src/query/eval.rs:13-26 | projection is idempotent, keeps the value at every requested non-empty path, adds nothing to an object, and makes an empty object of anything else |
| `Projections.ProjectingTwice` | crates/boardwalk/src/query/eval.rs:13-26 | projecting again to a subset of the paths is projecting to it at once |
| `Projections.ResolvesIff` | crates/boardwalk/src/query/eval.rs:13-26 | a path resolves in the projection if and only if it resolves in the target and a requested path passes through it or ends on it |
| `Projections.NothingIsAdded` | crates/boardwalk/src/query/eval.rs:13-26 | the result is part of the target: some fields, and part of each; of a value that is no object and that no path names, it is an empty object |
| `Projections.BelowRequestedIsKept` | crates/boardwalk/src/query/eval.rs:13-26 | everything below a requested path reads the same |
| `Projections.KeptForEveryTargetIff` | crates/boardwalk/src/query/eval.rs:151-154 | a requested path is kept for every target if and only if it is not the empty path |
| `Projections.SelectionCommutesWithProjection` | crates/boardwalk/src/query/eval.rs:9-70 | a predicate whose paths are all requested has the same value on the projection and on the target |
| `Projections.HoldsReadsMentions` | crates/boardwalk/src/query/eval.rs:28-56 | a predicate depends only on the values at the paths it mentions |
| `Projections.EmptyPathIsNotKept` | crates/boardwalk/src/query/eval.rs:151-154 | a concrete predicate on the empty path that projection changes |
| `Topics.MatchesAt` | crates/boardwalk/src/events/topic.rs:133-154 | the search loop decides the recursive matcher |
| `Topics.MatchingIsDeclarative` | crates/boardwalk/src/events/topic.rs:133-154 | a pattern matches if and only if the topic splits into consecutive runs, one per segment, each `**` taking at least one part |
| `Topics.TrailingShortcutIsGeneral` | crates/boardwalk/src/events/topic.rs:137-140 | the shortcut for a trailing `**` decides what the general search would |
| `Topics.MatchesConcat` | crates/boardwalk/src/events/topic.rs:133-154 | a pattern in two halves matches if and only if some cut of the topic matches each |
| `Topics.WildcardsCommute` | crates/boardwalk/src/events/topic.rs:133-154 | `**/*` and `*/**` are interchangeable anywhere in a pattern |
| `Topics.ParsePath` | crates/boardwalk/src/events/topic.rs:92-106 | a parsed path matches a topic if and only if the parts of the topic split into runs, one per piece of the text; the first expression that does not compile is reported with its index |
| `Topics.ParsePattern` | crates/boardwalk/src/events/topic.rs:64-112 | empty input is refused; the path before the first question mark decides the topics as its text says, the suffix must give a filter, and a bad regex is reported, after the filter, at the first piece that does not compile |
| `Topics.TextMatchesText` | crates/boardwalk/src/events/topic.rs:92-154 | from pattern text to topic text: `*` takes one part, `**` one or more, an expression in braces one that it accepts, any other piece itself, and the match is a split of the topic into such runs |
| `Topics.WantedMeans` | crates/boardwalk/src/events/topic.rs:115-131 | without a filter a pattern wants the topics its text matches, and a filter narrows them to the payloads it holds of |
| `Topics.WantsEvent` | crates/boardwalk/src/events/topic.rs:122-130 | an event is wanted if and only if its topic matches and the filter, if any, holds of its payload |
| `Topics.ConcreteTopicIsOneStream` | crates/boardwalk/src/http/routes.rs:1244-1261 | a replayable pattern matches an envelope if and only if the envelope has the pattern's kind and the stream id whose ring is replayed |
| `Topics.ReplayableIff` | crates/boardwalk/src/http/routes.rs:1480-1491 | a path names a stream to replay if and only if its text is four pieces, none empty, a wildcard or an expression |
| `Topics.StreamIdsAreInjective` | crates/boardwalk/src/events/envelope.rs:74-81 | stream ids determine node, resource and stream when one side has no slashes |
| `Identities.IndexedStore.Put` | crates/boardwalk/src/persistence/mod.rs:298-323 | three loops: refuse on a key of another id, remove the previous keys, insert the new ones; then the record |
| `Identities.IndexedStore.FindByIdentityKey` | crates/boardwalk/src/persistence/mod.rs:325-334 | the record the reverse index names |
| `Identities.ScanStore.Put` | crates/boardwalk/src/persistence/redb.rs:115-128 | the scan refuses on the first overlapping record of another id, otherwise writes |
| `Identities.ScanStore.FindByIdentityKey` | crates/boardwalk/src/persistence/redb.rs:130-144 | the first scanned record holding the key |
| `Identities.IndexedPutMeans` | crates/boardwalk/src/persistence/mod.rs:298-323 | a put is refused if and only if another record holds one of its keys; otherwise one record is replaced, and key-to-id and id-to-keys stay inverse |
| `Identities.ScanPutMeans` | crates/boardwalk/src/persistence/redb.rs:115-128 | the same condition decides the scanning put, whatever the scan order |
| `Identities.ScanFindsIndexed` | crates/boardwalk/src/persistence/redb.rs:130-144 | the scan finds the record the index names |
| `Identities.IndexRefinesScan` | crates/boardwalk/src/persistence/mod.rs:292-335 | for every sequence of operations and every scan order both stores hold the same records and answer alike, with conflicts on the same puts |
| `Resolution.Resolve` | crates/boardwalk/src/server.rs:518-560 | one undisturbed call does what its read, lookup and write steps do, and returns the id they answer; `CallMeans` says which |
| `Resolution.CallMeans` | crates/boardwalk/src/server.rs:518-560 | a call answers the id on record for its kind and name, or the explicit or new id, which is then on record for it; an explicit id is refused when another spec has it or the identity has another id |
| `Resolution.KeysAreIdentities` | crates/boardwalk/src/server.rs:612-622 | two specs have one key if and only if they have the same kind and the same name, no name and the empty name being one |
| `Resolution.FindAny` | crates/boardwalk/src/server.rs:597-610 | the lookup loop returns the record of the first key that is held |
| `Resolution.StepKeepsInv` | crates/boardwalk/src/server.rs:518-610 | every record holds exactly its own identity key and was returned to some call, in every interleaving of calls |
| `Resolution.StepSettledIff` | crates/boardwalk/src/server.rs:545-559 | a step keeps every returned id in place if and only if it does not write over the record of another identity |
| `Resolution.ConsistentIff` | crates/boardwalk/src/server.rs:518-560 | over every interleaving, two calls return one id exactly when they are for the same kind and name, if and only if no write replaces another identity's record |
| `Resolution.UnsharedIdsAreConsistent` | crates/boardwalk/src/server.rs:518-560 | concurrent calls are consistent when no two identities bring the same id |
| `Resolution.EveryInterleavingConsistentIff` | crates/boardwalk/src/server.rs:518-560 | for any list of requests, every interleaving of their calls is consistent if and only if requests that bring the same id are for the same kind and name |
| `Resolution.RaceCollides` | crates/boardwalk/src/server.rs:530-549 | for any two requests that bring one id for two identities there is an interleaving in which both calls return it and the first identity loses its record |
| `Resolution.SequentialConsistentIff` | crates/boardwalk/src/server.rs:518-560 | calls one after another are consistent if and only if no call mints an id already in use |
| `PeerStreams.PeerStreamHub.Subscribe` | crates/boardwalk/src/http/peer_streams.rs:43-70 | shares an existing entry or opens one for a known peer |
| `PeerStreams.PeerStreamHub.Unsubscribe` | crates/boardwalk/src/http/peer_streams.rs:74-89 | drops one reference and, with the last, the entry |
| `PeerStreams.Connection.OnSubscribe` | crates/boardwalk/src/http/ws.rs:141-299 | the dispatcher's subscribe is its admission, hub and insert steps; a number is given out exactly when admitted with fewer than 64 subscriptions, and the subscription is listed under it |
| `PeerStreams.Connection.OnUnsubscribe` | crates/boardwalk/src/http/ws.rs:300-307 | removes the local or forwarded subscription and gives its reference back |
| `PeerStreams.Connection.OnLagTerminated` | crates/boardwalk/src/http/ws.rs:122-127 | gives the reference back; an event for a subscription already gone changes nothing |
| `PeerStreams.Connection.OnLocalTerminated` | crates/boardwalk/src/http/ws.rs:128-132 | forgets the local subscription |
| `PeerStreams.Connection.OnClose` | crates/boardwalk/src/http/ws.rs:352-358 | drains every subscription, in any order |
| `PeerStreams.ConnStepFollows` | crates/boardwalk/src/http/ws.rs:112-359 | a connection gains exactly the reference it takes, under a number it never used, and loses exactly the one it gives back |
| `PeerStreams.StepKeepsInv` | crates/boardwalk/src/http/ws.rs:112-359 | every step on any number of connections keeps counts, ownership and the cap |
| `PeerStreams.CountIsReferencesHeld` | crates/boardwalk/src/http/peer_streams.rs:43-89 | over every run an entry exists if and only if some connection holds a reference, and its count is the number of them |
| `PeerStreams.ReleasedAtMostOnce` | crates/boardwalk/src/http/ws.rs:120-134 | a reference is given back exactly once if it was taken and is no longer held, and never otherwise |
| `PeerStreams.CapIsKept` | crates/boardwalk/src/http/ws.rs:146-148 | no connection ever has more than 64 subscriptions, counting the one being opened |
| `PeerStreams.IdleCountIsExact` | crates/boardwalk/src/http/ws.rs:112-359 | between hub calls the count is the number of forwarded subscriptions listed |
| `PeerStreams.ReleaseFindsItsEntry` | crates/boardwalk/src/http/peer_streams.rs:74-83 | a release always finds a positive count, so the counter never wraps |
| `PeerStreams.DrainedHubIsEmpty` | crates/boardwalk/src/http/ws.rs:352-358 | once every connection has closed and drained, the hub is empty |
| `Jobs.JobData.CancelJob` | examples/job-runner/src/job.rs:210-228 | queued jobs end at once, running ones are asked to stop, others refuse |
| `Jobs.JobData.RetryJob` | examples/job-runner/src/job.rs:133-147 | only failed jobs start a new, empty attempt |
| `Jobs.JobData.BeginRun` | examples/job-runner/src/job.rs:286-295 | the runner goes on only with a queued job |
| `Jobs.JobData.RunTick` | examples/job-runner/src/job.rs:297-346 | one pass of the runner's loop |
| `Jobs.JobData.RunJob` | examples/job-runner/src/job.rs:283-347 | an undisturbed runner completes a queued job in exactly its total of ticks and leaves any other alone |
| `Jobs.StepKeepsInv` | examples/job-runner/src/job.rs:108-347 | every wake-up, tick, cancel, retry or abort keeps the lifecycle invariant |
| `Jobs.LifecycleHolds` | examples/job-runner/src/job.rs:108-347 | in every interleaving: result, progress 100 and Succeeded together; error with Failed; finished with the three final states; a running job has steps left and its progress is its share of them; the loop sees only Running or Cancelling and ends within its total |
| `Jobs.ProgressNeverFalls` | examples/job-runner/src/job.rs:357-359 | within an attempt progress never falls |
| `Jobs.PercentIsShareIff` | examples/job-runner/src/job.rs:357-359 | the percentage is 100 times the step over the total, rounded down and at most 99, if and only if the product stays within 32 bits or its bound makes no difference |
| `Jobs.PercentOfHugeJob` | examples/job-runner/src/job.rs:357-359 | half of the largest job is reported as one percent |
| `Jobs.AffordancesMatch` | examples/job-runner/src/job.rs:259-280 | the advertised transitions are exactly the accepted ones |
| `Jobs.RetriedNeverRuns` | examples/job-runner/src/job.rs:126-151 | a retried job has no runner left: it stays queued until cancelled |
| `Jobs.FinalStaysFinal` | examples/job-runner/src/job.rs:210-228 | a succeeded or cancelled job never changes again |

## Left out

- Tunnels, TLS, proxy dialing, HTTP/2, routing, Siren rendering, link building, proc macros and builders: I/O and thin wrappers over libraries.
- Peer admission, header rules and error-to-status mappings: single-branch facts.
- Wakers, fairness and timing: every interleaving of steps is considered, with no claim that a step eventually happens. A tokio channel is a bounded FIFO whose send can be cancelled only while it waits, and its capacity is at least one.
- Integer widths other than the job's 32-bit counters and the hub's reference count: event sequences, quotas and subscription numbers are unbounded.
- The measurement of serialized size: whether an envelope is too large is an input of each publish.
- Floating-point rounding: numbers are reals, and number lexemes are read by a function given as a parameter.
- Regular expressions: a segment is known by the strings it accepts, and compilation is a parameter.
- The decoding of the `?ql=` suffix of a topic: form decoding is library behaviour; reading a filter from a suffix is a parameter.
- Serialization failures of response lines, and the final gap line of a disconnected reader: the handoff counts envelopes, each of which gives a line.
- The kind segment in the replay snapshot: the handoff is stated for unfiltered concrete topics that name the resource's kind; `Topics.ConcreteTopicIsOneStream` ties them to the stream.
- `FieldPath::try_parse`: paths are lists of segments; the parser builds them from identifiers.
- Messages of errors: an error is its kind and its offset or index; a refused `put` names one holder of a key, which may differ between the two stores when there are several.
- Redb transactions and disk: the table is a map scanned in any order, and its check and write are one step.
- Servers without repositories, and the parsing of ids as UUIDs: an explicit or new id is passed through.
- Failure of a publish inside the job transitions: the data has already changed when it is reported.
- PeerStreams.Connection.OnClose: the order of the drain and the local bus unsubscribes are not tied to the bus model; the connection's maps and the hub are.
- A connection task dropped in the middle of a hub call, reconnects and acceptor tasks: their cleanup depends on the runtime.
- Jobs.RetriedNeverRuns: states safety only; whether another component restarts a retried job is not part of this model.
- Job owner, labels, priority, queue and the published lifecycle events.
