# Translation engine of the Antigravity bridge: model and proofs

`agy-bridge-go` translates between OpenAI-style clients and an upstream Gemini service. Upstream
messages carry opaque *thought signatures* that must come back unchanged with the next request,
attached to the right text or tool call, while the client only ever sees items with ids that the
bridge minted. This project models the stateful part of that translation and proves what it is for:
no signature, text, call or id is lost, swapped or invented on the way out, on the way back, or
across sessions and restarts.

## How it is organised

Each part has a specification made of functions on values, the code's own loops and objects as
methods and classes proved against it, and laws about the specification. The specification is what
the laws speak about; a method's `ensures` is the link.

| files | what they model |
|---|---|
| `Core` | identifiers, JSON values, upstream parts, tool names on the wire |
| `Decoder` | the pull-style upstream decoder and the batch reader |
| `Turn`, `Accumulator`, `TurnLaws`, `RecordLaws` | the coalescing machine, the incremental accumulator that refines it, what every turn satisfies, its records read off the parts |
| `Outputs`, `OutputLaws` | client output items and the opaque carrier, and what every output list holds |
| `Stream`, `StreamLaws`, `StreamEnd`, `StreamOrder`, `Announcements`, `Handler` | the event-emitting machine, its invariant, finished streams, the order of events, what is announced, the two handlers |
| `Cache`, `CacheLaws`, `CacheLookups`, `CacheStore` | the signature cache as values, its laws over all runs, what its lookups and loads give, the mutable object |
| `Provenance`, `Exchange`, `ExchangeSpec` | signature policy, validation of replayed items |
| `Translate`, `Converter`, `ScanLaws`, `Normalize`, `Pairing` | the replay translator as a function and as loops, and its laws |
| `Outline`, `Emission`, `ColdStart`, `ResultNames`, `ValidationErrors` | what a conversion says and sends, item by item; histories the bridge never saw; the names of calls; what errors mean |
| `RoundTrip`, `RoundTripLaws`, `Joining`, `Conversation`, `StreamHistory` | out to the client and back again: one turn inside a history, conversations of many, and those a client keeps from the stream |
| `Sessions`, `SessionLaws`, `StoredTexts`, `ConversationSessions` | turns sharing one cache, and conversations against it |
| `Chat`, `ChatLaws`, `ChatEmission`, `ColdChat`, `ChatSessions`, `ChatSiblings` | the chat converter |
| `Schema`, `SchemaLaws`, `SchemaMeaning`, `SchemaExact`, `SchemaOrder`, `SchemaLimits` | the tool schema compiler, its laws, its meaning, when the order of visits matters, and where it narrows |

Identifiers are terms: `Name(s)` is whatever a client or the upstream service sends; minted ids are
constructors over the inputs that are hashed (`turn_record.go:201`, `turn_record.go:215`), so
minting is injective and the minted families are disjoint. Randomly drawn ids are terms named by the
position at which they are drawn. Go maps are visited in an arbitrary order: loops pick any
remaining key, and where the order shows in the result (the schema compiler, loading a snapshot) the
order is a parameter and every theorem holds for all of them.

## What does not hold as first expected

The code is modelled as it is. Where an expected property fails, a lemma gives the input and the
main lemma states exactly when it holds:

- Live and final output lists agree if and only if announced reasoning is kept
  (`StreamEnd.FinishedStream`): a thought without text or signature is announced and then dropped
  (`StreamEnd.EmptyThoughtIsDropped`).
- The round trip of a conversation holds if and only if every turn is recoverable
  (`Conversations.ConversationRoundTrip`); tool names that begin with two underscores do not survive
  (`Core.WireNameRoundTrip`), and an unsigned call is only backed by the first signed call adjacent to
  it, which its turn records as its sibling only if one of the two is the turn's first call
  (`ConversationSessions.ReturnsIs`).
- A text that is signed again after it was completed leaves the stream with its first signature and
  the turn with its second (`StreamHistory.StaleSignature`); a client that keeps the streamed items
  gets back what it was shown (`StreamHistory.LiveRoundTrip`).
- A restart keeps every lookup except that empty argument objects become absent ones
  (`CacheLaws.RestartIsTransparent`, `CacheLaws.EmptyArgumentsAreForgotten`); the translator's
  argument equality treats both alike, which `SessionLaws.SessionsDoNotInterfere` uses.
- Chat calls and responses are as many if and only if the messages hold as many named calls of the
  assistant as results (`ChatLaws.ChatConversionIsExact`); a nameless call is dropped and, if it is
  answered, orphans its result (`ChatSessions.NamelessCallOrphansItsResult`).
- Schema compilation narrows some schemas although its comments promise equivalence or weakening
  (`SchemaLimits`); `SchemaMeaning.SanitizingWeakens` states conditions under which it never does,
  and `SchemaExact.SanitizingPreserves` where it keeps the meaning in both directions.
- A result that names its call by the upstream id passes validation, because the cached record gives
  that name to the call, but the converter follows it only through a carrier; without one the call is
  rejected as unanswered (`ResultNames.ResultByAnyName`).
- A second chat call with the id of an answered one is reported as a result that precedes its call
  (`ColdChat.ColdValidatorIsExact` states each error).
- Compiling a schema depends on the order in which a map is visited if an allOf stands beside
  properties (`SchemaOrder.OrderMatters`); where it does not is `SchemaOrder.SanitizingIsDeterministic`.
- A local reference resolves to what it means if and only if it is not shadowed by the other
  definition table (`SchemaMeaning.ReferencesAgree`).

## Model

| member | source | states |
|---|---|---|
| Decoder.UpstreamDecoder.Next | agy-bridge-go/internal/protocols/upstream_decoder.go:51-149 | Each call delivers the next event of the stream: queued parts before the queued finish reason before the next line. Nothing is lost, repeated or reordered; after the last event it reports the read error or the end, and a finish reason seen is remembered. |
| Decoder.UpstreamDecoder.ReadLine | agy-bridge-go/internal/protocols/upstream_decoder.go:79-148 | One line turns into usage first, then its queued parts and finish reason; an error line is delivered as one error. |
| Decoder.UpstreamDecoder.PopPending | agy-bridge-go/internal/protocols/upstream_decoder.go:52-71 | A queued part or finish reason is exactly the next event still to come. |
| Decoder.AccumulateTurn | agy-bridge-go/internal/protocols/upstream_decoder.go:164-206 | Succeeds exactly when there is no error line, no read error and some finish reason; the result then holds all candidates' parts in order, the last usage and the last finish reason, however lines and candidates are cut. |
| Decoder.ScriptSays | agy-bridge-go/internal/protocols/upstream_decoder.go:51-149 | The events of an error-free stream say the same parts, last reason and last usage as the whole stream read at once. |
| Decoder.WholeScript | agy-bridge-go/internal/protocols/upstream_decoder.go:164-206 | The events up to the first error carry the parts before it, and an error occurs among them exactly when the stream has an error line. |
| Accumulators.Accumulator.constructor | agy-bridge-go/internal/protocols/turn_record.go:70-84 | A new accumulator represents the empty draft. |
| Accumulators.Accumulator.CurrentTextId | agy-bridge-go/internal/protocols/turn_record.go:128-139 | The id of the text being built: the buffered one, else the base id for the first text of the turn, else the base id with the number of texts. |
| Accumulators.Accumulator.FlushPendingText | agy-bridge-go/internal/protocols/turn_record.go:152-173 | Commits the buffered text as the last record and returns it; the represented draft is only closed. |
| Accumulators.Accumulator.ProcessPart | agy-bridge-go/internal/protocols/turn_record.go:179-297 | Refines one step of the coalescing machine, and returns exactly the text it flushed and the call it added or merged. |
| Accumulators.Accumulator.ProcessCall | agy-bridge-go/internal/protocols/turn_record.go:190-262 | A repeated upstream call id merges into its first record, last non-empty name, arguments and signature winning; any other call becomes a new record with ids minted from its position. |
| Accumulators.Accumulator.ProcessTail | agy-bridge-go/internal/protocols/turn_record.go:264-278 | A signature without text signs the latest text, buffered or committed. |
| Accumulators.Accumulator.ProcessText | agy-bridge-go/internal/protocols/turn_record.go:280-294 | Text extends the buffered text when the signatures agree and starts a new one when they differ. |
| Accumulators.Accumulator.Finish | agy-bridge-go/internal/protocols/turn_record.go:300-324 | Returns the turn of the finished draft, with its call and text signature tables, sibling map and output order. |
| Accumulators.BuildAuthoritativeTurn | agy-bridge-go/internal/protocols/turn_record.go:328-340 | The incremental accumulator over a whole part list computes the turn of the coalescing machine. |
| Turns.RunWF | agy-bridge-go/internal/protocols/turn_record.go:179-297 | Over every run: indexes are positions, every id is minted from its record's position or text number alone, and no two calls share a non-empty upstream id. |
| Turns.DistinctIds | agy-bridge-go/internal/protocols/turn_record.go:200-222 | Item ids are pairwise distinct, call ids are pairwise distinct, none is the reasoning id. |
| TurnLaws.TextsAreGroups | agy-bridge-go/internal/protocols/turn_record.go:179-297 | The text records of a turn are its text fragments merged only between boundaries (thoughts, calls, a change of signature), with a later signature-only part signing the latest one. |
| TurnLaws.CallsMerge | agy-bridge-go/internal/protocols/turn_record.go:190-262 | For each upstream id there is exactly one call record if the parts mention it, and it holds the last non-empty name, arguments and signature given for it. |
| TurnLaws.TextIsConserved | agy-bridge-go/internal/protocols/turn_record.go:179-297 | Visible text and thought text are conserved as concatenations. |
| TurnLaws.FinalText | agy-bridge-go/internal/protocols/turn_record.go:300-324 | Finishing the turn adds and loses no text. |
| TurnLaws.BuiltTurnIsConsistent | agy-bridge-go/internal/protocols/turn_record.go:300-324 | In every built turn the signature tables list exactly the signed records, under call id and item id, with their signatures; indexes and ids are proper. |
| TurnLaws.ToolSigsExact | agy-bridge-go/internal/protocols/turn_record.go:224-260 | The call signature table has an id exactly when a signed call has it as call id or item id. |
| TurnLaws.TextSigsExact | agy-bridge-go/internal/protocols/turn_record.go:153-172 | The text signature table has an id exactly when a signed text has it. |
| RecordLaws.RecordsAre | agy-bridge-go/internal/protocols/turn_record.go:179-297 | The record list of a turn read off its parts: one record per part that begins one, in order, texts and calls interleaved; a call without an upstream id says that part's own name, arguments and signature, one with it the last non-empty ones given for it, a text its group of fragments. |
| RecordLaws.BuiltRecordsAre | agy-bridge-go/internal/protocols/turn_record.go:300-340 | A built turn has these records; one without parts and thoughts has a single empty text. |
| RecordLaws.ThoughtPlace | agy-bridge-go/internal/protocols/turn_record.go:183-188 | The reasoning item stands before exactly the records that begin after the first thought. |
| Outputs.ToOutputItems | agy-bridge-go/internal/protocols/turn_record.go:348-447 | The lookup by output order, with its used set and its late reasoning item, computes the specified item list. |
| Outputs.OutputItemsAre | agy-bridge-go/internal/protocols/turn_record.go:343-447 | For every turn the accumulator can build, that list is one item per record in order, with a needed reasoning item where the first thought came, or last. |
| OutputLaws.ListedOnce | agy-bridge-go/internal/protocols/turn_record.go:348-447 | Whatever output order a turn comes with, every record and a needed reasoning item are listed exactly once and nothing else is; a reasoning item the order does not name comes first if it has a summary, else after exactly the items the order names. |
| StreamLaws.StreamingDraft | agy-bridge-go/internal/protocols/responses.go:262-398 | The handler's explicit flushes never change the turn: streaming builds the same records as the batch path on the same parts. |
| StreamLaws.StreamingRefinesBatch | agy-bridge-go/internal/protocols/responses.go:534-579 | On the same parts the last streamed event equals the batch response. |
| StreamLaws.RunKeeps | agy-bridge-go/internal/protocols/responses.go:262-398 | After every prefix of a stream the announced items are the output order, indexes count up, deltas equal the text so far, and every closed text was completed once at its own index. |
| StreamEnd.FinishedStream | agy-bridge-go/internal/protocols/responses.go:417-531 | On every successful stream: indexes count up from 0; the announced ids equal those of the final output list if and only if announced reasoning is kept; every record is completed exactly once at the index that announced it, with its final text or its final merged arguments; the final event carries that output list. |
| StreamEnd.ReasoningSays | agy-bridge-go/internal/protocols/responses.go:423-445 | The completed reasoning item and the one of the final list carry the same records, signature tables, siblings, output order and summary, each given from the finished turn; only turn id and model differ. |
| StreamEnd.DeltasAreTheText | agy-bridge-go/internal/protocols/responses.go:302-387 | Text deltas of an item concatenate to its text, and all of them to the visible text of the input; reasoning deltas concatenate to its thoughts. |
| StreamEnd.FirstPartExists | agy-bridge-go/internal/protocols/responses.go:475-500 | The first part of the finished turn is read only when it exists. |
| StreamEnd.EmptyThoughtIsDropped | agy-bridge-go/internal/protocols/responses.go:283-308 | A thought without text or signature is announced live and missing from the final list: the input on which live and final lists differ. |
| StreamEnd.PartsRepeatTexts | agy-bridge-go/internal/protocols/responses.go:209-260 | On every stream the end of a text part repeats, directly after it, the text that was completed, for the same item at the same index. |
| StreamHistory.LiveIsRelisted | agy-bridge-go/internal/protocols/responses.go:209-531 | The items a client keeps from the completion events, in index order, are the history of the finished turn, each text under the signature it was completed with. |
| StreamHistory.LiveRoundTrip | agy-bridge-go/internal/protocols/responses.go:262-531 | Conversations built from the streamed events come back under the same exact condition as those built from final lists. |
| StreamHistory.ClosedTextIsDone | agy-bridge-go/internal/protocols/responses.go:209-260 | A text is completed with the signature it had when it closed, or when the stream ended. |
| StreamHistory.StaleSignature | agy-bridge-go/internal/protocols/responses.go:209-260 | A text signed again after it was completed: the stream showed the first signature and the turn holds the second. |
| Announcements.AnnouncementsAre | agy-bridge-go/internal/protocols/responses.go:262-387 | After every prefix each record was announced by the part that begins it, a message empty, a call under that part's namespace, name and signature and without arguments, the thoughts by an empty reasoning item; and nothing else was announced. |
| StreamOrder.EventsInOrder | agy-bridge-go/internal/protocols/responses.go:209-531 | No event comes out of order, on any stream and for any id: an item is announced once, before everything else; a message opens its part, sends its deltas, ends the text, ends the part and is completed; a call ends its arguments and is completed; a reasoning item sends its deltas and is completed; all at the index that announced it. At the end every record is completed at its place, the reasoning item exactly if it is kept, and nothing else was mentioned. |
| StreamOrder.RunStaged | agy-bridge-go/internal/protocols/responses.go:262-398 | After every prefix of the parts each closed text is completed, at most the last text is open, calls and thoughts are announced, and nothing else was mentioned. |
| Handler.HandlersAgree | agy-bridge-go/internal/protocols/responses.go:91-579 | For every upstream stream, failing ones included, the two handlers end alike: same output, status and usage, or same error. |
| Handler.HandleStreaming | agy-bridge-go/internal/protocols/responses.go:91-532 | The streaming loop over the decoder sends exactly the specified events, and the cache then is what storing the finished turn makes of it, the same turn the batch handler stores; a failed stream stores nothing. |
| Handler.HandleNonStreaming | agy-bridge-go/internal/protocols/responses.go:534-579 | The batch handler returns the specified response or error, and stores the turn of a successful stream in the cache and nothing of a failed one. |
| Handler.ResponsesStream.HandlePart | agy-bridge-go/internal/protocols/responses.go:281-389 | Handling one part is one step of the stream machine, events and counters included. |
| Handler.ResponsesStream.HandleCall | agy-bridge-go/internal/protocols/responses.go:309-340 | A new call is announced once under the next index; a repeated one only merges. |
| Handler.ResponsesStream.FinalizeCalls | agy-bridge-go/internal/protocols/responses.go:417-421 | Each announced call gets one arguments-done and one item-done event with its merged state. |
| Core.WireNameRoundTrip | agy-bridge-go/internal/protocols/responses.go:581-587 | Splitting a tool name for the client and joining it again gives the name back if and only if it does not begin with two underscores. |
| Core.SplitNameIs | agy-bridge-go/internal/protocols/responses.go:581-587 | A tool name is cut at its first two underscores and nowhere else; without them it is all bare. |
| Exchange.ValidateExchange | agy-bridge-go/internal/protocols/translate.go:1291-1420 | The two passes over the items compute the specified verdict, error cases included. |
| ExchangeSpec.ValidatorIsExact | agy-bridge-go/internal/protocols/translate.go:1291-1420 | Without cached records and carriers, exactly the lists are accepted in which every call has an id, no identifier belongs to two calls, every result names an earlier call and no call has two results. |
| ValidationErrors.ErrorsAreTrue | agy-bridge-go/internal/protocols/translate.go:1291-1420 | Without cached records and carriers every validation error names a fault the history has: a call without id, a repeated one or one that claims another's identifier; a result without id, before its call, without one, or the second of its call. |
| ExchangeSpec.WellPairedIsValid | agy-bridge-go/internal/protocols/translate.go:1291-1420 | A well-paired list is valid whatever carriers it contains and whatever the cache knows, as long as no name that the cache gives one call is an identifier of another. |
| ExchangeSpec.RegisterSpec | agy-bridge-go/internal/protocols/translate.go:1298-1351 | Registration succeeds exactly when the calls are properly named, and then knows exactly their identifiers, each under its call. |
| Provenance.ResolveToolSignature | agy-bridge-go/internal/protocols/provenance.go:104-166 | A signature results exactly when the call is answered, not altered or contradictory, not an unknown call of a native turn, and, if the bridge knows the call, some signature is known: the native one for known calls, the replay marker for the others. Otherwise the error says which of these failed, and of which origin the call is. |
| Provenance.PolicyHolds | agy-bridge-go/internal/protocols/provenance.go:48-166 | Altered content or contradictory signatures always reject; the replay marker goes only to calls about which nothing native is known; a cached signature is the one used. |
| Converter.PreScan | agy-bridge-go/internal/protocols/translate.go:531-596 | The three scans over items, carriers and cache fill the specified tables. |
| Converter.MatchOutputs | agy-bridge-go/internal/protocols/translate.go:598-609 | The answered calls are those some result names through the aliases. |
| Converter.GroupLeads | agy-bridge-go/internal/protocols/translate.go:680-754 | Scanning each group of adjacent calls once notes under every index the first signed call of its run. |
| Converter.EmitContents | agy-bridge-go/internal/protocols/translate.go:770-1072 | The emission loop gives the specified contents, or the error of the first rejected call. |
| Converter.ConvertResponses | agy-bridge-go/internal/protocols/translate.go:470-1079 | The contents of an item list: validation, scans, emission and normalisation together compute the specified result, errors included. |
| EmissionLaws.EmittedCallIs | agy-bridge-go/internal/protocols/translate.go:835-949 | A call is sent exactly when it is answered, its two ids name one record, nothing known of it contradicts it, and some signature is known for it or it is unknown and unsuspected; with the cache's signature, else its own, else the carrier's, else its verified lead's, and with the replay marker only if nothing at all is known of it. |
| EmissionLaws.RejectedCallIs | agy-bridge-go/internal/protocols/translate.go:807-949 | Why a call is not sent: conflicting ids, altered or contradictory content, an unknown call in a native group, no result (of which origin), or a known call without any signature, in this order. |
| EmissionLaws.ConflictIs | agy-bridge-go/internal/protocols/translate.go:807-833 | The two ids of a call conflict exactly when both are cached and their records cannot be of one call: other records, or, where an old one is involved, no common name, arguments and signature. |
| EmissionLaws.LeaderIs | agy-bridge-go/internal/protocols/translate.go:611-754 | A call can lead its group exactly when its content is what is known first of it and it is signed: by itself, by a carrier, or in the cache under any of its ids. |
| EmissionLaws.LeadLends | agy-bridge-go/internal/protocols/translate.go:912-933 | A lead lends the signature its carrier shows, or else the cached one. |
| EmissionLaws.LookupsAre | agy-bridge-go/internal/protocols/translate.go:611-679 | Carriers and cache are asked for a call by call id, item id and both joined, in this order; siblings by call id or item id. |
| EmissionLaws.ResponseIs | agy-bridge-go/internal/protocols/translate.go:957-1005 | A response bears the result's text and the first name and upstream id known for its call, the history's before the cache's, each by the call's id before the result's. |
| EmissionLaws.TextSignatureIs | agy-bridge-go/internal/protocols/translate.go:1038-1063 | A text is signed by itself, else by a carrier that holds this very text under its id or item id, else by prefix and text if the cache signed its message. |
| EmissionLaws.UnknownCallIs | agy-bridge-go/internal/protocols/translate.go:902-949 | A call that neither a carrier nor the cache knows keeps the client's own signature and its own id; only without one it goes with the replay marker, or is rejected as a suspect. |
| EmissionLaws.ConversionIs | agy-bridge-go/internal/protocols/translate.go:470-1079 | The whole conversion, exactly: it succeeds if and only if the list is valid, every call can be sent and anything is left; its contents are then, item by item, the calls with ids and signatures, the responses, and the texts in their roles. |
| EmissionLaws.ConversionSays | agy-bridge-go/internal/protocols/translate.go:770-1072 | A converted history says what its items say, in order and nothing else: names and arguments of calls, outputs of results, and all texts but the system's, each in its role. |
| EmissionLaws.UnknownCallsConvert | agy-bridge-go/internal/protocols/translate.go:835-949 | In a converted history every unknown call stands at its place with its own id and the client's own signature, and with the marker only if the client shows none. |
| ColdStart.ColdConversion | agy-bridge-go/internal/protocols/translate.go:470-1079 | Without carriers and with an empty cache a history converts if and only if it is well paired, every call is answered, no unsigned call stands in one run with a signed one unless it is foreign, and anything is left to send; then calls, responses under the names and ids of their calls, and texts go through as they are. |
| ScanLaws.ScanCallsExact | agy-bridge-go/internal/protocols/translate.go:494-529 | In a properly named list the call scan knows exactly the calls' identifiers, each under its call and its name. |
| ScanLaws.ScanPartsKnow | agy-bridge-go/internal/protocols/translate.go:531-570 | After a carrier is scanned every call is known under its own id with its own content and every signed text under its own, and nothing that was known of other calls, texts and names is lost. |
| ScanLaws.ToolsAreVouched | agy-bridge-go/internal/protocols/translate.go:531-570 | Whatever the tables know of a call, the record of some carrier in the history vouches for, under one of its own ids. |
| ScanLaws.TextsAreVouched | agy-bridge-go/internal/protocols/translate.go:531-570 | Whatever the tables know of a text, some carrier holds under that id with that text and signature. |
| Pairing.ConversionIsPaired | agy-bridge-go/internal/protocols/translate.go:470-1079 | Whenever conversion succeeds, for any cache and carriers, contents hold as many function responses as calls, no prefix holds more responses than calls, and every call is signed. |
| Pairing.ValidatorCounts | agy-bridge-go/internal/protocols/translate.go:1370-1420 | The validator maps results injectively to earlier calls. |
| Conversations.ConversationRoundTrip | agy-bridge-go/internal/protocols/translate.go:470-1079 | Take any number of turns with ids of their own, accumulate and render each, let the client drop or stamp the reasoning item, strip the signatures of calls, show any signatures for texts, add a prompt and one result per call, send all of it back, and convert with any cache in which the ids of these turns lead to their own records or to none and that remembers the calls sent without a carrier. Turn by turn the prompt, the texts, the calls in order with their signatures and upstream ids, and the responses under their calls' ids come back if and only if every turn is recoverable (names do not begin with two underscores; every unsigned call is a recorded sibling of the first signed call adjacent to it) and anything is left to send. A turn with a carrier or records that is not recoverable makes the conversion fail. |
| ConversationSessions.StoredConversationRoundTrip | agy-bridge-go/internal/protocols/turn_record.go:450-493 | The same against every reachable cache and in terms of the turns alone: whatever turns of this and other conversations were stored, in any order and any number of times, with evictions and restarts between, each turn sent with its carrier or, while its records are live, without it, comes back if and only if names survive and every unsigned call has a signed lead among its adjacent calls and one of the two is the turn's first call (the lead, unless the turn was stored). |
| ConversationSessions.SiblingsAreExact | agy-bridge-go/internal/upstream/signature_cache.go:350-396 | In every reachable cache exactly the pairs of a stored turn with its first call are verified siblings, restarts included. |
| ConversationSessions.ReturnsIs | agy-bridge-go/internal/protocols/translate.go:902-936 | Which turns a reachable cache brings back depends only on the turn, on whether its carrier is sent and on whether it was stored. |
| ConversationSessions.StoredTurnComesBack | agy-bridge-go/internal/protocols/translate.go:902-936 | A stored turn with live records, replayed with its results and without its reasoning item, converts with the first call's signature on every unsigned call after it. |
| ConversationSessions.RunGuards | agy-bridge-go/internal/upstream/signature_cache.go:170-290 | Through every run that stores nothing foreign under a record's ids, what the cache holds under them is the record's own or nothing. |
| ConversationSessions.TurnIsHarmless | agy-bridge-go/internal/protocols/turn_record.go:450-493 | Storing a turn touches none of the ids of a turn with another turn id and message id, and under its own ids stores only its own records. |
| Conversations.CarrierRoundTrip | agy-bridge-go/internal/protocols/translate.go:531-1063 | One turn, an empty cache: it comes back if and only if no tool name begins with two underscores and every unsigned call follows the signed first call with no text between. A turn with a carrier that does not is rejected. |
| Conversations.CarriesItselfAnywhere | agy-bridge-go/internal/protocols/translate.go:900-936 | A turn that its carrier brings back alone comes back beside every cache. |
| Conversations.OwnTextBack | agy-bridge-go/internal/protocols/translate.go:1038-1063 | A carried text comes back with its own signature exactly when the client shows that one or none. |
| Conversations.RoundScanned | agy-bridge-go/internal/protocols/translate.go:531-596 | After all scans of a conversation the tables know every turn sent with its carrier, its calls by name and content, its texts and its siblings, and of the calls of any other turn only the names; later carriers disturb nothing. |
| Conversations.ConversationPaired | agy-bridge-go/internal/protocols/turn_record.go:348-447 | The items of several replayed turns, with one result per call, are well paired. |
| Joining.EmitAllRight | agy-bridge-go/internal/protocols/translate.go:680-1072 | Where a message separates two item lists they convert one after the other, each as it does alone: groups never reach across. |
| Joining.WellPairedConcat | agy-bridge-go/internal/protocols/translate.go:1291-1420 | Well-paired lists without a common identifier join into a well-paired list. |
| RoundTripLaws.HistoryPaired | agy-bridge-go/internal/protocols/turn_record.go:348-447 | The replayed item list of any built turn, with one result per call, is well paired. |
| RoundTripLaws.SiblingsAre | agy-bridge-go/internal/protocols/turn_record.go:319-321 | The siblings on record for a replayed call are, with a carrier, the calls after the first, led by the first, and in any case what the cache adds. |
| RoundTripLaws.CallComesBack | agy-bridge-go/internal/protocols/translate.go:835-949 | A call that its carrier or the cache knows is emitted exactly when its name survived and a signature is its own or lent by its verified lead, with that signature, its arguments and its upstream id. |
| RoundTripLaws.LeadIs | agy-bridge-go/internal/protocols/translate.go:680-754 | The lead of a replayed call is the first signed one among the calls adjacent to it in the turn. |
| RoundTripLaws.LentIs | agy-bridge-go/internal/protocols/translate.go:912-936 | What the group lends to an unsigned call: its lead's signature exactly when it is a recorded sibling of the lead, else nothing. |
| Normalize.NormalizeAlternatingContents | agy-bridge-go/internal/protocols/translate.go:1085-1126 | The two loops compute the specified normal form. |
| Normalize.NormalizedKeeps | agy-bridge-go/internal/protocols/translate.go:1085-1126 | Adjacent roles differ, no content or part is empty, and the flattened parts are the input's with only empty parts removed. |
| Normalize.NormalFormIsUnique | agy-bridge-go/internal/protocols/translate.go:1085-1126 | Two alternating conversations with the same flattened parts are equal. |
| Normalize.NormalizingTwice | agy-bridge-go/internal/protocols/translate.go:1085-1126 | Normalizing twice equals normalizing once. |
| Chats.ValidateChatExchange | agy-bridge-go/internal/protocols/translate.go:1422-1497 | The validator's loops over messages and calls compute the specified verdict. |
| Chats.LearnTables | agy-bridge-go/internal/protocols/translate.go:139-170 | The converter's own first pass fills the specified alias, name and answered tables. |
| Chats.FindSiblingLead | agy-bridge-go/internal/protocols/translate.go:269-300 | The scan of the other calls of a message finds whether one is signed and the first verified sibling lead. |
| Chats.ConvertChatMessages | agy-bridge-go/internal/protocols/translate.go:139-370 | The contents of a message list: validation, the first pass, emission and normalisation together compute the specified result, errors included. |
| ChatLaws.CallOwnsItself | agy-bridge-go/internal/protocols/translate.go:1427-1460 | In an accepted chat no later upstream alias takes over a call's own id. |
| ChatLaws.AnsweredAreResults | agy-bridge-go/internal/protocols/translate.go:158-170 | If every result belongs to a call that is sent, the converter marks no sent call as answered but those the validator saw answered, though the two alias maps are built differently. |
| ChatLaws.ChatConversionIsExact | agy-bridge-go/internal/protocols/translate.go:139-370 | A successful chat conversion sends exactly the named calls of assistant messages, in order, with names and arguments and each signed, and exactly one response with the text of each tool message; so calls and responses are as many if and only if the messages hold as many of both, and no prefix holds more responses than calls if and only if no prefix of the messages does. |
| ChatLaws.ChatConversionIsPaired | agy-bridge-go/internal/protocols/translate.go:139-370 | If every call that a result belongs to has a name and stands in an assistant message, a successful chat conversion holds as many responses as calls, and no prefix holds more responses than calls. |
| ChatEmission.EmittedChatCallIs | agy-bridge-go/internal/protocols/translate.go:225-311 | A chat call is sent exactly when it is answered, nothing known of it contradicts it, and some signature is known for it or it is unknown and unsuspected; with the first known signature, or the replay marker if nothing is known. |
| ChatEmission.UnknownChatCallIs | agy-bridge-go/internal/protocols/translate.go:225-311 | A call the cache does not know keeps the signature the client claims and its own id; only without one it goes with the replay marker or is rejected. |
| ChatEmission.SiblingScanIs | agy-bridge-go/internal/protocols/translate.go:269-300 | The first other signed call of the message that is a verified sibling lends its cached signature, or else its own. |
| ChatEmission.DetailsSignatureIs | agy-bridge-go/internal/protocols/translate.go:1259-1277 | Reasoning details sign with what the first of them offers that offers anything: the signature cached under its id, its data, or its signature. |
| ChatEmission.TextSignatureIs | agy-bridge-go/internal/protocols/translate.go:194-211 | An assistant text is signed by its message, else by the message's details, else under its message id, else by prefix and text. |
| ChatEmission.ToolResponseIs | agy-bridge-go/internal/protocols/translate.go:318-352 | A response is named by the client, else by the cache, else by its call in the history; its id is the cached upstream id, else its own. |
| ChatEmission.ChatConversionIs | agy-bridge-go/internal/protocols/translate.go:139-370 | The chat conversion, exactly: it succeeds if and only if the chat is valid, every named call can be sent and anything is left; its contents are then the texts, the named calls and the responses, message by message. |
| ChatEmission.ChatConversionSays | agy-bridge-go/internal/protocols/translate.go:172-352 | A converted chat says what its messages say, in order, in the right roles and nothing else. |
| ColdChat.ColdValidatorIsExact | agy-bridge-go/internal/protocols/translate.go:1422-1497 | Without cached records a chat is valid exactly when every call id is new and every result is the first of an earlier call; otherwise exactly the first fault is reported. |
| ColdChat.ColdChatConversion | agy-bridge-go/internal/protocols/translate.go:139-370 | With an empty cache a chat converts if and only if it is paired, every named call is answered, no unsigned one stands beside a signed one unless it is foreign, and anything is left; then texts, calls and results go through as they are, calls with the signature they claim or the replay marker. |
| ChatSessions.NamelessCallOrphansItsResult | agy-bridge-go/internal/protocols/translate.go:213-214 | An answered call without a name passes validation and is dropped while its result stays: why pairing needs the condition. |
| ChatSessions.CachedChatCallComesBack | agy-bridge-go/internal/protocols/translate.go:225-311 | A signed call known to the cache is emitted exactly when it is answered and its name, arguments and claimed signature agree, with its own signature and upstream id. |
| ChatSessions.RecalledChatExchange | agy-bridge-go/internal/protocols/translate.go:213-352 | An unaltered call that the cache remembers converts with its result, whether that names it by call id, upstream id or cached item id: exactly the message's text, the call with its own signature and the response, both under the upstream id. |
| ChatSessions.ChatSessionsDoNotInterfere | agy-bridge-go/internal/protocols/translate.go:213-352 | After any run that stores nothing else under a signed call's ids, and while its record is live, a chat replay of it keeps its signature and upstream id or fails; it fails when altered, and the unaltered call with its result converts to exactly these. |
| ChatSessions.ChatResultComesBack | agy-bridge-go/internal/protocols/translate.go:318-352 | The result of a recalled call goes upstream under the call's upstream id, and under its recorded name unless the client names it. |
| ChatSiblings.StoredChatCallComesBack | agy-bridge-go/internal/protocols/translate.go:269-311 | A call of a stored turn replayed in a chat beside other calls of the turn, against every reachable cache that holds it, is sent exactly when it is answered and signed, or a signed other one can lend to it, the turn's first call to any and any to the first; with that signature and its own upstream id. |
| CacheStore.SignatureCache.constructor | agy-bridge-go/internal/upstream/signature_cache.go:93-111 | A new cache is empty; a size that is not positive becomes 2000. |
| CacheStore.SignatureCache.PutToolRecord | agy-bridge-go/internal/upstream/signature_cache.go:170-256 | Refuses or stores a record, evicts the oldest with its aliases, and binds aliases, as specified; nothing else changes. |
| CacheStore.SignatureCache.EvictOldestTool | agy-bridge-go/internal/upstream/signature_cache.go:218-232 | Removing aliases in any order of visits leaves exactly those of other records. |
| CacheStore.SignatureCache.GetToolRecord | agy-bridge-go/internal/upstream/signature_cache.go:259-290 | Finds a record by its own id first, else through an unambiguous alias. |
| CacheStore.SignatureCache.PutMessageSignature | agy-bridge-go/internal/upstream/signature_cache.go:139-156 | Bounded first-in first-out put. |
| CacheStore.SignatureCache.PutTextSignature | agy-bridge-go/internal/upstream/signature_cache.go:400-418 | Bounded put under the trimmed text. |
| CacheStore.SignatureCache.PutContextSignature | agy-bridge-go/internal/upstream/signature_cache.go:434-471 | A second, different signature makes the key ambiguous for good. |
| CacheStore.SignatureCache.RecordTurnSiblings | agy-bridge-go/internal/upstream/signature_cache.go:350-372 | Adds the canonical ids of the siblings, the lead excepted. |
| CacheStore.SignatureCache.SaveToSnapshot | agy-bridge-go/internal/upstream/signature_cache.go:509-563 | The snapshot holds records, aliases, signatures, ambiguous keys and siblings. |
| CacheStore.SignatureCache.LoadFromSnapshot | agy-bridge-go/internal/upstream/signature_cache.go:566-689 | Loading, in whatever order the maps are visited, gives the specified cache for that order. |
| CacheLaws.RunKeeps | agy-bridge-go/internal/upstream/signature_cache.go:170-256 | Over every run of operations, restarts included: the tool order lists the records without repetition within the capacity, every alias names a live record, every record is its own alias, no record holds the migration marker, and the bounded tables match their orders. |
| CacheLaws.SignedWhileLive | agy-bridge-go/internal/upstream/signature_cache.go:196-216 | A signed record never becomes unsigned while it lives, over every run. |
| CacheLaws.NoSilentRebinding | agy-bridge-go/internal/upstream/signature_cache.go:182-290 | Once an identifier resolved to a record, as long as that record lives it resolves to it, to nothing, or to a record whose own id it is. |
| CacheLaws.AmbiguousForever | agy-bridge-go/internal/upstream/signature_cache.go:234-290 | An ambiguous identifier never again resolves through an alias, and an ambiguous context key gives no signature, over every run. |
| CacheLaws.UnboundForever | agy-bridge-go/internal/upstream/signature_cache.go:234-256 | Once two records claimed an alias, it stands for itself through every run: it is bound to no record again, also where siblings are recorded. |
| CacheLaws.ContextLookupIsSound | agy-bridge-go/internal/upstream/signature_cache.go:434-489 | A non-empty context lookup equals every signature put under its key since the key last entered the table, across eviction and restarts. |
| CacheLaws.RestartIsTransparent | agy-bridge-go/internal/upstream/signature_cache.go:509-689 | For every reachable cache and any order of visits, saving and loading into a fresh cache preserves every message, text, context and sibling lookup, and every tool record up to empty arguments. |
| CacheLaws.EmptyArgumentsAreForgotten | agy-bridge-go/internal/upstream/signature_cache.go:17-27 | An empty argument object comes back from a snapshot as no arguments: the reachable cache on which records differ. |
| CacheLaws.LoadNeverAdmitsMarker | agy-bridge-go/internal/upstream/signature_cache.go:585-648 | Loading any snapshot, current or legacy, never admits a record with the migration marker. |
| CacheLookups.TrimmingIsExact | agy-bridge-go/internal/upstream/signature_cache.go:400-432 | Trimming removes the white space around a text, all of it and nothing else. |
| CacheLookups.KeyStays | agy-bridge-go/internal/upstream/signature_cache.go:139-156 | A key of a bounded table keeps the last signature put under it until as many new keys came as the table has room behind it; the next new one removes it. |
| CacheLookups.MessageIsFound | agy-bridge-go/internal/upstream/signature_cache.go:139-167 | A message signature is found, as last put, while fewer than maxSize other messages arrive, whatever else the run does without a restart. |
| CacheLookups.TextIsFound | agy-bridge-go/internal/upstream/signature_cache.go:400-432 | The same for a text, whatever white space surrounds it when it is put and when it is looked up. |
| CacheLookups.ContextIsFound | agy-bridge-go/internal/upstream/signature_cache.go:434-489 | A context signature is found while fewer than maxSize other contexts arrive, unless its key became ambiguous. |
| CacheLookups.StoredRecordLives | agy-bridge-go/internal/upstream/signature_cache.go:218-232 | A record stored under a new id lives through maxSize - 1 newer ones, and the next new one evicts it. |
| CacheLookups.ContentIsFixed | agy-bridge-go/internal/upstream/signature_cache.go:182-216 | While a record lives no update that says its whole content changes its name or arguments, restarts included. |
| CacheLookups.LegacyLoadIs | agy-bridge-go/internal/upstream/signature_cache.go:605-648 | An older file loads as exactly its unmarked ids, each a legacy record with the signature, name and arguments its three tables give, standing for itself; saved siblings stay, the marked ids excepted. |
| CacheLookups.CurrentLoadIs | agy-bridge-go/internal/upstream/signature_cache.go:585-604 | A current file loads as exactly its unmarked records as saved and, where aliases are direct, all aliases and siblings but those of marked records. |
| Sessions.PopulateCache | agy-bridge-go/internal/protocols/turn_record.go:450-493 | Registering a turn performs exactly its puts in record order, then its sibling sets in any order. |
| StoredTexts.TurnPuts | agy-bridge-go/internal/protocols/turn_record.go:450-493 | Beside its records storing a turn puts exactly the signatures of its signed records, under item ids and call ids, and those of its signed texts under prefix and text. |
| SessionLaws.TurnStoresOnce | agy-bridge-go/internal/protocols/turn_record.go:450-493 | Each call of a turn is stored by exactly one operation, and no other operation of the turn touches its ids. |
| SessionLaws.OtherTurnAvoids | agy-bridge-go/internal/protocols/turn_record.go:200-222 | Turns with another turn id never touch the ids of this one, even with equal upstream ids. |
| SessionLaws.StillRemembered | agy-bridge-go/internal/upstream/signature_cache.go:170-256 | If a call's record is live at the end of any run that stores it once, it still has its own name, signature and upstream id, and its item id resolves to it or to nothing. |
| SessionLaws.CachedCallComesBack | agy-bridge-go/internal/protocols/translate.go:807-949 | A signed call known to the cache, beside any carriers, is emitted exactly when it is answered, unaltered, and no carrier contradicts the cache; always with its own signature. |
| SessionLaws.RecalledExchange | agy-bridge-go/internal/protocols/translate.go:807-1005 | The call with its result, after any reasoning items that name no other upstream id for it, converts exactly when it is unaltered and no carrier contradicts the cache; and then to exactly the call and its response. |
| ResultNames.ResultByAnyName | agy-bridge-go/internal/protocols/translate.go:531-609 | A remembered call and a result that names it by call id, item id, upstream id or a cached alias: validation accepts all of them, and the exchange converts, to the call and its response, exactly when the converter can follow the name too; otherwise the call is rejected as unanswered. |
| ResultNames.CarriedResultByUpstreamId | agy-bridge-go/internal/protocols/translate.go:1356-1369 | With its carrier a signed call and a result that names it by the upstream id pass validation and convert, also where the cache knows nothing of them. |
| ResultNames.CallUnderUpstreamId | agy-bridge-go/internal/protocols/translate.go:531-570 | Beside its carrier a call that comes back under its upstream id converts exactly when its content is the record's and it is signed, by the client or in the record. |
| SessionLaws.SessionsDoNotInterfere | agy-bridge-go/internal/protocols/translate.go:807-1005 | A turn is populated; before and after, any run that stores nothing else under a signed call's ids. While the record is live, a replay among any items and with any carriers converts with the call's own signature or fails, and under its own upstream id unless a carrier vouches for its ids under another; altered name, arguments or signature are rejected; the unaltered call with its result, with or without the turn's own reasoning item, converts to exactly that call and its response. |
| SessionLaws.CachedTextIsSound | agy-bridge-go/internal/protocols/translate.go:1038-1063 | A replayed text without a signature takes one from a carrier that holds this very text under its id, or the only one put for this text after this prefix since the entry exists, or none: for any carriers and over every run. |
| StoredTexts.StoredTextComesBack | agy-bridge-go/internal/protocols/translate.go:1038-1063 | A signed text of a stored turn, replayed after the same prefix without its reasoning item, finds its signature while no more entries arrived than fit, unless the same text after this prefix was also signed differently. |
| Schemas.SanitizeToolSchema | agy-bridge-go/internal/protocols/schema.go:53-68 | The walk computes the specified schema for every order in which the maps are visited; no schema stays no schema. |
| Schemas.SanitizeNode | agy-bridge-go/internal/protocols/schema.go:79-120 | One node: depth cut, reference expansion, cycle cut, own keywords over the target's, and the bare fallback. |
| Schemas.SanitizeSiblings | agy-bridge-go/internal/protocols/schema.go:123-214 | The keywords of a node, in any order. |
| Schemas.SanitizeKeyword | agy-bridge-go/internal/protocols/schema.go:126-211 | One keyword, by its kind. |
| Schemas.SanitizeList | agy-bridge-go/internal/protocols/schema.go:216-226 | The object members of a list, each compiled one level down. |
| Schemas.MergeSchemaInto | agy-bridge-go/internal/protocols/schema.go:231-271 | Merging key by key in any order gives the one specified merge. |
| Schemas.CollectDefinitions | agy-bridge-go/internal/protocols/schema.go:57-66 | Definitions are collected from both tables in any order, the first table winning. |
| SchemaLaws.SanitizedIsClean | agy-bridge-go/internal/protocols/schema.go:53-214 | Every result, for every order of visits, has only Gemini keywords and no reference at any schema position, and at most 65 levels below the root. |
| SchemaLaws.NodeIsClean | agy-bridge-go/internal/protocols/schema.go:79-120 | The same at every place of the walk, with as many levels as the depth leaves. |
| SchemaLaws.SanitizingTwice | agy-bridge-go/internal/protocols/schema.go:53-68 | Sanitizing a sanitized schema gives an equal schema, whatever the orders of the two passes. |
| SchemaMeaning.SanitizingWeakens | agy-bridge-go/internal/protocols/schema.go:53-290 | Every instance accepted by a supported client schema is accepted by the compiled one, for every order of visits and every meaning of the keywords that hold no schemas. |
| SchemaMeaning.NodeWeakens | agy-bridge-go/internal/protocols/schema.go:79-214 | The same at every place of the walk. |
| SchemaMeaning.NodeShows | agy-bridge-go/internal/protocols/schema.go:123-271 | A supported node that shows compiles, for every order of visits, to something that a merge as an allOf member cannot lose. |
| SchemaMeaning.NoFallback | agy-bridge-go/internal/protocols/schema.go:95-119 | A supported node is never replaced by the bare object. |
| SchemaMeaning.MergedMeets | agy-bridge-go/internal/protocols/schema.go:231-271 | What both schemas accept, their merge accepts. |
| SchemaMeaning.MergedHas | agy-bridge-go/internal/protocols/schema.go:231-271 | A merge has every property of both sides, the first side's schema winning, exactly the required names of both, the first side's first and no new one twice, and of any other keyword the first side's value. |
| SchemaMeaning.AllOfCollects | agy-bridge-go/internal/protocols/schema.go:144-158 | Whatever its number of members, an allOf compiles to a node with the properties of every one of them and no others. |
| SchemaMeaning.FuelIsEnough | agy-bridge-go/internal/protocols/schema.go:36-38 | Acceptance by a supported schema, and by any compiled one, does not depend on how deep schemas are followed. |
| SchemaMeaning.ReferencesAgree | agy-bridge-go/internal/protocols/schema.go:276-291 | A meaningful local reference resolves to what it means if and only if no other definition of that name shadows it in the first table. |
| SchemaExact.SanitizingPreserves | agy-bridge-go/internal/protocols/schema.go:49-68 | Where nothing is lost (bare references, any number of allOf members whose keywords do not clash, keywords with a Gemini form), the compiled schema accepts exactly the instances of the client schema: inlining, const as enum and merging keep the meaning. |
| SchemaExact.NodeExact | agy-bridge-go/internal/protocols/schema.go:79-214 | At every place of the walk, what the compiled node accepts the node accepts. |
| SchemaExact.AllOfExact | agy-bridge-go/internal/protocols/schema.go:231-271 | Every member of such an allOf accepts what the merge of all accepts. |
| SchemaExact.EveryKeyLands | agy-bridge-go/internal/protocols/schema.go:123-214 | In every node without allOf each keyword ends, converted, in its own place or is dropped, and nothing else is there, for every order of visits. |
| SchemaOrder.NodeHolds | agy-bridge-go/internal/protocols/schema.go:79-120 | A node without allOf and without two keywords of one Gemini form compiles, for every order of visits, to its own keywords, each in its place, over those of its reference's target, and to the bare object only if there is neither. |
| SchemaOrder.CutNodeIs | agy-bridge-go/internal/protocols/schema.go:70-106 | A node cut for depth or as a cycle is an object with its own description and nothing else. |
| SchemaOrder.SanitizingIsDeterministic | agy-bridge-go/internal/protocols/schema.go:53-226 | Where the walk meets no allOf and no two keywords of one Gemini form on a node, every order of visits gives the same schema. |
| SchemaOrder.OrderMatters | agy-bridge-go/internal/protocols/schema.go:123-158 | An allOf beside properties: visited after them its properties are added, visited before them they are replaced. |
| SchemaLimits.EmptySchemaIsNarrowed | agy-bridge-go/internal/protocols/schema.go:116-118 | The empty schema is narrowed to objects. |
| SchemaLimits.BooleanBranchIsNarrowed | agy-bridge-go/internal/protocols/schema.go:216-226 | A boolean branch of anyOf is dropped, which narrows the schema. |
| SchemaLimits.RecursionIsNarrowed | agy-bridge-go/internal/protocols/schema.go:101-106 | A recursive schema is cut to objects, which narrows it. |
| SchemaLimits.LostMemberIsNarrowed | agy-bridge-go/internal/protocols/schema.go:231-271 | An allOf whose only member is an empty required list is lost in the merge, which narrows the schema to objects. |
| SchemaLimits.EmptyRequiredIsSupported | agy-bridge-go/internal/protocols/schema.go:231-271 | Empty required lists are supported wherever they stay, and not where the merge loses them. |

## Left out

- SchemaMeaning.SanitizingWeakens: gives sufficient conditions, not necessary ones; whether a schema outside them is narrowed depends on what its dropped keywords mean, which the model leaves arbitrary. Keywords are conjuncts of their own, so `additionalProperties` and `prefixItems`, whose meaning depends on neighbours, are excluded.
- ChatLaws.ChatConversionIsPaired: a sufficient condition on ids; the exact condition, on counts, is `ChatLaws.ChatConversionIsExact`.
- SessionLaws.SessionsDoNotInterfere: the replay uses the call's own call id; a signature equal to the migration marker is never stored and is excluded.
- Conversations.ConversationRoundTrip: a turn without its carrier is covered while the cache remembers its calls, and beside carriers only if the upstream's ids are names; the results of a turn follow its items in the order of its calls; for every other arrangement `Pairing.ConversionIsPaired` and `SessionLaws.SessionsDoNotInterfere` say what a successful conversion holds.
- CacheLookups.CurrentLoadIs: where a saved alias names an alias of another id, which the cache never writes, what is dropped depends on the order of visits.
- ConversationSessions.StoredConversationRoundTrip: the upstream's call ids are not ids that the bridge mints; a minted id under which another call is cached makes validation fail.
- SchemaOrder.SanitizingIsDeterministic: a sufficient condition; an allOf whose keywords nothing else on the node sets, or two keywords of one Gemini form with equal values, would not depend on the order either.
- Converter.ConvertResponses: the contents of item lists only; system instructions, tool declarations and a plain string as input are not part of this model.
- Chats.ConvertChatMessages: the contents only; system instructions and tool declarations are not part of this model.
- HTTP, server-sent event bytes, flushing, request contexts and logging: events are an abstract sequence, and the sequence number of an event is its position.
- JSON, base64 and SHA-256: values are decoded values, a carrier that does not decode is no carrier, and context hashes are any function of the preceding items.
- Random draws that collide: drawn ids are distinct by construction.
- Aliasing: the accumulator overwrites the id inside the upstream part it is given, and the merged call it returns is a pointer into its own list; the model returns values.
- `mergeSchemaInto` and the converter's local maps are updated in place in the source; the model's loops reassign local map values, which nothing else can see.
- `lastSig` and the debounced, atomic save to disk: written for other features; save and load are snapshots of the whole cache. Mutexes: each locked method is one step.
- Eviction order after a load: it comes from map iteration and is any order.
- A missing cache (`nil`): behaves like an empty one in every read.
- Request fields other than messages and items: model choice, effort, tool declarations around the compiled schemas.
- How an item or message is recognised as foreign: provider and model names are not parsed; it is a flag.
- `IsCurrentTurn`: computed from the last user message and only logged.
- `AuthoritativeTurnFromOutputItems`, the chat streaming and batch handlers, and `TurnAccumulator`'s derived fields: not part of this model.
- Non-hashable elements of `required`: the source panics on them when merging; the model compares them as values.
- JSON pointer escapes in `$ref`: names are taken literally, as the code does, also in their meaning.
- Freshness of the compiled schema: values share nothing by nature, so deep copies are identities.
