# Verified model of the PostgreSQL plugin

A Dafny model of the plugin's transaction protocol and of the parsers, printers and caches beside it, with proofs.
Check it with `dafny verify dfyconfig.toml`.

## What is modelled

* `Keywords`, `Gaps`, `Comments`, `Commands`: the two SQL scanners that classify a statement, each as a loop proved
  against a definition of what it means, the laws between them, and what PostgreSQL's transaction commands, settings
  and row-returning statements are classified as, in whatever spelling.
* `Server`, `Batch`: one connection's server state, the statement runner over it, the batch loop, the one-shot
  transaction and the single-statement path. Every request's outcome is a free choice of the server (`Fate`), and
  every claim holds for all choices.
* `Session`, `Cancel`: the session map with its slots, and the cancel registry, as mutable objects.
* `Protocol`, `Invariant`, `Preservation`, `Safety`, `Leaks`, `Conservation`: the same run, single-statement, release,
  sweep, shutdown and cancel code as a transition system in which any number of tasks take atomic steps in any order;
  its invariant, what the invariant gives for every reachable state and every run, that the steps are those of the
  imperative code, which statements leak an open transaction, and that no client is lost.
* `Frames`, `Releases`, `Interleaving`: what a step of one task leaves alone, that a release hands the session's
  client to the pool rolled back, and that a run among any others does what the batch code does on its own.
* `Routing`: a batch that sends some statements to one-shot connections against the machine that runs all of them on
  one.
* `Bytes`, `Json`, `Wire`, `Decoder`, `RoundTrip`, `Cuts`: the recursive binary decoder, the encoding it inverts, and
  what it makes of truncated bytes. `TsQuery`, `TsParse`, `TsText`: the TSQUERY decoder and printer, and a reader of
  its text.
* `Pagination`, `Pages`, `Written`: the LIMIT/OFFSET rewriting as text, what the pages add up to, and the clauses as
  users write them.
* `ArrayLiteral`, `Binding`, `Crud`, `Denotation`, `Statements`: binding JSON values, key predicates, placeholder
  numbering; a reader from bound parameters back to the values they stand for, and a reader of the statements' text.
* `PoolKey`, `PoolCache`: the pool key, and the cache under every interleaving.

## Assumptions

* A failed statement that ends a transaction (COMMIT, ROLLBACK, AND CHAIN) has ended it, and `ROLLBACK` fails only on
  a dead connection. `AND CHAIN` outside a transaction is refused. Statements are single and grammatical.
* Tasks are not aborted in the middle of a run. The number of tasks, sessions and connections is not bounded.
* A statement that returns no rows cannot fail on the client side alone: no timeout and no decoding stands between the
  server's answer and the plugin (`execute_typed` at src/handlers/query.rs:1047).
* The claims about a batch's flag and about the pool are for batches whose statements are `Trackable`: a row-returning
  one does not leave a transaction open. Every statement whose leading block comments are plain is
  (`Server.PlainIsSeparated`), and the condition is exact (`Batch.TracksExactly`, `Leaks.BatchDirtiesExactly`).
* That a row-returning `COMMIT AND CHAIN` is excluded on a direct connection too, and leaks in
  `Leaks.BatchDirtiesExactly` on any, rests on one more free choice: the client alone may fail after a working
  `prepare`. If it fails only by the timeout of src/handlers/query.rs:1296-1345, a chain on a direct connection is
  right (second half of `Batch.TracksExactly`).
* The claims about `Routing` are for statements that are `Routable`: a row-returning one ends a transaction, or is no
  transaction control and sets no session state, which is exact (`Routing.RoutableExactly`).
* The claims about the pool are for single statements without a session that do not open a transaction on a pooled
  client, which is exact (`Leaks.SingleDirtiesExactly`).
* No two requests in flight carry the same id (cancel registry).
* Library functions are parameters: leaf decoders, UUID, decimal, float, base64 and JSON parsers, SHA-256 (injective,
  in hexadecimal) and the connection string parser. No text shorter than 32 characters is a UUID. No connection string
  names its own SHA-256 as host or port (`PoolKey.Acyclic`, used where parameters with and without one are compared).

## What the proofs found

* Behind a leading comment such as `/* /* */CALL*/`, any statement whatever passes for row-returning while still being
  transaction control (`Comments.NestedCommentMisleads`). A `BEGIN` there runs on another connection and flips the
  batch's flag while the shared connection is idle (`Batch.NestedBeginMisleads`).
* A single `BEGIN` sent without a session id goes back to the pool with its transaction open
  (`Batch.SingleStatementClean`, and over whole runs `Leaks.SingleDirtiesExactly`: exactly the statements that open a
  transaction on a pooled client do); the comment at src/handlers/query.rs:502 says that this path never has an open
  transaction.
* A `SET` made inside a transaction that a later run of the same session commits is not seen by that run's
  row-returning statements on a transaction pooler (`Routing.RoutingExact`: pristine connections are exactly those
  without the effect).
* `CREATE TEMP VIEW` and other temporary objects than tables do not count as session state
  (`Commands.SettingExactly`), so on a transaction pooler a `SELECT` after one goes to a connection that does not have
  it.
* `OFFSET` values above 32 bits are stripped but counted as 0 (`Pages.PagesOfQuery`).
* A query with a phrase as the right operand of a phrase prints as text that denotes another query
  (`TsParse.RegroupedExactly`); one with a quote or a backslash in a lexeme prints as text that does not read back as
  it (`TsText.ReadsBackExactly`).
* The string `{}` inside an array literal prints as an empty array (`ArrayLiteral.LiteralRoundTrip`).
* Different parameters share a pool key exactly when their fields have the same pieces between colons but do not hold
  equally many colons one by one (`PoolKey.IdentityExactly`); any colon in a database or user name can be moved so
  (`PoolKey.ColonsCollide`). Colons alone do no harm: an IPv6 host or a startup script with `::` collides with nothing
  that has as many colons in each field.
* Absent and empty fields share a key too. It matters exactly for the host, database, username and password when there
  is no connection string (`PoolKey.ConfigExactly`, `PoolKey.EmptyCollides`): those go into deadpool's `cfg` as they
  are given (src/client.rs:662-668), and the second of two such requests is served from the first one's pool
  (`PoolCache.HitsExactly`). Whether deadpool then treats an absent and an empty field alike is its own affair and not
  modelled. Blank certificate paths count as absent, so for those it does not matter.
* The smallest 64-bit integer is sent as a JSON number (`Json.StringOutsideSafeRange`), with overflow checks off.

## Model

| member | source | states |
|---|---|---|
| Keywords.ScanLeadingKeywords | src/handlers/query.rs:1588-1634 | the one-pass scanner with its word buffer and comment depth returns the first n uppercased words of the text with comments blanked, up to the first quote, dollar sign or semicolon |
| Keywords.ControlNeedsVerb | src/handlers/query.rs:1550-1583 | a statement that affects the transaction starts with a transaction verb and sets no session state |
| Gaps.CommentForGap | src/handlers/query.rs:1588-1634 | replacing a whitespace gap by a well-nested block comment or a line comment changes neither the keywords nor either classifier |
| Comments.StripLeadingSqlComments | src/handlers/query.rs:1641-1660 | the loop drops exactly the leading line comments and block comments that end at the first close |
| Comments.ScannersAgree | src/handlers/query.rs:1588-1660 | when leading block comments are plain and the stripped text starts with a word character, its first word uppercased is the first leading keyword |
| Comments.RowsAreNotControl | src/handlers/query.rs:1550-1583 | no such statement both returns rows and is transaction control or sets session state |
| Comments.NestedCommentMisleads | src/handlers/query.rs:1641-1674 | without plain comments it fails: behind one nested comment every statement passes for row-returning |
| Commands.EffectIsMeaning | src/handlers/query.rs:1550-1583 | for each of PostgreSQL's transaction commands, in any letter case and with any whitespace, noise words, chaining and what else may follow it, the effect is what the command does to the open transaction; `ROLLBACK TO` and the PREPARED forms leave it alone |
| Commands.SettingExactly | src/handlers/query.rs:1724-1758 | of `SET` and `CREATE` in any spelling exactly a `SET` that outlives the transaction and a temporary table are recognised as session state |
| Commands.DataIsNotRead | src/handlers/query.rs:1588-1634 | nothing from the first quote, dollar sign or semicolon on reaches the classifiers, whatever it says |
| Commands.RowsExactly | src/handlers/query.rs:1663-1674 | a statement returns rows if and only if, its leading comments dropped, it starts with one of nine words in any case |
| Commands.RowsBehindComments | src/handlers/query.rs:1641-1674 | each of those words is recognised behind any sequence of whitespace, line comments and plain block comments |
| Server.PlainIsSeparated | src/handlers/query.rs:1663-1674 | a row-returning statement with plain leading comments is not transaction control and sets no session state, so it is fit for what is claimed of batches |
| Server.ExecQueryOnClient | src/handlers/query.rs:1033-1385 | the requests sent for one statement, in order, give the outcome and leave the server state of the specification |
| Server.StatementKeepsTracking | src/handlers/query.rs:665-675 | success, prepare failure, runtime failure or failed COMMIT: the flag computed after one statement is the server's transaction state, and no transaction is left aborted, unless the statement both returns rows and leaves a transaction open |
| Server.PinPooledTxn | src/handlers/query.rs:764-792 | the one-shot transaction sends BEGIN, the body, and COMMIT or ROLLBACK, with the specified result and state |
| Server.RunPinnedBody | src/handlers/query.rs:798-884 | the body stops at its first failure and clears statements again after the fetch |
| Server.OneShotEnds | src/handlers/query.rs:711-792 | a one-shot transaction never stays open, and success means that its statement ran |
| Server.OneShotExactly | src/handlers/query.rs:711-884 | an ordinary row-returning statement succeeds on its one-shot connection if and only if BEGIN, the clearing, the search path where one is due, the `prepare`, the fetch and the COMMIT all do |
| Server.PrepareGates | src/handlers/query.rs:1215-1285 | a failed `prepare` ends the statement before it runs inside a transaction, which it rolls back, and outside one is ignored |
| Batch.BatchTracks | src/handlers/query.rs:223-324 | after every statement of every batch of trackable statements the flag is the shared connection's transaction state, and there is one result per statement |
| Batch.StateSetExactly | src/handlers/query.rs:312-324 | after a batch session state counts as set if and only if it did before or a statement that sets it succeeded, inside a transaction or outside, on whichever connection |
| Batch.TracksExactly | src/handlers/query.rs:223-324 | on every connection, from every state of the loop and under every outcome a statement keeps the flag right, if and only if it does not both return rows and leave a transaction open; if the client alone fails only by the timeout, also if it chains on a direct connection |
| Batch.NestedBeginMisleads | src/handlers/query.rs:230-311 | a `BEGIN` behind a nested comment, run through the loop on a transaction pooler, leaves the flag true and the shared connection idle |
| Batch.RunEndsClean | src/handlers/query.rs:346-355 | only a run that pins its client leaves a transaction open, and none leaves an aborted one |
| Batch.ExecQueryPooledTxn | src/handlers/query.rs:711-751 | the one-shot guard takes over the request's registry entry and then removes it |
| Batch.RunStatement | src/handlers/query.rs:230-300 | whichever connection a statement runs on, the request's cancel entry is the shared client's again after it |
| Batch.RunLoop | src/handlers/query.rs:173-338 | the loop computes the results, flag and server state of the specification |
| Batch.RunOn | src/handlers/query.rs:160-344 | the guard is gone on every way out and no other request's entry changed |
| Batch.RunBatch | src/handlers/query.rs:118-356 | a run uses the pinned client if there is one, and leaves the slot holding it exactly when its transaction is still open |
| Batch.Dispose | src/handlers/query.rs:346-353 | pin, roll back and release, or release |
| Batch.ExecQuery | src/handlers/query.rs:440-512 | the single-statement path returns its client as the statement leaves it |
| Batch.SingleStatementClean | src/handlers/query.rs:487-512 | that path keeps the pool clean under every outcome if and only if the statement does not open a transaction |
| Routing.RoutingRefines | src/handlers/query.rs:223-324 | from a pristine connection, routed batches give the results, data and session of running every statement on one connection |
| Routing.RoutedIsRunAll | src/handlers/query.rs:223-324 | the routing decisions, results and flags of that refinement are those of the batch loop |
| Routing.RoutingExact | src/handlers/query.rs:141-150 | that holds on every server and batch if and only if the connection is pristine, inside and outside its open transaction |
| Routing.RoutableExactly | src/handlers/query.rs:223-324 | a statement can stand in every batch without the routing being seen, if and only if it returns no rows, ends a transaction, or is no transaction control and sets no session state |
| Session.RollbackAndRelease | src/session.rs:82-86 | the client is idle or dead afterwards |
| Session.Slot.Take | src/session.rs:52-54 | the slot is empty afterwards and the caller has its client |
| Session.Slot.Pin | src/session.rs:57-62 | the slot holds the client |
| Session.DropSlot | src/session.rs:42-48 | a client left in a dropped slot is closed |
| Session.Sessions.Lookup | src/session.rs:89-97 | a session has one slot, made on first use and shared by everyone who asks |
| Session.Sessions.Release | src/session.rs:137-143 | the slot is emptied and its client rolled back |
| Session.Sessions.Retain | src/session.rs:105-120 | for every map and every order: which slots stay, which clients are taken, and nothing else changes |
| Session.Sessions.SweepIdle | src/session.rs:101-134 | exactly the stale clients of free slots are rolled back; exactly the free, empty, unshared slots go |
| Session.Sessions.ReleaseAll | src/session.rs:148-173 | every free slot leaves the map with its client rolled back; busy ones stay untouched |
| Cancel.Registry.Register | src/cancel.rs:72-83 | the entry is the latest registration |
| Cancel.Registry.Deregister | src/cancel.rs:85-91 | the entry is gone, whoever made it |
| Cancel.Registry.Cancel | src/cancel.rs:139-147 | the action is removed before it runs; an unknown id changes nothing |
| Preservation.StepKeeps | src/handlers/query.rs:118-356 | every step of every task keeps the invariant over connections, slots, sessions, tasks and registry |
| Preservation.ReachableInv | src/session.rs:89-173 | the invariant holds in every state that any interleaving reaches |
| Safety.PoolIsClean | src/session.rs:12-15 | in every interleaving of session runs, sessionless batches and admitted single statements no connection in the pool has a transaction open or aborted |
| Safety.PinFindsSlotEmpty | src/handlers/query.rs:346-347 | pinning never overwrites an occupied slot |
| Safety.FlagIsServerState | src/handlers/query.rs:306-311 | in every reachable state, single statements on the same pool included, a run's flag is its client's transaction state, never an aborted one |
| Leaks.SingleDirtiesExactly | src/handlers/query.rs:440-512 | runs of one single statement reach, in some interleaving, a pool with an open transaction in it, if and only if the statement opens one and runs on a pooled client |
| Leaks.BatchDirtiesExactly | src/handlers/query.rs:118-356 | batches of one statement among trackable ones reach such a pool, if and only if that statement both returns rows and leaves a transaction open |
| Conservation.NoClientIsLost | src/session.rs:40-62 | in every interleaving an open client outside the pool is in the hands of a live task, or pinned in a slot that the map or a live task still has |
| Conservation.AtRest | src/session.rs:89-173 | once every task is done, every open client is in the pool or pinned to a session of the map |
| Safety.FinishIsLoopTurn | src/handlers/query.rs:223-324 | a statement step on the shared client is one turn of the batch loop |
| Safety.ShotIsLoopTurn | src/handlers/query.rs:230-300 | so is a statement step on a one-shot client, with the result of the one-shot transaction |
| Safety.ShootFailsIsLoopTurn | src/handlers/query.rs:230-300 | and the step of a one-shot client that cannot be acquired |
| Interleaving.RunIsBatch | src/handlers/query.rs:118-356 | in every interleaving, from the state in which a run acquired its client to the state in which the client is pinned or back in the pool: its statements are routed, run and answered as the batch code does on its own with the choices the run met; a client that dies in between is found dead by the next request on it, or ends dead |
| Interleaving.LoopRuns | src/handlers/query.rs:223-338 | the same from any point inside the loop to the end of the loop |
| Frames.HeldStays | src/session.rs:40-62 | a client in a task's hands changes only by that task's own steps and by its connection dying |
| Safety.FinishIsSingle | src/handlers/query.rs:487-512 | a single statement's step leaves its client as the single-statement path does, with the flag false |
| Safety.EnterIsLookup | src/session.rs:89-97 | entering a session gives the slot and the map of the session map's lookup, and the slot afterwards has the client, the lock and the number of Arcs that the lookup leaves |
| Safety.SweepIsVisit | src/session.rs:105-120 | the sweep of one entry keeps the entry and takes its client exactly as the visit of the session map decides |
| Safety.ShutdownIsVisit | src/session.rs:148-160 | so does shutdown |
| Releases.ReleaseTakes | src/session.rs:137-143 | a release that gets the lock takes the slot's client: the slot, if still there, holds none, and the client is the task's and all it has left to release |
| Releases.ReleaseFreesSession | src/session.rs:137-143 | whatever runs beside it, by the time the release is over the client that was pinned has been handed to the pool idle or closed |
| Safety.OneSlotPerSession | src/session.rs:89-120 | until shutdown every task waiting for or inside a session has the one slot in the map |
| Safety.RunsNeverOverlap | src/handlers/query.rs:127-131 | until shutdown two runs are never inside the same session |
| Safety.EndsPinned | src/handlers/query.rs:346-347 | a session run that ends in a transaction leaves its client pinned to the session |
| Safety.PinSurvives | src/session.rs:105-120 | the pin survives every run of steps without the session's own next lock, its expiry or shutdown |
| Safety.NextRunContinues | src/handlers/query.rs:132-148 | the session's next run continues on that client with its transaction open |
| Safety.OrphanSlotClosesClient | src/session.rs:40-48 | a client pinned to a slot that shutdown unmapped is closed exactly when the last task that holds its Arc leaves, and stays pinned until then |
| Safety.CancelReachesStatement | src/handlers/query.rs:160-164 | while a statement runs, a cancel finds the action for the very client it runs on, unless one took it already |
| Safety.ActionsRunOnce | src/cancel.rs:139-147 | each registered action runs at most once |
| Safety.LateCancelIsNoOp | src/cancel.rs:85-91 | after a request's runs are over, cancelling it changes nothing |
| Json.StringOutsideSafeRange | src/extract.rs:299-305 | the string form appears exactly outside the safe range, the smallest integer excepted |
| Json.ScalarTextReads | src/extract.rs:449-456 | a bound inside a range is JSON text, quotes and escapes included, that reads back as the value under section 7 of RFC 8259 |
| Bytes.Utf8Exactly | src/extract.rs:1978 | bytes read as a text if and only if they are the UTF-8 encoding of that text |
| Decoder.BitOrVarBit | src/extract.rs:1375-1416 | the loop over whole bytes and the cut last byte give the counted bits, or nothing if bytes are missing |
| Decoder.ExtractKindFromBytes | src/extract.rs:791-815 | the dispatcher terminates on the type tree and computes the specification |
| Decoder.ArrayFromSql | src/extract.rs:708-768 | the header is checked, and a whole array or nothing comes back |
| Decoder.ReadElements | src/extract.rs:747-766 | the element loop returns every element, NULL ones in place, or nothing |
| Decoder.ExtractCompositeFields | src/extract.rs:593-626 | the field loop, with its recovery |
| Decoder.FillCompositeNulls | src/extract.rs:628-635 | the fields that are left become null |
| Decoder.ExtractCompositeFieldValue | src/extract.rs:648-664 | one length-prefixed field and the buffer after it |
| Decoder.ExtractRangeBound | src/extract.rs:432-457 | one bound and the buffer after it, on each failure too |
| Decoder.ExtractRangeOrNull | src/extract.rs:383-428 | one range off the front of the buffer, and the buffer after it |
| Decoder.RangesText | src/extract.rs:493-535 | the comma bookkeeping, early exits included, gives the ranges joined by commas |
| Decoder.MultirangeFromSql | src/extract.rs:470-536 | a whole multirange value |
| RoundTrip.DecodeEncode | src/extract.rs:791-815 | for every type tree and every value of it, decoding the binary encoding gives exactly the value's JSON |
| RoundTrip.RangeReads | src/extract.rs:383-428 | a range is read exactly off the front of a longer buffer |
| Cuts.CutArray | src/extract.rs:708-768 | a cut array encoding is rejected as a whole |
| Cuts.CutComposite | src/extract.rs:593-664 | a cut composite has every declared field: those inside the cut keep their values, all later ones are null |
| Cuts.ManyDimensions | src/extract.rs:708-768 | an array of two or more dimensions is rejected, whatever its elements |
| Cuts.NegativeLength | src/extract.rs:708-768 | so is one whose only dimension has a negative length |
| Cuts.CutRange | src/extract.rs:383-457 | a cut range keeps its brackets and what was read before the cut: no bound, or the lower one |
| Cuts.UnreadableBounds | src/extract.rs:383-457 | bounds of a type that is not read become null, a lower one for both |
| Cuts.CutMultirange | src/extract.rs:493-535 | a multirange cut between ranges or inside a range's length keeps exactly the ranges before |
| Cuts.ShortIsNull | src/extract.rs:670-706 | a value with too few bytes for its type, or an integer with too many, is null |
| TsQuery.ExtractTsQueryNode | src/extract.rs:2090-2181 | the recursive decoder on an advancing buffer |
| TsQuery.ExtractOperand | src/extract.rs:1971-1981 | the operand's weight, flag and NUL-terminated text |
| TsQuery.DecodeEncode | src/extract.rs:2090-2181 | decoding the prefix bytes of any tree prints that tree and consumes exactly its bytes, if and only if each lexeme has at most one weight |
| TsParse.ParsesBack | src/extract.rs:2161-2175 | the printed tokens, read under PostgreSQL's precedence, are the tree with runs of equal operators grouped to the left |
| TsParse.RegroupedExactly | src/extract.rs:2161-2175 | that only regroups runs of the and and or operators, if and only if no phrase is the right operand of a phrase |
| TsText.QuotedExactly | src/extract.rs:2114-2129 | a lexeme between quotes reads back as itself if and only if it has no quote or backslash |
| TsText.ReadsBackExactly | src/extract.rs:2114-2129 | the printed text, tokenized and parsed, is the query with its runs grouped to the left, if and only if none of its lexemes has a quote or a backslash |
| TsText.TextReadsBack | src/extract.rs:2056-2075 | from bytes to text to tree: the decoder consumes the whole value and its text reads back, regrouping only as stated above |
| Pagination.TokenizeWithPos | src/utils/pagination.rs:25-36 | searching for each token gives its true position |
| Pagination.StripLimitOffset | src/utils/pagination.rs:40-64 | the text before a trailing LIMIT and OFFSET of 64-bit numbers |
| Pagination.ExtractUserLimit | src/utils/pagination.rs:67-85 | the 32-bit number of the trailing LIMIT |
| Pagination.ExtractUserOffset | src/utils/pagination.rs:88-98 | the 32-bit number of the trailing OFFSET |
| Pagination.BuildPaginatedQuery | src/utils/pagination.rs:103-120 | the base with this page's clauses, in wrapping and saturating 32-bit arithmetic |
| Written.WrittenIsRead | src/utils/pagination.rs:40-98 | for any text that does not end in a clause, either clause or none after it, the keywords in any case, any whitespace and any trailing spaces and semicolons: stripping gives the text back and the extractors give the numbers as written, those beyond 32 bits excepted |
| Written.BuiltFromWritten | src/utils/pagination.rs:103-120 | so the paginated text is the user's text with this page's clauses in place of the user's |
| Written.PagesOfWritten | src/utils/pagination.rs:103-120 | and the pages shown add up to what the clauses, as written, select |
| Pages.ClausesReadBack | src/utils/pagination.rs:40-98 | on any text that ends in printed clauses, stripping gives the text before them back and the extractors read exactly the printed numbers |
| Pages.TextRoundTrip | src/utils/pagination.rs:40-120 | for every query, size and page, the paginated text strips to what the query strips to and its numbers read back exactly |
| Pages.PagesPartition | src/handlers/query.rs:1465-1476 | pages 1 to k are the first k times size rows of what LIMIT and OFFSET select, and has_more is true exactly when a row remains |
| Pages.OffsetExactly | src/utils/pagination.rs:18-21 | the page offset is right exactly while the product fits in 32 bits |
| Pages.ExtractedIsStripped | src/utils/pagination.rs:67-98 | the extractors read what stripping removes if it fits in 32 bits, and nothing otherwise |
| Pages.PagesOfQuery | src/utils/pagination.rs:103-120 | a query's pages show what its own clauses select if and only if its OFFSET fits in 32 bits or no row is asked for |
| ArrayLiteral.JsonArrayToPgLiteral | src/binding.rs:438-468 | the loop over the elements computes the literal, or fails on an object at any depth |
| ArrayLiteral.LiteralRoundTrip | src/binding.rs:438-468 | the literal reads back as the array under SQL string rules if and only if no element is the string `{}` |
| Binding.BindValue | src/binding.rs:65-115 | whatever path a value takes, its fragment holds its placeholder once if it has a parameter and not at all otherwise |
| Binding.BindString | src/binding.rs:212-331 | the same for the string cascade |
| Binding.BindKey | src/binding.rs:583-686 | the same for keys; a bound key that is not NULL has a parameter |
| Binding.KeyMoves | src/binding.rs:583-686 | only the number in the placeholder depends on where a key stands |
| Binding.UnsafeExactly | src/binding.rs:568-576 | a numeral is recognised as a bigint exactly outside the safe range, where the string form is produced |
| Binding.BigintSurvives | src/binding.rs:602-658 | every 64-bit integer sent as JSON comes back as the INT8 it was, for integer and for unknown column types |
| Denotation.KeySays | src/binding.rs:583-686 | a key is refused exactly if it is an array, an object or a text that is no number for its numeric column; otherwise its parameter stands for it, numbers and booleans read back as themselves, and the fragment has the type in which the column compares |
| Denotation.TextKeysDiffer | src/binding.rs:583-686 | two different keys on one column never bind the same text |
| Denotation.ValueSays | src/binding.rs:65-331 | whatever path a value takes, the parameter it binds or the text it is inlined as says that value |
| Denotation.TextWritten | src/binding.rs:212-331 | a text is cast, wrapped, inlined or refused exactly as its column and its looks ask for |
| Denotation.PlainWritten | src/binding.rs:65-115 | and a value of another kind as its kind does, JSON columns excepted |
| Denotation.HstoreWritten | src/binding.rs:122-193 | an hstore that is not null is bound exactly if it is an object, or its text, with nothing but texts and nulls in it, and the type's OID is known |
| Denotation.SetLikeKey | src/binding.rs:212-658 | a text set into a numeric or temporal column is coerced as the same text is as a key of it |
| Denotation.BaseTypeReads | src/binding.rs:59-62 | a column type is read as its name in capitals, whatever its case, the whitespace around it and its modifier |
| Denotation.GeometryLooks | src/binding.rs:408-418 | well-known text is recognised by its name in any case behind any whitespace |
| Denotation.PostgisLooks | src/binding.rs:395-404 | so is any function of PostGIS |
| Crud.BuildPkMapPredicate | src/binding.rs:694-733 | the loop builds one term per entry and numbers only the non-NULL ones |
| Crud.BuiltExactly | src/binding.rs:694-733 | a predicate is built if and only if there is an entry and every entry can be bound |
| Crud.PredicateMatches | src/binding.rs:708-732 | in three-valued logic the predicate is TRUE exactly on rows that agree with every entry, NULL entries matching only NULL |
| Crud.CascadesAreGood | src/binding.rs:65-686 | the two cascades of the plugin meet the terms that the statements need |
| Crud.ExecInsert | src/handlers/crud.rs:35-107 | the loop threads columns, fragments and parameters; each of $1 to $n is used exactly once, n being the parameter count |
| Crud.OwnParameter | src/handlers/crud.rs:68-92 | each column's fragment binds that column's own value, and the parameter of its placeholder is that value's |
| Crud.ExecUpdate | src/handlers/crud.rs:130-194 | the same numbering when the new value takes a placeholder and when it does not |
| Crud.UpdateTouches | src/handlers/crud.rs:168-186 | an UPDATE sets its column to the new value and touches exactly the rows that agree with every key entry |
| Crud.DeleteTouches | src/handlers/crud.rs:234-243 | a DELETE touches exactly the rows that agree with every key entry |
| Statements.DeleteSays | src/handlers/crud.rs:215-244 | a DELETE's text reads back as its table and one term per key entry on that entry's column, and these are true exactly on the rows that agree with every entry |
| Statements.UpdateSays | src/handlers/crud.rs:130-194 | so does an UPDATE's, with its column and the fragment of the new value |
| Statements.InsertSays | src/handlers/crud.rs:68-107 | an INSERT's reads back as its table, its columns and, column by column, the fragments of their values |
| Statements.SentinelIsDefault | src/binding.rs:219-224 | the sentinel text stands for the column's default in an UPDATE and in no INSERT, hstore columns excepted |
| Crud.ExecDelete | src/handlers/crud.rs:215-244 | the same numbering from $1 |
| PoolKey.IdentityExactly | src/client.rs:420-482 | two parameter sets have one key and fields that hold equally many colons one by one, if and only if everything the key is made of is the same, the default port filled in and an absent field standing for an empty one |
| PoolKey.KeyExactly | src/client.rs:420-482 | so without colons keys are equal if and only if that is the same |
| PoolKey.PortExactly | src/client.rs:459-466 | an absent port has the key of the default port and of no other |
| PoolKey.ConfigExactly | src/client.rs:652-741 | with equal keys the second build succeeds and configures the first one's pool, if and only if both have the same form, each field that reaches the configuration holds equally many colons in both and, without a connection string, each name is absent in both or in neither |
| PoolKey.BuiltAsGiven | src/client.rs:652-741 | each field of what is built is the parameter of that name; TLS is set up exactly for the three modes that ask for it, with a CA as the mode says and the client certificate exactly if both its paths are given |
| PoolKey.EqualKeysEqualConfig | src/client.rs:652-741 | so parameters whose colons agree and that have no empty name without a connection string have one configuration per key, or are both refused |
| PoolKey.ColonsCollide | src/client.rs:459-466 | whatever else is given, a colon can be moved between database and username: the key stays and the configurations differ |
| PoolKey.EmptyCollides | src/client.rs:459-466 | for each of the eight fields, absent and empty share a key; the configurations differ exactly for the four names without a connection string, and are the same for the mode and, blank paths being filtered out, for the certificate paths |
| PoolCache.Pools.GetOrCreate | src/client.rs:494-511 | a cached pool is returned as it is, a built one is cached |
| PoolCache.Pools.GetPoolClient | src/client.rs:537-555 | a pool that cannot connect leaves the cache, and no other entry changes |
| PoolCache.Pools.CleanupIdlePools | src/client.rs:592-599 | exactly the pools with a connection in use stay |
| PoolCache.HitsExactly | src/client.rs:494-555 | for any set of parameters that may arrive: in every interleaving of lookups, builds, insertions, evictions and sweeps every request is served from a pool configured as its own build would be, if and only if any two of them with one key, the first of which can be built, have one form, colons alike in every field that reaches the configuration, and absences alike in the names that do |
| PoolCache.HitsAreSound | src/client.rs:494-555 | so it is for all parameters whose colons agree and that have no empty name without a connection string |
| PoolCache.PlainHits | src/client.rs:494-555 | among them all such parameters without colons |

## Left out

- Safety.OneSlotPerSession: claims nothing after shutdown starts, because `release_all` drops an unlocked slot that others still wait for.
- Safety.CancelReachesStatement: an action that a cancel took may still reach the server after the statement it was meant for, as in the original.
- Server.ExecQueryOnClient: the replies' contents, the 90-second bound and the error texts are not modelled; a timeout is a client-side failure.
- Session.Sessions.SweepIdle: the 30-minute limit is a flag on the slot, not a clock.
- Comments.StripLeadingSqlComments: upper-casing after it is ASCII; letters outside ASCII that upper-case into it are not modelled, nor are they in the pagination keywords.
- Pagination.TokenizeWithPos: positions count characters, not UTF-8 bytes.
- RoundTrip.DecodeEncode: leaf formats owned by libraries are abstract decode functions; TSVECTOR, TIME, floats and the text of TIMETZ and INTERVAL are left out.
- Decoder.ExtractCompositeFields: the wrapper for a whole column, which answers null for an empty buffer, is not modelled.
- TsQuery.DecodeEncode: is about queries with at least one node; the empty query, whose value ends after the count of zero, has no text, and the decoder rejects it as the source does.
- ArrayLiteral.LiteralRoundTrip: numbers that are not integers are printed by a parameter and not read back.
- Crud.PredicateMatches: whether a cell equals a bound value is a parameter; a raw SQL function that a value inlines is one opaque piece of text, so a `$1` inside it is not counted.
- PoolKey.ConfigExactly: certificate files are taken by path; what they hold and whether they can be read is not modelled, nor what deadpool makes of its `cfg` fields.
- Crud.ExecInsert: takes the qualified table name already quoted, and the catalog's answers as maps.
- Crud.BuildPkMapPredicate: takes the entries in key order, which is the order of a serde_json map, so sorting them again is not modelled.
- The worker lanes, JSON-RPC dispatch, TLS setup, catalog queries, DDL builders and settings: plumbing with single-branch facts.
- SQL written as `OFFSET m LIMIT n`: the pagination code does not recognise it.
