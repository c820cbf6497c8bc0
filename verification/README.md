# Verification model of the intent-guard services

A Dafny model of the parts of this repository whose correctness is easiest to lose: the
Keccak-256 written out in Python, the three canonical JSON serializers and the trace upload
that depends on them, the chain indexer with its crashes and retries, the read model built on
its tables, and the demo playback. `dafny verify dfyconfig.toml` checks everything.

## What is modelled

**Keccak-256** (`packages/trace/python/trace.py`). `PyInts` gives Python's unbounded integers
their two's complement bits, so that every mask in the source is an obligation. `Fips202` is
FIPS 202 on bits: the step mappings of section 3.2 (rotation offsets from algorithm 2, round
constants from the shift register of algorithm 5), the rounds of section 3.3, the sponge of
section 4 and pad10*1 of section 5.1; as in the source the message gets no suffix, which makes
it the original Keccak and not SHA3-256 of section 6.1. `TracePy` has the in-place loops, and
`Keccak256` is proved to compute the first 256 output bits of the sponge with capacity 512, for
every byte string. `KeccakKnownAnswer` evaluates it on the empty message, on 64-bit words that `KeccakWords`
ties to the bits. `KeccakBijection` gives explicit inverses of all five mappings; theta's comes
from its column parity map having order 192.

**Canonical JSON** (`canonical/json.ts`, `serialize.ts`, `trace.py`). A value is a tree of null,
undefined, booleans, safe integers, fractions (kept as text), bigints, strings, arrays and
objects with ordered fields. Each serializer is shown to print a canonical form of the value,
and `JsonParse` is a parser for the syntax of RFC 8259 that reads it back; `ShortestText` shows that
no shorter text would do, and `KnownTexts` has texts worked out by hand. `KeyOrder` compares
the TypeScript key order (UTF-16 code units, as in section 3.2.3 of RFC 8785) with Python's
(code points).

**Traces** (`validation.ts`, `serialize.ts`, `trace-client.ts`, `api/traces.ts`,
`store/traces.ts`). Validation, normalization, the upload from the client's trace to the digest
the server recomputes, and the trace table as an object with an invariant. The hash function is
any function. `JsonSchema` has the JSON Schema the package publishes, as data, and compares it with the
validator.

**The indexer** (`indexer/`, `store/`, SQLite branch). `IndexerTables` has the tables, their SQL
statements with the conflict clauses as written, and the event handler. `Replay` says what
starting over after crashes does to tables of upserts and updates; `IndexerRuns`, `IntentRuns`
and `Indexable` apply it to receipts, challenges, agents and delegates, to intents, and to
constraint errors. `RowColumns` says what each column holds in terms of the logs handled. `Poller` is the poller as an object whose every query, statement and
notification may fail; `PollerHistory` keeps the record that explains its database. Addresses,
hashes and identifiers are the numbers their texts denote.

**The read model** (`api/feed.ts`, `api/challenges-prepare.ts`, the listing queries). The feed as
a stable sort of four limited listings, which of those are newest-first over indexed tables (`FeedOrder`), and the
three places that decide whether a receipt can be challenged.

**Playback** (`use-demo-visualizer.ts`, `demo-visualizer.ts`). The hook as an object: state, one
timer, and the scheduling effect, which runs again exactly when one of its dependencies has
changed; a result is compared by object identity, as React does.

**Amounts** (`constants.ts`). `formatUsdc` and a reader for its output.

## Where the code does not do what it says

Where a comment or a document of the source and its code disagree, the model follows the code:

- `json.ts:13-14` says that numbers other than safe integers make the encoder throw; lines 50-60
  print non-integers, and `Encode` prints a fraction's text.
- `traces.ts:23` says the client sends the trace as a string; `trace-client.ts:62-73` sends an
  object, and `HonestUploadAccepted` is about the object.
- `validation.ts:12` exports the JSON Schema beside a validator that accepts more: a negative nonce, a
  session id or model that is no string, an amount or call data that only turns into a fitting
  string: `SchemaIff`, `NegativeNonceAccepted`, `AmountBeyondStrings`.
- `decoder.ts:47-51` calls handling idempotent; the next section shows what a replay does.

These failures can happen with what the repository's own contracts and pages send. Each has a
lemma with the exact condition, or with a concrete case:

- A replayed IntentCommitted deactivates its own row, so a crash after it leaves the owner
  without an active intent although the chain has one: `CrashLosesIntent`, with the condition in
  `IntentsAfterCrashes`.
- `validation.ts:56` accepts a fractional temperature that `serialize.ts:31` rejects:
  `SerializeCanonicalIs`, `ValidMayNotSerialize`.
- Python sorts keys by code point. On a plain value it prints the server's text exactly when no
  object has two keys whose first difference has a character from U+E000 to U+FFFF on one side
  and one above U+FFFF on the other: `PythonAgreesIff`, `PythonDisagrees`.
- Intents of one block are listed in an order of the database's choice but stamped with the clock
  at indexing, so the feed may cut the wrong one: `IntentsNewestFirstIff`, `PolledFeed`.
- Replay pressed during the first phase of a playing run clears the timer and changes no state,
  so the effect does not arm it again until the result arrives: `Visualizer.Replay`.

These need an input that the present contracts or pages do not produce:

- A second commit of an intent hash violates the primary key on every retry, so no checkpoint
  ever passes it: `IndexableIff`, `CheckpointIsFresh`. `IntentRegistry.sol:43` reverts such a
  commit.
- Challenges are listed by the block they were filed in but stamped with the time they were
  resolved, so the feed can miss its newest entry: `ResolvedChallengeMissing`,
  `ChallengesNewestFirstIff`, `LimitsDoNotShowIff`. `ChallengeArbiter.sol:75-107` files and
  resolves in one transaction, and then it cannot: `AtOnceIsNeverLate`, `PolledFeed`.
- A checkpoint of 0 is not resumed from (`poller.ts:133-134`): `ResumesIff`. It takes a
  run that starts at block 0 and ends there.
- The three challenge decisions can differ when challenges of one receipt are tied for the last
  and some were rejected: `DecisionsAgreeIff`. The arbiter upholds every challenge it files.
- Bumping the run key of a mounted playback renders one terminal frame without a result, and can
  leave the timer unarmed: `Visualizer.NewRun`. The pages key the component by run and remount.
- The status "idle" counts as a result, and the terminal frame then shows a completed run:
  `ClaimsFalselyIff`. The polling of a live run never returns it.
- `formatUsdc` of a negative amount with a fraction writes a second minus sign after the point:
  `RoundTripIff`. On-chain amounts are unsigned.

## Model

| member | source | states |
|---|---|---|
| TracePy.Keccak256 | packages/trace/python/trace.py:106-133 | for every byte string, exactly 32 bytes come out and their bits are the first 256 bits of the sponge over the wholly padded message |
| TracePy.KeccakFInPlace | packages/trace/python/trace.py:144-177 | the in-place permutation is the 24 rounds of FIPS 202 on the state's bits, and all 25 lanes stay below 2^64 |
| KeccakTables.Parameters | packages/trace/python/trace.py:18-53 | there are 12 + 2 l rounds for lanes of 2^l bits, as many as round constants, and the capacity is twice 256 bits |
| KeccakWords.RoundHolds | packages/trace/python/trace.py:145-177 | one round on the state's bits is the round on 25 bit-vectors, for every state and round constant |
| KeccakKnownAnswer.EmptyDigest | packages/trace/python/trace.py:106-133 | the sponge of the empty message gives c5d24601...5d85a470, by evaluating all 24 rounds |
| KeccakKnownAnswer.DigestOfNothing | packages/trace/python/trace.py:106-133 | so the code's digest of no bytes is those 32 bytes |
| TracePy.RoundInPlace | packages/trace/python/trace.py:145-177 | one pass of the loop body is iota after chi after pi after rho after theta |
| TracePy.ThetaStep | packages/trace/python/trace.py:146-158 | the nested loops change every lane by its column's effect, computed before any lane changed |
| TracePy.RhoPiStep | packages/trace/python/trace.py:160-166 | the scatter loop fills every lane of the fresh array exactly as the gather form says |
| TracePy.ChiStep | packages/trace/python/trace.py:168-174 | the loops replace every lane of the state by the row function of the other array |
| TracePy.AbsorbBlock | packages/trace/python/trace.py:136-141 | absorbing bytes xors their bits into the state's first bits and keeps lanes below 2^64, for blocks of any length up to the state's |
| TracePy.AbsorbBlocks | packages/trace/python/trace.py:107-113 | the loop leaves the sponge state after all full blocks, and less than one block of data |
| TracePy.PadTail | packages/trace/python/trace.py:115-120 | the tail built in place, including when 0x01 and 0x80 share the last byte, is the padded block; the overflow branch is unreachable |
| TracePy.PaddedTailBits | packages/trace/python/trace.py:115-120 | the tail's bits are the remaining data followed by pad10*1 of the whole message length |
| TracePy.Streaming | packages/trace/python/trace.py:110-123 | full blocks first and then the padded tail is the sponge over the wholly padded message |
| TracePy.OutputByte | packages/trace/python/trace.py:128 | shifting and masking a lane extracts the state's bits of that byte |
| TracePy.SqueezeBytes | packages/trace/python/trace.py:125-133 | the output loop produces the sponge's output of exactly the length asked for |
| KeccakLanes.BitOfRotl64 | packages/trace/python/trace.py:180-184 | for any shift, bit z of the rotated 64-bit lane is bit z - shift modulo 64 |
| KeccakLanes.Rotl64Fits | packages/trace/python/trace.py:180-184 | the result is below 2^64 for every integer, of any size or sign |
| KeccakLanes.ThetaLanesCorrect | packages/trace/python/trace.py:146-158 | xors, rotation and mask on integers compute theta of FIPS 202 on the bits |
| KeccakLanes.RhoPiLanesCorrect | packages/trace/python/trace.py:160-166 | rotating by the table and moving lanes computes pi after rho |
| KeccakLanes.ChiLanesCorrect | packages/trace/python/trace.py:168-174 | the masked complement on unbounded integers computes chi |
| KeccakLanes.IotaLanesCorrect | packages/trace/python/trace.py:176-177 | xoring the table entry into lane 0 computes iota |
| KeccakTables.RotationTable | packages/trace/python/trace.py:20-26 | every offset is what algorithm 2 of FIPS 202 computes, modulo 64 |
| KeccakTables.RoundTable | packages/trace/python/trace.py:28-53 | every bit of every constant is what the shift register of algorithm 5 of FIPS 202 gives |
| Fips202.PadAligns | packages/trace/python/trace.py:115-120 | padding always fills the last block |
| Fips202.PadInjective | packages/trace/python/trace.py:115-120 | different messages have different padded messages |
| Fips202.AbsorbAppend | packages/trace/python/trace.py:110-113 | absorbing a concatenation is absorbing its parts in turn |
| KeccakBijection.ParityMapOrder | packages/trace/python/trace.py:146-153 | 192 applications of the column parity map are the identity |
| KeccakBijection.ThetaInverts | packages/trace/python/trace.py:146-158 | theta has a two-sided inverse |
| KeccakBijection.RhoInverts | packages/trace/python/trace.py:160-166 | rho has a two-sided inverse |
| KeccakBijection.PiInverts | packages/trace/python/trace.py:160-166 | pi has a two-sided inverse |
| KeccakBijection.ChiInverts | packages/trace/python/trace.py:168-174 | chi has a two-sided inverse, row by row |
| KeccakBijection.RoundInverts | packages/trace/python/trace.py:145-177 | every round has a two-sided inverse |
| KeccakBijection.KeccakFInjective | packages/trace/python/trace.py:144-177 | the permutation never maps two 1600-bit states to one |
| KeccakLanes.StateDetermines | packages/trace/python/trace.py:136-142 | a list of 25 lanes below 2^64 is determined by its state's bits |
| KeccakLanes.PermutationInjective | packages/trace/python/trace.py:144-177 | on lists of lanes, what the permutation leaves is equal if and only if what it was given is |
| KeccakBijection.KeccakFSurjective | packages/trace/python/trace.py:144-177 | every state is the image of one |
| KeyOrder.OrdersDisagreeIff | packages/trace/python/trace.py:95 | code point order and UTF-16 order of two different strings disagree exactly when their first difference sets a character from U+E000 to U+FFFF against one above U+FFFF |
| KeyOrder.LexLessIff | services/infra/src/canonical/json.ts:74 | one sequence is less than another if and only if at their first difference it has ended or has the smaller element |
| KeyOrder.PrefixFirst | packages/trace/python/trace.py:95 | a key that is a proper prefix of another comes first in both orders |
| KeyOrder.UnitsAreUtf16 | services/infra/src/canonical/json.ts:74 | the units compared are UTF-16: one outside the surrogates, or a pair from which the code point is read back |
| KeyOrder.Utf16IsStrictTotal | services/infra/src/canonical/json.ts:74 | the comparison is a strict total order, surrogate pairs included |
| KeyOrder.CodePointIsStrictTotal | packages/trace/python/trace.py:95 | so is Python's |
| Json.SortSorts | services/infra/src/canonical/json.ts:72-74 | sorting distinct keys gives them in strictly ascending order, with the same fields |
| Json.SortedKeysUnique | services/infra/src/canonical/json.ts:72-74 | sorted fields with the same key set have the same key sequence |
| JsonText.EncodeIsPrint | services/infra/src/canonical/json.ts:41-80 | the server's encoder prints the value with undefined dropped and keys in UTF-16 order at every depth |
| JsonText.StringifyIsPrint | packages/trace/src/serialize.ts:21-62 | the client's fails exactly when a fraction occurs anywhere, and otherwise prints undefined as null with keys in UTF-16 order |
| JsonText.PySerializeIsPrint | packages/trace/python/trace.py:72-103 | on parsed JSON, Python's fails exactly when a fraction occurs anywhere, and otherwise prints with keys in code point order |
| CanonicalForm.FormIsCanonical | services/infra/src/canonical/json.ts:41-80 | the form printed is plain JSON with sorted distinct keys at every depth |
| CanonicalForm.SameForms | services/infra/src/canonical/json.ts:66-77 | values that differ only in key order, at any depth, have one form; array order is kept |
| CanonicalForm.FormsSame | services/infra/src/canonical/json.ts:66-77 | plain values with one form differ only in key order |
| JsonParse.QuoteRoundTrip | services/infra/src/canonical/json.ts:62-64 | an escaped string is read back as it was and ends where its text ends, whatever follows |
| JsonParse.NumberRoundTrip | services/infra/src/canonical/json.ts:50-60 | a safe integer is read back as it was before a delimiter or the end |
| JsonParse.ParseOfPrint | services/infra/src/canonical/json.ts:41-80 | printed text is self-delimiting before a comma, a closing bracket or the end: the parser returns the value and leaves exactly the rest |
| ShortestText.EscapeUnique | services/infra/src/canonical/json.ts:62-64 | any other way to write a character of a string is longer, or has an upper-case hexadecimal digit |
| ShortestText.StringShortest | services/infra/src/canonical/json.ts:62-64 | reading a string consumes at least its escaped text and the quote |
| ShortestText.ValueShortest | services/infra/src/canonical/json.ts:41-80 | reading any value, with any spacing, escapes and repeated keys, consumes at least what printing it takes |
| ShortestText.EncodeIsShortest | services/infra/src/canonical/json.ts:41-80 | no text that is read back as the value, in any key order, is shorter than its canonical text |
| ShortestText.ParsedIsPlain | services/infra/src/canonical/json.ts:41-80 | what is read never has a key twice, an undefined or a fraction, so the laws about plain values apply to it |
| KnownTexts.Numerals | services/infra/src/canonical/json.ts:50-60 | integers are written in base ten, digits in order, minus first |
| KnownTexts.EncodedScalars | services/infra/src/canonical/json.ts:41-64 | the texts of null, undefined, booleans, numbers, a big integer and a string with three kinds of escape |
| KnownTexts.EncodedObject | services/infra/src/canonical/json.ts:66-77 | the text of an object with "token", "to" and an undefined field |
| CanonicalJson.EncodeRoundTrip | services/infra/src/canonical/json.ts:41-80 | parsing canonical text gives back the canonical form of what was printed |
| CanonicalJson.CanonIsSame | services/infra/src/canonical/json.ts:66-77 | for plain values that form differs from the value only in key order |
| CanonicalJson.EncodedFields | services/infra/src/canonical/json.ts:71-77 | reading the server's text of an object gives exactly the keys whose value is defined, ascending, each with the canonical form of its value |
| CanonicalJson.StringifiedFields | packages/trace/src/serialize.ts:52-59 | reading the client's text gives every key, with null for an undefined value |
| CanonicalJson.WrittenForJson | services/infra/src/canonical/json.ts:41-64 | both write a big integer as the string of its digits and a lone undefined as null |
| CanonicalJson.EncodeDetermines | services/infra/src/canonical/json.ts:41-80 | two plain values followed by delimiters have equal text if and only if they are equal up to key order and what follows is equal |
| CanonicalJson.OrderNeverShows | services/infra/src/canonical/json.ts:71-77 | permuting keys at any depth changes neither the server's nor the client's text |
| CanonicalJson.HandOff | packages/trace/src/trace-client.ts:58-75 | the server's canonicalize of the client's re-parsed text is that text |
| CanonicalJson.HandOffInAnyOrder | packages/trace/src/trace-client.ts:62-75 | also when the object in between has been rebuilt with keys in any order |
| CanonicalJson.PythonAgreesIff | packages/trace/python/trace.py:72-103 | on plain values Python prints the server's text if and only if no object has clashing keys |
| CanonicalJson.SurrogateFreeKeys | packages/trace/python/trace.py:95 | keys without surrogate pairs never clash |
| CanonicalJson.PythonDisagrees | packages/trace/python/trace.py:95 | an object on which Python and the server differ |
| TraceSchema.SortedKeysEqualIff | packages/trace/src/validation.ts:157-172 | duplicate-free key lists are equal after sorting if and only if they have the same keys |
| TraceSchema.AssertExactKeys | packages/trace/src/validation.ts:152-173 | the lockstep comparison accepts exactly the records whose key set is the allowed one |
| TraceSchema.ValidateDecisionTrace | packages/trace/src/validation.ts:19-112 | accepts exactly the traces with these keys, types, formats and roles at every place |
| TraceExample.ValidMayNotSerialize | packages/trace/src/validation.ts:55-56 | a trace that validates with any numeric temperature and any nonce, and serializes exactly with an integer temperature |
| JsonSchema.SchemaIff | packages/trace/schema/decision-trace-v1.schema.json:1-118 | the schema admits exactly the traces the validator accepts whose session id and model, amount and call data are strings and whose nonce is not negative |
| JsonSchema.NegativeNonceAccepted | packages/trace/src/validation.ts:111 | a trace the validator accepts with every nonce and the schema exactly from 0 on |
| JsonSchema.HexIff | packages/trace/src/validation.ts:144-150 | an address or hash passes if and only if it is 0x and that many characters from 0-9, a-f and A-F |
| JsonSchema.AmountBeyondStrings | packages/trace/src/validation.ts:104-106 | other than strings, the amount test passes exactly non-negative integers, big ones included, and lists of one thing that passes |
| TraceSchema.ValidatePrompts | packages/trace/src/validation.ts:58-70 | accepts exactly the lists whose every element is a valid prompt |
| TraceSchema.NormalizeOnlyReorders | packages/trace/src/serialize.ts:68-105 | on every validated trace, normalizing changes nothing but key order |
| TraceSchema.SerializeCanonicalIs | packages/trace/src/serialize.ts:111-115 | serializes exactly the validated traces without fractions, and on validated traces normalizing does not show in the text |
| TraceSchema.PythonSerializesTraceIff | packages/trace/python/trace.py:72-103 | Python, which skips normalizing, prints the client's text of a validated trace if and only if no object in it has clashing keys |
| TraceService.BodyRoundTrip | packages/trace/src/trace-client.ts:66-75 | the request body parses back, with the payload in its trace field |
| TraceService.HonestUploadAccepted | services/infra/src/api/traces.ts:61-70 | for every trace the client serializes and every hash function, the digest recomputed from the request body is the client's |
| TraceService.TraceStore.InsertTrace | services/infra/src/store/traces.ts:29-88 | the upsert replaces exactly URI, URI hash, expiry, signer and signature of an existing row |
| TraceService.TraceStore.Post | services/infra/src/api/traces.ts:54-147 | keeps every row filed under its text's hash with the hash of its URI; rejects exactly on a digest mismatch; answers from the unexpired row without a change, else upserts; echoes the request's agent and owner; a string is acknowledged exactly when it has the digest and is stored as it is; an existing row keeps its text and makers and no other row changes; an object upload whose text is not the stored one proves a hash collision |
| TraceService.TraceStore.ReplayReproducesDigest | services/infra/src/api/replay.ts:25-40 | for a trace uploaded as an object, also after the same text came as a string, parsing and re-canonicalizing the stored text gives the digest, however often it was signed again |
| TraceService.RecanonicalizedText | services/infra/src/api/replay.ts:30-40 | parsing canonical text and encoding again gives the text |
| Replay.FoldTwice | services/infra/src/store/challenges.ts:51-62 | upserts and updates whose rows exist or are created before, done twice, are as good as once |
| Replay.StartOver | services/infra/src/indexer/poller.ts:84-91 | nor does redoing only the part done before a crash make a difference |
| Replay.ReplayFromCursor | services/infra/src/indexer/poller.ts:94-127 | after any crashes, replaying from the cursor to any position at or beyond the farthest reached gives the table of one pass |
| Replay.Converges | services/infra/src/indexer/poller.ts:94-127 | once the cursor is where the farthest pass got, the table is that of one pass |
| IndexerTables.Db.UpsertReceipt | services/infra/src/store/receipts.ts:40-106 | inserts, or overwrites all but created_at and trace_uri; fails exactly when another receipt has the provenance |
| IndexerTables.Db.SetReceiptTraceUri | services/infra/src/store/receipts.ts:108-120 | sets trace_uri of an existing receipt, else nothing |
| IndexerTables.Db.UpsertChallengeFiled | services/infra/src/store/challenges.ts:38-78 | inserts as FILED, or overwrites the filing columns and keeps the resolution |
| IndexerTables.Db.ResolveChallenge | services/infra/src/store/challenges.ts:80-107 | sets the resolution of an existing challenge, else nothing |
| IndexerTables.Db.UpsertAgentRegistered | services/infra/src/store/agents.ts:14-48 | inserts with stake 0, or overwrites operator and metadata and keeps stake and origin |
| IndexerTables.Db.ApplyStakeIncrease | services/infra/src/store/agents.ts:50-66 | sets an existing agent's stake to the absolute value, else nothing |
| IndexerTables.Db.InsertDelegate | services/infra/src/store/agents.ts:87-131 | inserts or replaces the row of the key |
| IndexerTables.Db.InsertIntentCommitted | services/infra/src/store/intents.ts:15-51 | deactivates the owner's intents and inserts unless the provenance is stored; fails, changing nothing, exactly when only the hash is |
| IndexerTables.Db.MarkIntentRevoked | services/infra/src/store/intents.ts:78-93 | deactivates the owner's intents and touches nothing else |
| IndexerTables.Db.GetActiveIntent | services/infra/src/store/intents.ts:95-117 | returns an active row of the owner with the highest block, and none only if there is none |
| IndexerTables.Db.HandleLog | services/infra/src/indexer/decoder.ts:52-224 | each event changes its table as its statement says; fails, changing nothing, exactly on an uncovered constraint |
| RowColumns.FirstAndLast | services/infra/src/indexer/decoder.ts:52-224 | what the rows below mean by the first and the last log of a kind that was handled |
| RowColumns.ReceiptColumns | services/infra/src/store/receipts.ts:40-106 | after any handling, a receipt is stored if and only if its event was handled, and all 13 columns equal the fields of the last such event |
| RowColumns.ReceiptOrigin | services/infra/src/store/receipts.ts:108-120 | created_at is the clock at its first event, and trace_uri the last one stored after that, or none |
| RowColumns.ReceiptViolatesIff | services/infra/src/store/schema.ts:49-66 | a receipt's insertion fails if and only if the last event of another receipt has its transaction and index |
| RowColumns.ChallengeFilingColumns | services/infra/src/store/challenges.ts:38-78 | a challenge is stored if and only if its filing was handled, with receipt, challenger, block, transaction and time of the last one |
| RowColumns.ChallengeResolutionColumns | services/infra/src/store/challenges.ts:80-107 | the status is UPHELD or REJECTED as the last resolution after the filing says, with its payout, block, transaction and time; without one it is FILED and they are null |
| RowColumns.AgentColumns | services/infra/src/store/agents.ts:14-48 | an agent is stored if and only if it was registered, with operator and metadata of the last registration |
| RowColumns.AgentOriginColumns | services/infra/src/store/agents.ts:50-66 | block, transaction and created_at are those of the first registration, the stake the last one announced after it, or 0 |
| RowColumns.DelegateRow | services/infra/src/store/agents.ts:87-131 | a delegate row holds approval, block and clock of the last log with its owner, agent, delegate and provenance |
| RowColumns.IntentColumns | services/infra/src/store/intents.ts:28-51 | with fresh hashes an intent is stored if and only if its commit was handled, with owner, manifest URI and provenance of the commit and the clock of its first handling |
| RowColumns.ActiveRow | services/infra/src/store/intents.ts:78-93 | an owner's row is active if and only if the last log of the owner's intents is its commit and had not been handled before; so none is after a revocation |
| IndexerRuns.EraseFold | services/infra/src/store/receipts.ts:69-82 | the clock shows in created_at and nowhere else, in any run |
| IndexerRuns.CrashesLeaveNoTrace | services/infra/src/indexer/poller.ts:94-127 | for every stream that creates rows before updating them, every batch split, every set of failures and every clock, receipts, challenges, agents and delegates end as after one uninterrupted pass, created_at aside |
| IntentRuns.AtMostOneActive | services/infra/src/store/intents.ts:28-51 | every reachable state has at most one active row per owner, whatever was handled |
| IntentRuns.IntentRows | services/infra/src/store/intents.ts:28-51 | the rows are exactly those of the commits handled, with owner and provenance |
| IntentRuns.ActiveIsActiveHash | services/infra/src/store/intents.ts:28-51 | an intent is active exactly when the owner's last handled intent event is its commit, not handled before |
| IntentRuns.IntentsAfterCrashes | services/infra/src/store/intents.ts:28-51 | caught up after crashes, an intent is active if and only if it is the chain's current one and its commit was handled only once |
| IntentRuns.IntentsWithoutFailures | services/infra/src/store/intents.ts:28-51 | in failure-free runs an intent is active if and only if it is the chain's current one |
| IntentRuns.CrashLosesIntent | services/infra/src/store/intents.ts:28-38 | one crash after a commit leaves no active row although the chain has the intent |
| Indexable.NeverViolates | services/infra/src/store/schema.ts:49-100 | with unique provenance and fresh intent hashes no statement ever fails on a constraint, replays included |
| Indexable.ViolationFreeIsFresh | services/infra/src/store/schema.ts:90-100 | whatever was handled without a constraint error committed no hash twice |
| Indexable.IndexableIff | services/infra/src/indexer/poller.ts:84-91 | a stream can be indexed to its end if and only if no intent hash is committed twice |
| ChainBlocks.RangeIsSegment | services/infra/src/indexer/poller.ts:100-109 | a block range's logs are the segment of the stream between its ends |
| ChainBlocks.LogsInSplit | services/infra/src/indexer/poller.ts:100-109 | adjacent block ranges put together give the logs of the whole range |
| ChainBlocks.OneBlock | services/infra/src/indexer/poller.ts:100-109 | a range of one block gives that block's logs, all of them and in order |
| PollerHistory.CoveredExactlyOnce | services/infra/src/indexer/poller.ts:94-127 | every block from the configured start to the checkpoint is in exactly one committed range, every other in none |
| PollerHistory.NeverBack | services/infra/src/indexer/poller.ts:125 | the checkpoint never moves back, and every further committed range moves it on |
| PollerHistory.ContiguousAscends | services/infra/src/indexer/poller.ts:94-127 | the committed ranges ascend without overlap |
| PollerHistory.CaughtUp | services/infra/src/indexer/poller.ts:71-75 | with heads that never move back, a checkpoint at the head is where the farthest pass got to |
| PollerHistory.JustCommitted | services/infra/src/indexer/poller.ts:125 | and so is every checkpoint when it is set |
| PollerHistory.TablesAtCheckpoint | services/infra/src/indexer/poller.ts:94-127 | at such a checkpoint the poller's tables are those of one pass over the blocks up to it, created_at aside |
| PollerHistory.IntentsAtCheckpoint | services/infra/src/store/intents.ts:28-51 | and its active intents are the chain's current ones whose commit was handled once |
| PollerHistory.CheckpointIsFresh | services/infra/src/indexer/poller.ts:84-91 | no checkpoint ever passes the second commit of an intent hash |
| Poller.ResumesIff | services/infra/src/indexer/poller.ts:129-140 | a checkpoint is resumed from if and only if it is positive or a first run, however its start is found, would start right after it |
| Poller.FirstRunStart | services/infra/src/indexer/poller.ts:136-140 | without a positive checkpoint the environment's start wins over the deployment's; with neither it is a thousand blocks behind the head, or block 0 |
| Poller.ResumesAtNext | services/infra/src/indexer/poller.ts:129-140 | with a positive configured start, indexing starts exactly where the committed ranges end |
| Poller.IndexerPoller.GetBlockTimestamp | services/infra/src/indexer/poller.ts:142-152 | always the chain's value, for any calls before; the cache agrees with the chain and holds at most 1024 entries after every call |
| Poller.IndexerPoller.Remember | services/infra/src/indexer/poller.ts:147-151 | a new entry goes last, and beyond 1024 exactly the oldest goes |
| Poller.IndexerPoller.ResolveStartBlock | services/infra/src/indexer/poller.ts:129-140 | the start block in all five cases |
| Poller.IndexerPoller.IndexBatch | services/infra/src/indexer/poller.ts:99-126 | a batch commits its range or none, failing anywhere; the record keeps explaining the database; when nothing outside fails and intent hashes are fresh, it commits |
| Poller.IndexerPoller.IndexRange | services/infra/src/indexer/poller.ts:94-127 | terminates; committed ranges are only added, contiguous, each batch + 1 blocks long or ending at the head |
| Poller.IndexerPoller.CatchUp | services/infra/src/indexer/poller.ts:71-75 | the same from the resolved start; success means the head is committed, and when nothing outside fails and intent hashes are fresh it succeeds; with heads that have not moved back, it leaves the tables of a single pass and only current intents active |
| Poller.IndexerPoller.CaughtUpTables | services/infra/src/indexer/poller.ts:71-75 | what a database that has caught up with the highest head holds, joined to the poller's own state |
| Poller.IndexerPoller.Loop | services/infra/src/indexer/poller.ts:83-92 | all of it over any number of polls, any heads, any failures and restarts |
| Poller.IndexerPoller.ReindexFromGenesis | services/infra/src/indexer/poller.ts:78-81 | on emptied tables a new record starts at the configured start |
| NewestFirst.SortsAgree | services/infra/src/api/feed.ts:146 | a sequence is a stable sort if and only if it is this one |
| NewestFirst.CutSourcesSuffice | services/infra/src/api/feed.ts:62-147 | for any number of newest-first sources, cutting each, concatenating, stable-sorting and cutting is sorting everything and cutting once |
| NewestFirst.CutSourcesRightIff | services/infra/src/api/feed.ts:62-147 | for any sources, if and only if every entry with fewer than limit entries ahead of it is among its source's first |
| Listings.InsertRanked | services/infra/src/store/challenges.ts:157-162 | placing a row by its rank keeps a descending listing of each row once |
| Listings.OrderDescending | services/infra/src/store/receipts.ts:146-150 | every row once, none before one that ranks higher |
| Feed.ListReceiptsByOwner | services/infra/src/store/receipts.ts:141-152 | the first rows of a listing of exactly the owner's receipts by block and log index |
| Feed.ListChallengesByOwner | services/infra/src/store/challenges.ts:150-166 | the first rows of a listing of exactly the challenges of the owner's receipts by filing block and time |
| Feed.ListIntentsByOwner | services/infra/src/store/intents.ts:119-130 | the first rows of a listing of exactly the owner's intents by block |
| Feed.ListBlockedByOwner | services/infra/src/store/blocked.ts:93-107 | the first rows of a listing of exactly the attempts of the owner or of nobody by time |
| Feed.GetFeed | services/infra/src/api/feed.ts:54-147 | queries and handler together serve the cut stable sort of the owner's four limited listings: newest first, at most `limit` entries, each the owner's with its row's columns, and nothing left out when there are fewer |
| Feed.UnlimitedRows | services/infra/src/api/feed.ts:62-70 | the four listings hold exactly the owner's receipts, the challenges of those, the owner's intents, and blocked attempts of the owner or of nobody |
| Feed.ServedEntries | services/infra/src/api/feed.ts:71-147 | every entry served is the owner's (a blocked one, or nobody's) with its row's columns and time, and a receipt's flag is the one of the detail page |
| Feed.ShortFeedIsWhole | services/infra/src/api/feed.ts:62-147 | a feed shorter than the limit leaves out none of the owner's entries |
| Feed.OwnersNewest | services/infra/src/api/feed.ts:62-147 | the feed is the newest entries of all the owner's when receipt timestamps follow blocks and the challenge and intent listings are newest-first |
| Feed.BlockedNewestFirst | services/infra/src/store/blocked.ts:99-101 | the blocked listing always is newest-first |
| Feed.ListFeed | services/infra/src/api/feed.ts:54-147 | the handler's loops, sort and slice give the cut stable sort of the four listings' entries |
| Feed.LimitsDoNotShow | services/infra/src/api/feed.ts:62-147 | with newest-first listings the feed is the newest entries of all |
| Feed.LimitsDoNotShowIff | services/infra/src/api/feed.ts:62-147 | exactly when it is, for listings in any order |
| Feed.ReceiptsNewestFirst | services/infra/src/store/receipts.ts:148 | the receipt listing is newest-first when timestamps follow blocks |
| Feed.ChallengesNewestFirstIff | services/infra/src/store/challenges.ts:157-162 | the challenge listing is newest-first exactly when no resolution is later than the stamp of a challenge listed before |
| Feed.ResolvedChallengeMissing | services/infra/src/api/feed.ts:99-113 | an owner's database, with the listings its queries return, whose feed lacks its newest entry |
| FeedOrder.ReceiptsFollowBlocks | services/infra/src/store/receipts.ts:40-106 | receipt timestamps follow blocks in every table filled from punctual logs |
| FeedOrder.StampAfterFiling | services/infra/src/api/feed.ts:103 | a challenge is stamped no earlier than filed, and as filed when resolved in the same block |
| FeedOrder.HandledInOrder | services/infra/src/indexer/poller.ts:94-127 | whatever crashed, handling goes back to an earlier block only to repeat a log |
| FeedOrder.IntentsFollowBlocks | services/infra/src/store/intents.ts:40-51 | intent rows of later blocks were not created before those of earlier blocks, replays included |
| FeedOrder.IntentsNewestFirstIff | services/infra/src/store/intents.ts:119-130 | the intent listing is newest-first exactly when its same-block ties are |
| FeedOrder.IndexedFeed | services/infra/src/api/feed.ts:62-147 | over indexed tables: receipts and blocked attempts are newest-first, challenges exactly without late resolutions, intents exactly up to same-block ties, and when all are the limits do not show |
| FeedOrder.AtOnceIsNeverLate | services/infra/src/store/challenges.ts:157-162 | challenges resolved in the block they are filed in never have a late resolution |
| FeedOrder.PolledFeed | services/infra/src/api/feed.ts:54-147 | the feed of a poller's database after any crashes is the newest of all the owner's entries, same-block intents aside, when challenges are resolved at once |
| Challengeable.FindChallengeByReceipt | services/infra/src/store/challenges.ts:126-148 | the receipt's challenge filed last, and none only if there is none |
| Challengeable.FoundIsLastFiled | services/infra/src/store/challenges.ts:126-148 | no other challenge of the receipt has a later block, or a later time in the same block |
| Challengeable.EachDecision | services/infra/src/api/feed.ts:159-179 | given one answer of the challenge query, flag, detail and eligibility say the same of a receipt, up to a missing deployment |
| Challengeable.OfferedIff | services/infra/src/api/feed.ts:71-78 | a receipt is offered if and only if its manifest is stored, it spent more than the maximum, the window (three days without a deployment) is open and its last challenge, if any, was rejected |
| Challengeable.WithinLimitNeverOffered | services/infra/src/api/challenges-prepare.ts:69-77 | a receipt at or below its manifest's maximum is never offered, nor one without a manifest |
| Challengeable.RefusalIff | services/infra/src/api/challenges-prepare.ts:47-106 | which refusal is given when, and the status in it is that of the receipt's last challenge |
| Challengeable.DecisionsAgreeIff | services/infra/src/api/challenges-prepare.ts:47-106 | whatever the database answers each of the three, they agree on a receipt if and only if it cannot be offered, or its tied last challenges agree and the deployment is loaded or they stand |
| Challengeable.ClosedForGood | services/infra/src/api/feed.ts:71-78 | once the window has closed, none of the three offers the receipt again in any later state of the run |
| Challengeable.FilingWithdraws | services/infra/src/api/feed.ts:159-179 | the challenge filed last withdraws its receipt unless it was rejected |
| Theater.AwaitingIff | apps/web/src/components/demo/demo-visualizer.ts:267-329 | the terminal frame says "Awaiting" if and only if no result is in |
| Theater.ClaimsFalselyIff | apps/web/src/components/demo/demo-visualizer.ts:267-329 | with a result in, success is claimed without one exactly for "idle" without a reason code |
| Theater.TerminalTellsResult | apps/web/src/components/demo/demo-visualizer.ts:283-328 | with a result in: failed exactly for a failed run, blocked exactly for a reason code otherwise, success for all others; a payment, recourse and the receipt link exactly when there is a receipt |
| Theater.TerminalExpects | apps/web/src/components/demo/demo-visualizer.ts:267-281 | before that: what the scenario expects, with no link |
| Theater.PlayingTimes | apps/web/src/components/demo/demo-visualizer.ts:66-229 | with the result in from the start the scenarios play for 3350, 2500 and 3500 ms |
| Theater.Visualizer.Schedule | apps/web/src/components/demo/use-demo-visualizer.ts:87-118 | arms a timer for the current phase exactly when playing, not at the end and not waiting, and queues the settle or the single step |
| Theater.Visualizer.Rerender | apps/web/src/components/demo/use-demo-visualizer.ts:87-118 | cleanup, effect and the updates it queues end in the invariant, live, where `Rest` says |
| Theater.Visualizer.Commit | apps/web/src/components/demo/use-demo-visualizer.ts:79-118 | any change of state or result object keeps the invariant: index at most terminal, terminal only with a result, a timer only for the current phase; and comes to rest where `Rest` says |
| Theater.Visualizer.Play | apps/web/src/components/demo/use-demo-visualizer.ts:123-132 | play and resume: playing from the same phase, settled at the end |
| Theater.Visualizer.Pause | apps/web/src/components/demo/use-demo-visualizer.ts:126-129 | no timer is left, the phase stays |
| Theater.Visualizer.Step | apps/web/src/components/demo/use-demo-visualizer.ts:133-136 | exactly one phase further and paused, or waiting on the hold |
| Theater.Visualizer.Replay | apps/web/src/components/demo/use-demo-visualizer.ts:137-141 | playback from the first phase is live if and only if it was not playing the first phase already |
| Theater.Visualizer.Fire | apps/web/src/components/demo/use-demo-visualizer.ts:112-115 | one phase further, settled exactly at the end |
| Theater.Visualizer.Arrive | apps/web/src/components/demo/use-demo-visualizer.ts:99-118 | a new result object re-runs the effect, revives a waiting playback and completes a waiting step |
| Theater.Visualizer.NewRun | apps/web/src/components/demo/use-demo-visualizer.ts:79-84 | shows the old terminal phase once with "Awaiting" if it was there, then is back at the first phase without a result; live if and only if the reset changed something |
| Theater.Visualizer.TerminalFrame | apps/web/src/components/demo/use-demo-visualizer.ts:143-144 | between events the terminal frame, when shown, does not say "Awaiting" and is true to the result as `TerminalTellsResult` says |
| Theater.Visualizer.RunToEnd | apps/web/src/components/demo/use-demo-visualizer.ts:87-118 | live playback with a result settles after exactly the remaining phases and their durations |
| Usdc.RoundTripIff | apps/web/src/lib/constants.ts:62-69 | the text reads back as the amount if and only if the amount is not negative or is whole |
| KnownTexts.Amounts | apps/web/src/lib/constants.ts:62-69 | the texts of 0, 1, 1500000, 2000000 and -1500000 millionths, the last with its second sign |
| Usdc.FaithfulOnAmounts | apps/web/src/lib/constants.ts:62-69 | on amounts the printer is injective and a fraction never ends in zero |

## Left out

- The Solidity contracts: only their events appear, as inputs of the indexer.
- Hashing and signing in TypeScript (EIP-712, EIP-191, address checksums): hashes and signatures are parameters. Only the Python Keccak is modelled, and it is not composed with UTF-8 encoding.
- The Supabase branches of the stores: a second set of non-atomic statements; the model has the SQLite ones.
- HTTP routing, request schemas, live events, IPFS pinning, retries, logging, environment and deployment loading.
- Printing and reading of fractional numbers: a fraction is the text JavaScript prints for it, and the parser reads none. Exponents, integers outside the safe range and lone surrogates are not modelled.
- Encode: NaN, the infinities and values such as functions and symbols, on which the encoder throws, are not values of the model.
- EncodeIsPrint: does not cover non-finite numbers and unsupported JavaScript values, on which the encoder throws.
- StringifyIsPrint: does not cover non-finite numbers and unsupported JavaScript values, on which it throws as it does on fractions.
- PySerializeIsPrint: does not cover NaN, Infinity and integers beyond the safe range, which Python's JSON reader accepts.
- EncodeRoundTrip: excludes fractions, whose text is JavaScript's own and which the parser of the model does not read.
- EncodeDetermines: excludes fractions for the same reason.
- The texts of error messages and of playback details.
- React rendering, wallet flows, styles, landing pages; a change of scenario without a remount, which the pages never make because they key the component by run.
- Gemini screening and summaries, demo control, the feed's event bus.
- Intents' listing order within a block: the database's choice; the poller's clock is any reading, and only the feed's order assumes that it does not go back.
- SQLite atomicity: a statement, or the transaction of insertIntentCommitted, happens or does not; a handler fails before or after it.
- Chain reorganizations: the chain is fixed, only the head varies.
- A log without block number, transaction hash or index is one that does not decode.
- One request to the feed reads the clock once.
- ListBlockedByOwner: is for a given owner, as the feed calls it; the listing for no owner is left out.
- HandleLog: does not model notifications sent after a change; their failure is a failure before the next log.
- TablesAtCheckpoint: is for positive configured starts; the fallback near the head is only in StartBlock, because there the start moves with the head until the first commit.
