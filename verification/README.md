# Zeta in Dafny

Zeta is a durable agent runtime. This project models its hardest pure logic and proves what that logic is for:
the IPC session two processes talk through, the hash-chained journal and the canonical JSON under it, the agent run
loop, prompt projection and compaction, project compilation, `$defs` hoisting, and the routing glob matcher.

`dafny verify dfyconfig.toml` checks everything.

## How it is built

- Source objects whose methods update fields are classes (`Endpoint`, `MemoryJournal`, `FrameReader`, `LocalReader`,
  `FrameWriter`, `Buffer`, `EventRegistry`, `Runner`); loops are methods with invariants. Each is proved equal to a
  specification function or to a stated property, and the theorems are about those. `Connection` joins two `Endpoint`
  objects by two queues. Beside each specification stand laws that do not mention it: what a caller sees, told from the
  inputs, the log or the steps before.
- Libraries and IO are parameters about which nothing is assumed unless a lemma says so: hash functions (`Hasher`), JSON
  readers and writers, serde conversions (`Serde`), schema validation, prompt templates and agent parsing (`Rules`), text
  encoders, and for the run loop a `World` that answers each outside call by an arbitrary function of the moment it is made.
- Hashing is never assumed injective. Results read "equal, or here are two distinct inputs with one hash".
- The serde laws a link proof needs (`Validate.Lawful`: what is written reads back) are shown to be satisfiable by
  `SerdeLaws.LawsConsistent`, with an encoding made up for the purpose.
- Numbers keep their text, as with the `arbitrary_precision` feature of serde_json. `Json.Plain` forgets the spelling of
  floats; canonical bytes determine a value up to `Plain` and no further. `Readers` is a reader of RFC 8259 JSON text
  written for the purpose, independent of the writer.

## Main results

- **Two sessions never violate the protocol** (`Links.NoViolations`, `Links.ExactlyOnePlace`). A peer and a runtime joined by
  two FIFO channels, under every interleaving of calls, deliveries and ticks, never see a violation, and every pending id is
  in exactly one place. `LinkConverse.QuietExactlyWhenCompatible` shows the setup condition is exact. Over the wire, where
  each message is read back from its JSON text, this holds exactly for ids that read back as themselves
  (`WireLinks.WireQuietExactly`), and two session objects driven through any such run keep it
  (`Connections.Connection.Drive`).
- **What an owner is told is what the other owner did** (`Histories.ReportsExplained`, `Histories.WireReportsExplained`). In
  every run a request is resolved with exactly the value or error that the owner of the other end gave, after it was handed
  exactly the request, with its parameters, that this owner asked for (`Histories.ResolvedWithAnswer`). The reports of two
  session objects driven through any run over the wire have these reasons too (`Connections.Connection.Drive`).
- **One session against any remote** (`Ledgers.BooksBalance`, `Ledgers.ClosedForever`); every method of the session object
  keeps the same books. It runs on the terms it agreed to and hands out only requests that the agreed roles entitle to
  (`SessionTerms.RuntimeHands`, `SessionTerms.PeerHands`), and an initialized end closes exactly on a shutdown by its
  supervisor or at the last tick of its patience (`Heartbeats.ClosesOnlyWhen`, `Heartbeats.SilenceCloses`).
- **Canonical text is JSON for its value** (`Canonical.CanonicalReads`): read by the rules of RFC 8259 it gives the value
  back, up to the spelling of floats, at any nesting and before any delimiter (`Canonical.EncodedReads`). Keys stand in the
  order of their UTF-8 bytes (`KeyOrder.LessIsByteOrder`).
- **The verifier accepts exactly the genuine journals** (`GenuineJournals.ChainedExactly`): distinct ids and keys, rising
  cursors, sealed payloads, and every entry linked by the chain hash of what it commits to. A refusal names the first rule
  that is broken and says truly what it saw (`GenuineJournals.FailureDiagnosed`); every append is explained the same way
  (`AppendLaws.AppendExplained`).
- **Tamper evidence** (`Chain.TamperEvident`, `Memory.ReachableTamperEvident`), on canonical JSON that determines its value up
  to the spelling of floats (`Canonical.UniqueDecoding`). It is exact: renumbered cursors and respelled payload floats, and
  nothing else, go undetected (`Chain.SameHistoryUndetected`). Manifest ids identify projects in the same sense
  (`Execution.ProjectIdentity`).
- **Framing does not depend on chunking**, for both readers, and written messages come back however the bytes are cut
  (`Wire.WireRoundTrip`, `Wire.Carry`).
- **Every run's log is a sequence of whole turns that follows the model's replies** (`Runners.Runner.Run`): each call worked
  through has its result in the log, and a group of its own exactly when its id is new (`Follows.CallAnswered`). That group
  holds what the call asked for (`Worlds.OwnCallAnswered`): the executor's validated answer under the effect of the
  capability, the built-in tool's own result and proposal, or the error of a rejected call. A completed run was stopped by a
  tool exactly when its last group asks for it, and no other group does. With this go write-ahead effect records, at most one
  result and one execution per call id, and the model-call budget, also on runs that fail.
- **The statuses in a log are true**: an executed call is recorded completed exactly when the executor's answer says so
  (`RunReports.CompletedExactly`), and an effect ends completed, ambiguous or failed by that answer and by whether its
  capability may be tried again (`RunReports.EffectEndExplained`).
- **Prompts stay paired**: for every prompt and every compaction transform, exactly when the model sees every call answered,
  every answer called for and every call first (`PromptExactly.PromptPairedExactly`). Unique call ids are enough
  (`Assembly.PromptPaired`). Without a transform the model sees the timeline from the first of its last fifty events that is
  not a tool result, every user text in its place, and nothing older (`Assembly.PromptRemembers`).
- **Compilation is canonical** (`Manifests.OrderIrrelevant`, `Manifests.RecompileFixpoint`, `Execution.RestoresExactly`,
  `Execution.ExecutionVerifies`); what an agent gets is told from the declarations (`Selections.CompiledSkills`,
  `Selections.CompiledTools`). The derived schema admits exactly the events of its types
  (`Admission.DocumentAdmits`), and **hoisting preserves where references lead and what data says**, for every vocabulary
  of keywords, exactly when each followed local reference names an own definition or leads nowhere before and after, and no
  data carries the text of a reference to an own definition (`Derived.MeansExactly`).
- **The memoised glob matcher is the declarative match** (`Globs.GlobMatches`), which means what people write patterns for
  (`Wildcards.StarMatches`); **the weekday is right for every date**
  (`Calendar.WeekdayCorrect`).

## What the code does not promise

- Dropping old messages can unpair a prompt: two exchanges without ids, one in the timeline and one in the current run, both
  get the fallback id `call-0`, and dropping the old call takes the new result with it (`Mispaired.FallbackLosesResult`).
  Projection alone can put a result before the only call left (`Mispaired.CalledAgainReorders`).
- In the run loop a later turn's call without an id reuses `call-<index>` and is passed over as already answered; a run in
  which that happens is `Runners.PassedOver`. A call is also passed over behind one of the same reply that goes by its id,
  be it a repetition or a call named like its fallback (`Follows.TwiceInOneReply`). `Follows.CallAnswered` says exactly when
  a call gets a result of its own.
- An event schema loses meaning by hoisting when it refers to its root (`LostMeanings.RootReferenceLost`), into one of its
  definitions (`LostMeanings.InnerReferenceLost`), or to a definition it lacks that another event's renamed one supplies
  (`LostMeanings.DanglingReferenceCaptured`). References are rewritten inside `const` and other data too, so a schema with
  such data admits another value afterwards (`LostMeanings.LiteralRewritten`).
- A type that an agent answers with twice is refused by the derived schema, whose branches must not both admit a value
  (`Admission.ListedTwice`).
- The condition on hoisting is about where references lead, not about validation: a reference may lead elsewhere and find an
  equal schema there, as in `{"oneOf":[{"additionalProperties":false}],"not":{"$ref":"#/oneOf/0/additionalProperties"}}`
  (`LostMeanings.TwinSurvives`). Keeping the places always keeps the schemas (`LostMeanings.MeansSame`).
- A message parses back to itself exactly when it is well formed: a non-empty method, signed ids negative, error data not an
  explicit null (`Messages.MessageRoundTrip`); the one parsed value that is not well formed has the id `-0`
  (`Messages.ParsedIsWellFormed`). A session that uses a non-negative signed id sees a violation (`WireLinks.StrayViolates`).
- Once an executor answer is validated, the later normalization step never changes it (`ToolResults.NormalizeIdle`), and once
  an agent is normalized, looking its tools and skills up again cannot fail (`Projects.NormalizedResolves`).

## Model

| member | source | states |
|---|---|---|
| ReadBacks.NumberBack | crates/zeta-substrate/src/objects.rs:361-388 | the text of a number is an RFC 8259 number that reads back as it, up to the spelling of a float, before any delimiter |
| ReadBacks.StringBack | crates/zeta-substrate/src/objects.rs:356-359 | an escaped string reads back, by the escapes of RFC 8259, as the string, whatever follows |
| ReadBacks.NumberTextInjective | crates/zeta-substrate/src/objects.rs:361-388 | numbers share a text exactly when they are equal up to the spelling of a float |
| ReadBacks.RescaleDenotes | crates/zeta-substrate/src/objects.rs:361-406 | rewriting a shortest float text to fixed notation writes the same decimal |
| ReadBacks.StringPrefix | crates/zeta-substrate/src/objects.rs:356-359 | two escaped strings that start one text are the same string |
| Canonical.WriteValue | crates/zeta-substrate/src/objects.rs:310-354 | appends exactly the encoding of the value, which reads back as the value, or reports its first fault in writing order |
| Canonical.SortKeys | crates/zeta-substrate/src/objects.rs:332-351 | object keys come out ascending, whatever the order they are visited in |
| Canonical.CanonicalJson | crates/zeta-substrate/src/objects.rs:304-308 | fails exactly on values that hold an unrepresentable number and otherwise gives a text that RFC 8259 reads as the value, up to the spelling of floats |
| Canonical.EncodedReads | crates/zeta-substrate/src/objects.rs:304-359 | the encoding before any delimiter reads as the value, up to the spelling of floats, and leaves the rest |
| Canonical.CanonicalReads | crates/zeta-substrate/src/objects.rs:304-359 | the encoding as a whole text reads as the value, up to the spelling of floats |
| KeyOrder.LessIsCodeOrder | crates/zeta-substrate/src/objects.rs:332-351 | keys compare at the first character that differs |
| KeyOrder.LessIsByteOrder | crates/zeta-substrate/src/objects.rs:332-351 | sorting by code point is sorting by the UTF-8 bytes of the keys |
| Canonical.UniqueDecoding | crates/zeta-substrate/src/objects.rs:304-359 | one delimited text is the encoding of at most one value, up to the spelling of floats, and one remainder, at any nesting |
| Canonical.EncodeInjective | crates/zeta-substrate/src/objects.rs:304-359 | equal bytes if and only if equal values up to the spelling of floats |
| Hashing.HexTextDigits | crates/zeta-substrate/src/hash.rs:57-76 | each byte is written as its two lower-case hexadecimal digits, the high one first |
| Hashing.HashTextInjective | crates/zeta-substrate/src/hash.rs:57-76 | two addresses print alike if and only if they are equal |
| Chain.ChainValueInjective | crates/zeta-journal/src/chain.rs:69-103 | the hashed value determines every event field but payload and cursor, the payload address and the previous entry |
| Chain.ChainValueEncodable | crates/zeta-journal/src/chain.rs:69-103 | the hashed value always has a canonical encoding |
| Chain.EntryAddress | crates/zeta-journal/src/chain.rs:131-138 | the address is the chain hash of the canonical chain bytes |
| Chain.NewEntry | crates/zeta-journal/src/chain.rs:202-222 | a new entry is minted with checked identity fields, payload address, previous link and address |
| Chain.Verify | crates/zeta-journal/src/chain.rs:263-423 | accepts exactly the well-chained sequences that meet the expected head, and otherwise reports the first divergence; which they are is stated by `GenuineJournals.ChainedExactly` and `GenuineJournals.FailureDiagnosed` |
| Chain.CheckEntry | crates/zeta-journal/src/chain.rs:282-397 | one entry is accepted exactly when it follows the entries before it, as `GenuineJournals.FaultExactly` spells out |
| Chain.SameAddress | crates/zeta-journal/src/chain.rs:131-138 | entries with one address have the same record and the same history before them, or a collision is returned |
| Chain.TamperEvident | crates/zeta-journal/src/chain.rs:263-423 | two verified sequences with one head have equal histories up to cursors and the spelling of payload floats, or a collision is returned |
| Chain.SameHistoryUndetected | crates/zeta-journal/src/chain.rs:69-103 | any sequence with the same history up to cursors and float spelling, in cursor order, verifies with the same head |
| GenuineJournals.FaultExactly | crates/zeta-journal/src/chain.rs:282-397 | an entry follows exactly when its cursor rises, its id and key are new, it is named, sealed and bound, and it names the last address |
| GenuineJournals.ChainedExactly | crates/zeta-journal/src/chain.rs:263-423 | a sequence verifies if and only if ids and keys are distinct, cursors present, positive and rising, every entry named, sealed by the content address of its canonical payload, linked to the one before and addressed by the chain hash of the twelve-place array |
| GenuineJournals.FaultDiagnosed | crates/zeta-journal/src/chain.rs:282-397 | a reported divergence is the first rule that the entry breaks, with what was expected and seen; a duplicate comes with an earlier entry of that id or key |
| GenuineJournals.FailureDiagnosed | crates/zeta-journal/src/chain.rs:263-423 | a failure is at the first entry that does not continue a genuine journal, or at its head |
| GenuineJournals.CommitmentReads | crates/zeta-journal/src/chain.rs:69-103 | the hashed bytes are JSON for the twelve-place array, and the stored payload bytes for the payload |
| Memory.MemoryJournal.constructor | crates/zeta-journal/src/memory.rs:40-48 | a new journal is empty and valid |
| Memory.MemoryJournal.Append | crates/zeta-journal/src/memory.rs:84-153 | the new state and answer are those of the append function; the indexes stay in step with the entries |
| Memory.MemoryJournal.ListEvents | crates/zeta-journal/src/memory.rs:201-234 | the listed events are the matching ones in the asked order, cut to the limit |
| Memory.MemoryJournal.CausalChain | crates/zeta-journal/src/memory.rs:263-279 | always ends, also on causal cycles, with a repeat-free parent-to-child path ending at the target |
| Memory.AppendKeeps | crates/zeta-journal/src/memory.rs:84-153 | every append keeps the journal verifiable and append-only; failed and duplicate appends change nothing |
| Memory.AppendIdempotent | crates/zeta-journal/src/memory.rs:84-153 | appending an event again changes nothing and answers with the stored event |
| AppendLaws.AppendExplained | crates/zeta-journal/src/memory.rs:84-153 | an append adds the event once at the next cursor when nothing stored has its id or key, answers with the stored event of its id and payload or of its key, or is refused for a stated reason; only the first changes the journal |
| Memory.AppendAll | crates/zeta-journal/src/memory.rs:84-153 | every journal reached by any appends verifies against its own head and has exact indexes |
| Memory.ReachableTamperEvident | crates/zeta-journal/src/memory.rs:84-153 | any verified sequence with the head of a reachable journal is that journal up to cursors and float spelling, or a collision is returned |
| Memory.ListedExactly | crates/zeta-journal/src/memory.rs:320-388 | listed events carry every field asked for; unless a limit cut the list, every other stored event differs in one of them |
| Memory.ListedInOrder | crates/zeta-journal/src/memory.rs:201-234 | events are listed in the asked order of their cursors, and a limit cuts off those that come last |
| Memory.LookupScans | crates/zeta-journal/src/memory.rs:187-190 | the id index answers exactly as a scan of the entries |
| Memory.PageSplits | crates/zeta-journal/src/memory.rs:201-234 | the next page starts where the last one ended |
| Memory.PagesComplete | crates/zeta-journal/src/memory.rs:201-234 | paging by cursor with any positive limit gives every matching event once, in order |
| Messages.IdRoundTrip | crates/zeta-ipc/src/message.rs:36-66 | an id reads back as itself exactly when a signed id is negative |
| Messages.ErrorRoundTrip | crates/zeta-ipc/src/message.rs:356-382 | an error object reads back as itself exactly when its data is not an explicit null |
| Messages.MessageShape | crates/zeta-ipc/src/message.rs:272-313 | each kind of message has exactly the members that JSON-RPC 2.0 names |
| Messages.MessageRoundTrip | crates/zeta-ipc/src/message.rs:226-382 | a message reads back as itself exactly when it is well formed |
| Messages.ParsedIsWellFormed | crates/zeta-ipc/src/message.rs:226-261 | what parses is well formed unless its id is the number -0 |
| Validate.IsDistinct | crates/zeta-ipc/src/validate.rs:134-165 | the growing-set check finds repetitions and nothing else |
| Endpoints.Endpoint.Begin | crates/zeta-ipc/src/session.rs:201-231 | an accepted start is booked as one request asked, a refused one changes nothing; the books stay balanced |
| Endpoints.Endpoint.Ask | crates/zeta-ipc/src/session.rs:233-265 | an accepted request has a new id, becomes pending within the window and is booked once; a refused one changes nothing |
| Endpoints.Endpoint.Complete | crates/zeta-ipc/src/session.rs:318-340 | answers exactly a request being handled, once, and books it; otherwise nothing changes |
| Endpoints.Endpoint.Fail | crates/zeta-ipc/src/session.rs:342-357 | answers exactly a request being handled, once, and books it; otherwise nothing changes |
| Endpoints.Endpoint.Tick | crates/zeta-ipc/src/session.rs:364-386 | keeps the books balanced and books the ping it sends, if any |
| Endpoints.Endpoint.Hear | crates/zeta-ipc/src/session.rs:298-312 | any message from any remote keeps the books balanced: handled requests and consumed responses are booked, a closed end does nothing; what its reports say is stated by `Histories.ReportsExplained` |
| Endpoints.Endpoint.HearInitialize | crates/zeta-ipc/src/session.rs:448-509 | the role loop decides initialization as specified and keeps the books balanced under the negotiated window |
| Links.GatesAgree | crates/zeta-ipc/src/session.rs:683-842 | whatever one end may send, the other end admits |
| Links.RequestFits | crates/zeta-ipc/src/session.rs:388-446 | a delivered request is new to the receiver and within its window |
| Links.PerformKeeps | crates/zeta-ipc/src/session.rs:201-386 | every local call keeps each id in at most one place and pending |
| Links.DeliverKeeps | crates/zeta-ipc/src/session.rs:298-312 | every delivery is free of violations and keeps the ends joined |
| Links.StepSafe | crates/zeta-ipc/src/session.rs:201-681 | every step from an invariant state is quiet and keeps the invariant, in all phases of initialization |
| Links.NoViolations | crates/zeta-ipc/src/session.rs:201-681 | in every run of a compatible setup no receive reports a violation |
| Links.ExactlyOnePlace | crates/zeta-ipc/src/session.rs:233-265 | in every run a pending id is in exactly one of request channel, remote table or response channel, within the window |
| LinkConverse.QuietExactlyWhenCompatible | crates/zeta-ipc/src/validate.rs:89-132 | a setup never sees a violation if and only if it would not initialize, or roles, result and shutdown directions fit |
| LinkConverse.UnopposedAuthority | crates/zeta-ipc/src/session.rs:511-535 | a run with mismatched shutdown directions that reports a violation |
| Ledgers.RequestTables | crates/zeta-ipc/src/session.rs:388-535 | a request enters the table once, within the window and after initialization, or leaves the tables alone |
| Ledgers.ResponseTables | crates/zeta-ipc/src/session.rs:537-681 | a response to a pending request frees it; any other message but a request leaves the tables alone |
| Ledgers.HappenBalanced | crates/zeta-ipc/src/session.rs:298-357 | each call or message from any remote keeps the books balanced |
| Ledgers.BooksBalance | crates/zeta-ipc/src/session.rs:233-681 | against any remote: handled equals answered plus incoming, asked equals consumed plus outgoing, incoming within the window |
| Ledgers.NewEndsBalanced | crates/zeta-ipc/src/session.rs:127-161 | both fresh ends start with balanced books |
| Ledgers.ClosedForever | crates/zeta-ipc/src/session.rs:298-312 | a closed session never reopens, sends no request and consumes no response |
| Ledgers.ClosedStep | crates/zeta-ipc/src/session.rs:298-302 | a closed session acts on no message |
| Histories.ReportsExplained | crates/zeta-ipc/src/session.rs:298-681 | in every run of a compatible setup, a resolution has the answer the other owner gave to the request it was handed, a handed request and a notification were asked for with these parameters, a ping or shutdown resolves empty, and a close has its shutdown |
| Histories.WireReportsExplained | crates/zeta-ipc/src/session.rs:298-681 | the same over the wire, where null error data reads as none |
| Histories.ResolvedWithAnswer | crates/zeta-ipc/src/session.rs:575-593 | a request is resolved with v or e exactly as the other owner completed or failed it, after it was handed it, after this owner asked for it with the same parameters |
| Histories.HandedWasAsked | crates/zeta-ipc/src/session.rs:388-446 | a handed request is one the other owner asked for, with these parameters |
| Origins.KnownResponse | crates/zeta-ipc/src/session.rs:575-681 | freeing the id of a response leaves nothing else of that id in either direction |
| SessionTerms.RuntimeTerms | crates/zeta-ipc/src/session.rs:448-509 | against any remote an initialized runtime took over valid parameters: supported roles, its own version and configuration, the heartbeat of the peer or else its own, the smaller window |
| SessionTerms.PeerTerms | crates/zeta-ipc/src/session.rs:595-653 | against any remote an initialized peer runs within the window of a valid result for its roles |
| SessionTerms.HandedEntitled | crates/zeta-ipc/src/session.rs:683-842 | a request is handed out only to an initialized end with room, under a free id, when the roles of the peer entitle to its method and type |
| SessionTerms.RuntimeHands | crates/zeta-ipc/src/session.rs:752-815 | in every history of a runtime, what its owner is handed keeps to the agreed roles and window |
| SessionTerms.PeerHands | crates/zeta-ipc/src/session.rs:776-785 | in every history of a peer, what its owner is handed is a method it declared as a provider |
| Heartbeats.SilenceCloses | crates/zeta-ipc/src/session.rs:364-386 | while nothing is heard a supervising end stays open for exactly as many ticks as it has patience, whatever else its owner calls |
| Heartbeats.MessageRestores | crates/zeta-ipc/src/session.rs:298-312 | any message restores all patience |
| Heartbeats.TickPings | crates/zeta-ipc/src/session.rs:364-386 | silence is met with a ping at every tick but the first, as far as window and id allow |
| Heartbeats.ShutdownCloses | crates/zeta-ipc/src/session.rs:511-535 | the only message that closes an initialized end is a valid shutdown by its supervisor |
| Heartbeats.ClosesOnlyWhen | crates/zeta-ipc/src/session.rs:364-535 | whatever happens, an initialized end closes exactly at the last tick of its patience or on that shutdown |
| WireLinks.LandedIsRead | crates/zeta-ipc/src/frame.rs:155-206 | what a link delivers is what any agreeing writer and reader deliver for the message |
| WireLinks.HeadsRead | crates/zeta-ipc/src/message.rs:226-261 | whatever is on the wire in a reachable state can be parsed |
| WireLinks.WireNoViolations | crates/zeta-ipc/src/session.rs:201-681 | over the wire, in every run of a compatible setup whose ids are canonical, no receive reports a violation |
| WireLinks.StrayViolates | crates/zeta-ipc/src/message.rs:36-66 | with a signed id that is not negative the answer to initialize is reported as a violation |
| WireLinks.WireQuietExactly | crates/zeta-ipc/src/session.rs:201-681 | over the wire a compatible setup that initializes is always quiet if and only if its ids read back as themselves |
| Connections.Connection.constructor | crates/zeta-ipc/src/session.rs:127-161 | two fresh session objects and empty queues satisfy the link invariant |
| Connections.Connection.Act | crates/zeta-ipc/src/session.rs:233-386 | any call on either end keeps the link invariant and both books |
| Connections.Connection.Deliver | crates/zeta-ipc/src/session.rs:298-312 | delivering the next message to either end keeps the link invariant and reports no violation |
| Connections.Connection.Drive | crates/zeta-ipc/src/session.rs:201-681 | two session objects driven through any interleaving end where the link specification ends, with no violation reported, and every report has its reason in the steps before |
| Frames.FrameReader.ReadFrame | crates/zeta-ipc/src/frame.rs:79-110 | the next frame is that of the split-on-newline specification, whatever the chunks; the buffer stays within limit plus one read |
| Frames.FrameReader.Discard | crates/zeta-ipc/src/frame.rs:112-134 | an overlong line is skipped up to its newline and reported once |
| Frames.ReadAll | crates/zeta-ipc/src/frame.rs:79-134 | reading to the end gives the frames of the joined stream, for every chunking |
| Frames.LocalReader.ReadFrame | crates/zeta/src/lib.rs:683-719 | the second reader meets the same specification |
| Frames.LocalReader.Gather | crates/zeta/src/lib.rs:683-719 | one line is collected up to its newline, keeping at most one byte over the limit |
| Frames.FrameExactly | crates/zeta-ipc/src/frame.rs:145-217 | what a line stands for, by its length and its text without carriage returns at the end; the id of a malformed request is recovered exactly when it has one |
| Frames.KeptFrame | crates/zeta/src/lib.rs:721-727 | dropping the tail of an overlong line does not change its frame |
| Wire.FrameWriter.WriteMessage | crates/zeta-ipc/src/frame.rs:248-253 | one line is appended for each message |
| Wire.WireRoundTrip | crates/zeta-ipc/src/frame.rs:155-206 | messages written one after the other are read back in order under any chunking |
| Wire.Carry | crates/zeta-ipc/src/frame.rs:79-206 | messages written by the writer, cut anywhere and read by the reader come out as they went in |
| Wire.CanonicalDeliverable | crates/zeta-ipc/src/message.rs:272-313 | a well-formed message within the limit is deliverable with the canonical encoding and the RFC 8259 reader |
| Wire.EncodePrintable | crates/zeta-substrate/src/objects.rs:304-359 | canonical text never contains a newline |
| Globs.CharacterClass | crates/zeta-dispatch/src/routing.rs:763-801 | finds the end of a class and whether a character is in it, with ranges and negation |
| Globs.SplitStar | crates/zeta-dispatch/src/routing.rs:712-721 | a star matches nothing or one more character |
| Globs.SplitOne | crates/zeta-dispatch/src/routing.rs:722-757 | any other token matches exactly one character |
| Globs.MatchSuffix | crates/zeta-dispatch/src/routing.rs:700-761 | the memoised answer is the declarative match, and so is every memo entry |
| Globs.GlobMatches | crates/zeta-dispatch/src/routing.rs:693-698 | true if and only if the candidate splits into parts that fit the tokens |
| Wildcards.PlainMatches | crates/zeta-dispatch/src/routing.rs:693-761 | a pattern without special characters matches only itself |
| Wildcards.StarMatches | crates/zeta-dispatch/src/routing.rs:712-721 | such a pattern and a star match exactly the strings that start with it |
| Wildcards.AnyMatches | crates/zeta-dispatch/src/routing.rs:722-757 | and a question mark: one more character |
| Wildcards.RangeMatches | crates/zeta-dispatch/src/routing.rs:763-801 | and a range: one more character within it |
| Wildcards.NotMatches | crates/zeta-dispatch/src/routing.rs:763-801 | and a negated class: one more character that is not in it |
| Calendar.NextDayCounts | crates/zeta-agent/src/prompt.rs:733-753 | the day number rises by one from each real date to the next |
| Calendar.EpochIsDayZero | crates/zeta-agent/src/prompt.rs:733-753 | 1970-01-01 is day zero and a Thursday |
| Calendar.Reaches | crates/zeta-agent/src/prompt.rs:706-731 | every later date is reached by counting days |
| Calendar.WeekdayCorrect | crates/zeta-agent/src/prompt.rs:733-753 | between any two dates the day numbers count the calendar days and the names advance by as many |
| Calendar.FitsI32 | crates/zeta-agent/src/prompt.rs:733-753 | for accepted dates of four-digit years every intermediate value fits 32 bits, and the days of the year and of the era stay in range |
| Prompts.MessageEntries | crates/zeta-agent/src/prompt.rs:873-887 | the loop computes the projected entries |
| Prompts.EntriesOrdered | crates/zeta-agent/src/prompt.rs:889-985 | projection never answers a call before a message introduced it |
| Recollections.EntriesFaithful | crates/zeta-agent/src/prompt.rs:873-985 | every projected message renders an event at its place: user text, assistant text and calls, a call, a result |
| Recollections.ProjectionShown | crates/zeta-agent/src/prompt.rs:838-1055 | what a projection shows renders its events in their order, and every user text is shown in its place |
| Prompts.KeepAnswered | crates/zeta-agent/src/prompt.rs:1029-1055 | the three loops compute the answered entries |
| Prompts.AnsweredExactly | crates/zeta-agent/src/prompt.rs:1029-1085 | always: the answered ids are exactly the introduced ids |
| Prompts.AnsweredOrdered | crates/zeta-agent/src/prompt.rs:1029-1085 | with unique ids, kept calls still precede kept results |
| Compaction.ProjectTimeline | crates/zeta-agent/src/prompt.rs:838-871 | the components of a timeline, with tool names looked up among earlier calls |
| Compaction.RecordToolNames | crates/zeta-agent/src/prompt.rs:1087-1107 | later names replace earlier ones for the same id |
| Naming.ResultNamed | crates/zeta-agent/src/prompt.rs:838-871 | a projected result goes by the name of the last call before it with its id, or by none |
| Naming.TokensCover | crates/zeta-agent/src/prompt.rs:576-599 | a token stands for up to four characters of the text shown |
| Compaction.DropOne | crates/zeta-agent/src/prompt.rs:559-572 | removes a component and the later results of its calls |
| Compaction.OldestHistorical | crates/zeta-agent/src/prompt.rs:610-619 | the first historical component with a message |
| Compaction.EstimatedTokens | crates/zeta-agent/src/prompt.rs:576-599 | the sum of the component estimates |
| Compaction.DropOldest | crates/zeta-agent/src/prompt.rs:552-574 | ends with a subsequence that fits or has no historical message left |
| Compaction.DropSound | crates/zeta-agent/src/prompt.rs:552-574 | dropping the oldest exchange keeps calls and results paired and ordered |
| Compaction.OldestIsNoResult | crates/zeta-agent/src/prompt.rs:610-619 | the oldest historical message is never a result |
| Compaction.DropKeepsLive | crates/zeta-agent/src/prompt.rs:642-657 | nothing outside the history is dropped |
| Compaction.DroppedSound | crates/zeta-agent/src/prompt.rs:552-574 | the whole loop keeps pairing and every live component |
| Assembly.ApplyStructuralTrim | crates/zeta-agent/src/prompt.rs:406-495 | replaces exactly the large historical read and grep results; fails only without a source object |
| Assembly.TrimmedExactly | crates/zeta-agent/src/prompt.rs:406-495 | trimming replaces the text of exactly the past read and grep results over the bound, and nothing else |
| Assembly.TrimPaired | crates/zeta-agent/src/prompt.rs:406-495 | stubs answer the calls their contents answered |
| Assembly.FromMessageBoundary | crates/zeta-agent/src/prompt.rs:830-836 | skips leading tool results |
| Assembly.TailBoundary | crates/zeta-agent/src/prompt.rs:253-254 | the timeline is taken from its first event, among the last fifty, that is not a tool result, or from its end |
| Assembly.PromptRemembers | crates/zeta-agent/src/prompt.rs:184-326 | untransformed messages: the fixed parts as they are, between them renderings of events among the last fifty in order with every user text from the boundary on, then those of the current events |
| Assembly.TimelineAnswered | crates/zeta-agent/src/prompt.rs:838-871 | a projected timeline answers exactly the calls it keeps |
| Assembly.TimelineSound | crates/zeta-agent/src/prompt.rs:838-871 | with unique ids a projected timeline is paired and ordered |
| Assembly.ComponentsSound | crates/zeta-agent/src/prompt.rs:209-284 | the assembled prompt is paired and ordered |
| Assembly.ApplyTransform | crates/zeta-agent/src/prompt.rs:393-404 | applies the chosen transform and no other |
| Assembly.TransformPaired | crates/zeta-agent/src/prompt.rs:393-404 | every transform keeps the messages paired and ordered |
| Assembly.BuildPrompt | crates/zeta-agent/src/prompt.rs:184-326 | the messages are those of the transformed, addressed components; without a transform they show the last fifty events from their boundary on and nothing older |
| Assembly.PromptPaired | crates/zeta-agent/src/prompt.rs:184-326 | every call answered, every answer called for, every call first |
| Pairing.DropExactly | crates/zeta-agent/src/prompt.rs:552-574 | one drop keeps order, and keeps pairing exactly when ids shared with kept calls were answered before and no only result is dropped |
| Pairing.LoopSweeps | crates/zeta-agent/src/prompt.rs:552-574 | however many drops the token loop makes, the outcome is one sweep over the start of the history |
| Pairing.SweptExactly | crates/zeta-agent/src/prompt.rs:552-574 | after any number of drops the rest is in order, and paired exactly when no dropped id is introduced again outside the lead |
| PromptExactly.EarlyExactly | crates/zeta-agent/src/prompt.rs:1029-1085 | after the answered filter an id is answered too early exactly when a result of it precedes every kept call of it |
| PromptExactly.UnchangedExactly | crates/zeta-agent/src/prompt.rs:184-326 | an uncompacted prompt is paired if and only if no id is answered too early |
| PromptExactly.TrimExactly | crates/zeta-agent/src/prompt.rs:406-495 | trimming neither breaks nor repairs pairing |
| PromptExactly.DropOldestExactly | crates/zeta-agent/src/prompt.rs:552-574 | for every prompt and bound: paired exactly when what is left is ordered and answered by what is left |
| PromptExactly.DropOldestPaired | crates/zeta-agent/src/prompt.rs:552-574 | a paired prompt stays paired under a bound exactly when no dropped call shares its id with a kept one, but for supplied ids |
| PromptExactly.PromptPairedExactly | crates/zeta-agent/src/prompt.rs:184-326 | for every supplied prompt and every transform, pairing if and only if a condition read off the input |
| Mispaired.FallbackLosesResult | crates/zeta-agent/src/prompt.rs:929-933 | a prompt that is paired and, with a bound of zero, loses the result of its current call |
| Mispaired.CalledAgainReorders | crates/zeta-agent/src/prompt.rs:1029-1055 | a timeline whose projected result stands before the only call left |
| Registries.EventRegistry.constructor | crates/zeta-manifest/src/event.rs:39-43 | a new registry is empty |
| Registries.EventRegistry.Register | crates/zeta-manifest/src/event.rs:66-95 | accepts exactly declarable events that do not conflict; the same declaration again changes nothing |
| Registries.EventRegistry.RegisterAll | crates/zeta-manifest/src/project.rs:138-140 | a vocabulary is merged exactly when all of it is declarable and nothing conflicts |
| Hoisting.RenamedInjective | crates/zeta-manifest/src/event.rs:315-318 | renamed definitions of any branches never collide |
| Hoisting.MergedKeeps | crates/zeta-manifest/src/event.rs:219-222 | no branch overwrites a definition of another |
| Hoisting.HoistLocalDefinitions | crates/zeta-manifest/src/event.rs:307-334 | the rewritten payload and the renamed definitions |
| Hoisting.DeriveReturnsSchema | crates/zeta-manifest/src/event.rs:194-256 | nothing for no events, the first unknown event as error, otherwise one branch an event and the merged definitions |
| Admission.BranchAdmits | crates/zeta-manifest/src/event.rs:194-256 | a branch admits exactly the objects with the type of its event and a payload its schema admits, and no other member |
| Admission.DocumentAdmits | crates/zeta-manifest/src/event.rs:194-256 | the derived schema admits exactly the values that are an event of one, and of only one, of its types |
| Admission.ListedTwice | crates/zeta-manifest/src/event.rs:194-256 | a type listed twice with one payload schema is refused, though each branch alone admits it |
| SchemaMeaning.UntouchedExactly | crates/zeta-manifest/src/event.rs:336-357 | data is left alone exactly when no reference text in it names an own definition |
| SchemaMeaning.RewriteMeans | crates/zeta-manifest/src/event.rs:336-357 | safe references, resolved as JSON pointers, lead after rewriting to what they led to, to any depth, and data stays |
| SchemaMeaning.KeptExactly | crates/zeta-manifest/src/event.rs:336-357 | a rewritten schema is kept to every depth if and only if it and all its rewritten references lead to are safe |
| Derived.MeansExactly | crates/zeta-manifest/src/event.rs:194-357 | for every vocabulary, an event schema keeps its meaning in the derived document if and only if each followed local reference names an own definition or leads nowhere before and after, and data names none |
| Derived.DerivedMeans | crates/zeta-manifest/src/event.rs:194-256 | a schema whose local references all name own definitions and whose data names none stands at its branch and unfolds as it did on its own |
| LostMeanings.RootReferenceLost | crates/zeta-manifest/src/event.rs:336-357 | a schema that refers to its root loses its meaning |
| LostMeanings.InnerReferenceLost | crates/zeta-manifest/src/event.rs:336-357 | a schema that refers into one of its definitions loses its meaning |
| LostMeanings.Captured | crates/zeta-manifest/src/event.rs:307-357 | a reference to a missing definition that bears a renamed name changes meaning |
| LostMeanings.DanglingReferenceCaptured | crates/zeta-manifest/src/event.rs:307-357 | two schemas for which that happens |
| LostMeanings.TouchedData | crates/zeta-manifest/src/event.rs:336-357 | data that reads like a reference to an own definition is changed and the meaning lost |
| LostMeanings.LiteralRewritten | crates/zeta-manifest/src/event.rs:336-357 | a schema whose only admitted value is changed by hoisting |
| LostMeanings.DataKept | crates/zeta-manifest/src/event.rs:307-357 | without definitions data keeps its meaning, whatever text it holds |
| LostMeanings.MeansSame | crates/zeta-manifest/src/event.rs:194-357 | where the places are kept, equal schemas are found |
| LostMeanings.TwinSurvives | crates/zeta-manifest/src/event.rs:194-357 | a schema whose reference leads elsewhere and finds an equal schema there |
| Keyed.Index | crates/zeta-manifest/src/project.rs:142-150 | succeeds exactly when every declaration is valid and no key repeats |
| Keyed.PermutedIndex | crates/zeta-manifest/src/project.rs:142-150 | the order of declarations does not change the index |
| Projects.SelectedCapability | crates/zeta-manifest/src/project.rs:727-759 | an id, else the only capability with that alias; none and several are told apart |
| Projects.NormalizeTools | crates/zeta-manifest/src/project.rs:659-725 | inherited tools are the shared and own ones sorted; listed tools keep first occurrences, own ones follow |
| Projects.NormalizedResolves | crates/zeta-manifest/src/project.rs:761-786 | lookups after normalization cannot fail |
| Compilation.IndexConnectors | crates/zeta-manifest/src/project.rs:114-137 | connectors are indexed and their events merged exactly when valid, distinct and without shared events |
| Compilation.RegisterSchedules | crates/zeta-manifest/src/project.rs:200-204 | schedule events are added exactly when they fit |
| Compilation.ValidateAgent | crates/zeta-manifest/src/project.rs:238-301 | accepts exactly the admissible agents |
| Compilation.NormalizeAgent | crates/zeta-manifest/src/project.rs:637-725 | normalizes exactly the agents that fit |
| Compilation.NormalizeAll | crates/zeta-manifest/src/project.rs:206-217 | every agent or none |
| Compilation.CompileProject | crates/zeta-manifest/src/project.rs:101-230 | compiles exactly the compilable inputs, to the compiled project |
| Selections.CompiledSkills | crates/zeta-manifest/src/project.rs:637-657 | an agent that inherits skills has every resource and every skill in order; any other has what it lists |
| Selections.CompiledTools | crates/zeta-manifest/src/project.rs:659-759 | an agent that inherits tools has every capability without an owner or of its own; any other has those it names, by id or by an alias of one only, and its own; nothing else of it changes |
| Selections.ToolsInOrder | crates/zeta-manifest/src/project.rs:659-725 | named tools come first in the order they are named, the other own ones follow ascending |
| Selections.CompiledEvents | crates/zeta-manifest/src/project.rs:114-140 | the vocabulary is exactly what connectors, the project and schedules declare |
| Manifests.OrderIrrelevant | crates/zeta-manifest/src/project.rs:101-230 | permuting the declarations changes neither success nor project |
| Manifests.EventsFixpoint | crates/zeta-manifest/src/project.rs:138-140 | merging the merged vocabulary again changes nothing |
| Manifests.RecompileFixpoint | crates/zeta-manifest/src/manifest.rs:446-502 | restoring and recompiling a compiled project gives it back |
| Execution.CompileManifest | crates/zeta-manifest/src/manifest.rs:446-502 | restores exactly by header, sources, recompilation, body and id |
| Execution.RestoresExactly | crates/zeta-manifest/src/manifest.rs:446-502 | accepted manifests are exactly those of compilable inputs, and their project comes back |
| Execution.ManifestHash | crates/zeta-manifest/src/manifest.rs:585-603 | the content hash of the canonical JSON, absent exactly when the value has none |
| Execution.ProjectIdentity | crates/zeta-manifest/src/manifest.rs:446-502 | two accepted project manifests with one id have one body up to float spelling, or expose a collision |
| Execution.ExecutionIdentity | crates/zeta-manifest/src/manifest.rs:513-561 | an execution manifest verifies against one project body up to float spelling, or a collision is exposed |
| Execution.BuildExecution | crates/zeta-manifest/src/manifest.rs:278-412 | the projection of one agent, or nothing when a reference is absent or the revision differs |
| Execution.ProjectionExactly | crates/zeta-manifest/src/manifest.rs:278-412 | an execution carries its agent and exactly the events, skills, capabilities and connectors the agent refers to |
| Execution.CompiledResolves | crates/zeta-manifest/src/manifest.rs:278-412 | every reference of a compiled agent is present |
| Execution.ExecutionVerifies | crates/zeta-manifest/src/manifest.rs:513-561 | every agent of a compiled project has an execution manifest whenever its body encodes, and it verifies |
| Execution.ProjectEvents | crates/zeta-manifest/src/manifest.rs:301-322 | exactly the referenced events |
| Execution.ProjectSkills | crates/zeta-manifest/src/manifest.rs:324-341 | exactly the referenced skills, resources first |
| Execution.ProjectTools | crates/zeta-manifest/src/manifest.rs:343-354 | exactly the referenced capabilities |
| Execution.ProjectConnectors | crates/zeta-manifest/src/manifest.rs:356-368 | exactly the connectors that own a referenced event |
| ToolResults.ValidatedSettled | crates/zeta-agent/src/runner.rs:1686-1713 | a validated answer says whether it succeeded and carries an error when not |
| ToolResults.NormalizeIdle | crates/zeta-agent/src/runner.rs:1715-1733 | normalizing a validated answer changes nothing |
| ToolResults.StatusTerminal | crates/zeta-agent/src/runner.rs:1659-1674 | every status is terminal |
| ToolResults.HandlesDistinct | crates/zeta-agent/src/runner.rs:1806-1809 | two positions of one queue item share a handle only by a collision |
| RunStatuses.TurnsTold | crates/zeta-agent/src/runner.rs:401-449 | in the log of whole turns each call has its block of records, completed exactly when ok, refused exactly for the seven codes, failed otherwise; an effect ends completed, ambiguous when unsafe to retry, or failed; and no other result or end is recorded |
| RunReports.CompletedExactly | crates/zeta-agent/src/runner.rs:1659-1674 | the result of an executed call is recorded completed exactly when the executor answered ok |
| RunReports.EffectEndExplained | crates/zeta-agent/src/runner.rs:1792-1804 | the end of an effect belongs to an execution under its key: completed exactly when answered ok, ambiguous exactly when not and the capability is unsafe to retry, failed otherwise |
| RunReports.NothingCompleted | crates/zeta-agent/src/runner.rs:1659-1804 | without an ok answer no executed call and no effect is recorded completed |
| RunReports.EffectRetried | crates/zeta-agent/src/runner.rs:1765-1790 | an effect keeps its key when a call is tried again under its scope or for its queue item |
| RunReports.EffectScoped | crates/zeta-agent/src/runner.rs:1765-1790 | the key is that of the given scope, else of the queue item, else of the call |
| RunLogs.FlattenResults | crates/zeta-agent/src/runner.rs:314-456 | the results in a log are those of its groups, in order |
| RunLogs.OneResultEach | crates/zeta-agent/src/runner.rs:1570-1593 | no two entries of a safe log are results of one call |
| RunLogs.FlattenNotFailed | crates/zeta-agent/src/runner.rs:750-779 | whole turns contain no turn-failed record |
| RunLogs.ModelRecords | crates/zeta-agent/src/runner.rs:174-302 | one model-completed record a turn |
| Worlds.ProposalHandles | crates/zeta-agent/src/runner.rs:544-677 | waits and publications of one run have distinct handles up to a collision |
| Worlds.HandlesAgree | crates/zeta-dispatch/src/identity.rs:270-285 | every wait and publication handle of a run is the one Dispatch derives for the same item and position |
| Runners.Runner.constructor | crates/zeta-agent/src/runner.rs:39-59 | a new run is ready |
| Runners.Runner.RecordDraft | crates/zeta-agent/src/runner.rs:730-742 | only accepted drafts enter the log |
| Runners.Runner.HasTerminalResult | crates/zeta-agent/src/runner.rs:1570-1593 | finds a terminal result of the call exactly when the log has one |
| Runners.Runner.AnnounceEffect | crates/zeta-agent/src/runner.rs:471-497 | planned and started are accepted, in this order, before anything else |
| Runners.Runner.ExecuteExternal | crates/zeta-agent/src/runner.rs:498-529 | the executor is asked at most once an id, with the capability, parameters and key of the call and, with an effect key, right after its two records; its validated answer, or the error of its absence, is the result |
| Runners.Runner.RunExternal | crates/zeta-agent/src/runner.rs:458-543 | the effect of the capability, one execution of this call, the executor answer as its result, and a stop exactly when that answer says so |
| Runners.Runner.RunControl | crates/zeta-agent/src/runner.rs:544-682 | the result and the proposal of the tool, from the position of its call; a stop exactly for a wait |
| Runners.Runner.RunTool | crates/zeta-agent/src/runner.rs:374-399 | a group that answers the call: the error of a rejected one, the execution of an external one, the proposal of a built-in one |
| Runners.Runner.FinishCall | crates/zeta-agent/src/runner.rs:401-449 | one result whose status is completed exactly when ok, refused exactly for the seven codes and failed otherwise, and the end of its effect, ambiguous exactly when not ok and unsafe to retry |
| Follows.FreshExactly | crates/zeta-agent/src/runner.rs:1570-1593 | exactly the ids without a result get a group, each once |
| Follows.CallAnswered | crates/zeta-agent/src/runner.rs:111-172 | every call worked through has its result in the log, and adds the next group of its turn exactly when no earlier turn and no earlier call of its reply went by its id |
| Follows.GroupsCounted | crates/zeta-agent/src/runner.rs:111-172 | a turn has exactly the groups its calls added |
| Follows.RepeatedCallPassedOver | crates/zeta-agent/src/runner.rs:121-137 | a call that goes by the id of an earlier call of its reply adds no group |
| Follows.TwiceInOneReply | crates/zeta-agent/src/runner.rs:121-137 | one call twice in a reply, or one without an id behind one named like its fallback, leaves one group |
| Worlds.OwnCallAnswered | crates/zeta-agent/src/runner.rs:314-456 | every call with a result of its own is answered by the group it added |
| Follows.FollowCall | crates/zeta-agent/src/runner.rs:121-170 | serving one more call keeps the turns in step with the replies |
| Runners.Runner.ProcessToolCall | crates/zeta-agent/src/runner.rs:314-456 | one whole group that answers the call, under its id, is added to the last turn and says whether to stop, or the run fails and no turn changes |
| Runners.Runner.StepBatch | crates/zeta-agent/src/runner.rs:121-170 | a call whose id has a result changes no turn and does nothing; any other gets its group unless the run ends before; stops on the word of the group, aborts only on a signal |
| Runners.Runner.ServeCall | crates/zeta-agent/src/runner.rs:121-170 | each call of the last reply is worked through in order and no turn but the last changes |
| Runners.Runner.RunBatch | crates/zeta-agent/src/runner.rs:111-172 | earlier turns stay, and on continuing the last turn holds groups for exactly the ids of the whole reply not answered before |
| Runners.Runner.AskModel | crates/zeta-agent/src/runner.rs:174-256 | one model call within the budget, whose reply is the gateway answer at that moment |
| Runners.Runner.RunTurn | crates/zeta-agent/src/runner.rs:174-302 | an accepted answer adds one empty turn, is recorded as the last reply and becomes pending |
| Runners.Runner.AbortRun | crates/zeta-agent/src/runner.rs:750-779 | turn-failed is the last record of an aborted run |
| Runners.Runner.Run | crates/zeta-agent/src/runner.rs:66-109 | ends; whole turns whose records tell truly of every call, that follow the replies of the model, every group the answer to its call, a tool stop exactly on the word of the last group, turn-failed last exactly when aborted, at most the budgeted model calls; write-ahead, one result and one execution a call, and ordered proposals even when it fails |
| Runners.PassedOver | crates/zeta-agent/src/runner.rs:111-172 | a run in which the second of two calls without ids is never started; its log is written out, with the one unknown tool refused |

## Left out

- Runners.Runner.Run: what the prompt and the trace objects contain, the figures of a context-budget answer, and the list of step names, are not part of the log it states.
- Compilation.CompileProject: which of several faults is reported first is not stated, only whether there is one.
- Derived.MeansExactly: references are rewritten on values and not in place in a tree; `$anchor`, `$id` and `$dynamicRef` are not resolved, percent-decoding is a parameter that leaves plain names alone, and keeping the meaning is keeping the places references lead to, which validation does not always need.
- Wire.WireRoundTrip: the JSON text of the wire is any writer and reader that agree on the messages; the parser itself is a library.
- Execution.ProjectIdentity: the JSON form of a body is a parameter, so bodies are compared by that form.
- Connections.Connection.Drive: the two ends run in one process; the text between them is read at once, chunking being the matter of `Wire.Carry`.
- Execution.ExecutionVerifies: that a manifest survives its own JSON serialization before it is restored is a property of serde and not modelled.
- Canonical.CanonicalReads: how the float library picks the digits of a shortest text is not modelled, only what the digits and the notation denote; the reader judges no ranges.
- Admission.DocumentAdmits: keywords of JSON Schema other than `type`, `const`, `required`, `properties`, `additionalProperties` and `oneOf` are a parameter.
- Calendar.WeekdayCorrect: parsing the date text is not modelled.
- Single-declaration validators of the manifest compiler (agent, skill, connector, model fields, bindings): predicates about which nothing is assumed.
- Capability routes, argument adapters and schema checks of a tool call: one function that accepts or rejects a call.
- Rendering of tool stubs, system prompts and tool descriptors: text only.
- Error wording, telemetry and the preview text of overlong frames.
- SQLite dispatch, the state table, socket and process handling, the terminal UI, native tools, the HTTP gateway, connectors and the Python SDK: IO and plumbing.
- BLAKE3, serde_json, YAML, MiniJinja and JSON Schema validation: libraries, kept as parameters.
