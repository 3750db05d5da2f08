# Verified model of the offline analyses, the sidecar, the OTLP batcher and the line assembler

A Dafny model of the parts of the repository where separately written code has to agree.

**Shadow-stack analyses** (`Sources/bsdtrace/decode.c`). One stream of decoded instructions (symbol or
none, address, class, timestamp) feeds a call tree, a table of folded stacks and a flat profile; the
caller/callee view walks the tree, and the Speedscope export reads the folded table. `CallTree` is the tree as a
value and `NestedTime` its timing invariant. `CallTreeHeap` is the tree as it lies in memory: nodes inline
in arrays that `realloc` may or may not move, raw pointers to them on a stack that is itself reallocated,
and a proof that no pointer ever dangles and that the memory always holds the functional fold.
`CallHistory` reads calls and times off the stream alone and shows the tree to hold them; `CallCounts`,
`Folded`, `Samples`, `Conservation`, `Profile`, `Callers` and `Speedscope` prove the laws of and between the
analyses.

**Image state, live and replayed** (`trace.c`, `meta.c`, `format.c`, `elf.c`, `symbols.c` in the same directory).
`TraceState` accumulates sections while `Meta` logs them; `MetaLines` and `Replay` prove when
exactly reading the log gives the live list. `JsonText` holds the escaping rules and the
bounded writer, `SidecarHeader` the readers of thread and timing, `Selection` and `Images` the choice and
placement of files, `Symbols` the address lookup.

**OTLP exporter** (`Sources/OTelExport/OTLPHTTPJSONExporter.swift`). `OtlpState` is the lock-guarded state,
`OtlpBatcher` the interleaving of any number of client threads, the timer and the serial sender queue,
`Shutdown` what a shutdown guarantees and that it can finish, `Deployments`, `PostOrder` and `Drops` which
setups keep batches in order and lose no drop counts, `Json` and `OtlpEnvelope` the text
that is posted and `Collector` what is read from it.

**DTrace output** (`Sources/bsdinstruments/WatchRunner.swift`). `LineAssembler` groups lines into events,
`StackFrames` prints and parses frames.

`Common`, `Instructions`, `Sections`, `Text` and `Numerals` hold shared vocabulary. Classes model what the
source updates in place; each of their methods is proved against a function, and the laws are lemmas about
those functions. Check everything with `dafny verify dfyconfig.toml --resource-limit 2000000`.

## Where the code does not do what one would expect

- Folded stacks are counted on every return at a positive depth, so the chain main, foo, bar counts
  `main;foo;bar`, then `main;foo`, then `main` as each returns (`MainFooBar`); the comment at
  `decode.c:1256` says one sample. The general law is `SamplesAreReturns`.
- Joining a stack writes past its 8192-byte buffer when the frames joined before the loop stops are longer
  than that: `FitsExactly` says when, `LongNameOverruns` gives a stream.
- `profile_record` forgets instructions without a symbol, `calltree_record` does not: `ProfileCanDiffer`
  gives a stream, `ProfileVersusTree` the exact difference on every stream.
- The comment at `meta.c:266` says paths never hold a quote or a backslash. A path with a quote is lost by
  the round trip and one with a backslash is altered (`QuoteLostBackslashDoubled`), with one odd family of
  exceptions; `LineReplays` and `LiveEqualsReplay` give the exact conditions for a line and for a session.
- The `-K` kernel is never logged to the primary sidecar: `FallbackNotReplayed`, and `FallbackLost` for a
  session.
- A symbol that ends at or above the top of the address space is never found: `TopSymbolLost`.
- A take without records discards pending drops: `FlushLosesDrops`, `TimerLosesDrops` and
  `ShutdownLosesDrops` give runs, `DropsKeptExactly` says which deployments are safe.
- Batches may be posted in another order than they were taken: `PostOrderExactly`.
- What other clients emit after the last take of a shutdown, or hand off behind its barrier, may be left
  behind: `LateRecordStays` and `LateBatchStays`.
- A stack marker before the first body is not reset, so kernel frames of the first event can be filed as
  user frames: `FirstEventTakesAll`, `EarlyMarkerMisfiles`.
- Frames that arrive when no body line ever comes are lost: `NothingLost`, `LoneFrameLost`.
- A non-canonical frame is changed by printing and parsing: `FrameRoundTrip`, `AddressAndOffsetLost`.
- Long Speedscope frames may be shown alike: `ShownAlike`, `LongNamesShownAlike`.

## Model

| member | source | states |
|---|---|---|
| NestedTime.TimeNests | Sources/bsdtrace/decode.c:997-1067 | At every node of the tree of every run with positive, non-decreasing timestamps, the children's accumulated time plus the elapsed time of the open child is at most the node's own accumulated and open time, which is at most the length of the trace; at the root the length of the trace itself is the bound |
| NestedTime.TotalsExact | Sources/bsdtrace/decode.c:1029-1041 | In such a run every return adds exactly the time since the matching call: the 64-bit total never wraps |
| NestedTime.RunNested | Sources/bsdtrace/decode.c:997-1067 | The nesting invariant holds after every prefix of a timed run |
| NestedTime.AfterCallNested | Sources/bsdtrace/decode.c:1056-1063 | The nesting invariant also holds between the call and the return that one instruction may cause |
| NestedTime.Advance | Sources/bsdtrace/decode.c:1029-1041 | Time passing keeps the nesting: an open subtree may use the time that went by, a closed one uses none |
| NestedTime.PushNested | Sources/bsdtrace/decode.c:997-1027 | A call at any depth keeps the nesting under the same bound, whether its child is new or found |
| NestedTime.PopNested | Sources/bsdtrace/decode.c:1029-1041 | A return at any depth keeps the nesting under the same bound, because nothing below the bound can wrap |
| CallTree.RunTrie | Sources/bsdtrace/decode.c:956-1067 | In every reachable tree siblings have different (name, binary) pointer pairs, at every depth |
| CallHistory.TreeIsHistory | Sources/bsdtrace/decode.c:997-1067 | On every stream and for every chain of functions, the node at the end of the chain holds the number of times the stream brings that chain to be open, the time its returns charge modulo 2^64, and the start of its open call; the shadow stack is the chain of open functions. All are read off the instructions alone |
| CallHistory.ReturnCharges | Sources/bsdtrace/decode.c:1029-1041 | On every stream a return adds to its chain exactly the time since the entry that it ends, and nothing when either time is unknown or not later |
| CallTreeHeap.Calltree.constructor | Sources/bsdtrace/decode.c:985-995 | The initial memory and stack stand for the empty tree |
| CallTreeHeap.Calltree.Realloc | Sources/bsdtrace/decode.c:973-974 | A children array is extended in place or moved, old contents kept, the old block freed if it moved, every other block untouched; callers must be right in both cases |
| CallTreeHeap.Calltree.FindChild | Sources/bsdtrace/decode.c:962-966 | The pointer-comparing search returns the address of the first child of the stack top with this key, or nothing when there is none |
| CallTreeHeap.Calltree.AddChild | Sources/bsdtrace/decode.c:968-982 | A new last child, after growing a full array; every pointer on the shadow stack stays valid |
| CallTreeHeap.Calltree.Grow | Sources/bsdtrace/decode.c:968-979 | The reallocating branch represents the same tree in the new memory; only the parent's array pointer and capacity change |
| CallTreeHeap.Calltree.UseSlot | Sources/bsdtrace/decode.c:981-982 | The first free slot becomes a zeroed child, counted by its parent |
| CallTreeHeap.Calltree.FindOrAddChild | Sources/bsdtrace/decode.c:956-983 | Returns the address of the child with this key; the tree gains a fresh leaf exactly when there was none |
| CallTreeHeap.Calltree.CountCall | Sources/bsdtrace/decode.c:1010-1011 | Counts and opens one node and changes no other |
| CallTreeHeap.Calltree.GrowStack | Sources/bsdtrace/decode.c:1014-1025 | The stack's own reallocation keeps all its pointers |
| CallTreeHeap.Calltree.StackPush | Sources/bsdtrace/decode.c:1013-1026 | The child becomes the top of the shadow stack; the pointers below it are kept |
| CallTreeHeap.Calltree.PushCall | Sources/bsdtrace/decode.c:997-1027 | On memory, a push does what the functional push does to the tree and the path |
| CallTreeHeap.Calltree.PopCall | Sources/bsdtrace/decode.c:1029-1041 | On memory, a pop does what the functional pop does; at the root it does nothing |
| CallTreeHeap.Calltree.Record | Sources/bsdtrace/decode.c:1047-1067 | One instruction moves the memory from one valid state to another, the one of the functional step |
| CallTreeHeap.Calltree.RecordAll | Sources/bsdtrace/decode.c:1047-1067 | For every stream, the tree in memory is the functional fold of the stream |
| CallTreeHeap.Calltree.StackSafe | Sources/bsdtrace/decode.c:956-1041 | In every valid state stack[0] is the root, no stack pointer dangles, each stack[i+1] is an element below the count of stack[i]'s current children array, and no two stack pointers are equal |
| CallTreeHeap.Adopt | Sources/bsdtrace/decode.c:973-978 | After any reallocation that the C library allows, and the parent's two stores, the memory represents the same tree and the addresses on the shadow stack have not moved |
| CallTreeHeap.AddLeaf | Sources/bsdtrace/decode.c:981-982 | Writing a fresh node into the first free slot and bumping the parent's count represents the tree with one more leaf |
| CallTreeHeap.Relabel | Sources/bsdtrace/decode.c:1010-1011 | Overwriting the counters of one node in memory overwrites them at that place of the tree only |
| CallTreeHeap.AddrInjective | Sources/bsdtrace/decode.c:927-945 | Different nodes of the tree lie at different addresses |
| CallCounts.StepKeyCount | Sources/bsdtrace/decode.c:1047-1067 | A step adds one to the summed counts of a key exactly when it enters that function, whatever its depth; returns add nothing |
| CallCounts.PushNameCount | Sources/bsdtrace/decode.c:997-1027 | A call adds one to the count of exactly one name path: the stack's names and the callee's |
| CallCounts.PopNameCount | Sources/bsdtrace/decode.c:1029-1041 | A return changes the count of no name path |
| Folded.Collapsed.BuildStack | Sources/bsdtrace/decode.c:1174-1194 | The terminator goes to the length of the joined text; there is a text, the names joined by `;` up to the one that fills the buffer, if and only if that is inside the buffer |
| Folded.Collapsed.CountStack | Sources/bsdtrace/decode.c:1199-1250 | Bumps the entry of the current stack, adds it when it is new, and drops it when the table holds 4096 stacks; nothing at depth 0; or overruns the buffer, exactly when the stack does not fit |
| Folded.Collapsed.Record | Sources/bsdtrace/decode.c:1260-1283 | One instruction does to the table, the name stack and the remembered class what the functional step does, or overruns, exactly when it returns from a stack that does not fit |
| Folded.FitsExactly | Sources/bsdtrace/decode.c:1183-1193 | The join stays inside its buffer if and only if the whole stack is shorter than 8192, or the join of some outermost frames is exactly 8191 long |
| Folded.LongNameOverruns | Sources/bsdtrace/decode.c:1183-1193 | A concrete stream that overruns: a function with a name of 8192 characters that is called and returns |
| Folded.FoldStream | Sources/bsdtrace/decode.c:1260-1283 | A whole stream leaves its fold if and only if no return of it overruns the buffer |
| Folded.WholeText | Sources/bsdtrace/decode.c:1183-1193 | The text of a stack is its full join exactly when the full join is shorter than the 8192-byte buffer |
| Folded.BumpCount | Sources/bsdtrace/decode.c:1209-1249 | Counting a stack adds one to that stack's count and to no other, unless it is new and the table is full |
| Folded.RunDistinct | Sources/bsdtrace/decode.c:1199-1283 | In every reachable table the stacks are distinct and at most 4096, and the name stack never exceeds 256 |
| Samples.NamesAreKept | Sources/bsdtrace/decode.c:1260-1283 | On every stream the name stack, before and after a return, is the shadow stack of the stream with entries beyond 256 ignored |
| Conservation.FoldedMatchesTree | Sources/bsdtrace/decode.c:1047-1067 | Within the table's limits and for non-empty names without `;`: for every path of names, the folded count, plus 1 if the path is a prefix of the current stack, is the sum of the counts of the tree nodes with that name path |
| Conservation.SameStack | Sources/bsdtrace/decode.c:1260-1283 | Within the limits the folded name stack is, at every step, the names along the tree's shadow stack |
| Conservation.ReturnConserves | Sources/bsdtrace/decode.c:1275-1279 | A return moves exactly one call of the current stack from pending to counted |
| Conservation.CallConserves | Sources/bsdtrace/decode.c:1056-1060 | A call adds as much to the tree as to what is pending, for every name path |
| Conservation.JoinInjective | Sources/bsdtrace/decode.c:1170-1194 | Two stacks of non-empty names without `;` with the same joined text are the same stack |
| Conservation.LimitsFit | Sources/bsdtrace/decode.c:1174-1194 | Streams within the limits never overrun the buffer |
| Samples.SamplesAreReturns | Sources/bsdtrace/decode.c:1252-1283 | On every stream the counts of the table add up to the returns at a positive depth, less those whose stack is new when the table is full |
| Samples.ChainSamples | Sources/bsdtrace/decode.c:1252-1283 | A chain of up to 256 calls that all return leaves one sample for each of its prefixes, innermost first: a single sample only when the chain is a single function |
| Samples.MainFooBar | Sources/bsdtrace/decode.c:1256-1258 | The chain of the comment leaves `main;foo;bar`, `main;foo` and `main`, once each |
| Profile.ProfileTable.Record | Sources/bsdtrace/decode.c:720-823 | One instruction does to the entries what the functional step does, and nothing at all, not even to the remembered class, when it has no symbol |
| Profile.ProfileIsHistory | Sources/bsdtrace/decode.c:720-823 | On every stream the entry of a function holds the entries into it after a call, the returns and branches seen in it, and modulo 2^64 the time that its returns charge since its latest uncharged entry, all read off the instructions alone |
| Profile.ProfileTimeExact | Sources/bsdtrace/decode.c:797-815 | On streams with positive, non-decreasing timestamps the accumulated time is exactly the charged time, which together with the time since the open entry is at most the length of the trace |
| Profile.ChargedThirty | Sources/bsdtrace/decode.c:797-815 | A concrete stream: entered at 20, returned at 50, charged 30 |
| Profile.ProfileStream | Sources/bsdtrace/decode.c:720-823 | A whole stream through one table leaves the functional fold |
| Profile.ProfileVersusTree | Sources/bsdtrace/decode.c:728-823 | On every stream and for every function, the profile's calls and the tree's summed counts differ by exactly the entries whose preceding call only one of the two saw, because of instructions without a symbol |
| Profile.ProfileAgreesWithTree | Sources/bsdtrace/decode.c:720-823 | On every stream in which all instructions have a symbol, the calls of a function equal the sum of the counts of its tree nodes |
| Profile.ProfileSkipsGaps | Sources/bsdtrace/decode.c:728-729 | The profile of a stream is the profile of its instructions with symbols |
| Profile.ProfileCanDiffer | Sources/bsdtrace/decode.c:728-729 | A concrete stream, with a gap between a call and the entry it leads to, on which the profile counts one call and the tree none |
| Callers.CallersView.FindOrAdd | Sources/bsdtrace/decode.c:1479-1501 | The index of the summary with this name and binary, compared as text; a zero summary is appended when there is none |
| Callers.AddEdgeTo | Sources/bsdtrace/decode.c:1503-1526 | Adds count and time to the edge with this target, or appends the edge |
| Callers.CallersView.CollectOwn | Sources/bsdtrace/decode.c:1535-1547 | The node's totals and the edge to its caller |
| Callers.CallersView.Announce | Sources/bsdtrace/decode.c:1551-1561 | The edge from a node to one child |
| Callers.CallersView.Collect | Sources/bsdtrace/decode.c:1528-1564 | The recursive walk leaves the functional view of the whole subtree |
| Callers.CallerCalleeDuality | Sources/bsdtrace/decode.c:1528-1564 | For every tree and every two functions, the edges "f called by g" and "g calls f" carry the same count and time, namely those of all calls from nodes named g straight to nodes named f, recursion and merged names included |
| Callers.CallersAddUp | Sources/bsdtrace/decode.c:1528-1564 | For every tree the total of f is the summed count of the nodes of that name and binary, and the caller edges of f add up to it, except for what is counted at the root |
| Callers.TimesAddUp | Sources/bsdtrace/decode.c:1538-1546 | For every tree the time of f is the summed time of the nodes of that name and binary, and so is the time of its caller edges, the root's own aside, modulo 2^64 |
| Callers.RunCallersAddUp | Sources/bsdtrace/decode.c:1047-1067 | In a recorded tree the root is neither counted nor charged, so the callers of every function account for every call and all its time |
| Callers.AllCalledSum | Sources/bsdtrace/decode.c:1549-1563 | Edges accumulated in walk order with 64-bit wrap-around equal the plain sums wrapped once |
| Callers.KidsEdges | Sources/bsdtrace/decode.c:1549-1563 | Both sides of an edge accumulate the same calls in the same order, for every starting table |
| Speedscope.FrameIndex | Sources/bsdtrace/decode.c:1350-1366 | The index of a name among distinct frames, appended when new |
| Speedscope.IndexStack | Sources/bsdtrace/decode.c:1381-1391 | Looking up the tokens of one stack spells it in indices, adds exactly its new names, and adds nothing when all are known |
| Speedscope.Export | Sources/bsdtrace/decode.c:1368-1444 | The second pass adds no frame, frames are distinct and are exactly the names in use, every sample index is in range and spells its stack, weights are the counts and add up to `endValue`, and every frame is shown as the 256-byte buffer leaves it |
| Speedscope.ShownAlike | Sources/bsdtrace/decode.c:1398-1402 | Two frames are shown alike if and only if they are equal or share a first part whose escape is at least 249 long; a name is shown whole if and only if its escape, last character aside, is shorter |
| Speedscope.LongNamesShownAlike | Sources/bsdtrace/decode.c:1398-1402 | Two distinct names with 249 plain characters in common are shown alike |
| Speedscope.RunRejoins | Sources/bsdtrace/decode.c:1174-1194 | For non-empty names without `;`, every table entry, cut or not, is the join of its own `strtok_r` tokens |
| Speedscope.SampleRebuildsStack | Sources/bsdtrace/decode.c:1418-1435 | Mapping a sample through the frames gives back the recorded stack, frame by frame and as text |
| JsonText.PutEscaped | Sources/bsdtrace/format.c:103-121 | Each branch writes the escape of one character inside the buffer |
| JsonText.JsonEscape | Sources/bsdtrace/format.c:98-125 | Stays inside the buffer, terminates it, and writes the whole escapes of a prefix of the source |
| JsonText.BoundedReadsBack | Sources/bsdtrace/format.c:98-125 | The output reads back (section 7 of RFC 8259) to a prefix of the source, and to the whole source if and only if eight bytes are still free before the last character |
| JsonText.EscapeJSON | Sources/OTelExport/Exporter.swift:295-316 | The output is the escape of the text and reads back to it |
| JsonText.UnescapeEscape | Sources/OTelExport/Exporter.swift:295-316 | Unescaping undoes escaping, on every text |
| JsonText.EscapeConcat | Sources/OTelExport/Exporter.swift:295-316 | Escaping works character by character: the escape of a concatenation is the concatenation of the escapes |
| Meta.MetaWriter.Header | Sources/bsdtrace/meta.c:50-59 | Appends the header line |
| Meta.MetaWriter.Timing | Sources/bsdtrace/meta.c:61-72 | Appends the timing line, or nothing when both values are zero |
| Meta.MetaWriter.ImageRecord | Sources/bsdtrace/meta.c:82-109 | Appends an image line with the path escaped through a 1024-byte buffer |
| Meta.MetaWriter.Log | Sources/bsdtrace/meta.c:74-123 | Appends the line of the record's kind, or nothing for the kinds that the sidecar does not keep |
| Meta.MetaWriter.LogSections | Sources/bsdtrace/meta.c:125-150 | Appends the lines of all sections in order |
| Meta.KeepScanned | Sources/bsdtrace/meta.c:276-318 | A scanned line appends its section; an `exec` line first discards all earlier ones; other words are skipped |
| Meta.ReadSections | Sources/bsdtrace/meta.c:238-326 | The read loop folds the lines of the file, cut as `fgets` cuts them |
| MetaLines.ScanImage | Sources/bsdtrace/meta.c:266-275 | The scan of a written image line gives back word, path, address and base, for every path without quotes that fits and all 64-bit values |
| MetaLines.ScanTooLong | Sources/bsdtrace/meta.c:272-275 | A word of more than 31 characters, or a path of more than 1023, makes the scan fail |
| MetaLines.ScanEmptyPath | Sources/bsdtrace/meta.c:272-275 | The scan of a line with an empty path fails |
| MetaLines.ScanHexPrinted | Sources/bsdtrace/meta.c:85-90 | Reading back a printed 64-bit hexadecimal number gives the number and leaves what follows it |
| MetaLines.HeaderIgnored | Sources/bsdtrace/meta.c:50-59 | The reader makes no section of a header line |
| MetaLines.TimingIgnored | Sources/bsdtrace/meta.c:61-72 | The reader makes no section of a timing line |
| MetaLines.ThreadIgnored | Sources/bsdtrace/meta.c:110-119 | The reader makes no section of a thread line |
| MetaLines.BoundedIdentity | Sources/bsdtrace/format.c:98-125 | A path is written as itself into a 1024-byte buffer if and only if it is plain and at most 1017 long, or plain characters followed by just as many backslashes as fill the buffer when doubled |
| Meta.LineLength | Sources/bsdtrace/meta.c:260 | Through the first newline, the end of the file, or as many bytes as the buffer holds before its terminator, whichever comes first |
| SidecarHeader.ReadTid | Sources/bsdtrace/meta.c:167-188 | The number in the first line, or -1 when that is not a header |
| SidecarHeader.ReadMtcFreq | Sources/bsdtrace/meta.c:190-212 | The loop finds the first piece that scans as a timing line, or yields 0 |
| SidecarHeader.ReadCycThresh | Sources/bsdtrace/meta.c:214-236 | The same for the threshold |
| SidecarHeader.RewriteAndRead | Sources/bsdtrace/trace.c:455-467 | A per-thread sidecar with any sections: the three readers give back the thread and both timing values, zeros that were never written included |
| SidecarHeader.SessionReads | Sources/bsdtrace/meta.c:166-236 | The same of a primary sidecar, whatever the session records after the timing line, and however the short buffers cut its lines |
| SidecarHeader.ThreadLines | Sources/bsdtrace/meta.c:110-119 | Thread records leave one line each, which gives back the thread |
| TraceState.State.constructor | Sources/bsdtrace/trace.c:71-79 | The initial state: no section, no buffer seen |
| TraceState.State.AddSection | Sources/bsdtrace/trace.c:32-59 | Appends a section with its path cut to the field; an empty path changes nothing |
| TraceState.State.ProcessRecord | Sources/bsdtrace/trace.c:81-114 | A record is logged, updates the buffer extent, and, if it is an image with a path, joins the list, which an EXEC first empties |
| TraceState.State.SeedMappings | Sources/bsdtrace/trace.c:116-139 | All mappings reported are logged and those with a path added, in order |
| TraceState.State.AddKernel | Sources/bsdtrace/trace.c:608-626 | The fallback adds a kernel section exactly when there is none and the base is known, and logs nothing |
| TraceState.WrapDetected | Sources/bsdtrace/trace.c:88-96 | The wrap flag is set if and only if some buffer record went back to a lower page than an earlier one whose page was not negative |
| TraceState.ExtentIsLatest | Sources/bsdtrace/trace.c:88-96 | The remembered page and offset are those of the latest buffer record |
| TraceState.OverflowsCounted | Sources/bsdtrace/trace.c:98-99 | The overflow count is the number of overflow records |
| Replay.ImageReads | Sources/bsdtrace/meta.c:75-109 | An image line with any path reads back as its section with the path as `json_escape` wrote it, or as nothing, exactly when that is empty or holds a quote |
| Replay.LineReplays | Sources/bsdtrace/meta.c:75-109 | One section survives writing and reading of its line if and only if its path is non-empty and one that is written as itself; an empty path leaves no section |
| Replay.QuoteLostBackslashDoubled | Sources/bsdtrace/meta.c:266-275 | Concrete lines: a path with a quote reads back as nothing, a path with a backslash comes back with two |
| Replay.ReadLines | Sources/bsdtrace/meta.c:260-275 | A file of complete lines is read line by line, whatever follows it |
| Replay.ImageLineWhole | Sources/bsdtrace/meta.c:246-260 | Every image line, for any path, fits the reader's line buffer and holds a single newline, at its end |
| Replay.SectionAgrees | Sources/bsdtrace/trace.c:101-113 | After one section the live and the replayed list are equal if and only if they were before, or it is an EXEC, and its path is replayable; lists once apart are never mended by appending |
| Replay.OpAgrees | Sources/bsdtrace/trace.c:81-139 | The same for one operation of a session, of any kind and with any paths |
| Replay.LiveEqualsReplay | Sources/bsdtrace/trace.c:81-139 | For every session, of any operations and paths: the reader rebuilds the live section list if and only if, from the last EXEC with a path on, every recorded path is replayable and the fallback kernel had nothing to add |
| Replay.FallbackNotReplayed | Sources/bsdtrace/trace.c:603-626 | After a final `-K` fallback, replay of the primary sidecar agrees with the live list if and only if it did before and the fallback had nothing to add |
| Replay.FallbackLost | Sources/bsdtrace/trace.c:603-626 | A session that only falls back: its sidecar does not read back to its list |
| Replay.ExecComesFirst | Sources/bsdtrace/trace.c:61-114 | In every reachable state, whatever the paths, an EXEC section can only be the first, and no path is empty or longer than its field |
| Replay.LiveIsRecorded | Sources/bsdtrace/trace.c:101-139 | The live list is what was recorded from the last EXEC with a path on, in order: mappings with base 0, records with their own addresses, empty paths left out and long ones cut |
| Replay.FallbackIsKernel | Sources/bsdtrace/trace.c:608-626 | The fallback appends the kernel's own file at the reported base exactly when no kernel section is there |
| Replay.RewriteReadsBack | Sources/bsdtrace/trace.c:455-467 | A per-thread sidecar written from any reachable section list, fallback kernel included, reads back to that list if and only if every path in it is replayable |
| Replay.Perform | Sources/bsdtrace/trace.c:81-139 | One operation of a session updates the live list and the sidecar as specified |
| Replay.Session | Sources/bsdtrace/trace.c:81-139 | A whole session run on the objects ends with the specified list and file, and the reader's result equals the live list under exactly that condition |
| Selection.ShouldUse | Sources/bsdtrace/elf.c:161-206 | True if and only if the section is used by the declarative rule: non-empty path, first EXEC of its path, or mapping of a path without EXEC that is least by address and position |
| Selection.UniqueSelection | Sources/bsdtrace/elf.c:161-206 | For every list and every non-empty path held by an EXEC or a mapping, exactly one such section is used: the first EXEC if any, otherwise the least mapping |
| Selection.EveryPathUsed | Sources/bsdtrace/elf.c:161-206 | Every non-empty path in the list has a section that is used, whatever its kind |
| Images.FindBaseVaddr | Sources/bsdtrace/elf.c:47-66 | The address of a loadable segment with no loadable one before it; none exactly when nothing is loadable |
| Images.ExecMap | Sources/bsdtrace/elf.c:68-109 | The page of some executable, loadable, non-empty segment, and the least such page; none exactly when there is no such segment |
| Images.FindExecMap | Sources/bsdtrace/elf.c:74-109 | The loop with `best` and `found` computes that page |
| Images.FindLoadAddr | Sources/bsdtrace/elf.c:132-159 | The load address of the three kinds of record, with 64-bit wrap-around, and its two failures |
| Images.MmapSlide | Sources/bsdtrace/elf.c:148-154 | For a mapping record, the page of the lowest executable segment plus the slide is the record's address, for all 64-bit values |
| Images.ExecSlide | Sources/bsdtrace/elf.c:142-147 | For an EXEC record every address of the file moves by exactly the record's address |
| Images.FirstLoadLands | Sources/bsdtrace/elf.c:232-256 | A file loaded at an address has its first loadable segment there: so for kernels, and for interpreters at the base |
| Images.KernelLands | Sources/bsdtrace/elf.c:155-157 | A kernel record gives the address of the first loadable segment |
| Images.LoadFails | Sources/bsdtrace/elf.c:132-159 | A file is passed over if and only if nothing in it is loadable, or a mapping lies below all its text pages |
| Images.FilePlaced | Sources/bsdtrace/elf.c:240-262 | A file at an address is exactly its loadable, executable, non-empty segments, each as far from that address as from the first loadable one in the file |
| Images.Contributes | Sources/bsdtrace/decode.c:429-459 | A used section contributes its own file and, if and only if it is an EXEC with a user-space base other than its load address and no mapping brings the interpreter, the interpreter at that base |
| Images.BasenameIsLast | Sources/bsdtrace/elf.c:396-401 | The name of a range is the last component of its path |
| Images.AddElf | Sources/bsdtrace/elf.c:212-272 | Adds the executable segments of a file in header order, moved by its slide, except those the decoder refuses; nothing for an unreadable file |
| Images.AddSymbols | Sources/bsdtrace/decode.c:406-427 | Loads the symbols of a file with the slide of its segments |
| Images.AddSection | Sources/bsdtrace/decode.c:370-484 | One used section adds its own segments and symbols and, for an EXEC, those of the interpreter unless that has a mapping of its own |
| Images.BuildImage | Sources/bsdtrace/decode.c:346-499 | The image is what the decoder accepts of the contributions of the used sections, in order, and an empty one is not returned; the symbols loaded are those of the same files |
| Images.SymbolsFollowCode | Sources/bsdtrace/decode.c:393-484 | Every segment of the image was moved by the very slide with which the symbols of its own file were loaded |
| Images.AddRanges | Sources/bsdtrace/elf.c:386-409 | The inner loop appends the intervals of the segments until the table is full |
| Images.RangesOf | Sources/bsdtrace/elf.c:361-491 | One used section appends its intervals, and its interpreter's in the same cases as the image does |
| Images.BuildRanges | Sources/bsdtrace/elf.c:335-495 | The naming ranges are the intervals of the same contributions, in the same order, as many as fit |
| Images.BuildBoth | Sources/bsdtrace/elf.c:335-495 | The two separately written loops agree: range i is the run-time interval of the i-th segment offered to the decoder, for all of them up to 256; when none is refused, that is segment i of the image, and one is empty exactly when the other is |
| Images.FindBinary | Sources/bsdtrace/elf.c:497-510 | The first range that holds the address, with the offset into it; none exactly when no range does |
| Symbols.SymTable.Add | Sources/bsdtrace/symbols.c:31-63 | Appends the symbol unless it has no name |
| Symbols.SymTable.Sort | Sources/bsdtrace/symbols.c:148-155 | Sorted by address, the same symbols with the same multiplicity |
| Symbols.SymTable.Lookup | Sources/bsdtrace/symbols.c:157-193 | On a sorted table the binary search answers as a linear scan may: a symbol at the greatest address not above ip if ip is in its bytes, or up to 4096 past its start without a size, and it ends below 2^64; else nothing |
| Symbols.AcceptedExactly | Sources/bsdtrace/symbols.c:184-190 | The wrapped 64-bit comparison of the code means exactly that |
| Symbols.TopSymbolLost | Sources/bsdtrace/symbols.c:184-186 | A symbol that reaches the top of the address space is not answered even at its own first byte |
| Symbols.AnswerIsHolder | Sources/bsdtrace/symbols.c:157-193 | For symbols with sizes that do not overlap and end below the top, the answer is the one whose bytes hold the address, and nothing exactly when none does |
| Symbols.Resolve | Sources/bsdtrace/symbols.c:31-193 | Any adds, a sort and a lookup answer as a linear scan over what was added may |
| Symbols.AnswerOfSameSymbols | Sources/bsdtrace/symbols.c:148-193 | The answer depends only on which symbols are in the table, not on their order |
| Symbols.NamedExactly | Sources/bsdtrace/symbols.c:38-39 | What was added is exactly the symbols with a name |
| OtlpState.Exporter.ReportDrops | Sources/OTelExport/OTLPHTTPJSONExporter.swift:90-94 | Adds to the pending drops and to nothing else |
| OtlpState.Exporter.EmitRecord | Sources/OTelExport/OTLPHTTPJSONExporter.swift:122-136 | Appends the record; at `batchSize` takes the whole batch with the pending drops |
| OtlpState.Exporter.EmitSnapshot | Sources/OTelExport/OTLPHTTPJSONExporter.swift:143-148 | Appends the snapshot |
| OtlpState.Exporter.TakePending | Sources/OTelExport/OTLPHTTPJSONExporter.swift:150-158 | Takes all records, snapshots and drops, leaving the state empty |
| OtlpBatcher.TakenInOrder | Sources/OTelExport/OTLPHTTPJSONExporter.swift:111-166 | In every interleaving of any number of clients, timer and sender queue: the batches in the order of taking, then the current batch, are exactly the accepted records in order (likewise snapshots and drops); no batch exceeds `batchSize`, and between steps the current one is not full |
| OtlpBatcher.PostedOnce | Sources/OTelExport/OTLPHTTPJSONExporter.swift:138-174 | In every interleaving each taken batch is posted once or held in exactly one place on its way, for every way of weighing batches |
| OtlpBatcher.NothingEmptyPosted | Sources/OTelExport/OTLPHTTPJSONExporter.swift:160-165 | In every interleaving every batch of logs posted has a record and every batch of metrics a snapshot |
| Shutdown.ShutdownPostsEverything | Sources/OTelExport/OTLPHTTPJSONExporter.swift:168-174 | From the moment a client queues its barrier, in any state and with other clients flushing, shutting down, reporting drops and, before its last take, even emitting: if no batch is handed off behind the barrier and nothing is accepted after the last take, then once it has returned and no flush is under way each accepted record and snapshot has been handed to `post` exactly as often as it was accepted |
| Shutdown.ShutdownQuiet | Sources/OTelExport/OTLPHTTPJSONExporter.swift:168-174 | Such a shutdown leaves no batch in the queue or with the sender, and nothing in the current batches |
| Shutdown.RunStage | Sources/OTelExport/OTLPHTTPJSONExporter.swift:168-174 | Every step keeps the stage of the shutdown: while it waits only barriers are behind its own, from then on only barriers are queued and the sender rests, and from its last take on both batches are empty |
| Shutdown.RunAwaited | Sources/OTelExport/OTLPHTTPJSONExporter.swift:169-171 | In every interleaving exactly the waiting clients have a barrier queued, one each, and the timer is off while one waits |
| Shutdown.ShutdownCanFinish | Sources/OTelExport/OTLPHTTPJSONExporter.swift:168-174 | From every reachable state in which a client has cancelled the timer, steps of the sender and of that client alone complete the shutdown, whatever the others hold: the wait at the barrier always can end |
| Shutdown.LateRecordStays | Sources/OTelExport/OTLPHTTPJSONExporter.swift:171-172 | For every batch size above one, a run in which a record accepted after the last take is still in the batch when the shutdown has returned |
| Shutdown.LateBatchStays | Sources/OTelExport/OTLPHTTPJSONExporter.swift:171-172 | For batches of one record, a run in which a batch handed off behind the barrier is still queued when the shutdown has returned |
| Drops.DropsAccounted | Sources/OTelExport/OTLPHTTPJSONExporter.swift:90-166 | In every interleaving the drops reported are those posted with records, those on their way, those pending, and those that a take without records discarded |
| Drops.DropsKeptExactly | Sources/OTelExport/OTLPHTTPJSONExporter.swift:90-174 | For every deployment and batch size: no run discards drops if and only if there is no client or nothing but emitters ever takes a batch, that is, no timer, no flush and no shutdown |
| Drops.FlushLosesDrops | Sources/OTelExport/OTLPHTTPJSONExporter.swift:150-162 | For every number of drops and every batch size, a run in which a flush without records discards them |
| Drops.TimerLosesDrops | Sources/OTelExport/OTLPHTTPJSONExporter.swift:279-292 | The same for the turn of the timer |
| Drops.ShutdownLosesDrops | Sources/OTelExport/OTLPHTTPJSONExporter.swift:168-172 | The same for the last flush of a shutdown |
| PostOrder.PostOrderExactly | Sources/OTelExport/OTLPHTTPJSONExporter.swift:111-174 | For every deployment (who may emit, flush and shut down, and whether the timer runs) and batch size: in all its runs the posted batches are a prefix of the non-empty takes in order if and only if there is at most one emitter and, unless batches hold one record, no timer, no flush and no shutdown but the emitter's own |
| PostOrder.OrderKept | Sources/OTelExport/OTLPHTTPJSONExporter.swift:111-174 | The "if" half, over all interleavings, closing shutdown included |
| PostOrder.TwoEmitters | Sources/OTelExport/OTLPHTTPJSONExporter.swift:136-140 | With two emitters, a run for every batch size in which the later batch is handed off and posted first |
| PostOrder.TimerOvertakes | Sources/OTelExport/OTLPHTTPJSONExporter.swift:279-292 | With the timer, a run for every batch size above one in which its turn posts a later record before a queued batch |
| PostOrder.FlushOvertakes | Sources/OTelExport/OTLPHTTPJSONExporter.swift:150-162 | With any flush, the emitter's own included, such a run |
| PostOrder.ShutdownOvertakes | Sources/OTelExport/OTLPHTTPJSONExporter.swift:168-172 | With a shutdown by another client than the emitter, such a run |
| Json.ParsePrinted | Sources/OTelExport/OTLPHTTPJSONExporter.swift:208-271 | A reader for the RFC 8259 grammar gives back every printed value of strings, integers, arrays and objects |
| OtlpEnvelope.BuildAttribute | Sources/OTelExport/OTLPHTTPJSONExporter.swift:253-264 | The text of an attribute is the printed attribute object |
| OtlpEnvelope.BuildAttributes | Sources/OTelExport/OTLPHTTPJSONExporter.swift:251-268 | The attribute loop and the drop attribute after it print the full list, with the commas in the right places |
| OtlpEnvelope.BuildRecordJSON | Sources/OTelExport/OTLPHTTPJSONExporter.swift:245-271 | The text of a record is the printed record object |
| OtlpEnvelope.ResourcePrinted | Sources/OTelExport/OTLPHTTPJSONExporter.swift:222-243 | The mapped and joined resource attributes are the printed items of their array |
| OtlpEnvelope.BuildRecords | Sources/OTelExport/OTLPHTTPJSONExporter.swift:213-217 | The record loop prints the list, passing the drop count to the first record only |
| OtlpEnvelope.BuildEnvelope | Sources/OTelExport/OTLPHTTPJSONExporter.swift:208-220 | The text is well-formed and parses to the envelope of exactly these records and drops |
| Collector.EnvelopeRoundTrip | Sources/OTelExport/OTLPHTTPJSONExporter.swift:208-271 | What a collector decodes from the text is the resource, the scope name and version, and in order the records with time, severity, body and attributes, with the drop count as last attribute of the first record only, and only when positive |
| Collector.ResourceLookups | Sources/OTelExport/OTLPHTTPJSONExporter.swift:222-233 | In what is decoded, each of the nine fixed names leads to its own field, whatever the custom entries are |
| Collector.InstanceLookup | Sources/OTelExport/OTLPHTTPJSONExporter.swift:234-236 | The instance identifier is found when it is set, and otherwise only if a custom entry gives it |
| Collector.CustomLast | Sources/OTelExport/OTLPHTTPJSONExporter.swift:237-239 | The custom entries come last and in order |
| Collector.AttrBack | Sources/OTelExport/OTLPHTTPJSONExporter.swift:253-264 | Every string or integer attribute decodes to itself |
| Collector.RecordBack | Sources/OTelExport/OTLPHTTPJSONExporter.swift:245-271 | A record decodes to its times, severity, body and attributes, then the drop count if there is one |
| StackFrames.FrameRoundTrip | Sources/bsdinstruments/WatchRunner.swift:461-486 | Parsing the printed form of a frame gives the frame back if and only if it is canonical: address only, or no address and a module without backtick or leading blank (the symbol may hold `+` and backticks; without an offset it may not end in a blank or read as one), or a bare trimmed symbol that reads as nothing else |
| StackFrames.AddressAndOffsetLost | Sources/OTelExport/Exporter.swift:320-332 | Two frames that do not come back: an address next to a symbol, and an offset without a module |
| StackFrames.CanonicalBack | Sources/OTelExport/Exporter.swift:320-332 | The "if" half, for all 64-bit addresses and offsets |
| StackFrames.ParsedShape | Sources/bsdinstruments/WatchRunner.swift:461-486 | What any line at all can parse to |
| StackFrames.AddressLine | Sources/bsdinstruments/WatchRunner.swift:479-485 | Hexadecimal digits after `0x` are an address if and only if they fit in 64 bits; otherwise the line is a symbol |
| StackFrames.OffsetUnreadable | Sources/bsdinstruments/WatchRunner.swift:469-474 | What follows `+0x` without being a number counts as offset 0 |
| StackFrames.NotPrinted | Sources/OTelExport/Exporter.swift:322-331 | What printing leaves out: an address next to a symbol, an offset or a module without its symbol |
| LineAssembler.FrameLine | Sources/bsdinstruments/WatchRunner.swift:307-330 | An indented frame that has a module, or only an address, is classified as that frame |
| LineAssembler.IndentedLine | Sources/bsdinstruments/WatchRunner.swift:319-330 | Any indented line with a backtick or a leading `0x` is a frame |
| LineAssembler.NeverFrame | Sources/bsdinstruments/WatchRunner.swift:319-326 | A line without a backtick and without a leading `0x` is none |
| LineAssembler.BodyLine | Sources/bsdinstruments/WatchRunner.swift:319-340 | A line that is not indented is a body with its trimmed text, unless it is the literal marker |
| LineAssembler.BlankLine | Sources/bsdinstruments/WatchRunner.swift:308-313 | Blank lines are skipped |
| LineAssembler.HitWithFrame | Sources/bsdinstruments/WatchRunner.swift:302-345 | A text of a body line and an indented kernel frame: one event with that frame |
| LineAssembler.Handler.FlushPending | Sources/bsdinstruments/WatchRunner.swift:257-287 | Emits the pending body with its non-empty stacks and clears the state; nothing without a body, which keeps frames for the first body |
| LineAssembler.Handler.OnLine | Sources/bsdinstruments/WatchRunner.swift:309-340 | One line is skipped, added to the current stack, switches stacks, or starts a new event |
| LineAssembler.Handler.OnLines | Sources/bsdinstruments/WatchRunner.swift:305-341 | The lines of one callback are fed in order |
| LineAssembler.Handler.OnOutput | Sources/bsdinstruments/WatchRunner.swift:294-345 | A callback is split at newlines and fed; aggregation fragments change nothing |
| LineAssembler.FedSoFar | Sources/bsdinstruments/WatchRunner.swift:251-345 | At every moment, emitted and pending bodies and frames together are the body and frame lines so far, in order |
| LineAssembler.NothingLost | Sources/bsdinstruments/WatchRunner.swift:251-373 | Emitted bodies are exactly the body lines in order; emitted frames are exactly the frame lines in order if and only if there was a body or no frame at all |
| LineAssembler.LoneFrameLost | Sources/bsdinstruments/WatchRunner.swift:257-259 | A frame and never a body: no event |
| LineAssembler.FirstEventTakesAll | Sources/bsdinstruments/WatchRunner.swift:257-340 | The first body makes an event that takes the frames before it as well as those up to the next body; a marker before the body counts, so that kernel frames after the body are filed as user frames |
| LineAssembler.EarlyMarkerMisfiles | Sources/bsdinstruments/WatchRunner.swift:327-334 | A marker, a body and a frame: the frame ends up as a user frame |
| LineAssembler.EventTakesItsFrames | Sources/bsdinstruments/WatchRunner.swift:309-340 | Each further body makes one event that takes all frames up to the next body, kernel frames before the marker and user frames after it |
| LineAssembler.SplitCallbacks | Sources/bsdinstruments/WatchRunner.swift:302-309 | Cutting the text into callbacks at line boundaries changes nothing, from any state |

## Left out

- Conservation.FoldedMatchesTree: holds within the folded table's limits (depth 256, 4096 stacks, 8192-byte join) and for non-empty names without `;`, because beyond them the code drops or cuts stacks.
- Folded.Collapsed.Record: once a write went past the join buffer nothing is promised, since C defines no behaviour from there on; the model stops and remembers it.
- Shutdown.ShutdownPostsEverything: asks that no batch is handed off behind the barrier and nothing is accepted after the last take, for which `LateRecordStays` and `LateBatchStays` give the reason; a sender that never runs is not excluded, only shown to be able to.
- PostOrder.PostOrderExactly: is about log batches; metrics go to an endpoint of their own.
- OtlpBatcher.TakenInOrder: records and snapshots are opaque, and drop counters are unbounded where the source has 64 bits; an event with an empty body and a snapshot without data points are never accepted and therefore are no step.
- Collector.EnvelopeRoundTrip: integer attributes are unbounded, and attributes of type double are not modelled because printing floating point is not the point.
- JsonText.BoundedReadsBack: bytes are characters, and only quotes, backslashes and values below 0x20 are told apart; the reader refuses `\u` escapes from D800 on, which the writers never produce.
- Symbols.SymTable.Sort: `qsort` is replaced by a stable insertion; lookup is proved for every sorted order of equal addresses.
- Callers.CallersView.Collect: walks the tree as a value, not through the pointers of `CallTreeHeap`; null names, which recorded nodes never have, are not modelled.
- Profile.ProfileTable.Record: without the source-line lookup through DWARF.
- Speedscope.Export: the frames, numbers and escapes that are written, not the punctuation around them.
- Images.AddElf: a file is a list of program headers that can be read or not, and whether the decoder refuses a segment is an arbitrary function of it.
- StackFrames.FrameRoundTrip: text is a sequence of Unicode scalars, so a backtick, plus sign or blank followed by a combining mark counts as itself.
- OtlpEnvelope.BuildAttribute: string and integer values only, as for `EnvelopeRoundTrip`.
- LineAssembler.Handler.FlushPending: the timestamp and the executable name and pid parsed from the body are not modelled, nor is an emit that fails.
- LineAssembler.Handler.OnOutput: the error box that stops the loop when an emit fails; text is a sequence of Unicode scalars, so a carriage return before a newline does not form one character with it.
- Allocation failure, `strdup` failure and overflow of `int` counters and of the `long` weight.
- Growth by `realloc` of arrays into which no pointer is kept (profile entries, folded entries, sections, symbols, edges): these are sequences here.
- The blanks, sign and overflow rules of `%lx`, `%d` and `%u` are those of `strtoul`, `strtol` and the narrowing to 32 bits.
- Instruction decoding, ELF and DWARF parsing, HTTP, gzip, retries, the metrics envelope, and all kernel and process interfaces: their results are arbitrary inputs.
- Text and table output, sorting for display, filters, option parsing, profile catalogues, and the `hwtlm` sensor tool.
