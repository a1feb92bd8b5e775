# PxpRpc, modelled and proved in Dafny

PxpRpc is a small RPC stack: a session protocol between a client and a server,
a reference pool for server-side objects, a serializer with a table format,
framing over byte channels, and three C state machines beside them (the C
server's requests, the in-process pipe, the cross-thread executor).  This
project models each of these and proves what the stack relies on.

Protocols are step systems over values, with theorems over every run and every
interleaving.  Code that updates objects in place is also written as classes
with the source's fields, links and loops; their methods are proved to take
exactly the steps of the pure model, so the theorems about the model are
theorems about them.

The scripting server's code is cut into turns of one request, and the protocol
lets other steps come between them; `Endpoints.AwaitIsTurns` says that what the
code does from one await to the next is such turns in a row.

| file | contents |
|---|---|
| `Prelude.dfy`, `Wire.dfy`, `Values.dfy` | words, varints, byte strings, sequences of values and their encodings |
| `Serializer.dfy` | the growable serializer |
| `Table.dfy`, `TablePrefix.dfy`, `TableSerializer.dfy` | the table format, truncation, the row-stored serializer |
| `ColumnTable.dfy` | the column-stored C++ serializer and its agreement with the row-stored one |
| `RefPool.dfy`, `CRefPool.dfy` | the scripting server's pool of linked slots; the C pool under `realloc` |
| `Marshal.dfy`, `ObjectTable.dfy`, `Rpc.dfy` | typed arguments and results; object columns and handles; a typed call through the whole stack |
| `ServedObjects.dfy` | the session protocol with the pool in the server's state |
| `SidAllocator.dfy` | the session-id allocator |
| `Session.dfy`, `SessionSafety.dfy`, `SessionRuns.dfy` | the session protocol, its invariant, what holds of every run |
| `Endpoints.dfy` | client and server objects taking the protocol's steps |
| `Framing.dfy`, `Gathering.dfy`, `Receiving.dfy`, `Transport.dfy` | length-prefixed framing: coalescing writer, gathering writer, reader, whole conversations |
| `Pipe.dfy`, `PipeConnection.dfy` | the in-process pipe and its linked queues |
| `Executor.dfy` | the runtime bridge's executor queue |
| `CServer.dfy`, `CServerSafety.dfy`, `CServerObject.dfy` | the C server's request lifecycle |

Where the repository disagrees with itself, the code is followed:

- The C varint writer stores 255 as the bare escape byte.  `Wire.CVarintDecodable`
  states that 255 is the only value it affects, `Wire.CVarintMisread` what a
  reader makes of it, and `Values.WritersAgree` when the two writers agree.
- A failed session-id allocation leaves the cursor on the end of the range, and
  the end itself can then be handed out.  `SidAllocator.AllocatesKeeps` states
  exactly when, `SidAllocator.EndHandedOut` shows it.
- In the pipe a receive refused because one is pending leaves its error in the
  field the pending one's callback reads.  `Pipe.OverlapReported` states exactly
  when a delivered receive finds that error, `Pipe.OverlapExample` shows it.
- The C server's outstanding receive holds no reference to the context.
  `CServerSafety.UsedAfterRelease` states exactly when its completion uses a
  released context, `CServerSafety.IdleDeleteTouched` shows it, and
  `CServerSafety.PromptNeverTouched` says which io avoids it.
- `buf_free` is promised addresses that `receive` delivered, and callables may
  keep the parameter's buffer.  When a poll's callable does, null moved by twelve
  is freed at the end of the poll.  `CServerSafety.BuffersFreedOnce` states
  exactly when this happens, `CServerSafety.StrayExample` shows it.
- A signal whose callable returns on a closed context still uses the io.
  `CServerSafety.IoUsedAfterRelease` states exactly when the io is used after its
  release, `CServerSafety.SignalExample` shows it.
- A Java reader whose channel is closed in the middle of a message returns it
  filled up with zeros, and the receive loops hand it on.  `Receiving.CutGenuine`
  and `Transport.HandedUnaltered` state exactly when that is the message sent,
  `Receiving.CutAltered` shows one that is not.
- Freeing a free reference closes the free list into a cycle
  (`RefPool.Server.FreeRef`, `CRefPool.DoubleFreeCycle`).
- The executor runs each batch in the reverse of the order in which it was
  posted (`Executor.BatchesReversed`).

## Model

| member | source | states |
|---|---|---|
| Wire.SignedRoundTrip | typescript/pxprpc/base.ts:49-60 | an integer stored in n bytes reads back as itself if and only if it fits the signed range |
| Wire.LittleEndian | typescript/pxprpc/base.ts:49-60 | byte i of a stored number is its i-th digit to the base 256, the least significant first |
| Wire.VarintBytes | c/pxprpc/serializer.c:54-66 | a varint up to 254, in C 255, is one byte; any other is the byte 255 and four bytes, least significant first |
| Wire.BytesExtent | typescript/pxprpc/base.ts:111-116 | a byte string is read if and only if it lies in the underlying buffer, even past the end of its view |
| Wire.CVarintDecodable | c/pxprpc/serializer.c:54-66 | what the C varint writer stores is read back, whatever follows, if and only if the value is not 255 |
| Wire.CVarintMisread | c/pxprpc/serializer.c:89-96 | after the bare escape byte a reader takes the next four bytes as the value |
| Values.DecAllOf | typescript/pxprpc/base.ts:16-119 | any sequence of puts is undone by the matching gets, wherever the bytes lie in a larger buffer |
| Values.NumberBytes | typescript/pxprpc/base.ts:49-119 | the bytes of every number, in two's complement and least significant first, of a boolean (1 or 0) and of an object's index |
| Values.StringBytes | typescript/pxprpc/base.ts:96-107 | a byte string or string of up to 254 bytes is its length in one byte, then its bytes |
| Values.EncAllInjective | typescript/pxprpc/base.ts:49-119 | two value sequences of the same kinds with equal bytes are equal |
| Values.WritersAgree | c/pxprpc/serializer.c:54-72 | the C and the scripting serializer write the same bytes if and only if no varint written is 255 |
| SerializerModule.Serializer.EnsureBuffer | typescript/pxprpc/base.ts:87-95 | makes room for the next write without changing what was written, in place or in a fresh buffer |
| SerializerModule.Serializer.PutInt | typescript/pxprpc/base.ts:49-54 | extends what was written by exactly the encoding of the value |
| SerializerModule.Serializer.PutVarint | typescript/pxprpc/base.ts:73-86 | extends what was written by exactly the varint, across a reallocation |
| SerializerModule.Serializer.PutBytes | typescript/pxprpc/base.ts:96-107 | extends what was written by exactly the length-prefixed bytes |
| SerializerModule.Serializer.GetWord | typescript/pxprpc/base.ts:20-39 | reads a little-endian word inside the view and advances, or fails with a range error and stays |
| SerializerModule.Serializer.GetVarint | typescript/pxprpc/base.ts:40-48 | agrees with the pure varint reader on value, position and failure |
| SerializerModule.Serializer.GetBytes | typescript/pxprpc/base.ts:111-116 | agrees with the pure byte-string reader; its extent is bounded by the buffer, not the view |
| Table.RoundTrip | typescript/pxprpc/extend.ts:387-404 | load after build gives back types, names and rows of every well-formed table and consumes exactly its bytes |
| Table.WordLetters | typescript/pxprpc/extend.ts:322-386 | for any four bytes, column 'i' reads a signed number, 'f' a float pattern, 'o' an index |
| Table.LongLetters | typescript/pxprpc/extend.ts:322-386 | for any eight bytes, column 'l' reads a signed number, 'd' a float pattern |
| Table.CountedLetters | typescript/pxprpc/extend.ts:322-386 | columns 'b' and 's' read counted bytes, 'c' a boolean that any other byte than 0 makes true |
| Table.KnownLetters | typescript/pxprpc/extend.ts:405-465 | exactly the letters i, l, f, d, b, s, c, o are known column types |
| Table.CellPlace | typescript/pxprpc/extend.ts:405-465 | cell (i,j) is the (j*rows+i)-th value written |
| Table.TableBegins | typescript/pxprpc/extend.ts:499-514 | a table begins with the flag, 1 without column names and else 0, the row count and the type string |
| Table.FlagBit | typescript/pxprpc/extend.ts:387-404 | the lowest bit of the flag says that there are no names; then the names held before stay |
| TablePrefix.NoProperPrefixLoads | typescript/pxprpc/extend.ts:387-404 | no proper prefix of a built table loads |
| TableSerializerModule.TableSerializer.PutRowsData | typescript/pxprpc/extend.ts:405-465 | in a client, writes the rows column by column; stops with an error at the first unknown column type, having written the columns before it |
| TableSerializerModule.TableSerializer.GetRowsData | typescript/pxprpc/extend.ts:322-386 | in a client, fills the rows column by column exactly as the pure reader does, or fails as it does |
| TableSerializerModule.TableSerializer.Build | typescript/pxprpc/extend.ts:466-514 | emits the header and the columns of the table held, whose types are inferred from the first row if none are set |
| TableSerializerModule.InferredFits | typescript/pxprpc/extend.ts:471-498 | the inferred type string fits the rows if and only if all have the kinds of the first and their numbers are doubles or longs |
| TableSerializerModule.InferredLetters | typescript/pxprpc/extend.ts:471-498 | the letter inferred for each kind of cell, 'd' for every number that is not a long; no letters without rows |
| TableSerializerModule.TableSerializer.Load | typescript/pxprpc/extend.ts:387-404 | sets types, names and rows as the pure reader gives them, names kept when the flag says there are none |
| ColumnTable.CellsMakeRows | c/include/pxprpc_ext.hpp:226-272 | r*c cells added one by one to an empty table of c columns make the r rows with cell (i,j) equal to value i*c+j |
| ColumnTable.StoresAgree | c/include/pxprpc_ext.hpp:137-207 | the column-stored writer and the row-stored writer emit the same bytes if and only if no length and no row count is 255 |
| ColumnTable.BuiltLoads | c/include/pxprpc_ext.hpp:137-207 | every table over i, l, f, d, b, s, c in which no length or count is 255, once built, loads back as its types, its names or none, and every cell |
| ColumnTable.OtherLettersSkipped | c/include/pxprpc_ext.hpp:137-207 | a column of any other letter is announced in the types and left out of the bytes |
| ColumnTable.RowIsCells | c/include/pxprpc_ext.hpp:209-242 | wherever a row is complete, adding a row is as good as adding its cells one by one |
| ColumnTable.AddRowTransposes | c/include/pxprpc_ext.hpp:209-216 | adding a row to the columns appends that row to the transposed table |
| ColumnTable.ColumnSerializer.AddValue | c/include/pxprpc_ext.hpp:224-242 | if the table held just some values, left to right and top to bottom, it then holds those and the new one after them |
| ColumnTable.ColumnSerializer.BuildSer | c/include/pxprpc_ext.hpp:137-207 | writes header, names and the columns of known types into the bound serializer; what it wrote loads back as the table it held |
| ColumnTable.ColumnSerializer.GetRow | c/include/pxprpc_ext.hpp:217-223 | gives the cells of one row across all columns |
| RefPool.AllocatedForKeeps | typescript/pxprpc/extend.ts:203-210 | an allocation takes a slot that was free, with or without growth, leaves every other slot alone and keeps the pool's invariant |
| RefPool.AllocatedForInstalls | typescript/pxprpc/extend.ts:203-210 | an allocation installs a finalizer, one that has not run, if and only if the object has a close; an exhausted pool grows by 256 slots and the first of them is taken |
| RefPool.ObjectFinalized | typescript/pxprpc/extend.ts:203-210 | in every run, freeing the index given out for an object, or closing the pool, runs the finalizer installed with that object if and only if it has a close, and a free runs no other; then the index names nothing |
| RefPool.ClosedForgets | typescript/pxprpc/base.ts:370-381 | after the close no index names an object, and the finalizers have run in slot order |
| RefPool.FreedNext | typescript/pxprpc/base.ts:268-284 | a slot freed names nothing and is the next to be taken |
| RefPool.FreedInOrder | typescript/pxprpc/base.ts:288-293 | a free request frees, and runs finalizers, in the order of its list: the last slot is taken first |
| RefPool.FreedKeeps | typescript/pxprpc/base.ts:276-284 | freeing a slot in use frees exactly it and keeps the free chain duplicate-free, its slots empty and every finalizer accounted for |
| RefPool.FreedAllKeeps | typescript/pxprpc/base.ts:288-293 | a free request for distinct slots in use frees exactly those |
| RefPool.FinalizersRunOnce | typescript/pxprpc/base.ts:370-381 | in every run, after the close every finalizer installed before it has run exactly once |
| RefPool.NeverTwice | typescript/pxprpc/base.ts:276-284 | no finalizer runs twice, and one still installed has not run |
| RefPool.HandleStable | typescript/pxprpc/base.ts:285-287 | a handle names the same object through any run that neither frees it nor closes the pool |
| RefPool.RunHeld | typescript/pxprpc/base.ts:256-284 | in every run of allocations, frees of indices held and a close, the slots off the free chain are exactly those whose indices callers hold |
| RefPool.RunHandsOut | typescript/pxprpc/extend.ts:203-210 | in every run an allocation gives an index no caller holds, and it names the object |
| RefPool.Server.ExpandRefPools | typescript/pxprpc/base.ts:256-267 | 256 new numbered slots are linked before the old chain |
| RefPool.Server.AllocRef | typescript/pxprpc/base.ts:268-275 | takes the first slot of the chain, growing the pool when the chain is empty |
| RefPool.Server.AllocRefFor | typescript/pxprpc/extend.ts:203-210 | the slot holds the object, and its close as finalizer if it has one |
| RefPool.Server.FreeRef | typescript/pxprpc/base.ts:276-284 | runs the finalizer and empties the slot; a slot in use becomes the first of the chain, a free one closes the links into a cycle that no later free opens |
| RefPool.Server.EndlessHasNoChain | typescript/pxprpc/base.ts:276-284 | links closed into a cycle lead through no finite chain of slots |
| RefPool.Server.FreeRefHandler | typescript/pxprpc/base.ts:288-293 | frees the listed slots in order up to the first number that names none; the chain stays sound if and only if they were distinct and in use |
| RefPool.Server.Close | typescript/pxprpc/base.ts:370-381 | runs every installed finalizer in slot order and empties every slot, once |
| CRefPool.ExpandOnlyWhenEmpty | c/pxprpc/server.c:63-83 | when realloc moves the block, growth is sound if and only if the free list was empty and 64 more slots still fit the 16-bit size |
| CRefPool.AllocatedHolds | c/pxprpc/server.c:85-95 | an allocation returns the exact index of a slot not in use and removes only it from the list |
| CRefPool.FreedHolds | c/pxprpc/server.c:97-106 | freeing a slot in use puts it first in the list and keeps every link in the current block |
| CRefPool.DoubleFreeCycle | c/pxprpc/server.c:97-106 | freeing a free slot leaves a list that has no end |
| CRefPool.FreeNeedsUse | c/pxprpc/server.c:97-106 | freeing keeps the pool sound if and only if the slot is in use |
| CRefPool.ChainAcyclic | c/pxprpc/server.c:63-111 | a free list that can be followed to its end visits no slot twice |
| CRefPool.RunSound | c/pxprpc/server.c:63-111 | in every run of allocations, fills, frees and a close, the links from the free entry stay in the current block and visit exactly the slots whose indices no caller holds |
| CRefPool.RunHandsOutFree | c/pxprpc/server.c:85-95 | in every run an allocation hands out an index no caller holds |
| CRefPool.FillFinalized | c/pxprpc/server.c:41-58 | in every run, freeing a slot runs the finalizer a caller put there and no other, closing runs each one once in slot order; then the slot is empty |
| CRefPool.GrowsBy64 | c/pxprpc/server.c:63-83 | an exhausted pool grows by 64 slots, and the first of them is handed out |
| CRefPool.FreedFirst | c/pxprpc/server.c:85-106 | the slot freed last is handed out first |
| CRefPool.ServCo.ExpandRefPool | c/pxprpc/server.c:63-83 | the linking loops produce exactly the model's new slots |
| CRefPool.ServCo.AllocRef | c/pxprpc/server.c:85-95 | returns the index of a slot that was not in use |
| SidAllocator.AllocatesOnce | typescript/pxprpc/extend.ts:152-173 | from every state there is exactly one outcome, and it is the exception if and only if every id that could be handed out is used |
| SidAllocator.AllocatesKeeps | typescript/pxprpc/extend.ts:152-173 | the id was unused, cursor and used ids stay in range, also after a failure; the id is the end of the range if and only if the cursor was left there and the end is unused |
| SidAllocator.EndHandedOut | typescript/pxprpc/extend.ts:152-173 | with every id used an allocation fails, and the next one hands out the end of the range |
| SidAllocator.IdsGoRound | typescript/pxprpc/extend.ts:152-173 | whatever is freed meanwhile, the id after `a` is the first unused one after it, cyclically; an id is handed out again only once all others of the range are used; the first of all is 1 |
| SidAllocator.SidPool.AllocSid | typescript/pxprpc/extend.ts:152-173 | terminates with the first free id in cyclic order from the cursor, or fails when all are used |
| Session.PacketLayout | typescript/pxprpc/base.ts:155-225 | the packets of a call, signal, poll and request to close: session word, index (-5 for a poll, -3 for a close), a poll's inner index, parameter |
| Session.ReplyEffect | typescript/pxprpc/base.ts:130-225 | what any packet does to the client: it is ignored, ends the loop, settles a call once, or shows a poll one more outcome and at an error ends it |
| Session.FinishEffect | typescript/pxprpc/base.ts:155-179 | an answered call gives back its id and callback; one rejected by the end of the connection leaves its callback registered |
| SessionSafety.StepKeeps | typescript/pxprpc/base.ts:130-179 | every step of client, server and channels keeps the ownership invariant |
| SessionSafety.TurnKeeps | typescript/pxprpc/base.ts:298-369 | a turn of a request in the server replies exactly when an outcome waits to be sent, with the right word, and leaves the request in order |
| SessionSafety.HeadRouted | typescript/pxprpc/base.ts:134-142 | the next reply finds the callback of its own, still waiting request |
| SessionRuns.RepliesRouted | typescript/pxprpc/base.ts:134-142 | in every run an arriving reply finds a registered callback, that of the request it answers |
| SessionRuns.CallsResolveOnce | typescript/pxprpc/base.ts:155-179 | in every run a call is resolved at most once, by the one outcome computed for it or by the end of the connection |
| SessionRuns.PollsInOrder | typescript/pxprpc/base.ts:207-225 | in every run a poll's caller sees a prefix, in order, of what was computed: successes, then at most one error, nothing after it |
| SessionRuns.OneReplyEach | typescript/pxprpc/base.ts:298-369 | in every run the replies to a request are the outcomes of its callable's invocations, one each and in order; a poll request itself gets none |
| SessionRuns.ErrorIsFinal | typescript/pxprpc/base.ts:358-369 | in every run a poll's callable is not invoked after an error, and once the error is sent nothing is, not even for the poll request itself |
| SessionRuns.IdsExclusive | typescript/pxprpc/extend.ts:97-120 | in every run, also after the client has stopped, each used id belongs to exactly one request, and ids are not leaked |
| SessionRuns.IdsNotReissued | typescript/pxprpc/extend.ts:108-120 | in every run an id is not given out again while its holder waits |
| SessionRuns.ServedAsMade | typescript/pxprpc/base.ts:322-369 | in every run a callable is invoked on the index and parameter the caller gave, in every round of a poll; a signal and a request to close get no reply |
| SessionRuns.WaitingCallLocated | typescript/pxprpc/base.ts:298-321 | in every run a waiting call is in exactly one of: request channel, server, reply channel |
| SessionRuns.ClientStops | typescript/pxprpc/base.ts:130-151 | in every run the receive loop ends only with an exception or because the client was closed, never because of a reply; in the second case no caller is told |
| SessionRuns.ServerStops | typescript/pxprpc/base.ts:294-335 | in every run a step stops the server if and only if its loop ends, a callable throws, or it is the first turn of a request to close |
| SessionRuns.CloseNotLost | typescript/pxprpc/base.ts:194-202 | in every run a request to close under way can be carried along until the server has stopped, and it is never answered |
| SessionRuns.RunGrows | typescript/pxprpc/base.ts:130-225 | what a caller has seen and what the server computed only grow along a run |
| SessionRuns.BreakSettlesAll | typescript/pxprpc/base.ts:143-148 | the end of the receive loop gives the error to exactly the requests still waiting |
| SessionRuns.NoCallLost | typescript/pxprpc/base.ts:298-321 | from every state of every run with both sides running, accepting, serving and delivering alone can resolve a waiting call with the outcome computed for it, or with any its callable produces |
| SessionRuns.NoOutcomeLost | typescript/pxprpc/base.ts:358-369 | likewise a waiting poll's caller can be shown everything computed for it, and after successes whatever comes next |
| Endpoints.ClientEndpoint.StartRequest | typescript/pxprpc/extend.ts:97-125 | allocates an id, registers the callback, sends header and parameter, as the protocol's start step |
| Endpoints.ClientEndpoint.SendClose | typescript/pxprpc/base.ts:194-202 | sends the request to close and registers no callback |
| Endpoints.ClientEndpoint.OnPacket | typescript/pxprpc/base.ts:134-142 | routes a packet as the protocol's delivery step, ending the loop if no callback is registered |
| Endpoints.PacketReady | typescript/pxprpc/base.ts:134-142 | in every run the client meets a reply in a state, and with a packet, that it can be routed in |
| Endpoints.ClientEndpoint.Fail | typescript/pxprpc/base.ts:143-151 | gives every registered callback the error, in whatever order the keys come |
| Endpoints.ClosePacket | typescript/pxprpc/base.ts:294-320 | a packet with index -3 closes the server before its first await and sends nothing; taken up again its request is gone, without an answer |
| Endpoints.PacketCalls | typescript/pxprpc/base.ts:298-368 | a packet for a callable or built-in waits for it with its own index and parameter, a poll with those inside its parameter; a built-in that does not exist, or a poll without an index, stops the server |
| Endpoints.AnswerSent | typescript/pxprpc/base.ts:304-316 | after its callable a request is answered if and only if the server runs and it is no signal, with its session word, the top bit flipped for an error, and the body |
| Endpoints.PollGoesOn | typescript/pxprpc/base.ts:358-369 | after a success a poll calls its callable again on the same parameter, after an error or a close it ends without an answer of its own |
| Endpoints.ServerEndpoint.OnPacket | typescript/pxprpc/base.ts:322-333 | makes a request object of a packet and runs it to its first await, on the heap as the turns of the protocol do; nothing is sent, and a request to close has stopped the server |
| Endpoints.ServerEndpoint.Resume | typescript/pxprpc/base.ts:298-369 | a request taken up when the callable, the send or the function it awaits is done always reaches its next await or its end, as the turns of the protocol do, with at most one reply |
| Endpoints.AwaitIsTurns | typescript/pxprpc/base.ts:298-369 | what the code does from one await to the next, of a callable, a send or an inner function, is a number of turns of that request in a row |
| Endpoints.ServerEndpoint.OnReturn | typescript/pxprpc/base.ts:298-304 | a callable that is done leaves its outcome in the request, which can then be taken up; nothing else changes and nothing is sent yet |
| Endpoints.ServerEndpoint.OnThrow | typescript/pxprpc/base.ts:317-320 | a callable that throws closes the server and its activation ends without a reply |
| Marshal.ArgumentsArrive | typescript/pxprpc/extend.ts:224-236 | the server reads exactly the arguments the client serialized, from wherever they lie in the packet |
| Marshal.OneArgument | typescript/pxprpc/extend.ts:65-79 | a single bytes argument crosses the wire as it is, any other as its encoding without a header |
| Marshal.OneResult | typescript/pxprpc/extend.ts:245-258 | likewise a single result; no result is no bytes |
| Marshal.ResultArrives | typescript/pxprpc/extend.ts:80-96 | the client reads exactly the result the callable returned, none, one or several values |
| ObjectTable.ObjectsComeBack | typescript/pxprpc/extend.ts:367-380 | an object returned in a result of any type and passed back in an argument of any type is the same server object if its handle was not freed; null stays null |
| ObjectTable.OneComesBack | typescript/pxprpc/extend.ts:367-380 | an instance: one object from an empty pool, another put beside it |
| ObjectTable.PlacedFetch | typescript/pxprpc/extend.ts:447-460 | every cell put is fetched again by the value it was written as |
| ObjectTable.PlacedApart | typescript/pxprpc/extend.ts:203-210 | two objects put get two handles, even if they are the same object |
| ObjectTable.FetchesSlots | typescript/pxprpc/extend.ts:367-380 | reading an index fails if and only if it is neither -1, which is null, nor that of a slot |
| ObjectTable.ServerTable.PutRowsData | typescript/pxprpc/extend.ts:405-465 | in a server, writes the rows column by column and puts their objects into the pool in that order |
| ObjectTable.ServerTable.GetRowsData | typescript/pxprpc/extend.ts:322-386 | in a server, reads the rows as the pure reader does and looks every index up; fails if that fails or an index names no slot |
| Rpc.TypedCall | typescript/pxprpc/extend.ts:97-107 | in every run a typed call's arguments reach the server and its result the caller unchanged |
| ServedObjects.ObjectsServedBack | typescript/pxprpc/extend.ts:80-120 | in every run of the protocol with the server's pool, an object returned by one call and passed on in another request is the very object the second callable fetches, if its handle was not freed and the server still runs; null stays null |
| ServedObjects.PoolServes | typescript/pxprpc/base.ts:322-381 | in every run the pool keeps its invariant and is closed exactly when the server has stopped |
| ServedObjects.StopFinalizes | typescript/pxprpc/base.ts:370-381 | in every run, when the server stops, every finalizer installed until then has run exactly once |
| ServedObjects.CloseRequestFinalizes | typescript/pxprpc/base.ts:294-297 | in every run the first turn of a request to close stops the server, closes the pool and has every finalizer run exactly once |
| ServedObjects.FreeRequestFrees | typescript/pxprpc/base.ts:288-293 | in every run an answered free request has freed every index its parameter lists |
| ServedObjects.SparesBetween | typescript/pxprpc/base.ts:276-293 | while the server runs, its steps spare every handle that is not freed |
| Framing.StreamRoundTrip | java/src/pxprpc/backend/ChannelIo.java:47-53 | whatever part of the stream arrives, repeated receives give a prefix of the messages sent; the whole stream gives all |
| Framing.FrameBytes | java/src/pxprpc/backend/ChannelIo.java:18-45 | a frame is the length in four bytes, least significant first, and the payload |
| Framing.TakenBytes | java/src/pxprpc/backend/ChannelIo.java:47-53 | what is taken off any stream, by its bytes: nothing yet, an error for a negative length, or exactly the payload |
| Framing.Writef | java/src/pxprpc/base/Utils.java:46-52 | writes all that remains through partial writes and restores the position; a first part if the channel is closed |
| Framing.ChannelIo.Send | java/src/pxprpc/backend/ChannelIo.java:18-45 | emits exactly the length and all buffers in order for every buffer list and write pattern, buffers left where they were |
| Receiving.Readf | java/src/pxprpc/base/Utils.java:14-23 | fills the buffer from partial reads or reports the end of the stream; if the channel is closed meanwhile the rest stays zero |
| Receiving.Receive | java/src/pxprpc/backend/ChannelIo.java:47-53 | takes exactly the next frame off the stream if the channel is still open afterwards; else the stream had ended or what was read is filled up with zeros |
| Receiving.CutGenuine | java/src/pxprpc/base/Utils.java:14-23 | a message read while its channel was closed is the one sent if and only if every byte missed is a zero |
| Receiving.CutAltered | java/src/pxprpc/base/Utils.java:14-23 | closed after the length, a message of one byte 7 is read as a zero |
| Transport.SendAll | java/src/pxprpc/backend/ChannelIo.java:18-45 | messages sent one after another emit the stream of their frames, or a first part if the channel is closed, buffers left where they were |
| Transport.GatherAll | java/src/pxprpc/backend/ChannelIo2.java:24-48 | the gathering writer emits the stream of the frames and drains every buffer |
| Transport.ReadLoop | java/src/pxprpc/base/ServerContext.java:72-84 | the receive loop, which does not look whether the channel is open: it hands on the first messages of the stream and at most one more, read while the channel was being closed; if the channel stays open and the loop is not stopped, all up to the first that lacks a header |
| Transport.HandedUnaltered | java/src/pxprpc/base/ClientContext.java:34-56 | what is handed on is a first part of the stream's messages if and only if the channel was not closed during the last of them or every byte missed is a zero |
| Transport.ReceiveMany | java/src/pxprpc/backend/ChannelIo.java:47-53 | receives by a reader that, unlike the repository's, looks after each one whether the channel is still open: a first part of the messages whatever happens, all of them if it stays open |
| Transport.Converse | java/src/pxprpc/backend/ChannelIo.java:18-53 | sent through one end and read by a receive loop at the other, whatever splits or cuts the stream: the first messages sent and at most one more, the next one, unaltered if and only if the receiving channel was not closed during it or every byte missed is a zero; all that have a header if nothing was cut, closed or stopped |
| Transport.ConverseGathered | java/src/pxprpc/backend/ChannelIo2.java:24-56 | the same through the gathering writer |
| Gathering.LastDrained | java/src/pxprpc/backend/ChannelIo2.java:43-46 | the last buffer is drained if and only if all are |
| Gathering.ChannelIo2.Send | java/src/pxprpc/backend/ChannelIo2.java:24-48 | emits exactly the frame and drains every buffer for every pattern of gathering writes |
| Pipe.CompletesOnce | c/pxprpc_pipe/pxprpc_pipe.c:78-202 | in every run no operation completes twice, and after a close each has completed exactly once |
| Pipe.DeliversInOrder | c/pxprpc_pipe/pxprpc_pipe.c:54-76 | in every run the delivered payloads followed by the queued ones are those accepted, in order |
| Pipe.SentIfDelivered | c/pxprpc_pipe/pxprpc_pipe.c:54-76 | in every run a send completes without an error if and only if its payload was received: directly after the receive, on the other side, of the payload it was given |
| Pipe.ClosedRejects | c/pxprpc_pipe/pxprpc_pipe.c:78-148 | in every run sends and receives on a closed pipe are rejected at once, and a close completes with an error all that had not completed |
| Pipe.CloseLogs | c/pxprpc_pipe/pxprpc_pipe.c:171-202 | a close completes the receives first, the server's before the client's, then the queued sends, oldest first, the server's before the client's |
| Pipe.AlwaysQuiet | c/pxprpc_pipe/pxprpc_pipe.c:54-76 | after every operation no direction has both a pending receive and a queued send; nothing is pending after a close; the second close releases |
| Pipe.OverlapReported | c/pxprpc_pipe/pxprpc_pipe.c:54-122 | in every run a receive that had to wait is completed by a close or by the next payload; with the payload its callback finds the overlap error if and only if an overlapped receive was refused meanwhile |
| Pipe.OverlapExample | c/pxprpc_pipe/pxprpc_pipe.c:104-111 | two receives and a send: the first receive gets the payload and the error of the second |
| PipeConnection.TransferBuffer | c/pxprpc_pipe/pxprpc_pipe.c:40-52 | the delivered buffer is the concatenation of the sender's parts |
| PipeConnection.LaneObject.Enqueue | c/pxprpc_pipe/pxprpc_pipe.c:86-100 | the request is appended after the last node of the list |
| PipeConnection.Connection.DoSend | c/pxprpc_pipe/pxprpc_pipe.c:78-102 | rejects on a closed pipe, else queues and pumps |
| PipeConnection.Connection.DoReceive | c/pxprpc_pipe/pxprpc_pipe.c:104-122 | rejects an overlapped receive or one on a closed pipe, else waits and pumps |
| PipeConnection.Connection.DoClose | c/pxprpc_pipe/pxprpc_pipe.c:171-214 | completes both receives and drains both queues with an error |
| Executor.NoneLostOrRepeated | runtime_bridge/src/pxprpc_rtbridge.c:31-54 | in every interleaving the tasks posted are those run, in the batch or queued, each once |
| Executor.NoLostWakeup | runtime_bridge/src/pxprpc_rtbridge.c:31-54 | in every interleaving a non-empty queue has a wakeup pending, being served, or about to be sent by a thread that has pushed |
| Executor.BatchesReversed | runtime_bridge/src/pxprpc_rtbridge.c:31-54 | a batch is what was posted since the last one, newest first |
| Executor.BatchRunsInOrder | runtime_bridge/src/pxprpc_rtbridge.c:31-43 | in every interleaving a batch is run in the order it was taken in, nothing in between |
| Executor.LoopFinishes | runtime_bridge/src/pxprpc_rtbridge.c:31-43 | once no thread is mid-post the loop alone runs every task posted |
| Executor.AsyncQueue.AsyncCb | runtime_bridge/src/pxprpc_rtbridge.c:31-43 | takes the list, leaves it empty and runs every node |
| Executor.AsyncQueue.AsyncExec | runtime_bridge/src/pxprpc_rtbridge.c:45-54 | pushes the node at the head of the list |
| CServerSafety.ContextLifetime | c/pxprpc/server.c:31-39 | in every run the count is one for the owner plus the live requests; the context is released once, when that is zero |
| CServerSafety.ClosesExactly | c/pxprpc/server.c:41-58 | in every run the context is closed by a failed receive or send, a deletion or a request to close, and by nothing else |
| CServerSafety.PacketStarts | c/pxprpc/server.c:289-304 | in every run a packet makes a request of its own: which callable is called, on which index and parameter, what is sent at once, and what a request to close leaves |
| CServerSafety.CallableDoneSends | c/pxprpc/server.c:148-171 | in every run a finished callable's result is sent, with the error bit if and only if it is rejected, unless the context is closed; a signal ends |
| CServerSafety.SendDoneEnds | c/pxprpc/server.c:219-243 | in every run a completed send ends its request, unless it is a poll with no error on an open context, whose callable is then called again; a failed send has closed the context |
| CServerSafety.PutBackAsReceived | c/pxprpc/server.c:225-229 | a poll about to end is put back with the index and parameter it was received with |
| CServerSafety.UsedAfterRelease | c/pxprpc/server.c:289-309 | in every run a released context is used again if and only if a receive was outstanding at the release; its completion is then the one step left to the server |
| CServerSafety.PromptNeverTouched | c/pxprpc_pipe/pxprpc_pipe.c:171-186 | with an io whose close completes the receive, as the pipe's does, no run uses the context after its release |
| CServerSafety.IdleDeleteTouched | c/pxprpc/server.c:328-335 | with one that does not, deleting an idle server is enough to use it |
| CServerSafety.BuffersFreedOnce | c/pxprpc/server.c:123-135 | in every run, for any number of poll rounds, the received addresses freed are exactly those of ended requests whose callable did not keep the buffer, each once; and every address freed is one received if and only if no ended poll's callable kept its buffer |
| CServerSafety.StrayExample | c/pxprpc/server.c:219-229 | a poll whose callable keeps the buffer and fails frees null moved by twelve |
| CServerSafety.IoUsedAfterRelease | c/pxprpc/server.c:123-135 | in every run, from any state in which the io is released and not used since, it is used if and only if a signal's callable that was at work then has returned since, and it can be if and only if there is one |
| CServerSafety.SignalExample | c/pxprpc/server.c:164-171 | a signal whose callable returns after the receive has failed and the io was released uses it |
| CServerSafety.FinishersRunOnce | c/pxprpc/server.c:219-238 | in every run each finisher runs at most once, before the callable's next invocation and by the end of its request |
| CServerSafety.ErrorBitOnce | c/pxprpc/server.c:148-161 | in every run the session word is flipped at most once, exactly when the result is rejected |
| CServerObject.ServCo.DoFinishRequest | c/pxprpc/server.c:123-135 | gives back the buffer at the address received, drops one reference, which releases the context exactly at zero, and frees the request last, after which nothing may use it |
| CServerObject.ServCo.DoStepPoll3 | c/pxprpc/server.c:219-238 | ends a poll exactly after a rejection or a close, giving back the buffer from its unshifted start, or null moved likewise; else the next round begins with the parameter in place and no finisher |
| CServerObject.ServCo.NextStep | c/pxprpc/server.c:256-302 | a jump through a heap request's function pointer takes the step of the model and touches only live requests |
| CServerObject.ServCo.OnReceive | c/pxprpc/server.c:289-304 | a packet received keeps the invariant of lifetimes, buffers and finishers on the heap |
| CServerObject.ServCo.OnCallableDone | c/pxprpc/server.c:164-178 | a callable that calls its continuation, whether it kept the buffer or not, keeps that invariant on the heap |
| CServerObject.ServCo.OnSendDone | c/pxprpc/server.c:219-243 | a completed send keeps it too; the context is then closed if and only if it was or the send failed, and the request is live if and only if a poll goes on |

## Left out

- Sockets, libuv, WebSocket, postMessage, JNI and shared memory: a channel is a sequence with arbitrary partial progress.
- The header read of the libuv backend, which takes the length in one chunk; the Java framing is modelled instead.
- Requests other than to close with the fixed id 0x100, which bypass the allocator, and requests tried on a client that has stopped.
- Callbacks that call back into the pipe, the pool or the server while they run: their actions are later steps.
- Poll targets that are built-ins; a client's poll names an object in the reference pool.
- Floating-point values and UTF-8: floats are bit patterns, strings are their bytes, and a type string is the bytes of its letters.
- JavaScript's coercion of wrongly typed cells: rows have the kinds their columns declare, and a number in an inferred column is a double.
- The columns the C++ `load` appends to an object that already holds some; C++ tables are built, not loaded.
- Sizes at or above 2^31 in buffer growth and payload lengths of 2^32 in the pipe.
- Java's session-id allocator and object columns, and the Python pool, which differ from the other versions.
- The C# server, the code generators, reflection-based callables and the registry of pipe servers, which would add only easy members.
- The buffer of a receive that completes after a close, which the C server drops.
- What the C server's built-ins put into their results and do to its pool, which is proved on its own.
- Gathering.ChannelIo2.Send: requires the buffers to be distinct objects, because the channel interface does not say how often a gathering write takes a buffer listed twice.
- An io that releases itself within its own `close`: the release is a later step, when nothing it was asked for is outstanding.
- ServedObjects.ObjectsServedBack: what a callable does to the pool comes between steps of the protocol, and what it allocates for its result comes with its return.
- SessionRuns.NoCallLost: says that a call can be resolved, not that the scheduler will do so; a C request whose send is skipped after a close, and a close request, stay live.
