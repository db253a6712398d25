# Verified model of the exchange

This project models the core of an exchange and proves what its parts promise: the matching
engine, the UDP messaging between services, the replication of the order book to clients, and
the accounts that lock, settle and release funds. Two small arithmetic cores, candles and
indicators, are modelled too. `dafny verify dfyconfig.toml` checks everything.

**Matching.** `orders.dfy` defines the reference: a book is two plain lists of resting orders in
price-time priority, and matching consumes the head of a list greedily. `flat_book.dfy` shows
that this is the only outcome that meets a non-recursive description, and what each operation
keeps, and `taking.dfy` what each order takes. `arrival_book.dfy` and `arrival_matching.dfy` go one step further back, to the bag of
arrivals from which the earliest best-priced order is served. The Rust engine's `OrderBook` class in
`matching_engine.dfy` (two sorted maps of levels with cached totals, a second copy of every
order in a hash map, deferred removal of emptied levels) refines the plain lists; `engine_runs.dfy`
states what holds after every run. The Python book in `python_*.dfy`, with order objects shared
between queue, dictionary and caller, refines the same lists, `order_flags.dfy` covers
fill-or-kill, immediate-or-cancel and post-only, and `books_agree.dfy` gives both books the same
commands.

**UDP.** `udp_wire.dfy`, `udp_protocol.dfy` and `udp_builder.dfy` are the byte formats and the
builder that fills one buffer in place. `udp_sender.dfy` is the batching worker, `udp_receiver.dfy`
the gap-detecting one. `udp_stream.dfy` joins them through a network that may lose, repeat and
reorder datagrams and mix in others, and `udp_delivery.dfy` says what a receiver then holds.

**Replication.** `publisher.dfy` diffs the best ten levels and sends a snapshot every tenth
publish; `gateway_book.dfy` applies the events and notifies clients; `sorted_price_map.dfy` is the
client's sorted array with its reverse index and cached best price. `replication.dfy` proves that
all three agree, after any loss that is followed by a snapshot.

**Accounts.** `decimals.dfy` has the two roundings in play, half-even in the program and half away
from zero in the columns. `ledger.dfy`, `order_locks.dfy` and `settlement.dfy` describe each
operation as a function on the tables; `accounts_service.dfy` is the code as transactions that roll
back. What holds for every run is in `account_runs.dfy`, and in `lock_release.dfy` and
`bid_release.dfy` for what one order locks and gets released. `fill_keys.dfy` is the text of the
idempotency key; `settled_runs.dfy` settles the fills of an engine run under it, and `fed_runs.dfy`
proves for accounts fed by an engine what the lock results ask of their callers. `late_fills.dfy`
is about fills that are settled after their order was cancelled.

**Conventions.** Each component is a class or a set of loops where the source updates in place,
proved equal to a function on values; the lemmas are about those functions. Quantities and
prices of the engine are integers, multiples of a smallest step; amounts in the accounts and in
the indicators are exact reals.

**Where code and description differ.** The code is followed.

- The sender fixes the packet number of a batch when the previous data packet is sent, so a data
  packet that follows heartbeats reuses the first heartbeat's number, and it is the next data packet
  that jumps and records an empty gap (`UdpStream.HeartbeatNumberReused`).
- A comment in `accounts/src/routes/orders.rs` says a quantity is rounded down; the code
  rounds half to even.
- The ledger's own check lets a lock go below zero; the table constraint refuses it, so no append
  ever leaves a negative balance (`Ledger.AppendSucceeds`).
- `cancel` and `cancel_internal` promise to unlock the amount that was locked. They do so
  exactly under the conditions of `OrderLocks.PlaceThenCancel` and
  `LockRelease.AskIsReleasedExactly`. A price of more than eight decimals drifts in its column, and
  a large bid at such a price gets more back than it locked
  (`OrderLocks.DriftingBidIsNotRestored`); `BidRelease.BidReleaseBound` says by how much.
- Coarser candles are meant to contain their finer ones. Before 1970 the division in
  `accounts/src/models/ohlcv.rs` rounds towards zero, and they do exactly under the condition of
  `Candles.RollsUpExactlyWhen`.
- After a silence, a heartbeat makes a stream active again even if a recorded gap is still open
  (`UdpStream.StatesOverRuns`).
- A cancel that overtakes the settlement of a fill releases that fill's lock, and the settlement,
  which asks for neither a lock nor an open order, releases it again: the excess is exactly the
  late fills (`LateFills.LateFillIsReleasedTwice`, with a run in `LateFills.LateFillExample`).

## Model

| member | source | states |
|---|---|---|
| `FlatBook.ConsumeIsGreedy` | matching_engine/src/lib.rs:234-315 | Matching is the one outcome in which every fill takes the next resting order in price-time priority at that order's own price, all but at most the last of them are exhausted and reported in order, and matching stops only on a filled taker, an exhausted side or an unacceptable price (if and only if) |
| `FlatBook.UnfilledTakerExhausts` | matching_engine/src/lib.rs:249-267 | If the taker is left with something, no order left on the other side has a price it accepts |
| `FlatBook.ConsumeLeavesRemnant` | matching_engine/src/lib.rs:269-305 | What is left of a side is its end, with at most the first order's remainder reduced, and one completed id is reported for each order that is gone |
| `FlatBook.EnqueuePosition` | matching_engine/src/lib.rs:317-329 | A newcomer queues behind every order at least as well priced and ahead of every worse one |
| `FlatBook.WithoutIsRemoval` | matching_engine/src/lib.rs:346-355 | Removing an id drops exactly the order that carries it |
| `FlatBook.PlaceLimitKeepsBook` | matching_engine/src/lib.rs:122-142 | Placing a limit order keeps both sides sorted, all remainders positive and at most the quantity, ids unique and the book uncrossed |
| `FlatBook.PlaceMarketKeepsBook` | matching_engine/src/lib.rs:144-162 | A market order keeps the same book invariant |
| `FlatBook.CancelKeepsBook` | matching_engine/src/lib.rs:178-185 | A cancel keeps the same book invariant, and the id is gone |
| `Taking.MarketTakes` | matching_engine/src/lib.rs:144-162 | A market order takes everything the other side holds, up to its quantity; it is reported complete if and only if that is enough, and otherwise the other side ends empty; its own side stays |
| `Taking.LimitTakes` | matching_engine/src/lib.rs:122-142 | A limit order takes what the other side offers at its price or better, up to its quantity; it is reported complete if and only if that is enough, and otherwise the rest of it joins its own side by priority |
| `PriceLevels.BestFirstIsKeyList` | matching_engine/src/lib.rs:240-245 | The price snapshot lists every key of the side once, best first |
| `PriceLevels.KeyListIsBestFirst` | matching_engine/src/lib.rs:240-245 | Any strictly ordered list of the keys is that snapshot |
| `PriceLevels.AddIsEnqueue` | matching_engine/src/lib.rs:317-329 | Pushing an order to the back of its level, opening the level if needed, is inserting it into the plain list by priority |
| `PriceLevels.RemoveFromLevel` | matching_engine/src/lib.rs:331-359 | Taking an order out of its level and dropping the level if emptied is removing it from the plain list; the cached total stays the sum of the queue |
| `PriceLevels.LevelTotalsAreDepth` | matching_engine/src/lib.rs:216-232 | The cached totals, best level first, are the aggregated plain list |
| `PriceLevels.DepthIsSummary` | matching_engine/src/lib.rs:216-232 | The aggregated list has every price that occurs, once, best first, with the sum of the remainders at it |
| `MatchingEngine.OrderBook.constructor` | matching_engine/src/lib.rs:114-120 | An empty book is valid |
| `MatchingEngine.MatchLevel` | matching_engine/src/lib.rs:273-305 | The inner loop: queue heads are popped and pushed back, both copies of the order, the cached total and the id map are updated together, and the whole matching stays on course for the greedy outcome |
| `MatchingEngine.MatchLevels` | matching_engine/src/lib.rs:247-310 | The outer loop over the price snapshot reaches exactly the greedy outcome; the levels noted for removal are exactly the emptied ones |
| `MatchingEngine.OrderBook.RemoveLevels` | matching_engine/src/lib.rs:312-314 | Dropping the emptied levels after the loops leaves the levels of the remaining list |
| `MatchingEngine.OrderBook.MatchOrder` | matching_engine/src/lib.rs:234-315 | Matching over levels, queues and hash map gives the fills, completed ids, taker and leftover book of greedy matching on the plain list |
| `MatchingEngine.OrderBook.AddOrderToBook` | matching_engine/src/lib.rs:317-329 | Both copies of a resting order are stored; the plain list gains it at its priority |
| `MatchingEngine.OrderBook.AddLimitOrder` | matching_engine/src/lib.rs:122-142 | Adding a limit order is placing it on the plain book, result and all; its fills total what is on offer within its price, up to its quantity |
| `MatchingEngine.OrderBook.AddMarketOrder` | matching_engine/src/lib.rs:144-162 | A market order is matched and its rest dropped, never rested; its fills total what the other side holds, up to its quantity |
| `MatchingEngine.OrderBook.CancelOrder` | matching_engine/src/lib.rs:178-185 | True exactly if the id rests in the book; the book is then the plain book without it |
| `MatchingEngine.OrderBook.RemoveOrderFromBook` | matching_engine/src/lib.rs:331-359 | The order leaves its level, an emptied level leaves its side |
| `MatchingEngine.Retain` | matching_engine/src/lib.rs:346-354 | The retain loop keeps every other order in order and learns the remainder of the removed one |
| `MatchingEngine.OrderBook.GetOrder` | matching_engine/src/lib.rs:165-167 | A lookup finds an order exactly if it rests in the book, and finds the copy that is in its queue |
| `MatchingEngine.OrderBook.BestPrice` | matching_engine/src/lib.rs:192-198 | The best price is that of the head of the plain list; no resting order is better |
| `MatchingEngine.OrderBook.Spread` | matching_engine/src/lib.rs:200-205 | With both sides present the spread is always there and positive, since the book is never crossed |
| `MatchingEngine.OrderBook.QuantityAtPrice` | matching_engine/src/lib.rs:207-213 | The cached total of a level is the sum of the remainders resting at its price |
| `MatchingEngine.OrderBook.GetLevels` | matching_engine/src/lib.rs:216-232 | The first levels of the aggregated plain list, best first |
| `MatchingEngine.TakeLevels` | matching_engine/src/lib.rs:216-232 | Taking the first levels off the sorted map |
| `ArrivalBook.NextIsHead` | matching_engine/src/lib.rs:240-274 | The earliest of the best-priced arrivals is the head of the sorted list, and without it the list is the rest |
| `ArrivalMatching.MatchRefines` | matching_engine/src/lib.rs:234-315 | Matching the sorted list is serving, again and again, the earliest of the best-priced orders among the arrivals |
| `ArrivalMatching.LimitRefines` | matching_engine/src/lib.rs:122-142 | A limit order on the sorted book is one on the bag of arrivals |
| `ArrivalMatching.MarketRefines` | matching_engine/src/lib.rs:144-162 | The same for a market order |
| `ArrivalMatching.CancelRefines` | matching_engine/src/lib.rs:178-185 | The same for a cancel |
| `EngineRuns.EveryRunIsOk` | matching_engine/src/lib.rs:122-185 | After every run of limit adds, market adds and cancels with fresh ids: the book is sorted, positive and uncrossed, it rests only what was placed at its own side and price, trades are at prices both sides accept, every quantity is conserved, every fully traded order is reported complete once and no other ever, and no two fills are between the same two orders |
| `EngineRuns.OrderLifecycle` | matching_engine/src/lib.rs:129-162 | For each placed order: quantity = traded + resting + dropped, all non-negative; it rests exactly while something remains; it is in the completed list exactly once if and only if its fills reach its quantity |
| `EngineRuns.PlacementTakes` | matching_engine/src/lib.rs:122-162 | In every run, each order as it is placed takes exactly what the other side then offers within its limit, a market order whatever there is, up to its quantity; the rest of a limit order rests, the rest of a market order is dropped |
| `EngineRuns.ConsumeConserves` | matching_engine/src/lib.rs:273-305 | Matching moves quantity between an order's remainder and its fills and loses none |
| `EngineRuns.ConsumeCompletes` | matching_engine/src/lib.rs:296-300 | Matching reports complete exactly the resting orders of which it leaves nothing, each once |
| `FillKeys.HexRoundTrip` | accounts/src/models/trade.rs:93-95 | Reading the hexadecimal digits of an id gives the id back |
| `FillKeys.UuidTextDetermines` | accounts/src/models/trade.rs:93-95 | Two ids of 128 bits with the same hyphenated 36-character text are the same |
| `FillKeys.DecimalTextDetermines` | accounts/src/models/trade.rs:93-95 | Two signed integers with the same decimal text are the same |
| `FillKeys.KeyTextParts` | accounts/src/models/trade.rs:93-95 | The text is the buy id, the sell id and the timestamp, joined by hyphens |
| `FillKeys.KeyTextDetermines` | accounts/src/models/trade.rs:93-95 | The idempotency text of a fill (both ids in hyphenated hexadecimal and the decimal timestamp, joined by hyphens) is the same exactly if both ids and the timestamp are |
| `EngineRuns.KeysNeverClash` | accounts/src/models/trade.rs:93-95 | Two different fills of an engine run with UUID order ids never get the same idempotency text, whatever the timestamps |
| `EngineRuns.RunServesArrivals` | matching_engine/src/lib.rs:122-185 | Over every run the book, fills and completions are those of serving the earliest best-priced arrival |
| `EngineService.ProcessCommands` | matching_engine_service/src/main.rs:203-221 | The command loop against one book: what it holds and reported at the end is the run over the commands |
| `Taking.ConsumeTakesLiquidity` | yyin/mexchange_py/mexchange/book.py:255-262 | Matching takes all acceptable liquidity up to what is wanted |
| `OrderFlags.FokIsAllOrNothing` | yyin/mexchange_py/mexchange/book.py:117-122 | A fill-or-kill order is admitted exactly when matching fills it completely; a rejected one changes nothing |
| `OrderFlags.PostOnlyNeverTakes` | yyin/mexchange_py/mexchange/book.py:111-115 | A post-only order never trades on entry and is rejected exactly when it would have |
| `OrderFlags.IocNeverRests` | yyin/mexchange_py/mexchange/book.py:129-131 | An immediate-or-cancel order never rests |
| `OrderFlags.FlaggedRejects` | yyin/mexchange_py/mexchange/book.py:111-122 | A limit order is rejected, with nothing changed, if and only if it is post-only and anything is on offer within its price, or fill-or-kill and too little is |
| `OrderFlags.FlaggedTakes` | yyin/mexchange_py/mexchange/book.py:124-140 | Otherwise it takes, greedily, what is on offer up to its quantity: filled if and only if that is enough, else cancelled if immediate-or-cancel, partially filled or open if not; its own side changes only by the rest of a plain order joining it |
| `OrderFlags.PostOnlyRests` | yyin/mexchange_py/mexchange/book.py:111-140 | A post-only order with nothing on offer rests with its whole quantity, open |
| `OrderFlags.PlainOrdersAgree` | yyin/mexchange_py/mexchange/book.py:100-140 | Without flags a limit order gives the fills, completions and book of the Rust engine |
| `PythonMatching.TradeHead` | yyin/mexchange_py/mexchange/book.py:206-240 | One trade with the head of a level changes the shared order objects, their status, the level total and the dictionary together |
| `PythonMatching.MatchLevel` | yyin/mexchange_py/mexchange/book.py:205-240 | The inner loop over one level, in place; a resting order that traded is filled or partially filled by what remains of it, and one that did not keeps its status |
| `PythonLevels.MatchLevels` | yyin/mexchange_py/mexchange/book.py:191-245 | The outer loop with immediate deletion of emptied levels reaches the same greedy outcome; each fill carries the accounts of the orders it names; every resting order's status follows its remainder |
| `PythonBook.PyBook.constructor` | yyin/mexchange_py/mexchange/book.py:56-61 | An empty book is valid |
| `PythonBook.PyBook.Match` | yyin/mexchange_py/mexchange/book.py:191-245 | Matching against the opposite side is greedy matching on the plain list; the caller's order object ends as the plain taker, and every resting order's status follows its remainder |
| `PythonBook.PyBook.AddLimitOrder` | yyin/mexchange_py/mexchange/book.py:100-140 | Validation errors, each its own, change nothing; otherwise book, order object, fills, completions, status and rejection are those of the flagged order on the plain book, every resting order's status follows its remainder, and no other object joins the book |
| `PythonBook.PyBook.PlaceChecked` | yyin/mexchange_py/mexchange/book.py:107-140 | The same for a validated order |
| `PythonBook.PyBook.PlaceAdmitted` | yyin/mexchange_py/mexchange/book.py:124-140 | Past the pre-checks the order is matched, and filled, cancelled or rested by its time in force, with the status of the flagged order on the plain book |
| `PythonBook.PyBook.Refuses` | yyin/mexchange_py/mexchange/book.py:111-122 | The two pre-checks look at exactly the acceptable liquidity of the other side |
| `PythonBook.PyBook.AvailableLiquidity` | yyin/mexchange_py/mexchange/book.py:255-262 | The sum of cached totals over acceptable levels, in any iteration order, is the acceptable liquidity of the plain list |
| `PythonBook.PyBook.Crosses` | yyin/mexchange_py/mexchange/book.py:264-266 | Some level is acceptable exactly when some resting order is |
| `PythonBook.PyBook.Rest` | yyin/mexchange_py/mexchange/book.py:268-278 | The same object joins its level and the dictionary; the plain list gains it by priority |
| `PythonBook.PyBook.AddMarketOrder` | yyin/mexchange_py/mexchange/book.py:142-158 | A market order is the Rust engine's and takes all there is up to its quantity, which the order object's remainder reflects; the rest is dropped, it is marked filled or cancelled, and every resting order's status follows its remainder |
| `PythonBook.PyBook.CancelOrder` | yyin/mexchange_py/mexchange/book.py:160-176 | True exactly if the id rests; the order object is marked cancelled, the plain book loses it, and the dictionary loses that id only |
| `BooksAgree.ProcessPlain` | yyin/mexchange_py/mexchange/book.py:100-176 | The commands of a run, given in order to a new Python book, leave it with the book, fills and completions of the engine run |
| `BooksAgree.DriveBoth` | yyin/mexchange_py/mexchange/book.py:100-176 | The Rust book and the Python book, given the same plain limit orders, market orders and cancels, both report the fills and completions of the run over them, in order, and end with the run's plain book |
| `UdpWire.LittleEndianRoundTrip` | udp_proto/src/protocol.rs:96-104 | Little-endian coding of an n-byte integer decodes to it |
| `UdpWire.BytesRoundTrip` | udp_proto/src/protocol.rs:126-143 | Decoding n bytes gives an n-byte integer that codes to them |
| `UdpProtocol.TypeCodesRoundTrip` | udp_proto/src/protocol.rs:28-42 | Type codes and message types correspond one to one |
| `UdpProtocol.HeaderRoundTrip` | udp_proto/src/protocol.rs:91-147 | A packet header whose fields fit decodes to itself whatever follows it |
| `UdpProtocol.HeaderIsEncoded` | udp_proto/src/protocol.rs:111-147 | Any header that decodes is the encoding of what it decodes to |
| `UdpProtocol.HeaderLayout` | udp_proto/src/protocol.rs:50-108 | Byte by byte: version 1, length 24, message count at 2, stream at 4, packet number at 8, first message number at 16, each least significant byte first |
| `UdpProtocol.MessageLayout` | udp_proto/src/protocol.rs:154-200 | Type code, flags, payload length in two bytes, payload |
| `UdpProtocol.MessagesRoundTrip` | udp_proto/src/protocol.rs:253-286 | Encoded messages decode to themselves, numbered consecutively from the first, whatever follows, and also if more were announced and nothing follows |
| `UdpProtocol.PacketRoundTrip` | udp_proto/src/protocol.rs:253-286 | Parsing an encoded packet gives back header, types, flags, payloads and consecutive sequence numbers, whatever bytes follow the announced messages; a buffer that ends after fewer of them gives those |
| `UdpProtocol.ParsedPacketIsEncoded` | udp_proto/src/protocol.rs:253-286 | Any buffer that parses is the encoding of the parsed packet plus bytes beyond the announced count; fewer messages than announced means the buffer ended after them |
| `UdpProtocol.ParseErrors` | udp_proto/src/protocol.rs:111-147 | Which error each buffer that does not parse gets: too short for a header, another version, another header length, or ending inside a message |
| `UdpProtocol.ParseMessages` | udp_proto/src/protocol.rs:258-283 | The parsing loop with its running offset computes the recursive decoding, errors included |
| `UdpProtocol.Parse` | udp_proto/src/protocol.rs:253-286 | Packet::parse is the decoder |
| `UdpBuilder.PacketBuilder.constructor` | udp_proto/src/protocol.rs:299-309 | A new builder is empty, with its numbers fixed |
| `UdpBuilder.PacketBuilder.TryAddMessage` | udp_proto/src/protocol.rs:324-340 | Succeeds exactly if header and payload fit the remaining room; then the buffer holds one more encoded message; otherwise nothing changes; the u16 length and count casts never truncate |
| `UdpBuilder.PacketBuilder.Finish` | udp_proto/src/protocol.rs:342-352 | The finished bytes are the encoded packet of everything added, at most one MTU |
| `UdpBuilder.CopyInto` | udp_proto/src/protocol.rs:331-336 | copy_from_slice writes its range and nothing else |
| `UdpBuilder.EncodeMessagesAppend` | udp_proto/src/protocol.rs:324-340 | Adding a message appends its encoding |
| `UdpBuilder.MessagesTakeRoom` | udp_proto/src/protocol.rs:324-340 | A packet within the MTU holds too few messages, and too short payloads, for the u16 fields to overflow |
| `UdpBuilder.HeartbeatRoundTrip` | udp_proto/src/protocol.rs:355-360 | A heartbeat parses to an empty packet with its numbers |
| `UdpSender.Enqueue` | udp_proto/src/sender.rs:144-172 | A message is accepted exactly if header, message header and payload fit 1400 bytes; the error names the sizes |
| `UdpSender.SenderWorker.constructor` | udp_proto/src/sender.rs:119-127 | Both counters start at zero |
| `UdpSender.SenderWorker.SendBatch` | udp_proto/src/sender.rs:219-231 | The batch goes out under the number fixed when it was begun; the counters advance and the next builder is empty |
| `UdpSender.SenderWorker.SendHeartbeat` | udp_proto/src/sender.rs:250-257 | A heartbeat takes the next packet number but leaves the number of the batch being built |
| `UdpSender.SenderWorker.AddToBatch` | udp_proto/src/sender.rs:217-232 | A message always ends up in a batch: the batch is sent first exactly if the message has no room in it, and then the second attempt, whose result the code ignores, cannot fail |
| `UdpSender.SenderWorker.OnTick` | udp_proto/src/sender.rs:215-262 | One wait: a message is batched, a pause sends the batch or else a due heartbeat and nothing more, a disconnect stops |
| `UdpSender.SenderWorker.Collect` | udp_proto/src/sender.rs:214-263 | The main loop keeps exactly the messages taken so far, sent or pending |
| `UdpSender.SenderWorker.Drain` | udp_proto/src/sender.rs:266-281 | The drain loop adds exactly what was still queued |
| `UdpSender.SenderWorker.Flush` | udp_proto/src/sender.rs:284-286 | The last batch is sent without advancing the counters |
| `UdpSender.SenderWorker.Run` | udp_proto/src/sender.rs:210-287 | For every sequence of waits and every rest of the queue, the datagrams sent carry exactly the accepted messages in order; without pauses no packet begins with a message the packet before had room for |
| `UdpSender.DatagramRoundTrip` | udp_proto/src/sender.rs:210-287 | Each datagram parses to what it carries with the numbers the sender gave; it is within the MTU, and every packet of messages has some |
| `UdpSender.LosslessBatching` | udp_proto/src/sender.rs:210-287 | Parsing all datagrams of a run in order gives the accepted messages numbered 0, 1, 2, ... (in u64) |
| `UdpReceiver.ReceiverWorker.constructor` | udp_proto/src/receiver.rs:155-167 | A new receiver expects nothing and has handed on nothing |
| `UdpReceiver.ReceiverWorker.RecordGap` | udp_proto/src/receiver.rs:361-382 | The gap is counted, logged and kept among the last hundred; the stream is degraded |
| `UdpReceiver.ReceiverWorker.HandOn` | udp_proto/src/receiver.rs:338-352 | Messages of known type are handed on in order and counted |
| `UdpReceiver.ReceiverWorker.AcceptMessages` | udp_proto/src/receiver.rs:318-358 | A packet of messages initializes, is dropped as a duplicate, or is handed on after recording a jump as a gap |
| `UdpReceiver.ReceiverWorker.ProcessPacket` | udp_proto/src/receiver.rs:300-359 | Parse errors change nothing but what is counted for them; packets of other streams are ignored; heartbeats only wake the stream; the rest is accepted |
| `UdpReceiver.ReceiverWorker.OnDatagram` | udp_proto/src/receiver.rs:274-281 | A datagram is cut at the buffer, counted, processed, and an error counted |
| `UdpStream.CountersCount` | udp_proto/src/receiver.rs:361-375 | For any datagrams at all: the counters count the gaps, their sizes and the messages handed on, modulo 2^64, and the kept gaps are the most recent ones |
| `UdpStream.StatesOverRuns` | udp_proto/src/receiver.rs:226-389 | For any datagrams at all: the stream is degraded exactly if a gap was recorded since it was last silent or recovered, so a silence hides an open gap; it is down or degraded only once started, and until then nothing is handed on and no gap recorded |
| `UdpStream.GapsAreKept` | udp_proto/src/receiver.rs:361-382 | For any datagrams: the kept gaps are those recorded since the last clearing, the hundred most recent ones if there are more |
| `UdpStream.NoiseIsIgnored` | udp_proto/src/receiver.rs:300-306 | A datagram that does not parse or is of another stream moves only the byte counter, and the error counter if it does not parse |
| `UdpStream.OnlyOwnStream` | udp_proto/src/receiver.rs:304-306 | A receiver that listens to one stream hands on messages of that stream only, whatever arrives |
| `UdpStream.KnownAreKnown` | udp_proto/src/receiver.rs:338-352 | Of the messages of a packet exactly those with one of the nine type codes are handed on, as they are |
| `UdpStream.GapTiles` | udp_proto/src/receiver.rs:334-337 | A gap recorded up to a later number extends the tiling |
| `UdpStream.BatchTiles` | udp_proto/src/receiver.rs:339-357 | A batch of consecutive numbers handed on extends the tiling |
| `UdpStream.LaterNumbers` | udp_proto/src/sender.rs:210-287 | A data packet with a larger number was sent later and starts no earlier than the other ended; with the next number it starts exactly there |
| `UdpStream.HeartbeatNumberReused` | udp_proto/src/sender.rs:250-257 | A data packet shares its number with an earlier datagram exactly if a heartbeat was sent just before it |
| `UdpStream.PassedOn` | udp_proto/src/receiver.rs:328-357 | Accepting a data packet keeps the tiling exact, and the gap subtraction does not underflow |
| `UdpStream.EventStands` | udp_proto/src/receiver.rs:300-359 | Every arrival, silence or recovery keeps the accounting |
| `UdpStream.AccountingIsExact` | udp_proto/src/receiver.rs:300-382 | For every sender run and every network that loses, repeats, reorders and mixes in unreadable datagrams and other streams: numbers handed on strictly increase, each with the payload the sender gave it, and they and the recorded gaps (some empty) tile [first accepted, expected) exactly, sizes included |
| `UdpStream.InOrderLosesNothing` | udp_proto/src/receiver.rs:300-359 | If everything arrives once and in order, every message is handed on under its number and every recorded gap is empty |
| `UdpDelivery.DeliveryIsExact` | udp_proto/src/receiver.rs:268-389 | For every sender run and every such delivery: the consumer gets exactly the messages of the data packets newer than all delivered before them; each that does not follow on records exactly the gap in between; and state, packet, heartbeat, duplicate, error and byte counters follow from what was delivered |
| `PriceRows.SortedOnce` | frontend/src/workers/marketDataWorker.ts:14-87 | A map of prices has only one sorted list of rows |
| `Publisher.DiffPatches` | matching_engine_service/src/main.rs:410-492 | Applying the computed deltas to the previous side gives the new side and leaves the other alone |
| `Publisher.DiffIsEmpty` | matching_engine_service/src/main.rs:410-492 | No delta is computed exactly when nothing changed |
| `Publisher.DiffTells` | matching_engine_service/src/main.rs:410-492 | The deltas are exactly: an addition for each price only in the new side, an update for each whose quantity differs, a removal for each only in the old one |
| `Publisher.DiffInOrder` | matching_engine_service/src/main.rs:410-492 | Each price has at most one delta; additions and updates come first, then removals, each group in ascending price order |
| `Publisher.OrderBookPublisher.constructor` | matching_engine_service/src/main.rs:397-404 | The first publish is a snapshot |
| `Publisher.OrderBookPublisher.SideChanges` | matching_engine_service/src/main.rs:420-442 | The loop over new levels yields the additions and updates in ascending price order |
| `Publisher.OrderBookPublisher.SideRemovals` | matching_engine_service/src/main.rs:445-454 | The loop over old levels yields the removals |
| `Publisher.OrderBookPublisher.ComputeDeltas` | matching_engine_service/src/main.rs:410-492 | Bid changes, bid removals, ask changes, ask removals, in that order |
| `Publisher.OrderBookPublisher.Publish` | matching_engine_service/src/main.rs:500-547 | Sends a snapshot when due, else the deltas if any, of the best ten levels of the plain book; a failed send leaves all state as it was |
| `GatewayBook.OrderBookState.constructor` | gateway/src/channel_updates.rs:29-38 | A new gateway book is empty |
| `GatewayBook.OrderBookState.Collect` | gateway/src/channel_updates.rs:105-115 | The loop over a snapshot side keeps the rows that are not zero |
| `GatewayBook.NonZeroKeeps` | gateway/src/channel_updates.rs:105-115 | A snapshot keeps exactly the rows whose quantity is not zero |
| `GatewayBook.OrderBookState.ApplyDeltas` | gateway/src/channel_updates.rs:155-179 | Deltas are applied in order, each noted as a change of its side |
| `GatewayBook.OrderBookState.ApplyOrderbookUpdate` | gateway/src/channel_updates.rs:98-194 | A snapshot replaces both sides and is announced only if it changed something; a delta is applied and announced if it has changes |
| `GatewayBook.AnnouncedChanges` | gateway/src/channel_updates.rs:155-189 | A gateway that holds what was last published announces of the next deltas exactly the prices whose quantity changed, each with its quantity before and after |
| `SortedPrices.SortedPriceMap.constructor` | frontend/src/workers/marketDataWorker.ts:20-22 | An empty map is valid |
| `SortedPrices.SortedPriceMap.FindInsertIndex` | frontend/src/workers/marketDataWorker.ts:28-45 | Binary search returns the one place where the price belongs |
| `SortedPrices.SortedPriceMap.Reindex` | frontend/src/workers/marketDataWorker.ts:55-57 | Renumbering from a position makes the index the exact inverse again |
| `SortedPrices.SortedPriceMap.Overwrite` | frontend/src/workers/marketDataWorker.ts:64-65 | An existing level gets its new quantity |
| `SortedPrices.SortedPriceMap.Insert` | frontend/src/workers/marketDataWorker.ts:66-75 | A new level is spliced in, index and best price with it |
| `SortedPrices.SortedPriceMap.Delete` | frontend/src/workers/marketDataWorker.ts:50-60 | A level is spliced out, index and best price with it |
| `SortedPrices.SortedPriceMap.Set` | frontend/src/workers/marketDataWorker.ts:47-76 | Setting a price is setting or removing a key of a finite map; array sorted, index inverse and best price stay right |
| `SortedPrices.SortedPriceMap.Clear` | frontend/src/workers/marketDataWorker.ts:78-82 | Clearing gives the empty map |
| `SortedPrices.ApplyChanges` | frontend/src/workers/marketDataWorker.ts:280-283 | The loop over one side's changes |
| `SortedPrices.ProcessChannelNotification` | frontend/src/workers/marketDataWorker.ts:271-289 | A snapshot clears both maps first; the changes of each side are then set in order |
| `SortedPrices.BuildOrderBookLevels` | frontend/src/workers/marketDataWorker.ts:192-210 | Each displayed level carries the quantity up to and including it |
| `SortedPrices.BinaryInsertPricePoint` | frontend/src/utils/hftOptimizations.ts:288-322 | The price history stays in time order and gains exactly the new point |
| `Replication.TopIsTenBest` | matching_engine_service/src/main.rs:500-508 | What is published of a side has a price if and only if something rests at it and fewer than ten resting prices are better, with all that rests there |
| `Replication.SnapshotCadence` | matching_engine_service/src/main.rs:406-408 | The next successful publish is a snapshot exactly when the number of successes is a multiple of ten |
| `Replication.EverythingSentIsOk` | matching_engine_service/src/main.rs:500-547 | Every event carries positive quantities and its publish count; it is a snapshot exactly when that count is a multiple of ten, every such count has its snapshot, and no delta event is empty |
| `Replication.GatewayAgrees` | gateway/src/channel_updates.rs:98-194 | A gateway in any state that receives the latest snapshot and every event since, which are deltas only, holds the ten best prices of each side of the plain book at the last successful publish with everything resting at each, for every run with failed sends anywhere |
| `Replication.SnapshotHeals` | gateway/src/channel_updates.rs:251-274 | A full snapshot gives a client the gateway's book whatever it had |
| `Replication.ChangesAreHeard` | frontend/src/workers/marketDataWorker.ts:280-289 | Setting the announced changes one by one does what the deltas did |
| `Replication.ClientKeepsUp` | gateway/src/channel_updates.rs:117-151 | A client equal to the gateway stays equal after every event; a suppressed notification would have changed nothing |
| `Replication.AnnouncedWhenChanged` | gateway/src/channel_updates.rs:98-194 | A gateway that holds what was last published announces the next event if and only if it changes the book |
| `Replication.EndToEnd` | gateway/src/channel_updates.rs:98-194 | Publisher, gateway (in any state before the latest snapshot) and a client that joins at any point since end with the same book, the ten best prices of each side of the plain list |
| `Replication.ShownIsTop` | frontend/src/workers/marketDataWorker.ts:84-87 | The sorted array of such a client is that list itself, at most ten rows, best first, and its best price that of the best resting order |
| `Decimals.HalfEvenIsNearest` | accounts/src/models/ledger.rs:77-80 | Rounding goes to the nearest integer and, between two, to the even one |
| `Decimals.RoundNear` | accounts/src/models/ledger.rs:77-80 | Rounding moves an amount by at most half a unit of the asset's last place |
| `Decimals.RoundKeeps` | accounts/src/models/ledger.rs:77-80 | An amount that fits is kept |
| `Decimals.ColumnKeeps` | accounts/migrations/002_create_ledger.sql:6-7 | A DECIMAL(20, 8) column keeps an amount of at most eight places |
| `Ledger.AppendAdds` | accounts/src/models/ledger.rs:167-239 | A successful append adds one entry with the exact amount and running balance and caches that balance |
| `Ledger.AppendSucceeds` | accounts/src/models/ledger.rs:167-239 | It succeeds exactly if the asset and precision are valid and the balance stays non-negative, for locks too |
| `Ledger.AppendOutcome` | accounts/src/models/ledger.rs:44-75 | The outcome in full: one to ten letters and digits, then two decimals for EUR, USD and GBP and eight for all else, then the balance, each with its own error |
| `Ledger.RoundsByAsset` | accounts/src/models/ledger.rs:57-80 | Rounding gives an amount of the asset's decimals at most half a unit away |
| `Ledger.AppendKeepsLedger` | accounts/src/models/ledger.rs:167-239 | Every append keeps cached balance, ledger sum and last recorded balance equal and non-negative |
| `Ledger.AppendAllTotals` | accounts/src/models/ledger.rs:167-239 | The appends of a transaction move every sum over the ledger by what was posted |
| `AccountTables.SymbolRoundTrip` | accounts/src/models/order.rs:123-129 | A symbol parses to base and quote exactly if it is the two around a single slash |
| `OrderLocks.PlaceSucceeds` | accounts/src/models/order.rs:171-248 | An order is accepted exactly if a limit order has a price, the symbol parses, the asset to lock is valid and covers the lock, and the id is new; the lock then leaves that balance and no other |
| `OrderLocks.LockAmounts` | accounts/src/models/order.rs:132-168 | A limit bid locks price times quantity of the quote asset, a market bid slippage price or 1000 times quantity, an ask its quantity of the base asset, each to the half-unit |
| `OrderLocks.PlaceErrors` | accounts/src/models/order.rs:171-248 | Which error each refused order gets |
| `OrderLocks.RecomputedExactly` | accounts/src/models/order.rs:135-168 | With a price and quantity of at most eight places the lock worked out from the stored row is the lock that was taken |
| `OrderLocks.PlaceThenCancel` | accounts/src/models/order.rs:251-318 | Place then cancel with no fill: the cancel fails exactly if the stored quantity is zero; otherwise every balance is restored if and only if the recomputed lock, if positive, equals the lock taken |
| `OrderLocks.FittingOrderRestores` | accounts/src/models/order.rs:181-191 | Every order, market bids included, whose numbers fit their columns is restored exactly |
| `OrderLocks.HalfUnitAskIsNotRestored` | accounts/migrations/004_create_orders_trades.sql:9-9 | An ask for half of the smallest unit is a concrete order that is not restored |
| `OrderLocks.DriftingBidIsNotRestored` | accounts/migrations/004_create_orders_trades.sql:8-9 | A limit bid for ten million at 1.000000005, whose price grows in its column: place then cancel releases five cents more than were locked |
| `AccountRuns.SettledOnceForAll` | accounts/src/models/trade.rs:97-101 | Over every run: once a settlement has succeeded, every later one under the same key, whatever it says and whatever came between, leaves the whole database unchanged and gives the trade recorded first, and that trade stays as it is to the end |
| `AccountRuns.LedgerOnlyGrows` | accounts/migrations/002_create_ledger.sql:1-12 | The ledger is append-only: over every run its entries so far stay as they are, in their places |
| `Settlement.SettleSucceeds` | accounts/src/models/trade.rs:103-155 | A new fill of a non-negative quantity and worth settles exactly if one of its orders is known, the symbol parses into valid assets and the quantity has the places of the base asset; neither balance, lock nor order status enters into it; with no known order, or a symbol that does not parse, it gets its own error |
| `Settlement.SettlementNets` | accounts/src/models/trade.rs:157-242 | A settlement moves the trade entries of an asset, over all users, by what its known sides leave unbalanced: by zero when both orders are known |
| `Settlement.SettlementPays` | accounts/src/models/trade.rs:157-242 | The buyer gains the quantity of the base asset, the seller the rounded cost, and no other balance moves: what is released pays for it |
| `Settlement.TradeIsRecorded` | accounts/src/models/trade.rs:252-278 | The recorded trade has the known orders and owners on their sides, price and quantity, and for each side a fee of a thousandth of the cost, to the half-unit |
| `Settlement.PostingsUnlock` | accounts/src/models/trade.rs:157-226 | A settlement releases the rounded cost of the fill to the buyer's order, its quantity to the seller's, and nothing to others |
| `AccountsService.Accounts.constructor` | accounts/src/models/ledger.rs:84-93 | Empty tables |
| `AccountsService.Accounts.AppendInTx` | accounts/src/models/ledger.rs:167-239 | Within a transaction: validate, insert, cache; a failure may leave an entry for the caller to roll back |
| `AccountsService.Accounts.AppendEntry` | accounts/src/models/ledger.rs:84-164 | One entry in its own transaction, rolled back on failure |
| `AccountsService.Accounts.PlaceOrder` | accounts/src/models/order.rs:171-248 | Lock, then insert the row; any failure leaves the tables unchanged |
| `AccountsService.Accounts.ReleaseInTx` | accounts/src/models/order.rs:270-302 | The remaining lock is recomputed from the row and released if positive |
| `AccountsService.Accounts.CancelOrder` | accounts/src/models/order.rs:251-318 | Only the owner, only open orders; releases the unfilled part |
| `AccountsService.Accounts.CancelOrderInternal` | accounts/src/models/order.rs:326-396 | The same with the filled quantity the engine states |
| `AccountsService.Accounts.SettleFill` | accounts/src/models/trade.rs:92-278 | Idempotency check, both sides' entries and order updates, and the trade row, or no change at all |
| `AccountRuns.EveryRunKeepsLedger` | accounts/src/models/ledger.rs:167-239 | Over every run of deposits, withdrawals, placements, cancels and settlements every account's cached balance is the sum of its entries and the last recorded balance, never negative, and every entry recorded the running balance |
| `AccountRuns.EveryRunReconciles` | accounts/src/models/ledger.rs:277-294 | Reconciliation succeeds after every run |
| `AccountRuns.EveryRunNets` | accounts/src/models/trade.rs:157-242 | If every settlement knew both orders, the trade entries of each asset sum to zero |
| `LockRelease.EveryRunIsAccounted` | accounts/src/models/order.rs:171-492 | Over every run the lock and unlock entries of an order are exactly its lock, one release per settled fill and one for its cancel; its row says what was filled |
| `LockRelease.StatusOverRuns` | accounts/src/models/order.rs:468-492 | Over every run an uncancelled order is pending if and only if it has no fills, partially filled if and only if they sum below its quantity, filled if and only if they reach it; a cancelled one keeps the quantity it was cancelled with |
| `LockRelease.RowOverRuns` | accounts/src/models/order.rs:171-248 | Over every run a row keeps owner, symbol, side and type, quantity and price as the columns take them, and for a market bid the slippage price or 1000 |
| `LockRelease.CancelSucceeds` | accounts/src/models/order.rs:251-318 | Over every run a cancel is accepted if and only if it is the owner's, the stored quantity is not zero, and the order is uncancelled with no fills or fills below its quantity |
| `LockRelease.EngineCancelSucceeds` | accounts/src/models/order.rs:326-396 | The engine's cancel, under the same condition without the owner |
| `LockRelease.AccountedAskIsExact` | accounts/src/models/order.rs:270-302 | An ask that fits the base precision locks its quantity; what is released is the filled quantity, and a cancel adds exactly what it was told is unfilled |
| `LockRelease.AskIsReleasedExactly` | accounts/src/models/order.rs:270-302 | For an ask that fits the base precision: before a cancel exactly the filled quantity is released; after it, what was locked is released if and only if all fills, before or after, add up to the quantity the cancel used |
| `LockRelease.AskCancelReleasesTheRest` | accounts/src/models/order.rs:251-318 | A user's cancel after any fills releases exactly the rest |
| `BidRelease.BidReleaseBound` | accounts/src/models/order.rs:135-168 | For every bid, limit or market, at any price and over every run, with n fills. After a cancel at a quantity c, what was released is within n + 2 half-units of the quote asset of: the lock, less the price improvement, plus the drift (recomputed lock less lock, and the error of the stored price on c), plus the price of what was filled beyond c. Before a cancel it is within n + 1 half-units of the lock less the improvement and the price of the unfilled rest. At a price that is not positive a cancel adds nothing |
| `BidRelease.CancelReleases` | accounts/src/models/order.rs:270-302 | What one cancel of a bid releases is within two half-units of the recomputed lock less the stored price times the filled quantity, and nothing when the price is not positive |
| `BidRelease.FittingBidReleaseBound` | accounts/src/models/order.rs:135-168 | For a bid whose price and quantity fit their columns, cancelled at what is filled, released and locked less price improvement differ by at most n + 2 half-units |
| `FedRuns.FedRunIsProper` | matching_engine_service/src/main.rs:250-330 | Accounts fed by an engine run (its orders placed, its fills settled in any order, never or repeatedly, its cancels stating at most what it filled) meet every assumption of the lock-release results, for every order |
| `FedRuns.NoMoreSettledThanFilled` | accounts/src/models/trade.rs:97-101 | However the fills of an engine run are settled, repeated, refused or left out, no order has more settled than the engine filled of it |
| `FedRuns.FedAskIsReleased` | accounts/src/models/order.rs:270-302 | An ask of the engine locks its quantity; until a cancel no more is released, and after one the excess is at most what the engine filled beyond the quantity the cancel used, exactly that if and only if all its fills are settled |
| `LateFills.FillAlwaysReleases` | accounts/src/models/trade.rs:157-226 | A fill of an order settles and releases its share of the lock whether or not the order is cancelled; a cancelled order's row stays as it is |
| `LateFills.LateFillIsReleasedTwice` | accounts/src/models/trade.rs:157-226 | Over every run: after a cancel that had balanced what the order locked, a late fill of it leaves more released than locked, by exactly what the fill releases |
| `LateFills.LateFillExample` | accounts/src/models/order.rs:251-318 | A concrete run of deposits, a bid, an ask, the seller's cancel and the settlement of their trade: one unit is locked, two are released, and both users end with a unit of which only one was deposited |
| `LateFills.LateRunIsFed` | matching_engine_service/src/main.rs:250-330 | That run is one of accounts fed by an engine in which the two orders trade |
| `SettledRuns.NoFillIsConflated` | accounts/src/models/trade.rs:93-101 | Settling the fills of an engine run with UUID order ids one by one, however stamped and whichever are refused: the check of the idempotency text never mistakes one for another, and each success adds a trade |
| `Candles.CandleStore.constructor` | accounts/src/models/ohlcv.rs:19-19 | No candles |
| `Candles.CandleStore.UpdateFromTrade` | accounts/src/models/ohlcv.rs:76-118 | The loop over six resolutions |
| `Candles.TickTouches` | accounts/src/models/ohlcv.rs:97-115 | A trade merges into one candle of each resolution and leaves every other alone |
| `Candles.CandlesSummarize` | accounts/src/models/ohlcv.rs:39-118 | Over every run a candle exists exactly where trades fell, and has their first and last price, reached bounds, sum and number |
| `Candles.OpenTimeBounds` | accounts/src/models/ohlcv.rs:98-101 | An opening time is a multiple of the length, at or before the trade by less than it from 1970 on, and at or after its second by less than it before |
| `Candles.TickHasCandles` | accounts/src/models/ohlcv.rs:87-115 | Every trade has a candle of one, five and fifteen minutes, one and four hours and a day, within those bounds |
| `Candles.OnlySixResolutions` | accounts/src/models/ohlcv.rs:87-94 | There are no other candles |
| `Candles.CandlesRollUp` | accounts/src/models/ohlcv.rs:76-118 | For each pair of resolutions and every run of trades, in any order, whose finer candles lie inside their coarser ones: volume, count, high and low roll up; when the finer opening times never go back, open and close too |
| `Candles.RollsUpExactlyWhen` | accounts/src/models/ohlcv.rs:97-115 | All coarser candles of a symbol have the volume, count, high and low of their finer candles if and only if every trade of the symbol was at or after 1970, or at a second s before it with -s modulo the coarser length below the finer length |
| `Candles.BlockAgrees` | accounts/src/models/ohlcv.rs:98-102 | The finer candle of a trade opens in the coarser candle of that trade exactly under this condition, and otherwise in an earlier one |
| `Candles.OpenAndCloseRollUp` | accounts/src/models/ohlcv.rs:54-60 | In any order of trades a coarser candle equals its roll-up exactly if its first trade has the price of the first trade in its first finer candle and its last trade that of the last trade in its last finer candle |
| `Candles.NegativeTimeDoesNotRollUp` | accounts/src/models/ohlcv.rs:98-102 | A trade before 1970 for which they do not |
| `Candles.OutOfOrderOpenDiffers` | accounts/src/models/ohlcv.rs:54-60 | Two trades out of time order whose open does not roll up |
| `Indicators.NewtonStep` | trading_bot/src/indicators.rs:44-45 | A step from a positive guess lands at or above the root, off by exactly the square of the step |
| `Indicators.SqrtDecimal` | trading_bot/src/indicators.rs:34-51 | Never divides by zero; the result squared is at least the value; the loop stops early exactly when one of its steps is shorter than the tolerance, and then the square is within 1e-14 of the value; early or not, the excess is below 1e-14 or at most a 4^19-th of (value/4 - 1) squared |
| `Indicators.StdDev` | trading_bot/src/indicators.rs:14-31 | At least the population standard deviation, for two or more prices, and above it by no more than the square root allows |
| `Indicators.ZScore` | trading_bot/src/indicators.rs:96-110 | The deviation of the last price in standard deviations, zero without deviation; its square is at most n - 1 for every history |
| `Indicators.SquareOfSum` | trading_bot/src/indicators.rs:20-28 | The square of a sum of n deviations is at most n times the sum of their squares |
| `Indicators.Samuelson` | trading_bot/src/indicators.rs:96-110 | The last price is within sqrt(n - 1) population deviations of the mean |

## Left out

Matching

- Decimal prices and quantities of the engine are integers in the smallest step; the 28-digit limit of the decimal type is not modelled.
- `restore_order` in both books: nothing calls it, and it can cross a book that has moved on.
- `BooksAgree.DriveBoth`: positive prices and no flags, since the Rust engine knows neither the check nor the flags.
- Fresh ids and positive quantities are required of the callers of both books, as the accounts service supplies them; re-use of an id is not modelled.
- `EngineService.ProcessCommands`: settlement calls, event publishing and the locking around the book in the service loop.
- The Python book's levels are values rather than objects, since only the book reaches them; its sequence numbers, timestamps, the symbol in a fill and its read-only views.

UDP

- Sockets, threads, channels and clocks: what each wait or receive yields is an input. A message is handed on when it reaches the consumer's channel, full or not.
- `UdpStream.AccountingIsExact`: for streams of fewer than 2^64 packets and messages; the counters of sender and receiver wrap around in the model, but the accounting across a wrap is not stated.
- `UdpStream.EventStands`: the same limit.
- `UdpStream.PassedOn`: the same limit.
- `UdpStream.InOrderLosesNothing`: the same limit.
- `UdpDelivery.DeliveryIsExact`: the same limit.
- Overflow checks of debug builds: u64 arithmetic wraps, as in a release build.
- The statistics of the sender, and the payload formats inside messages.

Replication

- Price and quantity conversions to and from floating point and JSON: prices and quantities are carried unchanged.
- Trades, 24-hour statistics, tickers, announced totals and timestamps in the gateway's notifications, and the last price, trade list and history limits of the client.
- `Publisher.OrderBookPublisher.Publish`: the sequence number is unbounded.
- The object pool and the formatting helpers of the client.

Accounts

- `Ledger.AppendAdds`: amounts are exact values, so an amount that is rejected only for trailing zeros in its representation is not distinguished; the 28-digit limit and numeric overflow of the columns are not modelled.
- The database engine, connections, advisory locks and concurrent transactions: transactions are atomic and sequential. Foreign keys, descriptions and timestamps of rows are left out.
- `AccountTables.SymbolRoundTrip`: symbols are strings of characters without encoding.
- A division by a stored quantity of zero is an error result instead of a panic.
- Fees are recorded in the trade row and never posted, as in the code, so no property speaks of fee entries.
- The retention job, which deletes entries, and the HTTP routes; what the routes check is a precondition of the lock properties.

Candles and indicators

- `Candles.CandleStore.UpdateFromTrade`: prices and volumes are exact and the count is unbounded.
- `Indicators.SqrtDecimal`: exact arithmetic; rounding at 28 digits is not modelled.
- Relative strength index, trend and volatility, which are single formulas.

Other parts of the repository: routes, authentication, mail, the proxy, the channel manager, trading strategies driven by random numbers, the Python accounts and venue, and the user interface.
