# RustyConnector core, modelled in Dafny

RustyConnector links a Velocity proxy (the front end) to the game servers
behind it (the "MC loaders", or workers). Each worker registers over a
message channel and is kept alive by heartbeats. The proxy groups workers
into families, and each family has a load balancer and, optionally, a
matchmaker. This project models the pieces of that core that carry
decisions:

- the proxy's record of a worker: caps, weight, player count, liveness countdown, equality, builder (`mcloader.dfy`, module `Server`);
- the least-connection load balancer: its cursor step and its two re-sorts (`least_connection.dfy`, module `LoadBalancing`, with the ordering routines in `sorting.dfy`, module `Sorting`);
- the matchmaker: its player queue, the three recurring task bodies (re-sort, session assembly, connection assembly), variant selection and teardown (`matchmaker.dfy`, module `Matchmaking`);
- the worker-side server: message-cache clamp, player caps, private-key check, `host:port` parsing with Java's `split` and `parseInt` (`paper_server.dfy`, module `Paper`);
- the table of built-in packet identifications and its lookup (`packets.dfy`, module `Packets`);
- the lock-server packet's parameter extraction and its parameters object (`lock_server_packet.dfy`, module `PacketVariants`).

Shared values are in `common.dfy` (module `Common`): nullable values as
`Option`, thrown exceptions as `Result`/`Outcome` with an `Error` kind, and
socket addresses. Objects whose fields the Java code updates are classes.
Pure logic is functions and lemmas. The scheduled task bodies are
methods, proved against specification functions (`Collect`, `Place`).

Calls into code outside the core become parameters:

- the matchmaker's session factory is `make`;
- whether a session was connected and its worker locked is `placed`;
- the balancer's count of unlocked workers is `unlocked`;
- an identification's string form is `form`;
- the `SERVER_NAME` key is `serverNameKey`;
- the weighted comparator and the ranking order are constructor parameters;
- the generated server name is `generatedName`.

## Model

| member | source | states |
|---|---|---|
| Server.TimeoutAfter | plugin/velocity/src/main/java/group/aelysium/rustyconnector/plugin/velocity/lib/server/MCLoader.java:78-84 | one decrease takes `|amount|` off the countdown whatever the sign of `amount`, floored at 0; the result is 0 exactly when the countdown did not exceed `|amount|` |
| Server.TicksDecayLinearly | plugin/velocity/src/main/java/group/aelysium/rustyconnector/plugin/velocity/lib/server/MCLoader.java:60-84 | `k` decreases from a non-negative countdown leave `max(0, t - k·|amount|)`, so the worker becomes stale exactly on the first tick where `k·|amount| >= t` |
| Server.MCLoader.constructor | plugin/velocity/src/main/java/group/aelysium/rustyconnector/plugin/velocity/lib/server/MCLoader.java:44-58 | weight is clamped up to 0, the soft cap down to the hard cap, everything else is kept, the player count starts at 0; the record invariant (weight >= 0, soft <= hard) holds |
| Server.MCLoader.SetTimeout | plugin/velocity/src/main/java/group/aelysium/rustyconnector/plugin/velocity/lib/server/MCLoader.java:64-67 | a negative timeout raises IndexOutOfBounds and leaves the countdown unchanged; otherwise the countdown becomes the new value |
| Server.MCLoader.UuidOrDisplayName | plugin/velocity/src/main/java/group/aelysium/rustyconnector/plugin/velocity/lib/server/MCLoader.java:73-76 | the display name when there is one, the UUID text when it is null |
| Server.MCLoader.DecreaseTimeout | plugin/velocity/src/main/java/group/aelysium/rustyconnector/plugin/velocity/lib/server/MCLoader.java:78-84 | the new countdown is `TimeoutAfter(old, amount)`: it is returned, never negative and never above max(0, old countdown) |
| Server.MCLoader.Stale | plugin/velocity/src/main/java/group/aelysium/rustyconnector/plugin/velocity/lib/server/MCLoader.java:60-62 | a worker with a non-negative countdown is stale exactly when the countdown is zero, which is exactly when a zero-step tick leaves it at zero |
| Server.MCLoader.Full | plugin/velocity/src/main/java/group/aelysium/rustyconnector/plugin/velocity/lib/server/MCLoader.java:165-167 | under the record invariant, a worker that is not full still has room below its hard cap |
| Server.MCLoader.Maxed | plugin/velocity/src/main/java/group/aelysium/rustyconnector/plugin/velocity/lib/server/MCLoader.java:165-175 | under the record invariant, a worker at its hard cap is also at its soft cap |
| Server.MCLoader.ValidatePlayer | plugin/velocity/src/main/java/group/aelysium/rustyconnector/plugin/velocity/lib/server/MCLoader.java:184-201 | hard-cap bypass always admits; otherwise a maxed worker refuses; soft-cap bypass admits below the hard cap; without bypass, admitted exactly when neither full nor maxed, which under the invariant means exactly when not full |
| Server.MCLoader.SetPlayerCount | plugin/velocity/src/main/java/group/aelysium/rustyconnector/plugin/velocity/lib/server/MCLoader.java:209-211 | the player count becomes the given value |
| Server.MCLoader.PlayerLeft | plugin/velocity/src/main/java/group/aelysium/rustyconnector/plugin/velocity/lib/server/MCLoader.java:213-215 | one fewer when positive, unchanged otherwise, so a non-negative count stays non-negative |
| Server.MCLoader.PlayerJoined | plugin/velocity/src/main/java/group/aelysium/rustyconnector/plugin/velocity/lib/server/MCLoader.java:217-219 | exactly one more player |
| Server.MCLoader.Equals | plugin/velocity/src/main/java/group/aelysium/rustyconnector/plugin/velocity/lib/server/MCLoader.java:326-332 | equal to another record exactly when that record is non-null and has the same UUID |
| Server.EqualsIsEquivalence | plugin/velocity/src/main/java/group/aelysium/rustyconnector/plugin/velocity/lib/server/MCLoader.java:326-332 | record equality is reflexive, symmetric and transitive |
| Server.Builder.constructor | plugin/velocity/src/main/java/group/aelysium/rustyconnector/plugin/velocity/lib/server/MCLoader.java:334-343 | builder defaults: no UUID, address or display name, empty pod name, weight 0, soft cap 20, hard cap 30, initial timeout 15 |
| Server.Builder.Build | plugin/velocity/src/main/java/group/aelysium/rustyconnector/plugin/velocity/lib/server/MCLoader.java:380-388 | a missing UUID fails first, then a missing address, each with its message; otherwise a fresh valid record with the clamped settings and the configured server timeout as its countdown, which the builder also records as its initial timeout; a failed build leaves the builder's timeout alone |
| LoadBalancing.ByPlayerCountIsTotalPreorder | plugin/velocity/src/main/java/group/aelysium/rustyconnector/plugin/velocity/lib/server/MCLoader.java:221-223 | ordering by player count (the sort index) is total and transitive, so a sort can obey it |
| LoadBalancing.LeastConnection.constructor | plugin/velocity/src/main/java/group/aelysium/rustyconnector/plugin/velocity/lib/load_balancing/LeastConnection.java:10-12 | the balancer starts with the given workers and settings and the cursor at 0 |
| LoadBalancing.LeastConnection.CanAdvance | plugin/velocity/src/main/java/group/aelysium/rustyconnector/plugin/velocity/lib/load_balancing/LeastConnection.java:17-20 | the cursor can advance only from a position with a next worker, and only when that next worker carries no more players than the current one |
| LoadBalancing.LeastConnection.Iterate | plugin/velocity/src/main/java/group/aelysium/rustyconnector/plugin/velocity/lib/load_balancing/LeastConnection.java:14-22 | the cursor moves forward by exactly one when it and the next position hold workers and the current one has at least as many players as the next; otherwise (the end of the list included) nothing changes; a cursor inside the list stays inside it |
| LoadBalancing.LeastConnection.CompleteSort | plugin/velocity/src/main/java/group/aelysium/rustyconnector/plugin/velocity/lib/load_balancing/LeastConnection.java:24-29 | the cursor returns to 0, the workers are permuted, and they end up ordered by the active policy's comparator (always for the plain policy, and for the weighted one whenever its comparator is a total preorder) |
| LoadBalancing.LeastConnection.SingleSort | plugin/velocity/src/main/java/group/aelysium/rustyconnector/plugin/velocity/lib/load_balancing/LeastConnection.java:31-35 | the cursor returns to 0, the workers are permuted, and when all but the front worker were ordered by player count, the whole list is |
| Sorting.SortBy | plugin/velocity/src/main/java/group/aelysium/rustyconnector/plugin/velocity/lib/load_balancing/LeastConnection.java:27-28 | the full sort keeps the length |
| Sorting.SortByPermutes | plugin/velocity/src/main/java/group/aelysium/rustyconnector/plugin/velocity/lib/load_balancing/LeastConnection.java:27-28 | the full sort returns a permutation of its input |
| Sorting.SortBySorts | plugin/velocity/src/main/java/group/aelysium/rustyconnector/plugin/velocity/lib/load_balancing/LeastConnection.java:27-28 | the full sort orders its input by any comparator that is a total preorder on it |
| Sorting.SingleSort | plugin/velocity/src/main/java/group/aelysium/rustyconnector/plugin/velocity/lib/load_balancing/LeastConnection.java:34 | re-sorting one element keeps the length |
| Sorting.SingleSortPermutes | plugin/velocity/src/main/java/group/aelysium/rustyconnector/plugin/velocity/lib/load_balancing/LeastConnection.java:34 | re-sorting one element returns a permutation of the input |
| Sorting.SingleSortSorts | plugin/velocity/src/main/java/group/aelysium/rustyconnector/plugin/velocity/lib/matchmaking/matchmakers/Matchmaker.java:63 | when everything but the element at the index is ordered, re-sorting that element orders the whole sequence |
| Matchmaking.TeamTotals | plugin/velocity/src/main/java/group/aelysium/rustyconnector/plugin/velocity/lib/matchmaking/matchmakers/Matchmaker.java:37-42 | one pass over the teams yields the sum of their minimum sizes and the sum of their maximum sizes |
| Matchmaking.SumMinsAtMostSumMaxes | plugin/velocity/src/main/java/group/aelysium/rustyconnector/plugin/velocity/lib/matchmaking/matchmakers/Matchmaker.java:34-46 | when every team's minimum is at most its maximum, the per-game minimum is at most the per-game maximum |
| Matchmaking.JavaDiv | plugin/velocity/src/main/java/group/aelysium/rustyconnector/plugin/velocity/lib/matchmaking/matchmakers/Matchmaker.java:91 | Java `int` division truncates toward zero: it agrees with the mathematical quotient for a non-negative dividend and positive divisor, and is non-negative when the signs agree |
| Matchmaking.GamesToMake | plugin/velocity/src/main/java/group/aelysium/rustyconnector/plugin/velocity/lib/matchmaking/matchmakers/Matchmaker.java:91 | with positive team sizes the number of sessions tried is never negative |
| Matchmaking.GamesToMakeBetween | plugin/velocity/src/main/java/group/aelysium/rustyconnector/plugin/velocity/lib/matchmaking/matchmakers/Matchmaker.java:91 | with positive team sizes, the number of sessions tried lies between `q / max` and `q / min`, and is at least 1 once `q >= max` |
| Matchmaking.Collect | plugin/velocity/src/main/java/group/aelysium/rustyconnector/plugin/velocity/lib/matchmaking/matchmakers/Matchmaker.java:93-102 | `n` factory calls yield at most `n` sessions |
| Matchmaking.CollectBounds | plugin/velocity/src/main/java/group/aelysium/rustyconnector/plugin/velocity/lib/matchmaking/matchmakers/Matchmaker.java:93-102 | `n` factory calls add at most `n` sessions, each one some call's own result, and exactly `n` when no call fails |
| Matchmaking.RemoveFirst | plugin/velocity/src/main/java/group/aelysium/rustyconnector/plugin/velocity/lib/matchmaking/matchmakers/Matchmaker.java:119 | removing an absent element changes nothing; removing a present one shortens the list by exactly one |
| Matchmaking.RemoveFirstCount | plugin/velocity/src/main/java/group/aelysium/rustyconnector/plugin/velocity/lib/matchmaking/matchmakers/Matchmaker.java:119 | removing a present element takes exactly one copy of it out |
| Matchmaking.RemoveIfMembers | plugin/velocity/src/main/java/group/aelysium/rustyconnector/plugin/velocity/lib/matchmaking/matchmakers/Matchmaker.java:70 | `removeIf` keeps exactly the elements the predicate rejects |
| Matchmaking.RemoveAsWrittenEmptiesQueue | plugin/velocity/src/main/java/group/aelysium/rustyconnector/plugin/velocity/lib/matchmaking/matchmakers/Matchmaker.java:68-74 | as written, removing any player leaves the queue empty |
| Matchmaking.RemoveAsWrittenDropsOthers | plugin/velocity/src/main/java/group/aelysium/rustyconnector/plugin/velocity/lib/matchmaking/matchmakers/Matchmaker.java:70 | removing "a" from the queue [a, b] drops b too, while the intended removal keeps b |
| Matchmaking.RemoveByIdKeepsOthers | plugin/velocity/src/main/java/group/aelysium/rustyconnector/plugin/velocity/lib/matchmaking/matchmakers/Matchmaker.java:68-74 | the intended removal keeps a player exactly when it was queued with a different UUID, and never grows the queue |
| Matchmaking.Place | plugin/velocity/src/main/java/group/aelysium/rustyconnector/plugin/velocity/lib/matchmaking/matchmakers/Matchmaker.java:107-125 | with no free worker or nothing pending, nothing moves; otherwise the running list grows by at most the number of free workers and at most the number of pending sessions |
| Matchmaking.PlaceConserves | plugin/velocity/src/main/java/group/aelysium/rustyconnector/plugin/velocity/lib/matchmaking/matchmakers/Matchmaker.java:107-125 | connection assembly keeps the combined multiset of waiting and running sessions |
| Matchmaking.PlaceAllPlaced | plugin/velocity/src/main/java/group/aelysium/rustyconnector/plugin/velocity/lib/matchmaking/matchmakers/Matchmaker.java:115-120 | with a free worker for each waiting session and every one of them placed, all of them move to the end of the running list, in order, and none stays waiting |
| Matchmaking.PlaceMovesOnlyPlaced | plugin/velocity/src/main/java/group/aelysium/rustyconnector/plugin/velocity/lib/matchmaking/matchmakers/Matchmaker.java:113-123 | the running list only grows at its end, by at most `unlocked` sessions, all placed; a session that could not be placed stays in waiting as often as before |
| Matchmaking.KindFor | plugin/velocity/src/main/java/group/aelysium/rustyconnector/plugin/velocity/lib/matchmaking/matchmakers/Matchmaker.java:128-133 | the win/loss schema gives the WinLoss variant and only it, the win-rate schema gives WinRate and only it, anything else gives Randomized |
| Matchmaking.Matchmaker.constructor | plugin/velocity/src/main/java/group/aelysium/rustyconnector/plugin/velocity/lib/matchmaking/matchmakers/Matchmaker.java:34-46 | per-game minimum and maximum are the sums of the teams' minimums and maximums; queue and session lists start empty |
| Matchmaking.Matchmaker.MinimumPlayersExist | plugin/velocity/src/main/java/group/aelysium/rustyconnector/plugin/velocity/lib/matchmaking/matchmakers/Matchmaker.java:49-51 | as written: a queue holding exactly the per-game minimum does not count as enough |
| Matchmaking.Matchmaker.EnoughPlayers | plugin/velocity/src/main/java/group/aelysium/rustyconnector/plugin/velocity/lib/matchmaking/matchmakers/Matchmaker.java:89 | the guard session assembly uses: it holds exactly when `minimumPlayersExist` does or the queue holds the minimum itself |
| Matchmaking.Matchmaker.Contains | plugin/velocity/src/main/java/group/aelysium/rustyconnector/plugin/velocity/lib/matchmaking/matchmakers/Matchmaker.java:78-80 | a queued player is contained, and a player is contained exactly when some queued player has its UUID |
| Matchmaking.Matchmaker.MinimumPlayersExistMissesExactMinimum | plugin/velocity/src/main/java/group/aelysium/rustyconnector/plugin/velocity/lib/matchmaking/matchmakers/Matchmaker.java:49-51 | `minimumPlayersExist` implies that assembly proceeds, and the two disagree exactly when the queue holds the minimum itself |
| Matchmaking.Matchmaker.Add | plugin/velocity/src/main/java/group/aelysium/rustyconnector/plugin/velocity/lib/matchmaking/matchmakers/Matchmaker.java:54-67 | a player whose UUID is queued leaves the queue unchanged; otherwise the player is inserted at one position with the others kept in order (so the queue grows by exactly that player); the player is queued afterwards; a queue without repeated UUIDs keeps none; a queue ordered by rank stays ordered |
| Matchmaking.Matchmaker.Remove | plugin/velocity/src/main/java/group/aelysium/rustyconnector/plugin/velocity/lib/matchmaking/matchmakers/Matchmaker.java:68-74 | as written, the queue is empty afterwards whatever player is given |
| Matchmaking.Matchmaker.CompleteSort | plugin/velocity/src/main/java/group/aelysium/rustyconnector/plugin/velocity/lib/matchmaking/matchmakers/Matchmaker.java:52-84 | the rank re-sort task permutes the queue and orders it by the variant's ranking when that is a total preorder |
| Matchmaking.Matchmaker.AssembleSessions | plugin/velocity/src/main/java/group/aelysium/rustyconnector/plugin/velocity/lib/matchmaking/matchmakers/Matchmaker.java:87-104 | below the minimum, nothing; a zero team-size sum is a division by zero; otherwise the waiting sessions gain, in order, exactly the non-null results of `GamesToMake` factory calls |
| Matchmaking.Matchmaker.AssembleConnections | plugin/velocity/src/main/java/group/aelysium/rustyconnector/plugin/velocity/lib/matchmaking/matchmakers/Matchmaker.java:107-125 | the new waiting and running lists are those of `Place` over a snapshot of the waiting sessions, so the sessions are only moved, never lost; the workers left free are the free ones less one per session that started running |
| Matchmaking.Matchmaker.Kill | plugin/velocity/src/main/java/group/aelysium/rustyconnector/plugin/velocity/lib/matchmaking/matchmakers/Matchmaker.java:135-142 | every waiting, then every running session is ended in order, and both lists are left empty |
| Paper.ClampCacheCapacity | paper/src/main/java/group/aelysium/rustyconnector/plugin/paper/lib/PaperServer.java:56-57 | the capacity is always in [0, 500] and a request already in range is kept |
| Paper.ClampCacheCapacityNearest | paper/src/main/java/group/aelysium/rustyconnector/plugin/paper/lib/PaperServer.java:56-57 | clamping is idempotent and monotone, and no capacity in range is closer to the request |
| Paper.Fields | paper/src/main/java/group/aelysium/rustyconnector/plugin/paper/lib/PaperServer.java:36 | splitting on every separator yields at least one field |
| Paper.JavaSplit | paper/src/main/java/group/aelysium/rustyconnector/plugin/paper/lib/PaperServer.java:36 | text without a separator comes back whole, and no field of the result contains a separator |
| Paper.JavaSplitHostPort | paper/src/main/java/group/aelysium/rustyconnector/plugin/paper/lib/PaperServer.java:36 | `host:port`, with no separator in either part and a non-empty port, splits into exactly `[host, port]` |
| Paper.JavaSplitWithoutSeparator | paper/src/main/java/group/aelysium/rustyconnector/plugin/paper/lib/PaperServer.java:36 | text without a separator splits into a single field |
| Paper.ParseInt | paper/src/main/java/group/aelysium/rustyconnector/plugin/paper/lib/PaperServer.java:38 | a parsed value is within the 32-bit range; the empty string is a number-format error |
| Paper.ParseIntDecimal | paper/src/main/java/group/aelysium/rustyconnector/plugin/paper/lib/PaperServer.java:38 | the decimal text of every non-negative 32-bit value parses back to that value |
| Paper.ParseAddress | paper/src/main/java/group/aelysium/rustyconnector/plugin/paper/lib/PaperServer.java:36-38 | an address without a separator has no second field, an index error; a parsed address has a port in 0..65535 and a host without a separator |
| Paper.ParseAddressRoundTrip | paper/src/main/java/group/aelysium/rustyconnector/plugin/paper/lib/PaperServer.java:36-38 | writing a separator-free host and an in-range port as `host:port` and parsing it gives back the same host and port |
| Paper.ParseAddressRejectsNonNumericPort | paper/src/main/java/group/aelysium/rustyconnector/plugin/paper/lib/PaperServer.java:38 | a port field holding a character that is neither a digit nor a sign is a number-format error |
| Paper.PaperServer.constructor | paper/src/main/java/group/aelysium/rustyconnector/plugin/paper/lib/PaperServer.java:18-27 | initial weight 0, soft cap 20, hard cap 30, no message cache; soft <= hard already holds |
| Paper.PaperServer.Create | paper/src/main/java/group/aelysium/rustyconnector/plugin/paper/lib/PaperServer.java:29-43 | an empty name is replaced by the generated one; an address the parser refuses makes construction fail with that error; otherwise the parsed address is stored and there is no cache yet |
| Paper.PaperServer.ValidatePrivateKey | paper/src/main/java/group/aelysium/rustyconnector/plugin/paper/lib/PaperServer.java:45-47 | true exactly when the given key is non-null and equal to the stored key |
| Paper.PaperServer.SetMessageCache | paper/src/main/java/group/aelysium/rustyconnector/plugin/paper/lib/PaperServer.java:53-59 | a second call raises IllegalState and keeps the installed cache; the first installs a cache whose capacity is the request clamped into [0, 500] |
| Paper.PaperServer.SetPlayerCap | paper/src/main/java/group/aelysium/rustyconnector/plugin/paper/lib/PaperServer.java:103-115 | the hard cap becomes the given one; a soft cap at or above it is lowered to it, a smaller one is kept; soft <= hard after every call |
| Paper.PaperServer.Init | paper/src/main/java/group/aelysium/rustyconnector/plugin/paper/lib/PaperServer.java:181-210 | start-up builds the server, installs a 50-message cache and applies the configured caps (soft lowered to hard), or fails with the address error |
| Packets.ToList | plugin/core/src/main/java/group/aelysium/rustyconnector/core/lib/packets/BuiltInIdentifications.java:65-80 | ten identifications with the disconnect handshake third and the success handshake fourth; all in namespace "RC", no two with the same code |
| Packets.FindFirst | plugin/core/src/main/java/group/aelysium/rustyconnector/core/lib/packets/BuiltInIdentifications.java:83 | fails with NullPointer exactly when no entry's string form is `id`; otherwise returns the entry at the first position whose string form is `id` |
| Packets.Mapping | plugin/core/src/main/java/group/aelysium/rustyconnector/core/lib/packets/BuiltInIdentifications.java:82-84 | a found identification is in the table and has string form `id`; NullPointer exactly when no table entry has that form |
| Packets.MappingRoundTrip | plugin/core/src/main/java/group/aelysium/rustyconnector/core/lib/packets/BuiltInIdentifications.java:82-84 | when distinct entries have distinct string forms, looking up an entry's string form gives that entry back |
| PacketVariants.ScanAppend | plugin/toolkit/src/main/java/group/aelysium/rustyconnector/toolkit/core/packet/variants/LockServerPacket.java:20-27 | reading a concatenated parameter list is reading the first part and then the second |
| PacketVariants.ScanLastMatch | plugin/toolkit/src/main/java/group/aelysium/rustyconnector/toolkit/core/packet/variants/LockServerPacket.java:20-27 | with no entry under the key, the server name stays as it was (null); otherwise it is the value of an entry under the key with no such entry after it, so the last one wins |
| PacketVariants.OtherKeysIgnored | plugin/toolkit/src/main/java/group/aelysium/rustyconnector/toolkit/core/packet/variants/LockServerPacket.java:20-27 | an entry under another key changes nothing, wherever it stands |
| PacketVariants.ExtractServerName | plugin/toolkit/src/main/java/group/aelysium/rustyconnector/toolkit/core/packet/variants/LockServerPacket.java:20-27 | the extraction loop yields the server name that `Scan` specifies |
| PacketVariants.ParametersObject | plugin/toolkit/src/main/java/group/aelysium/rustyconnector/toolkit/core/packet/variants/LockServerPacket.java:47 | the parameters object holds exactly one entry, under the key, with the server name; a null name is a NullPointer error |
| PacketVariants.ParametersRoundTrip | plugin/toolkit/src/main/java/group/aelysium/rustyconnector/toolkit/core/packet/variants/LockServerPacket.java:42-52 | reading back the written parameters gives the server name |
| PacketVariants.ParseWriteParse | plugin/toolkit/src/main/java/group/aelysium/rustyconnector/toolkit/core/packet/variants/LockServerPacket.java:42-52 | parsing a list, writing the packet and parsing again gives the same server name |
| PacketVariants.LockServerPacket.constructor | plugin/toolkit/src/main/java/group/aelysium/rustyconnector/toolkit/core/packet/variants/LockServerPacket.java:17-27 | the server name is the value `Scan` reads from the parameter list |
| PacketVariants.LockServerPacket.Received | plugin/toolkit/src/main/java/group/aelysium/rustyconnector/toolkit/core/packet/variants/LockServerPacket.java:29-40 | the received packet extracts the same server name from the same list |
| PacketVariants.LockServerPacket.ToJSONParameters | plugin/toolkit/src/main/java/group/aelysium/rustyconnector/toolkit/core/packet/variants/LockServerPacket.java:42-52 | writing succeeds exactly when the server name is set, and what is written reads back to the same name |

## Left out

- Network, Redis and Velocity I/O are not part of this model: registration, unregistration, heartbeats, packet publishing, logging and event dispatch. This covers `MCLoader.register`, `unregister`, `family`, `connect`, `directConnect`, `lock`, `unlock`, `registeredServer`, `serverInfo`, `address`, `toString` and `hashCode`, and PaperServer's `registerToProxy`, `unregisterFromProxy`, `sendMessage`, `sendToOtherFamily`, `pong`, `killRedis` and `getPlayerCount`.
- Concurrency is not modelled: the countdown is an `AtomicInteger` touched by the heartbeat handler and the tick, and the matchmaker's tasks run on a clock service. Each operation is modelled as one sequential step. The clock service is not part of this model: its scheduling, its periods (30 s, 20 s, 10 s) and `supervisor.kill`.
- Server.MCLoader.DecreaseTimeout: Java `int` arithmetic is modelled unbounded. The wrap-around of `timeout + amount` is not captured.
- Server.MCLoader.PlayerJoined: does not model the 32-bit wrap-around at the largest `int`.
- Matchmaking.TeamTotals: the team-size sums are unbounded, so overflow of the 32-bit sums is not captured.
- Server.MCLoader.Equals: Java also requires the same runtime class, so an `MCLoader` and a `K8MCLoader` with the same UUID are unequal. There is one record class here, so that case is not captured.
- Server.Builder.Build: a non-empty pod name builds a `K8MCLoader`. That subclass is not part of this model; the pod name is recorded but not used.
- The bodies of `QuickSort`, `WeightedQuickSort` and `SingleSort` are not part of this model. They are stood in for by insertion, and only permutation and ordering under the comparator are claimed.
- The weighted comparator's blend of weight and player count is a parameter, as is each matchmaker variant's ranking order.
- Sorting.SingleSort: an index outside the list changes nothing. The original routine's behaviour there is not part of this model.
- Matchmaking: `make()` is the parameter `make`. A call that throws or returns null adds nothing; its other effects are not modelled.
- Matchmaking.Matchmaker.AssembleConnections: `placed` stands for `connect` and `lock` both succeeding. `unlocked` is the balancer's count of unlocked workers, taken to drop by one per successful lock. Two cases are not modelled separately: a session whose connect succeeds but whose lock throws, and the balancer's choice of worker (`current()`).
- Matchmaking.Matchmaker.AssembleSessions: the `floor` of a `double` is replaced by integer halving rounded down, which is the same value for every `int` sum.
- Matchmaking.Matchmaker.Add: `contains` relies on the ranked player's `equals`, which is not part of this model; it is taken to compare UUIDs, so a player queued with one rank is not queued again with another.
- Matchmaking.Matchmaker.Add: the ranked player is an input. The storage lookup that produces it, and the `RuntimeException` wrapping of its failure, are not modelled.
- Matchmaking.Matchmaker.Kill: `Session.end` is represented by the returned list of ended sessions.
- `waitingPlayers()` is a read-only copy of the queue and has no separate member.
- Paper.PaperServer.Create: the MD5-generated name for an empty configured name is the parameter `generatedName`. A null name or address string (a NullPointerException in Java) is not modelled.
- Paper.PaperServer.SetPlayerCap: the `setMaxPlayers` call on the game server and the log line are I/O and are not modelled.
- Paper.ParseInt: only ASCII digits are accepted. Java's `parseInt` also accepts other Unicode decimal digits.
- Paper.ParseAddress: host-name resolution by `InetSocketAddress` is not modelled.
- Packets.Mapping: `PacketIdentification.get()` is not part of this model, so its string form is the parameter `form`. A null `id` is not modelled.
- PacketVariants.LockServerPacket.constructor: the packet header (`GenericPacket`: message version, raw message, type, address, origin) and the rest of the `toJSON` object are not part of this model. The value of the `SERVER_NAME` key (from `UnlockServerPacket`) is the parameter `serverNameKey`. A null parameter value, and `getAsString` on a non-string primitive, are represented by the value's string form.
- Matchmaking.Matchmaker.CompleteSort: the re-sort is abstract in the matchmaker (Matchmaker.java:52) and each variant supplies its own. Every variant's re-sort is assumed to be a full sort of the queue by the variant's `rankOrder`.
- Matchmaking.Matchmaker.Kill: an exception thrown by a session's `end` (Matchmaker.java:137 and 140) stops the teardown and leaves the lists uncleared. The model ends every session and clears both lists.
- Server.MCLoader.ValidatePlayer: the family lookup `resolve().orElseThrow()` (MCLoader.java:185) and `family.id()` (MCLoader.java:189) throw for a worker that is not registered with a family. The model assumes a registered worker and takes the permission checks as inputs.
- Paper.PaperServer.ValidatePrivateKey: a null stored key makes `equals` throw a NullPointerException (PaperServer.java:46). The model's stored key is never null.

## Findings

| source | as written | input that shows it | evidently intended | confidence | as-written member | corrected member |
|---|---|---|---|---|---|---|
| plugin/velocity/src/main/java/group/aelysium/rustyconnector/plugin/velocity/lib/matchmaking/matchmakers/Matchmaker.java:70 | `removeIf` compares each queued player's UUID with that same UUID, so every queued player is removed | queue `[a, b]`, remove player `a`: the queue becomes empty, and `b` is lost | remove only the players whose UUID is the given player's | high, not executed | Matchmaking.RemoveAsWrittenEmptiesQueue | Matchmaking.RemoveByIdKeepsOthers |
| plugin/velocity/src/main/java/group/aelysium/rustyconnector/plugin/velocity/lib/matchmaking/matchmakers/Matchmaker.java:49-51 | `minimumPlayersExist` requires strictly more queued players than the per-game minimum | a queue of exactly `minPlayersPerGame` players: it answers false, yet session assembly (line 89) proceeds | at least the minimum, as session assembly decides | low, not executed | Matchmaking.Matchmaker.MinimumPlayersExistMissesExactMinimum | Matchmaking.Matchmaker.EnoughPlayers |
