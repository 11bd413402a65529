# Cortado, modelled and proved

Cortado is a TUN-to-SOCKS5 tunnel. This project models the parts of it where
several things happen at once or have to be undone exactly, and proves what
they keep over every run:

- the pooled DNS multiplexer (`src/dns.rs`): many queries share one TCP
  connection under 16-bit ids, and many connections share a pool;
- the routes and the resolver override (`src/platform/linux/route.rs`,
  `src/platform/linux/dns.rs`), from start through any number of reloads to
  teardown (`src/reload.rs`, `src/lib.rs`);
- the CIDR classifier (`src/net.rs`) and its agreement with the kernel;
- the UDP session table (`src/udp.rs`), the SOCKS5 UDP header (`src/socks.rs`)
  and the automatic tuning (`src/tune.rs`).

`dafny verify dfyconfig.toml` checks everything.

## How it is modelled

**DNS, one connection** (`Inflight`, `Mux`). An event is one region under the
`inflight` mutex, one atomic store, one chunk of a write, or one decision of a
`timeout`; events of all attempts and of the reader interleave freely. An
attempt is named by its ticket, the value of the id counter that gave it its
id. `Timely` says how many later ids the counter may have passed when a reply or a
removal meets another attempt's entry, or when an attempt installs its sender
without its placeholder; "on time" means fewer than 65536. `MuxSafety` holds the
invariants and theorems, `MuxThreshold` the exact bound, `MuxClosing` what happens
after the reader has gone, `MuxOutcomes` how attempts end and when the reader may
leave, `Framing` the byte stream in both directions, `ConnIds`
the allocation loop on the 64-bit counter.

**DNS, the pool** (`Pool`). `resolve`, `prune` and `set_proxy` calls interleave;
`open_lock` and `conns`, which are held across await points, are explicit, and
each event does at most one `Mux` event on one connection. The invariants are
in `PoolShape` (mutual exclusion), `PoolReplies`, `PoolBuckets`, `PoolPrune`,
`PoolTargets` and `PoolRounds`, the theorems in `PoolTheorems`, `PoolLaws`,
`PoolSwap` and `PoolProgress`.

**Routes and DNS override** (`KernelRoutes`, `Routing`, `ResolvConf`). The kernel
table maps a network to a next hop. The kernel accepts a number of further
insertions and the file system a number of further writes, so every point of
failure is covered. The classes `RouteManager`, `Configurator` and `Running`
change their fields as the source does and are proved equal to functions on
values, about which `RouteTables`, `RouteReload`, `RouteRetry`,
`RouteAgreement` and `Tunnel` prove the rest.

## Where the code does not meet the obvious statement

Each of these is proved, with the exact condition where it says "if and only if"
("exactly").

- Replies go to the query that asked for them in every run if and only if replies
  are fewer than 65536 ids late, and the attempts' own removals of their ids *or*
  their installations of their senders are too (`RoutingThreshold`). Lateness counts
  only where it does harm: a reply or removal that finds somebody else's entry, an
  installation that does not find its own placeholder. A late removal takes away the
  placeholder of whoever has the id by then; if that attempt installs as late, a
  third attempt's reply is handed to it. For everybody to keep its own entry, and so
  for an empty map to mean that nobody waits, replies and removals must both be on
  time (`KeepingThreshold`).
- A reader whose idle timeout fires inside a length prefix loses a byte; it
  recovers the messages if and only if that never happens (`ReaderRecovers`,
  `PrefixCut`).
- After `set_proxy` a connection through an old proxy may still enter the pool if
  and only if an open through it is under way when `set_proxy` finishes, and it is
  that open's (`StaleOnlyFromOpens`); there is never more than one
  (`SwapMayLeaveOne`, `SwapLeavesAtMostOne`).
- After the exiting reader has cleared the map, a waiting attempt can only time out,
  and so fails for good instead of being retried, if and only if of all
  installations and removals under its id since the clear its own installation is
  the last (`FatalAfterClear`, `LateInstallFails`).
- An incremental reload leaves the table of a fresh apply if and only if it adds
  no route over a half of the address space and erases nothing that is still
  wanted (`ReloadRefinesApply`). Bypass entries for one network that differ only
  in host bits, which IPv6 routes may have, break this (`AliasLost`).
  Two concrete reloads: `AliasReloadDiffers`, `HalfReloadDiffers`.
- Kernel and classifier disagree exactly on addresses covered only by bypass
  networks shorter than two bits (`KernelAgreesWithClassifier`).
- Teardown restores the table if and only if nothing installed was there before
  (`TeardownUndoesApply`, `EarlierRouteLost`); after a failed apply it does nothing
  (`FailedApplyStays`, `OneRouteStays`).
- After a failed reload, going back to the old configuration changes nothing, so the
  table is the one from before if and only if, for every network, what ran of the
  failed reload was harmless; the old proxy's route is gone exactly if the proxy was
  to move (`FailedReloadNotReverted`, `FailedMoveNotReverted`).
- The backup file of resolv.conf, which the project's own README tells users to
  copy back after a crash, exists while an override is in force if and only if
  no override was turned off before (`BackupOnDisk`, `BackupMissing`).
- An override of resolv.conf is undone if and only if the file existed at the
  start (`RestoreRestores`, `AbsentFileStays`).

## Model

| member | source | states |
|---|---|---|
| `Bytes.Restamp` | src/dns.rs:239-243 | the two id bytes are replaced, everything else is kept |
| `Framing.ParseStream` | src/dns.rs:220-230 | cutting concatenated frames by their length prefixes gives back the messages in order and the rest untouched |
| `Framing.ReadLoop` | src/dns.rs:98-123 | the reader loop hands out the bodies of the frames it takes and leaves the rest, losing what a timeout cuts off, for every placing of timeouts; `BytesConserved` and `ReaderRecovers` say what that amounts to |
| `Framing.BytesConserved` | src/dns.rs:98-123 | every byte of the stream is handed out in a body, lost to a timeout, or left |
| `Framing.ReaderRecovers` | src/dns.rs:99-121 | a reader that has consumed the stream handed out exactly the messages if and only if no timeout fired inside a length prefix |
| `Framing.PrefixCut` | src/dns.rs:101-106 | one 256-byte message beginning with 255 whose prefix loses a byte to a timeout: the whole stream is consumed and its last 255 bytes are handed out |
| `ConnIds.Conn.AllocateId` | src/dns.rs:39-53 | refuses exactly at 256 ids out, otherwise gives out the first vacant id at or after the wrapping counter within n+1 probes and changes nothing else |
| `ConnIds.IdAvailable` | src/dns.rs:44-51 | with n ids out a vacant one is within n+1 probes wherever the counter stands, wrap-around included |
| `Inflight.OnTimeIsOwn` | src/dns.rs:46-50 | less than 65536 ids later, there is nobody else's entry under an attempt's id |
| `Inflight.HeldDeliver` | src/dns.rs:117-120 | a reply that finds no foreign entry, however late, leaves every waiting attempt its own entry |
| `Inflight.DeliverOwn` | src/dns.rs:117-120 | a reply that finds no foreign entry reaches nobody but the attempt that wrote the answered frame |
| `Inflight.OrderedInstall` | src/dns.rs:217-218 | an installation that finds its own placeholder, or is less than 65536 ids late, puts no older entry over a younger attempt's id |
| `Inflight.HeldRemove` | src/dns.rs:244-251 | a removal that finds no foreign entry, however late, leaves every waiting attempt its own entry |
| `MuxSafety.FramedStep` | src/dns.rs:227-230 | chunks written under the writer mutex never interleave: complete frames in order, then at most one partial one |
| `MuxSafety.StreamParses` | src/dns.rs:220-230 | in every run the written bytes parse into exactly the id-rewritten queries of their authors in writing order, with nothing left over when nobody is writing and no write has failed |
| `MuxSafety.NoLeakedIds` | src/dns.rs:217-253 | in every run, whatever the server sends, each inflight entry is owned by an unfinished attempt with that id; when all are finished the map is empty |
| `MuxSafety.RoutedStep` | src/dns.rs:98-126 | one event with replies and removals on time, whatever the installations, keeps ownership, every unanswered attempt's own entry, authorship of frames and correct replies |
| `MuxSafety.AnsweringStep` | src/dns.rs:98-126 | one event with replies and installations on time, whatever the removals, keeps ownership, order of entries, authorship of frames and correct replies |
| `MuxSafety.ReplyRouting` | src/dns.rs:200-253 | in every run with replies on time, and removals or installations on time, an attempt that returns Ok returns the server's answer to the frame of its own query with only the id bytes put back |
| `MuxSafety.UnansweredInMap` | src/dns.rs:217-218 | until the reader clears the map every unanswered attempt has its own entry in it; an empty map means nobody waits |
| `MuxSafety.InflightBound` | src/dns.rs:41-43 | with replies and removals on time the map never exceeds 256 entries until the reader clears it, because installing a sender replaces a placeholder |
| `MuxThreshold.LateReply` | src/dns.rs:117-120 | for any bounds that allow a reply 65536 ids late, a run in which an attempt returns Ok although its own frame was never answered |
| `MuxThreshold.LateRemoval` | src/dns.rs:248-251 | for any reply bound, even zero, and removal and installation bounds of at least 65536, a run in which an attempt returns Ok although its own frame was never answered |
| `MuxThreshold.RoutingThreshold` | src/dns.rs:39-53 | all runs route replies correctly if and only if the reply lag is below 65536 and the removal lag or the installation lag is |
| `MuxThreshold.KeepingThreshold` | src/dns.rs:117-120 | in all runs, until the clear, an empty map means that nobody is unanswered, if and only if the reply lag and the removal lag are both below 65536 |
| `MuxClosing.ConnectedStep` | src/dns.rs:217-253 | in every run an attempt that listens has a receiver, and as long as it is pending its own sender is in the map: nobody waits for a sender that is gone |
| `MuxClosing.FatalAfterClear` | src/dns.rs:124-125 | once the reader has cleared the map, a waiting attempt can time out if and only if of the installations and removals under its id since then its own installation is the last, and sees its sender dropped, to be retried, if and only if not and it has no reply; whoever comes to fail for good timed out at such a moment |
| `MuxClosing.LateInstallFails` | src/dns.rs:217-251 | a run, within any lags, in which the reader clears the map between allocation and installation and the attempt fails for good |
| `MuxOutcomes.OutcomeCauses` | src/dns.rs:237-252 | in every run an attempt comes to fail for good if and only if it timed out, to be retried if and only if its write failed or it saw its sender dropped, and to succeed if and only if it took a reply; and to one of these at most |
| `MuxOutcomes.LiveWorks` | src/dns.rs:124-125 | in every run a connection marked live has had no failed write and its reader has not left: both mark it dead |
| `MuxOutcomes.ReplyArrives` | src/dns.rs:117-120 | with replies and removals on time, the reply to a frame reaches the attempt that wrote it, if that is still unanswered |
| `MuxOutcomes.IdleLeavesNobody` | src/dns.rs:101-106 | with replies and removals on time, the reader leaves for idleness only while nobody on the connection is unanswered, and it may as soon as all attempts are over |
| `PoolShape.LocksStep` | src/dns.rs:137-178 | open_lock and conns are each held by exactly the call whose program counter says so |
| `PoolReplies.LinkedStep` | src/dns.rs:200-266 | calls and attempts know each other: an unfinished attempt's caller is in that attempt on that connection |
| `PoolBuckets.TidyStep` | src/dns.rs:169-175 | a fresh connection is known to nobody but its opener until it is published |
| `PoolBuckets.UnusedStep` | src/dns.rs:169-173 | a connection that its opener has not yet used has no attempts, so its first allocation cannot be refused |
| `PoolTargets.TargetStep` | src/dns.rs:137-178 | the connections a call tries and uses are to its own target; the second round does not look for one to reuse and uses one it has opened itself |
| `PoolTargets.HousedStep` | src/dns.rs:174-175 | every live connection is in the pool or about to be put there by its opener |
| `PoolRounds.RoundsStep` | src/dns.rs:189-197 | a call has made at most one attempt per round begun, fails in the first round only after an attempt that failed for good, and leaves an attempt as its outcome says |
| `PoolTheorems.ResolveReturnsOwnReply` | src/dns.rs:180-253 | within the exact bound on the lags, a resolve of the pool that returns a reply returns the answer to its own query under its own id, from a connection to its own target |
| `PoolTheorems.CallsKeepToTarget` | src/dns.rs:137-148 | in every run every connection that a call tries, has opened, uses or was answered on is to its own target, and in its second round one it has opened itself |
| `PoolTheorems.TwoRounds` | src/dns.rs:189-197 | in every run a call makes at most two attempts, one in its first round; failing in the first round means that an attempt failed for good |
| `PoolTheorems.OutcomesFollowed` | src/dns.rs:190-196 | in every run a call that has left a finished attempt was answered with its very reply, failed, or is in its second round, as the outcome says |
| `PoolTheorems.NoLeakedIdsInPool` | src/dns.rs:180-266 | in every run every inflight entry of every connection belongs to a resolve in that very attempt; when none is in an attempt all maps are empty |
| `PoolTheorems.BucketBound` | src/dns.rs:150-178 | a target's bucket never exceeds 8 plus the connections now in it that come from a forced open, nor 8 plus the forced opens for the target |
| `PoolTheorems.SwapLeavesAtMostOne` | src/dns.rs:75-91 | at most one pooled connection uses a proxy older than the newest set_proxy that has finished, for all interleavings of opens, prunes and swaps |
| `PoolTheorems.PruneSafe` | src/dns.rs:268-289 | with replies and removals on time prune, when it retires a connection, leaves nobody unanswered on it while its reader has not cleared the map |
| `PoolTheorems.IdleSafe` | src/dns.rs:101-106 | with replies and removals on time the reader of a connection of the pool leaves for idleness only while nobody on it is unanswered |
| `PoolTheorems.LiveConnectionsKept` | src/dns.rs:169-178 | in every run a live connection is in its target's bucket or about to be: whatever leaves the pool is dead |
| `PoolLaws.ProbesLivePool` | src/dns.rs:137-141 | in every run a call goes through exactly the live connections of the pool to its target, and the dead ones leave the bucket |
| `PoolLaws.PassesOnlyFull` | src/dns.rs:141-147 | in every run it passes over a connection exactly when 256 ids are out, that is, when no id can be given |
| `PoolLaws.LooksAtAll` | src/dns.rs:141-147 | in every run a call gives up reuse only when it has found every connection full that was live and pooled for its target when it began; a pruner ends only when it has looked at every connection that was pooled |
| `PoolLaws.LooksAgainBeforeOpening` | src/dns.rs:155-158 | in every run a first-round call opens a connection only after it has looked again for one to reuse since taking open_lock |
| `PoolLaws.OpensBelowCap` | src/dns.rs:160-167 | in every run a first-round call goes on to open exactly when the pool has fewer than 8 live connections to its target, and to its second round otherwise |
| `PoolLaws.DialsAtMostTwice` | src/dns.rs:190-191 | in every run a call dials at most twice |
| `PoolLaws.PruneVisitsAll` | src/dns.rs:271-274 | prune goes through exactly the connections of the pool |
| `PoolLaws.PruneDropsDead` | src/dns.rs:275-279 | a connection that is dead when its turn comes leaves the pool, a live one is checked |
| `PoolLaws.RetiresOnlyIdle` | src/dns.rs:278-282 | in every run prune retires a connection only right after finding it unused for longer than the idle timeout |
| `PoolLaws.RetiresIdle` | src/dns.rs:280-282 | and one so found, with no id out, it retires: it is then dead and out of the pool |
| `PoolLaws.DeathCauses` | src/dns.rs:75-84 | a live connection dies exactly of a failed write, its reader leaving, its retirement by prune, or set_proxy finding it in the pool |
| `PoolSwap.SwapMayLeaveOne` | src/dns.rs:86-91 | a run in which an open under way puts an old-proxy connection into the pool after set_proxy |
| `PoolSwap.StaleOnlyFromOpens` | src/dns.rs:75-91 | when set_proxy has just finished, some continuation, before another one finishes, pools a connection through an older proxy if and only if an open through an older proxy is under way at that moment; and any such connection was opened by such an open |
| `PoolProgress.LockOrder` | src/dns.rs:137-178 | in every reachable state a call waits only for a mutex ranked above all it holds |
| `PoolProgress.NoDeadlock` | src/dns.rs:137-289 | whenever a call is blocked on a pool mutex, some call that holds one is not blocked and has an enabled step of its own |
| `Bits.MaskValue` | src/net.rs:116-136 | the prefix mask has exactly the top prefix bits set, for every width and prefix |
| `Bits.DropBits` | src/net.rs:41-47 | words agree after the shift exactly when they agree in every remaining bit |
| `Classifier.ContainsMeaning` | src/net.rs:11-39 | contains, by masks, is agreement on the first prefix bits, and is equality after division by a power of two |
| `Classifier.HostBitsIrrelevant` | src/net.rs:12-18 | clearing an entry's host bits changes nothing |
| `Classifier.SortSorts` | src/net.rs:74-74 | the sort is a permutation in falling order of prefix length |
| `Classifier.NewRouteTable` | src/net.rs:69-86 | the construction loop builds the table of the specification |
| `Classifier.DecideMeaning` | src/net.rs:88-105 | decide is Direct exactly when some entry of the address's family agrees on its first prefix bits |
| `Classifier.SameEntriesDecideAlike` | src/net.rs:68-105 | order and repetition of entries never change a decision |
| `Classifier.DiffCidrs` | src/net.rs:49-53 | nothing to add and nothing to remove exactly when both lists have the same entries |
| `Classifier.Minus` | src/net.rs:50-51 | the filtered list holds exactly the entries of one list missing from the other |
| `Routing.Kernel.Insert` | src/platform/linux/route.rs:129-184 | inserts or replaces one route, or fails and leaves the table |
| `Routing.Kernel.Remove` | src/platform/linux/route.rs:186-217 | removes the route if interface and gateway match |
| `Routing.RouteManager.AddBypass` | src/platform/linux/route.rs:257-272 | the loop carries out the insertions up to the first refusal, skipping families without gateway: same table, same verdict, same remaining budget as the script |
| `Routing.RouteManager.RemoveBypass` | src/platform/linux/route.rs:318-324 | the loop carries out the deletions, each only where gateway and interface match |
| `Routing.RouteManager.AddSplits` | src/platform/linux/route.rs:274-288 | both halves of a family go into the tun, or the script stops at the refused one |
| `Routing.RouteManager.RemoveSplits` | src/platform/linux/route.rs:374-390 | both halves are deleted where they point into the tun |
| `Routing.RouteManager.Apply` | src/platform/linux/route.rs:228-293 | for every point at which the kernel or the file system starts refusing, the new state is: gateways read, the insertion script (proxy, bypass, halves) carried out as far as accepted, DNS only after all routes, applied only after DNS; `ApplyDestination` says where traffic then goes |
| `Routing.RouteManager.Reload` | src/platform/linux/route.rs:295-350 | for every point of refusal: nothing unless applied; the proxy moves first and is recorded only once its new route is in, the bypass list only once all its routes are in, DNS last; `ReloadRecords` and `ReloadUnchanged` say what that comes to |
| `Routing.RouteManager.Teardown` | src/platform/linux/route.rs:352-396 | nothing unless applied; otherwise the deletion script carried out, resolv.conf restored, applied cleared; `TeardownUndoesApply` and `RoundTrip` say when that is an undo |
| `KernelRoutes.LookupMeaning` | src/platform/linux/route.rs:16-24 | the lookup the split routes rely on returns the hop of the longest matching prefix, and nothing when nothing matches |
| `KernelRoutes.RetryConverges` | src/platform/linux/route.rs:295-340 | running a script of one hop per network after any cut-off part of it equals running it once |
| `RouteTables.FreshAt` | src/platform/linux/route.rs:238-288 | after apply: the halves into the tun, proxy and bypass networks through their gateways, the rest as before |
| `RouteTables.TeardownUndoesApply` | src/platform/linux/route.rs:352-392 | teardown gives back the table from before apply if and only if nothing installed was there before |
| `RouteTables.EarlierRouteLost` | src/platform/linux/route.rs:352-392 | a host route for the proxy that was there before is not there after teardown |
| `RouteAgreement.KernelDecision` | src/platform/linux/route.rs:228-293 | for an address of a captured family with a gateway which the original table routes by its default route at most: longest-prefix match after apply goes through the gateway exactly if the address is the proxy or in a bypass network of at least two bits, into the tun otherwise |
| `RouteAgreement.KernelAgreesWithClassifier` | src/net.rs:88-105 | for the same addresses: kernel and classifier agree if and only if the address is not covered by networks shorter than two bits alone; so always when all prefixes are at least two |
| `RouteAgreement.DefaultBypassDisagrees` | src/platform/linux/route.rs:257-277 | a bypass of 0.0.0.0/0 is classified Direct while the kernel keeps tunnelling |
| `RouteAgreement.FreshDestination` | src/platform/linux/route.rs:238-288 | with the original table's gateways, every address without a longer route than the default goes where it is to go: bypassed traffic where the original table sent it, the rest of a captured family into the tun, an uncaptured family as before |
| `RouteAgreement.ApplyDestination` | src/platform/linux/route.rs:77-127 | the gateways a successful apply finds are those of the original table: for such an address the lookup afterwards is the original lookup if it is bypassed and had a gateway |
| `RouteReload.ReloadRefinesApply` | src/platform/linux/route.rs:295-342 | with a gateway for the old and the new proxy, an incremental reload leaves the table of a fresh apply of the new configuration if and only if it adds no route over a half and erases nothing the new configuration or the original table has |
| `RouteReload.NoCollisionsIsSafe` | src/platform/linux/route.rs:300-340 | configurations whose networks do not collide with each other, the halves, the proxies or the original table reload safely |
| `RouteReload.ReloadsRefineApply` | src/platform/linux/route.rs:295-396 | after any sequence of safe reloads the table is that of a fresh apply of the last configuration, and teardown restores the original exactly when it can be undone |
| `RouteReload.AliasLost` | src/platform/linux/route.rs:318-324 | removing one of two entries that mask to the same network is never safe: the other's route is lost |
| `RouteReload.AliasExists` | src/net.rs:11-18 | two IPv6 entries that differ only in host bits name one network |
| `RouteReload.HalfTaken` | src/platform/linux/route.rs:326-331 | adding a half of the address space by reload is not safe |
| `RouteReload.AliasReloadDiffers` | src/platform/linux/route.rs:318-324 | dropping one of two IPv6 names of a network by reload leaves another table than a fresh apply, on every original table |
| `RouteReload.HalfReloadDiffers` | src/platform/linux/route.rs:326-331 | so does adding 0.0.0.0/1 to an empty list |
| `RouteRetry.RetrySameAsFirstSuccess` | src/platform/linux/route.rs:295-350 | a reload that failed at any step and then succeeds leaves routes, proxy, bypass list and DNS as a first-time success would |
| `RouteRetry.FailureKeepsGoal` | src/platform/linux/route.rs:295-350 | a failed reload, at whatever step, leaves unchanged what the same plan leads to, so any number of failures makes no difference |
| `RouteRetry.SuccessIsGoal` | src/platform/linux/route.rs:295-350 | a successful reload leads there, whatever the budgets |
| `RouteRetry.FailedApplyStays` | src/platform/linux/route.rs:290-292 | after a failed apply teardown does nothing, so the table is the original one if and only if there was no gateway or the table had, before, all that the accepted insertions wrote; without a host route for the proxy before, exactly when none was accepted; DNS is untouched unless all were |
| `RouteRetry.OneRouteStays` | src/platform/linux/route.rs:290-292 | a kernel that accepts one insertion only: apply fails and teardown leaves the proxy's route |
| `RouteRetry.OldProxyRoute` | src/platform/linux/route.rs:300-316 | however far a reload gets, all that happens to the old proxy's host route is that, if the proxy's address changes, the route through the gateway is erased and not put back, when no bypass network is that very host |
| `RouteRetry.ReloadRunsRan` | src/platform/linux/route.rs:295-331 | a reload runs exactly the part of its script that the number of accepted insertions and the gateways determine |
| `RouteRetry.ReloadRecords` | src/platform/linux/route.rs:300-347 | for every outcome of a reload: the new proxy is recorded exactly if its route is in, the new list exactly if all routes are done, DNS is touched only then, and it succeeds exactly if DNS does too |
| `RouteRetry.NothingWithoutApply` | src/platform/linux/route.rs:352-355 | after teardown neither a reload nor another teardown changes anything |
| `RouteRetry.ReloadUnchanged` | src/platform/linux/route.rs:295-331 | a reload of any outcome leaves the table as it was if and only if the effect of the part that ran is harmless to every key |
| `ResolvConf.Configurator.WriteFile` | src/platform/linux/dns.rs:34-37 | writes the content or fails and leaves the file |
| `ResolvConf.Configurator.EnsureBackup` | src/platform/linux/dns.rs:39-48 | saves the content once and writes the backup file once; a refused write leaves nothing saved |
| `ResolvConf.Configurator.Apply` | src/platform/linux/dns.rs:56-66 | the new file, backup, saved original and current server are those of the specification, for every point of refusal |
| `ResolvConf.Configurator.Reload` | src/platform/linux/dns.rs:68-88 | likewise for enabling, changing and disabling the override; an unchanged server writes nothing |
| `ResolvConf.Configurator.Restore` | src/platform/linux/dns.rs:90-110 | likewise; a refused write still forgets the override |
| `ResolvConf.RestoreRestores` | src/platform/linux/dns.rs:39-111 | after any calls with any refused writes a saved original is the initial content, if there was one, and an accepted restore brings it back; with an override in force it does so exactly when the file existed; afterwards no override is in force, and the backup file is gone if the original was written back |
| `ResolvConf.AbsentFileStays` | src/platform/linux/dns.rs:90-110 | without a file at the start, restore leaves the override's line |
| `ResolvConf.BackupOnDisk` | src/platform/linux/dns.rs:78-85 | under an override the backup file holds the original exactly when no override was turned off before |
| `ResolvConf.BackupMissing` | src/platform/linux/dns.rs:78-85 | on, off and on again: the override is in force and there is no backup file |
| `Reloads.NoopMeaning` | src/reload.rs:67-104 | a plan is a no-op exactly when proxy, credentials and DNS are equal and the bypass lists have the same entries |
| `Tunnel.Running.constructor` | src/lib.rs:265-271 | the shared proxy, table and pool start from the configuration, the state `StartedConsistent` is about |
| `Tunnel.Running.ApplyReload` | src/lib.rs:415-459 | one reload signal, whether invalid, no-op, failed or carried out, equals its specification |
| `Tunnel.Running.Loop` | src/lib.rs:317-333 | the signal loop folds the reloads |
| `Tunnel.AdoptsExactly` | src/lib.rs:422-457 | a signal makes its configuration the current one exactly if it is valid and either differs in no proxy, credential, DNS or bypass setting or its reload succeeds; else the current one stays |
| `Tunnel.CleanAdopts` | src/lib.rs:415-459 | after signals each ignored, without effect, or repeated until they succeed, the current configuration is the last valid one given |
| `Tunnel.ReloadsConsistent` | src/lib.rs:415-459 | after any sequence of reloads of any outcome the shared proxy, the DNS pool's proxy and the shared table are those of the current configuration |
| `Tunnel.RoundTrip` | src/lib.rs:233-343 | apply, any sequence of signals each ignored, without effect, or asking safely for a configuration that is repeated until its reload succeeds, then teardown: the current configuration is the last one given, routes and DNS are as freshly started with it; afterwards resolv.conf is restored with no override left, and the table is if and only if nothing installed last was there before |
| `Tunnel.KernelFollowsClassifier` | src/net.rs:88-105 | after any such history an address without a longer original route than the default goes where the last configuration given wants it, bypassed traffic where the original table sent it; and the kernel bypasses the tun exactly for the current proxy and what the shared table calls Direct, if and only if the address is not covered by networks shorter than two bits alone |
| `Tunnel.FailedReloadNotReverted` | src/lib.rs:438-457 | from any state: after a failed reload a signal that goes back to the old configuration changes nothing at all, and the table is the one from before if and only if what ran was harmless to every key; an old proxy's host route through the gateway is gone exactly if the proxy was to move, when no bypass network is that very host |
| `Tunnel.FailedMoveNotReverted` | src/platform/linux/route.rs:300-316 | a kernel that refuses the new proxy's route: the old one's was there, and is not after going back |
| `UdpSessions.Loop.HandleDone` | src/udp.rs:83-89 | a completion message removes its source's entry exactly if that entry is closed |
| `UdpSessions.Loop.HandlePacket` | src/udp.rs:122-142 | a datagram starts a session exactly if its source has none alive and the table is not full |
| `UdpSessions.Loop.HandleDns` | src/udp.rs:100-119 | a DNS datagram takes a permit or is dropped |
| `UdpSessions.TableTheorem` | src/udp.rs:79-151 | over every run: at most the limit of entries, every open session is its source's entry, at most the limit of open sessions, every closed entry's message still to come, at most the limit of DNS queries |
| `UdpSessions.PacketStarts` | src/udp.rs:122-142 | in every run, after a datagram its source is live if and only if it was or the table had room; a live session is kept, a new one is the one just started, no other source or session is touched |
| `UdpSessions.DnsStarts` | src/udp.rs:100-118 | in every run a DNS datagram starts one more query exactly when fewer than the limit run |
| `UdpSessions.StaleDoneHarmless` | src/udp.rs:83-89 | a message, however late, never removes a live session, always removes its sender's own entry, and leaves all other sources' entries |
| `UdpSessions.TableDrains` | src/udp.rs:83-178 | when all sessions are closed and all messages received the table is empty |
| `SocksUdp.EncodeUdp` | src/socks.rs:195-212 | the reused buffer holds exactly the encoding afterwards |
| `SocksUdp.WireFormat` | src/socks.rs:195-212 | the layout of section 7 of RFC 1928: zero reserved bytes and fragment, type 1 or 4, address octets and port most significant first, payload |
| `SocksUdp.DecodeOfEncoding` | src/socks.rs:195-244 | decoding an encoding gives back address, port and payload |
| `SocksUdp.EncodingOfDecoded` | src/socks.rs:214-244 | an accepted datagram encodes to itself with the reserved bytes zeroed |
| `SocksUdp.AcceptsExactlyEncodings` | src/socks.rs:214-244 | the decoder accepts exactly the encodings, up to the reserved bytes |
| `Tuning.WithinBudget` | src/tune.rs:55-87 | a TCP cap above its floor of 128 fits a quarter of the memory and the descriptor limit, for every probe; caps stay in their ranges |
| `Tuning.Monotone` | src/tune.rs:55-87 | caps never fall as memory or descriptors grow; a larger MTU never shrinks buffers or raises the cap |
| `Tuning.CapIsLargest` | src/tune.rs:70-76 | the TCP cap is the largest number from 128 to 65536 that memory and descriptors afford, or 128 if none is; UDP sessions are a quarter of it within their limits |
| `Tuning.SizesFollowProbe` | src/tune.rs:56-86 | MTU, buffer sizes and IPv6 capture are the probe's values, scaled and clipped to their ranges |

## Left out

- Sockets, netlink, the TUN device, the userspace TCP/IP stack and the SOCKS5 TCP handshake: I/O, present only as events or as operations that may fail.
- Update in place inside the DNS pool: apart from the allocation loop and the reader loop it is modelled on values, as a state machine, because its steps interleave; aliasing of connections is by number.
- Real time and weak memory: timeouts and idleness are nondeterministic choices, atomics are sequentially consistent, mutexes are not assumed fair.
- `inflight` and `last_used` mutexes: never held across an await point, so each region under them is one event and nobody is ever seen blocked on them.
- The error when a freshly opened connection refuses an id: such a connection has no ids out (`UnusedStep`), so the error cannot occur.
- The id counter in `Mux` is unbounded; `ConnIds.Conn.AllocateId` relates it to the 64-bit one. Two tickets 2^64 apart would be one counter value in the source.
- `resolve` refuses messages shorter than 12 or longer than 65535 bytes before touching the pool: the type `Query` stands for the messages it accepts.
- A failed write gives up the writer and marks the connection dead in one event. The socket then accepts no more bytes; what a failed write left on the stream stays a partial frame.
- Kernel routes with equal destination and different metrics: the table has one route per network. Deletions fail only when nothing matches. Destinations are stored with host bits cleared, for IPv4 too, where the kernel would refuse such a route instead.
- Failed file writes leave the file as it was; deleting the backup file always succeeds; nobody else writes resolv.conf.
- The halves are installed and deleted one after the other instead of in a loop over a constant array of two.
- Parsing of TOML, addresses and CIDR text, and the configuration fields a reload ignores or only reports.
- Datagram payloads and channel capacity between the UDP loop and its sessions; the reply path.
- 32-bit targets in the tuning; on 64 bits no step of `Compute` overflows, since every result has the type of a 64-bit word.
- macOS and Windows backends, metrics, logging, statistics and the command line: easy or repeating what is here.
