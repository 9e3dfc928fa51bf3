# xdpfilter data plane: model and proofs

A Dafny 4.11 model of the XDP data plane (`bpf/filter.bpf.c`, `bpf/filter.h`) and of the Go code that shares its
clock, its timeouts and its flow tables (`internal/dataplane/gc.go`, `internal/dataplane/loader.go`,
`internal/config/resources.go`), with proofs of what the data plane promises over whole runs.
`dafny verify dfyconfig.toml` checks everything.

## How it is built

| file | what it holds |
|---|---|
| `Types.dfy`, `Clock.dfy` | header types and flag tests; ticks, TTLs, expiry, seconds/ticks conversion |
| `Frame.dfy`, `Layout.dfy` | Ethernet, VLAN, IPv4, TCP and UDP parsing and the normalized flow key; which frames are taken for what, in frame bytes |
| `Flows.dfy`, `Segments.dfy` | what one packet does to the one table entry it looks up; the effect of every kind of packet on verdict, tables and cache |
| `SynLimit.dfy`, `TokenRace.dfy` | the token bucket: one CPU at a time, and N CPUs interleaved step by step |
| `Machine.dfy` | the state machine: packets, sweeps and evictions as atomic steps, runs over traces |
| `Invariants.dfy`, `Handshake.dfy` | invariants of every reachable state; ISN binding, closes, who creates entries |
| `Cache.dfy` | the L1 cache against the uncached machine |
| `Gc.dfy` | the sweep, and when it can be observed |
| `UdpHistory.dfy`, `SynGrowth.dfy` | the history reading of the UDP table; the inbound growth bound |
| `ZeroSource.dfy` | a SYN from 0.0.0.0 and the global bucket |
| `Witness.dfy`, `CacheWitness.dfy`, `SweepWitness.dfy`, `HalfOpenWitness.dfy` | concrete runs in which a promise fails |
| `Account.dfy`, `Counters.dfy`, `Modes.dfy` | disposal of packets, exact counters, monitor against enforce |
| `Checksum.dfy`, `RstReply.dfy`, `RstProof.dfy`, `RstReparse.dfy` | reset synthesis on a byte array and its checksums |
| `DataPlane.dfy` | the program itself: a class whose fields are the maps and whose methods update them and the frame in place; `XdpFilter` is proved to be one step of the state machine |
| `Sizing.dfy`, `Cgroup.dfy` | map sizing and the cgroup walk |

A trace carries, with every packet, its CPU, port role, clock, the policy the packet happens to read and the outcome
of each map insert, all arbitrary. A policy reload is therefore just two packets with different policies, and
"for every trace" covers every reload, CPU assignment and insert failure. The L1 index is an arbitrary function of the
key. Every run starts from empty maps; adopted pinned maps are the maps of an earlier part of the run.

Assumptions: the clock never runs backwards and all CPUs and the sweep see the same clock; the 32-bit tick does not
wrap (about 146 years); packet steps are atomic except inside the token bucket, where every load, compare-and-swap and
fetch-and-add is a step; memory sizes are below 2^60.

## Where the code and its words disagree

The model follows the code.

- The comment at `bpf/filter.bpf.c:489` says the headroom clamp cannot overshoot the burst. CPUs that clamp against
  the same level do overshoot it. `TokenRace.OneBurstIff`: from any bucket within its burst, no schedule exceeds one
  burst if and only if there is no second CPU. `TokenRace.ManyBurstsReached`: N CPUs can reach N bursts, for every N and both
  rates, so the bound of N bursts in `TokenRace.TokensConserved` is the best possible.
- The comments at `bpf/filter.bpf.c:511-524` say that 0.0.0.0 cannot collide with the global bucket, which has key 0.
  Nothing rejects such a source, and it does collide: key 0 serves as the global bucket alone if and only if the source
  is not 0.0.0.0 (`ZeroSource.GlobalOnlyIff`). The first of the two charges treats the global bucket as a source's. It
  can create it with 98 packets instead of 6399 (`ZeroSource.CreatesShort`), and it can take an interval's refill away
  while being refused itself (`ZeroSource.TakesRefill`), which costs a later SYN its verdict
  (`ZeroSource.ZeroSourceCostsAVerdict`). The upper bound `SynGrowth.InboundGrowthBound` holds with it.
- The comment at `bpf/filter.bpf.c:415-419` says that a blind spoofed inbound SYN can only tie up a slot for ttl_syn. A
  flow opened from outside is established by exactly the first inbound segment without SYN, RST or FIN, whatever it
  acknowledges (`Handshake.BlindAckIff`), so a second blind packet ties the slot up for ttl_est
  (`HalfOpenWitness.BlindAckHoldsSlot`).
- The README says a flow closed by a spoofed RST is re-promoted as soon as the host keeps talking.
  `Handshake.RemoteCloseReversible`: the host's next ordinary packet on the live flow leaves it established if and only
  if the cache does not answer it (or the flow was established anyway). A postponed re-promotion can cost a later reply
  its verdict (`CacheWitness.CacheCanCostAVerdict`), and `Cache.TcpTablesAgree` says over which runs the cache is exact.
- A sweep is invisible except through one handler: an outbound RST touches its entry without asking whether it has
  expired (`bpf/filter.bpf.c:393-400`). `Gc.SweepsAreInvisible`: the runs with and without sweeps look alike throughout
  if and only if no outbound RST finds an entry that a sweep has removed; `SweepWitness.SweepCanCostAVerdict` is a run
  in which one does and a reply is dropped for it.
- Reading a live TTL back shows the configured seconds or one more, but 0 for the largest u32
  (`Clock.TtlReadback`).

## Model

| member | source | states |
|---|---|---|
| Clock.SecToTicks | internal/dataplane/loader.go:41-47 | the least number of ticks covering the seconds; zero only for zero; neither the u64 product nor the u32 result wraps |
| Clock.GcAgreesWithDataPlane | internal/dataplane/gc.go:52-93 | for every state and stamp the sweep deletes exactly what the data plane calls expired |
| Clock.TtlQuantization | bpf/filter.bpf.c:266-272 | idle at most s seconds is never expired, idle s seconds plus two ticks less 512 ns always is, for data plane and sweep, every u32 s and every start instant |
| Clock.TtlWindow | bpf/filter.bpf.c:266-272 | for a TTL of n ticks: alive from every start instant iff idle at most n ticks, expired from every start instant iff idle at least n + 1 ticks |
| Clock.TtlMarginsExact | internal/dataplane/loader.go:41-47 | both margins of TtlQuantization are exact over all u32 seconds: no greater grace and no earlier deadline holds for all of them |
| Clock.TimeoutOfState | bpf/filter.bpf.c:255-272 | SYN_SENT and SYN_RCVD live for ttl_syn seconds, EST for ttl_est, CLOSING for ttl_closing, UDP for ttl_udp, and are gone 2147483136 ns after that, for data plane and sweep |
| Clock.SwitchesInstalled | internal/dataplane/loader.go:145-172 | every switch of the configuration reaches the data plane's switch of that name |
| Clock.TtlReadback | internal/dataplane/gc.go:46-48 | the displayed TTL is s or s + 1 iff s is not the largest u32, where it is 0; exactly when it is s |
| Clock.TtlWriteBack | internal/dataplane/loader.go:704-705 | re-applying a live policy that was read back installs the same TTLs, iff s is not the largest u32 |
| Frame.Parse | bpf/filter.bpf.c:829-922 | VLAN ids fit 12 bits, and a parsed TCP packet satisfies every guard the reset rewrite relies on |
| Frame.TcpExactly | bpf/filter.bpf.c:838-922 | a frame reaches the TCP handlers iff it is at most two tags, an IPv4 header and a TCP header, whole, a first fragment, with an IP length covering both |
| Frame.TcpLayoutPlaces | bpf/filter.bpf.c:843-941 | headers and VLAN ids are read from the places that layout gives |
| Types.FlagBits | bpf/filter.bpf.c:274-287 | which bit is which flag, and exactly which combinations are bad |
| Layout.BeforeIp | bpf/filter.bpf.c:829-880 | runts, cut tags, too many tags and VLAN ids, in frame bytes |
| Layout.BehindTags | bpf/filter.bpf.c:882-1023 | behind at most two tags: non-IP, unreadable IPv4, fragments, bad and good TCP and UDP, other protocols, each iff the bytes say so |
| Layout.UdpExactly | bpf/filter.bpf.c:998-1023 | UDP filtering sees exactly the first fragments of protocol 17 with a whole UDP header and an IP length of at least header plus 8 |
| Layout.UdpPlaces | bpf/filter.bpf.c:1024-1037 | addresses, ports and VLAN ids of a datagram, by byte offset |
| Layout.TcpPlaces | bpf/filter.bpf.c:911-941 | the same for TCP, with sequence and acknowledgment numbers and flags |
| Layout.KeyEnds | bpf/filter.bpf.c:930-941 | the source is the host on the trusted port and the internet on the other; outer VLAN id in the upper bits |
| Frame.KeyIsDirectionFree | bpf/filter.h:46-60 | a packet and its answer on the other port have the same key, only those do, and on one port the key is injective |
| SynLimit.Credit | bpf/filter.bpf.c:484-484 | the wrapped product never credits more than rate times interval over 2^20 |
| SynLimit.ChargeByLevel | bpf/filter.bpf.c:464-509 | a charge by its level: refilled by the elapsed time up to two seconds' worth, admitted iff at least 1000, less 1000 if admitted |
| SynLimit.FirstCharge | bpf/filter.bpf.c:470-474 | a first packet is admitted and leaves rate * 2000 - 1000 |
| SynLimit.WaitingAdmits | bpf/filter.bpf.c:481-506 | whoever waits until a packet's worth has accrued is admitted |
| SynLimit.SynNeedsBoth | bpf/filter.bpf.c:514-529 | a SYN of any source but 0.0.0.0 is admitted iff its own bucket at 50 and the common one at 3200 admit it; refused by its own, it leaves the common one alone; no other bucket changes |
| TokenRace.TokensConserved | bpf/filter.bpf.c:464-509 | under every interleaving of N CPUs tokens = initial + credits - 1000 * spends, nothing wraps, and tokens plus computed refills stay within N bursts |
| TokenRace.CreditsFollowClock | bpf/filter.bpf.c:481-494 | applied and won credit never exceeds rate * (ts_now - ts_0) >> 20 |
| TokenRace.WinMovesTime | bpf/filter.bpf.c:481-483 | the stamp changes exactly at a won CAS, and then strictly forward |
| TokenRace.FailOpenBound | bpf/filter.bpf.c:496-508 | four times the fail-open admissions is at most (N - 1) * (spends + refills) |
| TokenRace.SpendBound | bpf/filter.bpf.c:464-509 | the rate limit on N racing CPUs: paid admissions, refills and all admissions, fail-open included, are bounded by the initial tokens and the time the stamp has moved |
| TokenRace.BurstRespected | bpf/filter.bpf.c:486-492 | on any number of CPUs the bucket stays within one burst while no two are between winning an interval and adding its refill |
| TokenRace.OneBurstIff | bpf/filter.bpf.c:486-492 | from any bucket within its burst, a full one included: every schedule stays within one burst iff there is at most one CPU |
| TokenRace.ClampCanOvershoot | bpf/filter.bpf.c:486-492 | any k of N CPUs can each add all the room that was left in the bucket |
| TokenRace.ManyBurstsReached | bpf/filter.bpf.c:486-492 | N CPUs can reach exactly N bursts |
| TokenRace.EveryCallIsCharge | bpf/filter.bpf.c:464-509 | every call of every CPU in every schedule leaves the bucket and answers as SynLimit.ChargeAmid, the function DataPlane.Maps.TbktCharge computes, applied to what its accesses found |
| TokenRace.UninterruptedIsCharge | bpf/filter.bpf.c:464-509 | a call nobody interrupts, wherever the other CPUs stand, is the sequential charge used everywhere else |
| Invariants.RunInv | bpf/filter.bpf.c:366-657 | in every reachable state: SYN_SENT has a valid ISN, SYN_RCVD has no flags, a local close is CLOSING, UDP entries are plain, stamps and cache slots are not from the future |
| Invariants.FlowStep | bpf/filter.bpf.c:366-618 | the entry of a key after an event: only a TCP packet of that key, a sweep that finds it expired or its eviction can change it |
| Invariants.SlotStep | bpf/filter.bpf.c:335-362 | a cache slot holds what it held or what this packet's forward put there |
| Segments.HostSyn | bpf/filter.bpf.c:371-391 | the host's SYN always passes and makes the flow SYN_SENT with its ISN |
| Segments.HostReset | bpf/filter.bpf.c:393-400 | the host's reset always passes and closes the flow locally, expired or not |
| Segments.HostOnLive | bpf/filter.bpf.c:402-426 | any other segment of the host on a live flow: FIN closes locally, a local close stays, a SYN-ACK leaves it half-open, the rest establishes |
| Segments.HostOnNone | bpf/filter.bpf.c:428-456 | without a live flow: refused in strict mode, otherwise adopted as established, or as a local close by a FIN |
| Segments.InetSynAck | bpf/filter.bpf.c:540-560 | a SYN-ACK: when it passes, each refusal with its reason, SYN_SENT to EST |
| Segments.InetSyn | bpf/filter.bpf.c:562-591 | a SYN from outside passes iff the policy is open for its destination and both buckets admit it; what it opens and what it leaves alone |
| Segments.InetReset | bpf/filter.bpf.c:594-607 | a reset from outside: when it passes, and that it closes the flow, not locally |
| Segments.InetOther | bpf/filter.bpf.c:609-618 | any other segment from outside passes iff the flow is live; FIN closes, SYN_RCVD becomes EST |
| Segments.BeforeTheHandlers | bpf/filter.bpf.c:921-985 | without a policy let through; refused for flags iff the policy asks for it and they are bad |
| Segments.FromTheCache | bpf/filter.bpf.c:962-978 | answered by the cache iff eligible and the slot holds this key, tick and state; then nothing changes |
| Segments.FillsTheCache | bpf/filter.bpf.c:987-992 | the cache is written iff an eligible segment was forwarded by a handler, no insert failed and the flow is EST afterwards |
| Segments.CachedIsHit | bpf/filter.bpf.c:967-992 | the next eligible segment on that CPU and tick is answered by the cache |
| Segments.DatagramBefore | bpf/filter.bpf.c:998-1051 | bypass, filtering off, and exactly when the cache answers |
| Segments.HostDatagram | bpf/filter.bpf.c:624-640 | the host's datagrams always pass and open or refresh the pseudo-flow |
| Segments.InetDatagram | bpf/filter.bpf.c:642-657 | a datagram from outside passes on a live pseudo-flow or to an allowlisted server, and is refused otherwise |
| Segments.DatagramFillsTheCache | bpf/filter.bpf.c:1054-1062 | the cache is written iff a pseudo-flow was opened or refreshed, not for the allowlist alone |
| Segments.FrameWithoutFlow | bpf/filter.bpf.c:829-1072 | every other kind of frame, under every policy switch |
| Handshake.IsnBinding | bpf/filter.bpf.c:371-391 | a valid ISN is the sequence number of the latest outbound SYN handled for the key |
| Handshake.SynAckAdmission | bpf/filter.bpf.c:540-560 | an inbound SYN-ACK passes iff its flow is live and, when it has a valid ISN (always when half-open), it acknowledges the latest SYN's ISN + 1 mod 2^32 |
| Handshake.ResetAdmission | bpf/filter.bpf.c:594-607 | an inbound reset passes iff its flow is live and, while it is SYN_SENT, it acknowledges the latest SYN's ISN + 1; then the flow is CLOSING and refreshed, otherwise unchanged |
| Handshake.EstablishingNeedsTheIsn | bpf/filter.bpf.c:540-618 | no inbound traffic establishes a half-open flow without a SYN-ACK acknowledging its ISN + 1 |
| Handshake.HalfOpenStep | bpf/filter.bpf.c:540-618 | while the host at most answers the SYN, a flow opened from outside is established by an event iff it is half-open and live and the event is an inbound segment without SYN, RST or FIN that misses the cache |
| Handshake.BlindAckIff | bpf/filter.bpf.c:411-424 | over runs: the event that first establishes such a flow is exactly the first such segment |
| HalfOpenWitness.BlindAckHoldsSlot | bpf/filter.bpf.c:612-616 | a run in which an unsolicited ACK keeps a spoofed SYN's flow live ten times longer than ttl_syn |
| Handshake.ClosedOutIsClosing | bpf/filter.h:75-80 | FL_CLOSED_OUT implies CLOSING in every reachable state |
| Handshake.LocalCloseStarts | bpf/filter.bpf.c:393-456 | an entry becomes locally closed by an event iff the host's reset finds it, or the host's FIN finds it live or is adopted |
| Handshake.HostCloseHolds | bpf/filter.bpf.c:393-456 | over runs: after such an event the flow stays closing, not established, until one of the events that reopen it |
| Handshake.ClosedOutStep | bpf/filter.bpf.c:393-456 | a locally closed entry leaves that state iff it is removed, reused by an outbound SYN, replaced by an admitted inbound SYN, or adopted anew after expiry |
| Handshake.LocalCloseSticks | bpf/filter.bpf.c:393-456 | over runs: none of those events, still locally closed |
| Handshake.RemoteCloseReversible | bpf/filter.bpf.c:402-426 | whatever the internet side sends on an EST flow, the host's next ordinary packet on the live flow leaves it EST iff the cache does not answer it or it was EST anyway |
| Handshake.NoCreateTcp | bpf/filter.bpf.c:534-618 | with inbound-server policies off, every TCP entry and every cached TCP slot belongs to a key for which a packet of the trusted side has been forwarded |
| Handshake.NoCreateUdp | bpf/filter.bpf.c:624-657 | the same for UDP under every policy |
| Handshake.AdmittedTcpHasOutbound | bpf/filter.bpf.c:953-993 | every inbound TCP packet that passes follows an outbound packet of its key that was itself forwarded |
| Handshake.AdmittedUdpHasOutbound | bpf/filter.bpf.c:642-657 | every filtered inbound datagram that passes follows a forwarded outbound one or goes to an allowlisted server |
| Cache.TcpCoherentRun | bpf/filter.bpf.c:335-362 | a TCP slot validated this tick names an entry stamped this tick, unless an entry was evicted in this tick |
| Cache.TcpHitRefinesSlowPath | bpf/filter.bpf.c:972-978 | on a hit the slow path would forward and change nothing, except the state to EST exactly when it is promotable |
| Cache.FailedInsertIsNotCached | bpf/filter.bpf.c:447-453 | a failed insert changes no entry and authorizes nothing in L1 |
| Cache.UdpTablesAgree | bpf/filter.bpf.c:1043-1064 | cached and uncached machines have the same UDP table after every step of every run |
| Cache.UdpVerdictsAgree | bpf/filter.bpf.c:1043-1064 | and give every datagram the same verdict |
| Cache.TcpStepAgreesIff | bpf/filter.bpf.c:967-993 | one step with and without the cache keeps the TCP tables equal iff no promotion is postponed |
| Cache.TcpTablesAgree | bpf/filter.bpf.c:967-993 | over runs without TCP evictions: the tables with and without the cache agree throughout iff no hit postpones a promotion, and then every TCP packet fares the same |
| CacheWitness.CacheCanCostAVerdict | bpf/filter.bpf.c:972-978 | a run of four packets in which the cache changes a verdict |
| Gc.CollectStale | internal/dataplane/gc.go:77-95 | the scan visits every key once and collects exactly the stale ones |
| Gc.DeleteAll | internal/dataplane/gc.go:100-104 | the deletions remove exactly those keys and count what they removed |
| Gc.GcOnce | internal/dataplane/gc.go:70-106 | one sweep leaves the table without its stale entries and reports live and deleted counts; nothing at tick 0 |
| Gc.SweepByAge | internal/dataplane/gc.go:70-106 | a sweep keeps what has been idle for its state's configured seconds at most and removes what has been idle two ticks longer |
| Gc.ExpiredLooksAbsent | bpf/filter.bpf.c:366-618 | a TCP packet treats an expired entry like none, in verdict and cache, and in the table iff it is not an outbound reset |
| Gc.ResetRevivesExpired | bpf/filter.bpf.c:393-400 | for every expired entry, an outbound reset makes a following inbound ACK pass that would be dropped after a sweep |
| SweepWitness.SweepCanCostAVerdict | bpf/filter.bpf.c:393-400 | a run of four events whose verdicts differ from those of the run without its sweep |
| Gc.SweepsAreInvisible | internal/dataplane/gc.go:70-106 | with fixed TTLs and successful flow inserts, a run with sweeps at arbitrary points and the run without them look alike after every event (live entries, cache, buckets) iff no outbound reset finds an entry a sweep has removed, and then all verdicts are equal, TCP and UDP |
| Gc.UdpSweepsAreInvisible | internal/dataplane/gc.go:70-106 | for UDP, whatever TCP does, over runs with a fixed UDP timeout, successful UDP inserts and no UDP eviction: no verdict on a datagram and no live entry changes |
| UdpHistory.SummaryRun | bpf/filter.bpf.c:624-657 | the UDP table is a summary of the uses of each flow in the whole past |
| UdpHistory.UdpAdmission | bpf/filter.bpf.c:624-657 | with a fixed UDP timeout, successful UDP inserts and no UDP eviction: an inbound datagram passes iff it is allowlisted or an earlier datagram of its flow, outbound or itself so admitted, lies within the timeout |
| SynGrowth.InsertsAreAdmitted | bpf/filter.bpf.c:562-591 | an inbound packet writes a new entry only as an admitted SYN |
| SynGrowth.BucketRun | bpf/filter.bpf.c:464-529 | for the global bucket and every source's: from any point without it on, what it spends is covered by a burst, one more per eviction of it, and the credit of the elapsed time |
| SynGrowth.InboundGrowthBound | bpf/filter.bpf.c:519-591 | over every run: inbound inserts are at most 6400 for each incarnation of the global bucket, plus (3200 * elapsed >> 20) / 1000, plus the SYNs admitted because it could not be created |
| SynGrowth.GrowthSinceCreation | bpf/filter.bpf.c:519-591 | since its creation, while it is not evicted, at most 6400 + (3200 * elapsed >> 20) / 1000 |
| SynGrowth.SourceBound | bpf/filter.bpf.c:511-529 | over every run, whatever the others do: SYNs admitted from one source are at most 100 for each incarnation of its bucket, plus (50 * elapsed >> 20) / 1000, plus those admitted because it could not be created |
| SynGrowth.SourceSinceCreation | bpf/filter.bpf.c:511-529 | since its creation, while it is not evicted, at most 100 + (50 * elapsed >> 20) / 1000 |
| ZeroSource.GlobalOnlyIff | bpf/filter.bpf.c:511-529 | the SYN charge does to key 0 nothing or one charge at the global rate, for all buckets, clocks and insert outcomes, iff the source is not 0.0.0.0 |
| ZeroSource.CreatesShort | bpf/filter.bpf.c:464-477 | as the first SYN of all, one from 0.0.0.0 leaves the global bucket with 98 packets |
| ZeroSource.TakesRefill | bpf/filter.bpf.c:481-494 | on an empty global bucket it is refused, spends nothing, and makes a SYN of any other source fail that would have passed |
| ZeroSource.ZeroSourceCostsAVerdict | bpf/filter.bpf.c:511-529 | two runs that differ in one refused packet from 0.0.0.0 and in the verdict on the last SYN |
| Account.RecordBalances | bpf/filter.bpf.c:659-683 | one packet keeps received = redirected + dropped + answered + bypassed |
| Account.BooksBalance | bpf/filter.bpf.c:817-1072 | over every run the packet and byte totals balance, the VLANs add up, and the reasons other than MAP_FAIL count the refusals |
| Account.EnforcedRunConserves | bpf/filter.bpf.c:668-683 | in an all-enforce run nothing is bypassed and those reasons sum to dropped + answered |
| Counters.ActionIs | bpf/filter.bpf.c:659-815 | transmitted, dropped or redirected iff the refusal is answered, enforced or neither |
| Counters.CountersExact | bpf/filter.bpf.c:659-1072 | over every run each of the counters, per VLAN and per reason, is the number of packets or bytes it is named for |
| Modes.RunIgnoresMode | bpf/filter.bpf.c:668-683 | tables, cache and buckets do not depend on mode or reject_with_rst |
| Modes.MonitorPredictsEnforce | bpf/filter.bpf.c:668-815 | same reason counters in both modes; enforce drops or answers exactly the packets for which monitor raises a reason |
| Checksum.TwoFoldsSuffice | bpf/filter.bpf.c:705-710 | two folds bring every 32-bit sum below 2^16, keep it mod 65535, and give 0 only for 0 |
| Checksum.PatchKeepsSum | bpf/filter.bpf.c:759-763 | the incremental update keeps the header sum mod 65535 (RFC 1624, equation 3) |
| RstReply.BuildAndSendRst | bpf/filter.bpf.c:714-794 | the frame is rewritten in place into the specified reset, or left untouched when the TCP header does not fit |
| RstProof.OnlyTheseBytesChange | bpf/filter.bpf.c:747-785 | only MACs, IP length, checksum and addresses and the 20 TCP bytes change |
| RstProof.IpChecksumPreserved | bpf/filter.bpf.c:759-764 | for every header length the new IP header verifies iff the original did |
| RstProof.TcpChecksumVerifies | bpf/filter.bpf.c:780-791 | the TCP checksum written from raw words verifies at the receiver |
| RstProof.ByteOrderDoesNotMatter | bpf/filter.bpf.c:780-791 | big- and little-endian machines write the same frame (RFC 1071, section 2(B)) |
| RstReparse.GuardsSuffice | bpf/filter.bpf.c:911-922 | after the parser's guards SEG.LEN does not underflow and the writes stay inside the frame |
| RstReparse.ResetReparses | bpf/filter.bpf.c:714-794 | the reset, parsed again, is a well-formed TCP packet with ends exchanged and the expected fields |
| RstReparse.ResetBytes | bpf/filter.bpf.c:747-779 | MACs, addresses and ports exchanged, the lengths of a bare header, window and urgent pointer 0 |
| RstReparse.ResetKeepsFlowKey | bpf/filter.bpf.c:724-745 | on the trusted role it has the dropped packet's flow key, passes the flag test, and answers as section 3.5.2 of RFC 9293 prescribes |
| DataPlane.Maps.HandleOutbound | bpf/filter.bpf.c:366-457 | the in-place updates are the entry transition; a failed insert is counted |
| DataPlane.Maps.HandleInbound | bpf/filter.bpf.c:534-619 | likewise, with the policy and bucket charges of an inbound SYN |
| DataPlane.Maps.HandleOutboundUdp | bpf/filter.bpf.c:624-640 | likewise for outbound datagrams |
| DataPlane.Maps.HandleInboundUdp | bpf/filter.bpf.c:642-657 | likewise for inbound datagrams |
| DataPlane.Maps.L1Put | bpf/filter.bpf.c:346-362 | the slot holds key, state and tick afterwards, on the shortcut too |
| DataPlane.Maps.TbktCharge | bpf/filter.bpf.c:464-509 | refill election and four-try spend loop, with other CPUs at the bucket before any of its accesses; the sequential charge when there are none |
| SynLimit.SpendSettles | bpf/filter.bpf.c:496-508 | the spend loop refuses only on a level it has itself found below one packet's worth, and admits unpaid only after four lost tries |
| DataPlane.Maps.SynAdmitted | bpf/filter.bpf.c:514-529 | the per-source charge first, the global one only after it admits, each with its own clock reading and with other CPUs at its bucket |
| DataPlane.Maps.Touch | bpf/filter.bpf.c:291-295 | the stamp is the current tick afterwards, whether or not it was written |
| DataPlane.Maps.DoDrop | bpf/filter.bpf.c:668-683 | the reason is counted in both modes; dropped only when enforcing |
| DataPlane.Maps.DoDropLazy | bpf/filter.bpf.c:688-696 | without a policy the frame passes uncounted, with one it is dropped as usual |
| DataPlane.Maps.FilterTcp | bpf/filter.bpf.c:898-995 | policy looked up only where needed, flag test, cache, handlers and disposal amount to the TCP step |
| DataPlane.Maps.FilterUdp | bpf/filter.bpf.c:998-1066 | the UDP step |
| DataPlane.Maps.FilterStateless | bpf/filter.bpf.c:829-906 | runts, tags, non-IP, fragments and malformed packets |
| DataPlane.Maps.DoDropTcp | bpf/filter.bpf.c:799-815 | a refusal is answered iff a reset is wanted and can be built, and otherwise dropped or let through; frame and counters accordingly |
| DataPlane.ReadTags | bpf/filter.bpf.c:838-861 | the VLAN loop strips at most two tags |
| DataPlane.Maps.XdpFilter | bpf/filter.bpf.c:817-1072 | tables, counters, action and frame after one packet are those of the state machine |
| Sizing.FloorPowerOfTwo | internal/config/resources.go:243-252 | the largest power of two not above v, or 0 |
| Sizing.RecommendDedicated | internal/config/resources.go:94-141 | budget; the largest L1 size in [4096, 65536] within 1% of memory, or off exactly when there is none or it leaves no budget; largest 1024-aligned tables within share and cap; estimate over budget only at the UDP minimum |
| Cgroup.ParseMemoryValue | internal/config/resources.go:211-221 | a value is kept iff it is positive, below 2^60 and plausible for the host; for hosts below 2^54 bytes that is at most 1024 times its memory |
| Cgroup.RoomIs | internal/config/resources.go:168-184 | limit, usage and room of a directory in terms of its two files; the usage is not tested against the host's memory |
| Cgroup.DetectCgroupMemory | internal/config/resources.go:143-192 | the upward walk ends with the least limit, the usage of the deepest directory that has it, and the least headroom over all ancestors |
| Cgroup.DetectHostResources | internal/config/resources.go:54-89 | effective memory and headroom are the minima over the host and every ancestor; cgroup limit and usage are the walk's; CPU fallbacks |
| Cgroup.SizeHost | internal/wizard/wizard.go:110-111 | the map budget is 4/5 of the lesser of a third of that effective memory and that headroom, hence at most that of every ancestor |

## Left out

- eBPF loading, pinning, link attach, XDP mode probing and the kernel's map internals: maps are abstract maps with insert failures and evictions; which entry the LRU evicts is arbitrary.
- Sampled flow monitoring (`FLOW_MONITOR_*`), alert files and stats rendering: randomness and formatting around small logic.
- `internal/manage`, `internal/wizard` beyond its sizing call, `cmd/xdpfilter`, `internal/tuning`: terminal, prompts and system plumbing.
- `config.Diff`, `Clone`, `SyncServerAllow`, CIDR reconciliation: short set and field arguments.
- String parsing in `internal/config/resources.go` (`parseMeminfo`, `countCPUList`, number formats, relative cgroup paths): numbers and cleaned absolute paths are inputs.
- `fmix32` and `l1_index`: any index function is allowed, so nothing about the hash is used or proved.
- The creation race of a token bucket between CPUs: a packet step is atomic except for the charge of an existing bucket.
- Cross-CPU clock skew and 32-bit tick wrap-around: assumed away as above.
- GcOnce's iteration errors and entries changed between its scan and its deletions: a sweep is one atomic step.
- Counters of `stats_global`, `stats_vlan` and `drop_reason` are unbounded sums over CPUs; u64 wrap-around and lookups that return NULL for an in-range index are not modelled.
- Frames beyond the first buffer: a frame is the bytes of the first buffer, and the accounted length is an input.
- Other CPUs inside the charges of one packet of the state machine: its packet steps are atomic and read the clock once; the contended charge is what TokenRace and DataPlane.Maps.SynAdmitted state.
