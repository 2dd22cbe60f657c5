# A verified model of frps and frpc

frp exposes services behind a NAT: clients (frpc) log in to a server (frps), register proxies, and share
ports, routes and hole-punching advice through it. This project models the parts of it that carry state and
branching, and proves what they keep over every run:

- **Sessions** (`Session*.dfy`). A client that logs in again under its run id replaces its old control. The
  handshake of `Add`, `Replaced`, `Start`, `worker`, `WaitClosed` and `Del`, and the registering and closing of
  proxies, are a state machine whose steps are the critical sections of any number of goroutines.
  `SessionHandover` proves the safety of the handover, `SessionProgress` that no login is ever stuck,
  `SessionProxies` the ownership of proxy names and the accounting of ports, `SessionOutcomes` what logins and proxy
  requests come to, and `SessionObjects` holds the objects whose methods do what the steps say.
- **Firewall** (`Firewall*.dfy`, `Reputation.dfy`). Rules compiled from text against a grammar of port lists and
  against 128-bit networks, first match, expiry pruning in place, and the single-flight reputation cache as a
  concurrent protocol.
- **Ports and groups** (`PortRanges`, `PortManager`, `TcpGroups`, `GroupObjects`, `HttpGroup`). The text form of
  port ranges, the allocator with its reservations, the group registry with its stale-group retry, and the
  round-robin HTTP group.
- **Hole punching** (`NatHole.dfy`). The scored choice of behaviours: exactly when each gets its turn, that success
  sticks, and that every advice is two-sided.
- **Registry, metrics, framing** (`ClientRegistry`, `P2PMetrics`, `VnetFraming`). The index of connected clients,
  conservation of reported traffic, and the virtual network's message stream.

`Text.dfy` defines the Go string functions the parsers use, `Numerals.dfy` the numbers they read, `Options.dfy` an
option type. A concurrent component is
a `Step` datatype with `Enabled`, `Next`, and `Exec` over sequences of steps, so that a theorem about `Exec` is about
every interleaving. An object of the source is a class, and the contract of each method equates its abstract
value with a function of the old one; the theorems are about those functions: what every run of them keeps, and what
each of them does.

Some things the code or its comments suggest do not hold. Each is shown by an example, together with the exact
condition under which it does hold:

- A printed list of port ranges parses back exactly when it is non-empty and its ranges are well formed
  (`PortRanges.RoundTrip`).
- A failed `Acquire` leaves the allocator as it was, unless the free port 0 was drawn: that port is lost
  (`PortManager.FailureIsSilent`, `PortManager.PortZeroIsLost`).
- A firewall rule matches whom its text names, except that an IPv6 network shorter than 96 bits around the
  IPv4-mapped block misses every IPv4 client, and every rule for a network or an address misses a client with a zone
  in its address, such as fe80::1%eth0 (`Firewall.StraddlingRuleMissesIPv4`, `Firewall.ZonedClientIsMissed`,
  `Firewall.MatchesAllItNames`).
- Round robin skips somebody when the 64-bit index wraps in the middle of a round, unless the number of members
  divides 2^64 (`HttpGroup.RoundRobinExact`).
- `UnRegister` of somebody who is not a member can take away another group's route: it does exactly when the group is
  empty and its old route is another's by now (`HttpGroup.OthersKeepTheirRoutes`,
  `HttpGroup.StaleUnregisterTakesRoute`). The HTTP proxy unregisters once per successful registration, which avoids it.
- A peer on the public network is "always receiver" for five or six attempts only
  (`NatHole.PublicSideSendsInTheEnd`). The comment on mode 4 gives 2000 ms where the code has 3000; the model has 3000.
- A client registered under a run id that another client is indexed by strands the other one: it stays online and
  blocks its client id (`ClientRegistry.RegisterKeepsIndexed`, `ClientRegistry.StrandedStaysOnline`).
- A client key names user and client id for two users only if neither is the empty user and neither user name with a
  dot starts the other (`ClientRegistry.KeysNameTheirClient`, `ClientRegistry.ClientsCollide`).
- The reports handlers apply in any order add up, but frps's connection counter stops at zero, so it is exact only
  if what is applied, in its order, never falls below zero (`P2PMetrics.AppliedExactly`, `P2PMetrics.DrainedIsExact`,
  `P2PMetrics.ReorderedReportsStick`).
- A message of 4 GiB or more whose length is small modulo 2^32 is accepted for writing and read back cut
  (`VnetFraming.RoundTrip`, `VnetFraming.LongMessageIsCut`).

`dafny verify dfyconfig.toml` checks everything.

## Model

| member | source | states |
|---|---|---|
| `SessionHandover.AtMostOneLiveSession` | server/control.go:69-97 | In every interleaving, at most one control per run id is started, not replaced and not done, and it is the one the map holds |
| `SessionHandover.OnlyTheOwnerLeavesTheMap` | server/control.go:89-97 | An entry leaves the map only by its own control's Del once it is no longer live, and is overwritten only by a newer login of that run id that has replaced it |
| `SessionHandover.ReplacedAndClosedAtMostOnce` | server/control.go:303-373 | No control is replaced twice, and closeDone is called at most once on it even if doneOnce did nothing; its run id is empty exactly once it was replaced |
| `SessionHandover.WaitsAreReleased` | server/service.go:1261-1263 | Whoever waits in WaitClosed waits for a replaced control of its own run id that is closed or that a started worker or the replacing login will close |
| `SessionHandover.StepKeeps` | server/service.go:725-757 | Each step of logins, workers and handlers keeps the handover invariant |
| `SessionHandover.RunKeeps` | server/service.go:1182-1282 | So does every run |
| `SessionProgress.LoginCanComplete` | server/control.go:505-509 | From every state of the invariant each login can be brought to its end by finitely many steps of those it waits for: neither the lock nor WaitClosed deadlocks |
| `SessionProgress.NoLoginIsStuck` | server/service.go:725-757 | The same after every run |
| `SessionProgress.HolderStepDescends` | server/control.go:69-85 | Whoever holds the manager's lock always has an enabled step that brings its release nearer |
| `SessionProgress.WorkerStepDescends` | server/control.go:541-577 | A started worker always has an enabled step that brings its closeDone nearer |
| `SessionOutcomes.AcceptedLoginGoesLive` | server/service.go:1271-1282 | A login the registry does not object to, its response written, starts: it is live, its worker runs, and the map has it |
| `SessionOutcomes.ConflictTurnsAway` | server/service.go:1273-1279 | A conflict in the registry turns the login away before anything is started |
| `SessionOutcomes.LostResponseTurnsAway` | server/service.go:725-745 | So does a response that cannot be written |
| `SessionOutcomes.OnlyDeleteIsLeft` | server/service.go:1273-1279 | Of such a login only its own Del is left, which leaves no entry of it |
| `SessionOutcomes.TurnedAwayForGood` | server/service.go:725-745 | Whatever else happens, it never starts |
| `SessionOutcomes.FreeRunIdIsTaken` | server/control.go:69-85 | A login whose run id is free is stored and has nobody to wait for |
| `SessionOutcomes.NewLoginTakesOver` | server/control.go:69-85 | Any other replaces the control there is, releases it exactly if it has no worker, takes its entry and waits for it |
| `SessionProxies.TablesAgreeWithManager` | server/control.go:840-871 | Every entry of a control's table is the manager's entry under that name, owned by that control, and no name is in two tables |
| `SessionProxies.OnlyTheOwnerRemoves` | server/proxy/proxy.go:1018-1048 | A name in the manager is never overwritten and leaves it only by a step of the control that registered it |
| `SessionProxies.OnlyOwnNamesChange` | server/control.go:521-577 | A handler or cleanup step adds only free names and touches no other control's |
| `SessionProxies.ReleasedControlOwnsNothing` | server/control.go:541-577 | Once doneCh is closed the control has no proxy left in its table or in the manager |
| `SessionProxies.AdmittedAfterCleanup` | server/service.go:1261-1263 | A login past WaitClosed finds no proxy of the control it directly replaced in either table |
| `SessionProxies.PortsAreAccounted` | server/control.go:759-897 | With a positive limit, the ports a live control is charged for are those of its table plus the one being registered, never above the limit, and exactly its table's between handlers |
| `SessionProxies.RunKeepsProxies` | server/control.go:759-897 | Every run keeps the ownership and accounting invariants |
| `SessionProxies.PortSumRemove` | server/control.go:873-897 | The sum of ports over a table does not depend on the order names leave it |
| `SessionOutcomes.RefusedExactlyIfTooMany` | server/control.go:759-838 | A request is refused for its ports exactly when they do not fit with those of the table, and then nothing is changed |
| `SessionOutcomes.ProxyIsRegistered` | server/control.go:840-871 | A free name whose ports fit ends in both tables, charged, and nothing else changes |
| `SessionOutcomes.TakenNameIsRefused` | server/control.go:840-845 | A taken name leaves everything as it was |
| `SessionOutcomes.FailedProxyIsRolledBack` | server/control.go:846-866 | A proxy that does not run, or whose name was taken meanwhile, fails and leaves the manager alone |
| `SessionOutcomes.RollBackUndoes` | server/control.go:759-838 | The rollback gives back exactly the ports that were counted |
| `SessionOutcomes.ProxyIsClosed` | server/control.go:873-897 | A closed proxy leaves both tables and its ports are given back |
| `SessionOutcomes.UnknownNameIsIgnored` | server/control.go:873-897 | Closing any other name changes nothing |
| `SessionObjects.ProxyManager.Add` | server/proxy/proxy.go:1018-1030 | A name is added exactly when it is free |
| `SessionObjects.ProxyManager.Exist` | server/proxy/proxy.go:1032-1040 | Tells whether the name is registered |
| `SessionObjects.ProxyManager.Del` | server/proxy/proxy.go:1042-1048 | Removes that name and nothing else |
| `SessionObjects.Control.Start` | server/control.go:277-301 | Brings up the worker exactly when the control was not replaced before |
| `SessionObjects.Control.CloseDone` | server/control.go:307-309 | Closes doneCh |
| `SessionObjects.Control.Replaced` | server/control.go:351-373 | Marks the control, clears its run id, and closes doneCh exactly when no worker will |
| `SessionObjects.Control.RegisterProxy` | server/control.go:759-871 | Which error occurs exactly when; success enters the proxy in both tables and charges its ports; every failure leaves the control as it was |
| `SessionObjects.Control.CloseProxy` | server/control.go:873-897 | An own name leaves both tables and its ports are given back; any other name is ignored |
| `SessionObjects.Control.CloseAll` | server/control.go:557-577 | Exactly the names of the table leave the manager |
| `SessionObjects.Control.CleanUp` | server/control.go:541-577 | The table is emptied, its names leave the manager, then doneCh closes |
| `SessionObjects.ControlManager.Add` | server/control.go:69-85 | The new control is stored; a prior one is returned, replaced, without a run id, and closed unless its worker will close it |
| `SessionObjects.ControlManager.Del` | server/control.go:89-97 | The entry goes only if it is still this control |
| `PortRanges.RoundTrip` | pkg/config/types/types.go:155-234 | Parsing a printed list gives the list back exactly when it is non-empty and every range is well formed |
| `PortRanges.RoundTripOne` | pkg/config/types/types.go:155-234 | The same of a single range, including ranges with negative or reversed bounds |
| `PortRanges.ParsesExactlyRanges` | pkg/config/types/types.go:183-230 | An entry parses to a range exactly when it is one number, or two with the only dash between and the second not smaller |
| `PortRanges.ParsesExactlyLists` | pkg/config/types/types.go:175-234 | A text parses to a list exactly when its entries, between commas, are texts of its ranges by the grammar |
| `PortRanges.String` | pkg/config/types/types.go:155-171 | The loop prints the ranges joined by commas |
| `PortRanges.NewPortsRangeSliceFromString` | pkg/config/types/types.go:175-234 | The loop parses all entries or fails at the first bad one |
| `PortManager.FreeAndUsedPartition` | server/ports/ports.go:105-292 | After any run of Acquire, Release and sweeping, free and used ports are disjoint and together the allowed ports; every reservation is of an allowed port |
| `PortManager.NewManagerPartition` | server/ports/ports.go:65-103 | In particular from a new manager on |
| `PortManager.ReleaseReleases` | server/ports/ports.go:238-254 | A released port is free, its context is closed at that time, and every other port and context is as it was |
| `PortManager.OtherReleasesDoNothing` | server/ports/ports.go:238-254 | A release changes nothing exactly when the port is not used |
| `PortManager.ReleasedPortIsGranted` | server/ports/ports.go:238-254 | Whoever asks for a released port gets it if the probe accepts it |
| `PortManager.SweepDropsExpired` | server/ports/ports.go:282-292 | A sweep drops exactly the reservations given up more than a day ago, and changes nothing else |
| `PortManager.RefusalTellsWhy` | server/ports/ports.go:105-197 | Which error a request gets exactly when, and when the random draw finds no port |
| `PortManager.LastPortComesBack` | server/ports/ports.go:128-139 | A name that asks for any port gets its last one back if the probe accepts it, whatever other names did, unless it was released more than a day ago |
| `PortManager.ReservationSurvives` | server/ports/ports.go:282-292 | A reservation outlives all that other names do and every sweep within a day of its release |
| `PortManager.ClosedStaysClosed` | server/ports/ports.go:238-254 | A closed context never changes again |
| `PortManager.AcquiredPortIsSound` | server/ports/ports.go:105-197 | A reported port is allowed, accepted by the probe and marked used; a specified port is granted exactly when it is free and accepted |
| `PortManager.FailureIsSilent` | server/ports/ports.go:105-197 | A failure changes the state exactly when port 0 was drawn off the free ports; without port 0 allowed it never does |
| `PortManager.PortZeroIsLost` | server/ports/ports.go:146-170 | The run that loses port 0 |
| `PortManager.FirstAcceptedIsOne` | server/ports/ports.go:150-168 | The draw takes the first of at most five visited ports that the probe accepts, or none if it accepts none |
| `PortManager.TryFree` | server/ports/ports.go:150-168 | The loop over the free ports computes that draw |
| `PortManager.Manager.constructor` | server/ports/ports.go:65-103 | The free ports are exactly those the list denotes, or all port numbers without a list |
| `PortManager.Manager.Acquire` | server/ports/ports.go:105-197 | Does what the allocator's specification says, shared contexts included |
| `PortManager.Manager.MarkAcquired` | server/ports/ports.go:201-207 | Moves a port from free to used and reserves it for the name |
| `PortManager.Manager.Release` | server/ports/ports.go:238-254 | A used port becomes free and its shared context is closed with the time |
| `PortManager.Manager.CleanReservedPortsOnce` | server/ports/ports.go:282-292 | Exactly the expired reservations go |
| `Numerals.ParseIntReadsNumerals` | server/firewall/firewall.go:784-793 | Trimming and parsing accept exactly the padded, optionally signed numerals of a value |
| `FirewallPorts.ParsesExactlyEntries` | server/firewall/firewall.go:764-782 | A part parses as a range exactly when the grammar gives it that reading |
| `FirewallPorts.ParsesIffWellFormed` | server/firewall/firewall.go:764-782 | It parses at all exactly when it is well formed |
| `FirewallPorts.CompiledMatchesText` | server/firewall/firewall.go:212-242 | A compiled port list matches exactly the ports its well-formed entries name |
| `FirewallPorts.CompiledInBounds` | server/firewall/firewall.go:764-782 | Every compiled range is a non-empty range of port numbers |
| `FirewallPorts.ValidatedDropsNothing` | server/firewall/firewall.go:797-808 | A list that validates has one range per entry, in order |
| `FirewallPorts.CompilePorts` | server/firewall/firewall.go:212-223 | The loop keeps the well-formed entries and drops the others |
| `FirewallPorts.ParsePortSpec` | server/firewall/firewall.go:797-808 | Accepts exactly the lists whose every entry is well formed; the error names the first that is not |
| `FirewallPorts.AnyPortTexts` | server/firewall/firewall.go:212-216 | What means any port: nothing, a star, or all in any case |
| `FirewallPorts.MatchRanges` | server/firewall/firewall.go:235-242 | Tells whether some range holds the port |
| `FirewallAddr.MappedNetworkExact` | server/firewall/firewall.go:179-203 | A network of IPv4 or IPv4-mapped addresses contains exactly the clients that the 128-bit network contains (section 2.5.5.2 of RFC 4291) |
| `FirewallAddr.CompiledNetworkExact` | server/firewall/firewall.go:172-233 | A compiled network contains exactly the clients of the 128-bit network that have no zone and are not IPv4 clients of a short network around the mapped block; where the two therefore differ |
| `FirewallAddr.HostRuleExact` | server/firewall/firewall.go:192-203 | A rule for one address matches exactly that address, in either notation, if the client has no zone |
| `FirewallAddr.MaskKeepsPrefix` | server/firewall/firewall.go:179-191 | Masking the host bits does not change what a network contains |
| `FirewallAddr.EmbedOfUnmap` | server/firewall/firewall.go:749-761 | Unmapping keeps the 128-bit address, and makes IPv4 exactly the mapped ones |
| `Firewall.RuleMatchesText` | server/firewall/firewall.go:172-233 | For every client, a compiled rule matches exactly if its text reaches the address and names the port |
| `Firewall.ZonedClientIsMissed` | server/firewall/firewall.go:749-761 | A client with a zone is matched by rules for any address only |
| `Firewall.StraddlingRuleMissesIPv4` | server/firewall/firewall.go:179-191 | A short IPv6 network around the mapped block names every IPv4 client and matches none |
| `Firewall.MatchesAllItNames` | server/firewall/firewall.go:172-233 | A rule matches what its text names exactly unless the client is IPv4 and the rule such a network, or the client has a zone and the rule names it by network or address |
| `Firewall.CompileRules` | server/firewall/firewall.go:161-170 | One compiled rule for each rule, in order, with its position's reason |
| `Firewall.FirstMatchDecides` | server/firewall/firewall.go:418-429 | The first unexpired matching rule gives verdict and reason, and without one there is none |
| `Firewall.SurvivorsKeepOrder` | server/firewall/firewall.go:699-712 | Pruning keeps exactly the unexpired rules, in their order |
| `Firewall.PruningIsInvisible` | server/firewall/firewall.go:699-712 | Pruning changes no later decision for any address, port and time, nor its reason |
| `Firewall.AllowVerdict` | server/firewall/firewall.go:403-451 | The reason is never empty, whichever stage decides |
| `Firewall.TextDecides` | server/firewall/firewall.go:409-451 | From text to verdict, for every client and rule list: the first rule in force whose text reaches the client decides, with its reason, whenever expired rules were pruned and whatever the reputation; without one, a bad reputation and then the default policy do, each with its reason |
| `Firewall.ReasonNamesRule` | server/firewall/firewall.go:154-159 | The reason names the rule by its id, and without an id by its position, no two alike |
| `Firewall.DisabledAllows` | server/firewall/firewall.go:409-414 | With the firewall off everything is allowed |
| `Firewall.RuleList.Prune` | server/firewall/firewall.go:699-712 | The loop moves the survivors to the front of their own array and tells whether anything went |
| `Firewall.RuleList.Allow` | server/firewall/firewall.go:409-451 | The loop over the rules gives the verdict of the specification |
| `Reputation.OneQueryPerAddress` | server/firewall/firewall.go:460-496 | However many callers interleave, at most one query per address is outstanding |
| `Reputation.WaitersAreWoken` | server/firewall/firewall.go:460-496 | A caller waits on a channel of its own address that is closed, or that its maker, another caller, has yet to close |
| `Reputation.ChannelsCloseOnce` | server/firewall/firewall.go:486-495 | A channel is closed at most once, and only once it has left the table |
| `Reputation.QueriesAreSpaced` | server/firewall/firewall.go:460-496 | Of two queries for an address the earlier is answered before the later is asked, and they start at least that answer's lifetime apart unless the configuration was set since the answer |
| `Reputation.CallersGetRecordedAnswers` | server/firewall/firewall.go:460-496 | A caller is told what was once recorded for its address, and nothing else |
| `Reputation.CallersHearTheProvider` | server/firewall/firewall.go:460-496 | In every run a caller is told what some answer about its address in that run amounts to: the answer itself, or the policy for a failing provider |
| `Reputation.AnswerIsCached` | server/firewall/firewall.go:478-495 | An answer reaches its caller and the cache alike, until its lifetime (as configured, 300 or 10 seconds) after the query started, and the query leaves the table |
| `Reputation.ServedUntilExpiry` | server/firewall/firewall.go:462-477 | An entry is served exactly until it expires; otherwise the caller waits if a query is in flight and else asks |
| `Reputation.NothingStaleIsServed` | server/firewall/firewall.go:462-468 | In every run, what is served from the cache is an answer of that run whose lifetime is not over |
| `Reputation.WaiterGetsTheAnswer` | server/firewall/firewall.go:469-495 | Whoever waits on a query is told its answer once it is given, within its lifetime |
| `Reputation.WakesWhenClosed` | server/firewall/firewall.go:469-474 | A waiter goes on exactly when its channel is closed |
| `Reputation.ConfigForgets` | server/firewall/firewall.go:645-647 | After SetConfig nothing is served until it is asked for again; queries in flight go on |
| `Reputation.Cache.Begin` | server/firewall/firewall.go:460-477 | Cached, waiting or asking, and the channel is published only by who asks |
| `Reputation.Cache.Finish` | server/firewall/firewall.go:478-496 | The answer, or the policy for a failing provider, is cached for its lifetime and the query leaves the table |
| `Reputation.Cache.ClearOnSetConfig` | server/firewall/firewall.go:645-647 | Empties the cache and leaves queries in flight |
| `TcpGroups.ListeningGroupIsCurrent` | server/group/tcp.go:58-190 | In every interleaving a group with listeners is the registry's, and its accept channel was made once and is not closed |
| `TcpGroups.RemovedGroupStaysEmpty` | server/group/base.go:92-116 | A group that left the registry never has a listener again, never comes back, and had its channel closed exactly once |
| `TcpGroups.PortUsedWhileListening` | server/group/tcp.go:107-190 | While nobody is inside a group it has a port exactly when it has listeners, and then its real port |
| `TcpGroups.RetryMeetsAnotherGroup` | server/group/tcp.go:58-77 | A call retries only because its group was removed, and the next try fetches another one |
| `TcpGroups.RunKeeps` | server/group/registry.go:20-59 | Every run keeps the invariant of registry, groups, calls, listeners and ports |
| `TcpGroups.FirstMemberListens` | server/group/tcp.go:116-153 | The first member gets the port it is granted and can bind, and the group takes its parameters |
| `TcpGroups.FirstMemberFails` | server/group/tcp.go:116-134 | Without a port, or if it cannot be bound, the call fails and ports and members are as they were |
| `TcpGroups.FurtherMemberJoins` | server/group/tcp.go:154-188 | A further member joins exactly if it agrees with the group |
| `TcpGroups.AdmissionExact` | server/group/tcp.go:154-178 | Address, port and key must agree, and the first that does not is what the caller is told |
| `TcpGroups.StaleCallStartsOver` | server/group/tcp.go:112-114 | A call goes on exactly if its group is the registry's and otherwise starts over |
| `TcpGroups.LastCloseFrees` | server/group/base.go:92-116 | The last listener to close frees the port and the name and closes the channel |
| `TcpGroups.OtherCloseLeaves` | server/group/base.go:92-116 | Any other leaves the group listening |
| `GroupObjects.Registry.GetOrCreate` | server/group/registry.go:20-29 | The group under the name, a new one only if there was none |
| `GroupObjects.Registry.IsCurrent` | server/group/registry.go:40-45 | Tells whether the registry still holds this very group |
| `GroupObjects.Registry.RemoveIf` | server/group/registry.go:49-59 | Removes the entry only if it is this group |
| `GroupObjects.BaseGroup.NewListener` | server/group/base.go:80-86 | The listener joins at the end; the first of a cycle makes the channel |
| `GroupObjects.BaseGroup.CloseListener` | server/group/base.go:92-116 | The listener is spliced out; exactly the last one closes the cycle |
| `GroupObjects.Listener.Close` | server/group/listener.go:58-66 | Only the first call reaches the group |
| `GroupObjects.WithoutRemoves` | server/group/base.go:97-104 | Splicing takes out the element and keeps the others, without repetition |
| `GroupObjects.TCPGroup.Listen` | server/group/tcp.go:107-190 | Which outcome occurs exactly when; a failure changes nothing, success adds the listener and, the first time, the port |
| `GroupObjects.TCPGroup.CloseListener` | server/group/tcp.go:143-151 | After the last listener the port is released and the entry removed, before that neither |
| `HttpGroup.RouteWhileMembers` | server/group/http.go:96-199 | After any run the names list the members without repetition and the route is the group's exactly while it has members, whoever else uses the router |
| `HttpGroup.NewGroupRoutes` | server/group/http.go:86-199 | In particular from a new group on |
| `HttpGroup.RegisterAnswers` | server/group/http.go:96-171 | Which answer a registration gets exactly when; only a successful one changes anything, and what |
| `HttpGroup.UnregisterRemoves` | server/group/http.go:173-199 | Who unregisters is gone, the others stay in order, and the last takes the route along |
| `HttpGroup.OthersKeepTheirRoutes` | server/group/http.go:173-199 | Unregistering takes away another's route exactly when the group is already empty and its old route is another's now |
| `HttpGroup.StaleUnregisterTakesRoute` | server/group/http.go:173-199 | The run that takes another group's route: a member unregisters, the other group takes the route, the former member unregisters again |
| `HttpGroup.RoundRobinExact` | server/group/http.go:201-263 | n draws pick each of n members once exactly when the index does not wrap among them, wraps at the first, or n divides 2^64 |
| `HttpGroup.WrapPicksTwice` | server/group/http.go:235-263 | A wrap within the draws otherwise picks somebody twice |
| `HttpGroup.DrawsPick` | server/group/http.go:201-263 | The k-th draw, of either kind, picks the member that follows by the index |
| `HttpGroup.HTTPGroup.Register` | server/group/http.go:96-171 | Which error occurs exactly when, and the group and the routes afterwards |
| `HttpGroup.HTTPGroup.UnRegister` | server/group/http.go:173-199 | The member goes; the last one takes the route and the registry entry along |
| `HttpGroup.HTTPGroup.ChooseEndpoint` | server/group/http.go:235-263 | Advances the index and names the member whose turn it is |
| `HttpGroup.HTTPGroup.CreateConn` | server/group/http.go:201-233 | Advances the index and finds the function of the member whose turn it is |
| `NatHole.Best` | pkg/nathole/analysis.go:396-414 | The first of the highest scores |
| `NatHole.TurnComesExactly` | pkg/nathole/analysis.go:396-414 | Without successes, a behaviour is recommended for the first time after exactly the computed number of recommendations |
| `NatHole.WaitingIsBounded` | pkg/nathole/analysis.go:396-414 | That number is at most the sum over the others of max(0, s_i - s_j + 1) |
| `NatHole.SuccessIsRepeated` | pkg/nathole/analysis.go:372-414 | A behaviour that succeeds is recommended next, and scores stay capped and laid out as they were |
| `NatHole.SuccessIsRepeatedForEver` | pkg/nathole/analysis.go:372-414 | As long as it keeps succeeding it is recommended for ever |
| `NatHole.SuccessSticks` | pkg/nathole/analysis.go:456-518 | After any history, as long as what is advised succeeds, the same is advised |
| `NatHole.TurnComesInAdvice` | pkg/nathole/analysis.go:456-504 | Without successes, a behaviour is advised for the first time after exactly the computed number of requests for the pair, whatever is asked for others |
| `NatHole.OtherPairsUntouched` | pkg/nathole/analysis.go:456-518 | Asking and reporting for a pair leaves every other as it was |
| `NatHole.KeptWhileUsed` | pkg/nathole/analysis.go:520-548 | A pair is kept exactly as long as it was asked for within the reserve |
| `NatHole.AdviceIsSound` | pkg/nathole/analysis.go:456-504 | After any history an advice is the listed pair of its mode and index, swapped only in modes 1, 2 and 4; it has one sender and one receiver, gives a hard NAT its side in modes 1 and 2 and a regular port its side in mode 4; and no score exceeds 10 |
| `NatHole.AssignIsSound` | pkg/nathole/analysis.go:456-504 | The same of the role switch alone |
| `NatHole.InitialAdmitted` | pkg/nathole/analysis.go:292-370 | The initial scores list only modes the two NATs admit, each behaviour once |
| `NatHole.InitialModes` | pkg/nathole/analysis.go:292-370 | A pair starts with every behaviour of the modes that fit its NATs and with no other |
| `NatHole.FirstTried` | pkg/nathole/analysis.go:292-370 | Which mode is tried first, by the NATs and by whether a peer is public |
| `NatHole.TablesAreTwoSided` | pkg/nathole/analysis.go:63-201 | Every table entry has a sender and a receiver, in modes 1, 2 and 4 the sender first |
| `NatHole.ModesScan` | pkg/nathole/analysis.go:63-201 | How many nearby and random ports each side of a mode tries or listens on |
| `NatHole.PublicSideSendsInTheEnd` | pkg/nathole/analysis.go:41-41 | Over requests without success, a public peer is advised to receive in the first five (client) or six (visitor) and to send in the next |
| `NatHole.MakeHoleRecords.constructor` | pkg/nathole/analysis.go:292-370 | Starts with the scores for the two NATs |
| `NatHole.MakeHoleRecords.ReportSuccess` | pkg/nathole/analysis.go:372-394 | The loop rewards the first entry of that mode and index by two, up to ten, in place |
| `NatHole.MakeHoleRecords.Recommand` | pkg/nathole/analysis.go:396-414 | The loop finds the first of the highest scores and lowers it by one in place |
| `NatHole.AssignRoles` | pkg/nathole/analysis.go:468-504 | Swaps the sides as the mode demands |
| `NatHole.Analyzer.GetRecommandBehaviors` | pkg/nathole/analysis.go:456-504 | The advice for the key's scores, made on first use, and the scores afterwards |
| `NatHole.Analyzer.ReportSuccess` | pkg/nathole/analysis.go:506-518 | Rewards the key's entry, if the key is known |
| `NatHole.Analyzer.Clean` | pkg/nathole/analysis.go:520-548 | Exactly the records not used within the reserve go, and how many of how many is returned |
| `ClientRegistry.IndexIsInjective` | server/registry/registry.go:99-199 | After any run the index leads a run id to a record with that run id, and no two to the same |
| `ClientRegistry.OnlineIffRunID` | server/registry/registry.go:99-199 | After any run a record is online exactly while it has a run id, offline ones have a client id, and a disconnect time exactly then |
| `ClientRegistry.RegisterAnswers` | server/registry/registry.go:99-167 | Key, conflict and outcome of a login: it conflicts exactly when its client id is online under another run id and then nothing changes; otherwise its record is online under its run id and indexed, and no other record changes |
| `ClientRegistry.RegisterMovesIndex` | server/registry/registry.go:99-167 | Of the index a login takes away the run id its record had and touches no other but its own |
| `ClientRegistry.RegisterNeedsRunID` | server/registry/registry.go:99-103 | Without a run id nothing happens |
| `ClientRegistry.OfflineMarks` | server/registry/registry.go:171-199 | The record a run id leads to goes offline, or goes if it has no client id; the run id leads nowhere any more; nothing else changes |
| `ClientRegistry.RegisterKeepsIndexed` | server/registry/registry.go:99-167 | A login leaves some online record unindexed exactly when its run id is indexed for another client |
| `ClientRegistry.OfflineKeepsIndexed` | server/registry/registry.go:171-199 | Going offline never does |
| `ClientRegistry.RunKeepsIndexed` | server/registry/registry.go:99-199 | Runs without such a login keep every online record indexed |
| `ClientRegistry.StrandedStaysOnline` | server/registry/registry.go:171-199 | A record that lost its index entry stays as it is, online, whoever goes offline, until its client registers again |
| `ClientRegistry.StrandedRefusesLogins` | server/registry/registry.go:99-167 | And it refuses every login under its client id with another run id |
| `ClientRegistry.StrandingRun` | server/registry/registry.go:99-199 | A run that strands a client |
| `ClientRegistry.KeysNameTheirClient` | server/registry/registry.go:243-259 | The keys of two users determine user and client id exactly when it is one user, or neither is empty and neither name with a dot starts the other |
| `ClientRegistry.ClientsCollide` | server/registry/registry.go:243-259 | Two clients that share a key through a dotted user name, and two through the empty user |
| `ClientRegistry.Registry.Register` | server/registry/registry.go:99-167 | Records, index, key and conflict are those of the specification, records being shared objects |
| `ClientRegistry.Registry.MarkOfflineByRunID` | server/registry/registry.go:171-199 | The indexed record goes offline, or goes, and the index entry goes |
| `P2PMetrics.ReportsAreConserved` | client/proxy/metrics.go:132-150 | In every interleaving of counting, loading, sending and handling, the server's counters with all that is under way or lost are what the client last reported |
| `P2PMetrics.DrainedIsExact` | server/control.go:603-633 | With every report handled and none lost, traffic is exact, and the connection count is exact exactly if the opens and closes of handlers and relay, as interleaved, never took the counter below zero |
| `P2PMetrics.SwallowedExactly` | pkg/metrics/mem/server.go:244-276 | Over every run, no close is lost at zero exactly when the opens and closes applied never take the counter below zero |
| `P2PMetrics.TrafficIsNeverOverstated` | server/control.go:603-633 | The server never shows more traffic than flowed |
| `P2PMetrics.BytesAreCounted` | client/proxy/metrics.go:157-171 | The byte counters hold all that was read and written |
| `P2PMetrics.FlushReports` | client/proxy/metrics.go:132-150 | An undisturbed flush reports what the counters show, once, and only if that is news |
| `P2PMetrics.HandledOrDropped` | server/control.go:603-625 | A report is handled once: its traffic added and its connections left to a handler, or dropped if the proxy is unknown |
| `P2PMetrics.PacketCountsForAWhile` | client/proxy/metrics.go:93-100 | A packet counts as a session for fifteen seconds |
| `P2PMetrics.AppliedExactly` | pkg/metrics/mem/server.go:258-276 | The connection counter adds up exactly when no prefix of the applied changes takes it below zero |
| `P2PMetrics.InOrderIsExact` | client/proxy/metrics.go:132-150 | In every reachable state, reports applied in the order sent give the count last reported exactly when that count is not negative; only the report at shutdown can make it so |
| `P2PMetrics.ReorderedReportsStick` | server/control.go:579-593 | Two reports in the other order leave a closed stream shown as open |
| `P2PMetrics.HandlerAlone` | server/control.go:603-633 | A handler's single opens and closes, uninterrupted, have the effect of the whole report |
| `P2PMetrics.LastReport` | client/proxy/metrics.go:114-127 | After the last flush the reported count is what was opened, closed and seen since the stores |
| `P2PMetrics.ReporterStops` | client/proxy/metrics.go:114-127 | A waiting reporter can always be stopped, and that ends it |
| `P2PMetrics.QuietShutdownEndsAtZero` | client/proxy/metrics.go:114-127 | Which is zero, at the client and at the server, if nothing opened, closed or flowed in between |
| `P2PMetrics.Reporter.CurrentConns` | client/proxy/metrics.go:93-100 | Open streams, plus one while a packet was seen within the idle timeout |
| `P2PMetrics.Reporter.Flush` | client/proxy/metrics.go:132-150 | Sends nothing exactly when nothing moved; otherwise what is sent brings the last report up to the counters |
| `P2PMetrics.Reporter.Shutdown` | client/proxy/metrics.go:114-127 | Ends at zero connections and the traffic so far |
| `P2PMetrics.ProxyStatistics.CloseConnection` | pkg/metrics/mem/server.go:258-276 | Counts down, stopping at zero |
| `P2PMetrics.ProxyStatistics.HandleProxyMetrics` | server/control.go:603-633 | The loops open or close as many connections as reported, and positive traffic is added |
| `VnetFraming.StreamRoundTrip` | pkg/vnet/message.go:46-108 | Messages of 1 to 1048576 bytes written back to back are read back as they were, and then the stream ends cleanly |
| `VnetFraming.CutStream` | pkg/vnet/message.go:46-76 | However the stream is cut off, the complete messages are read and then an error, a clean end of stream exactly between frames; never another message |
| `VnetFraming.ReadsExactlyFrames` | pkg/vnet/message.go:46-76 | A message is read exactly off the front of a stream that starts with its frame |
| `VnetFraming.AcceptsExactly` | pkg/vnet/message.go:80-95 | What is accepted for writing: 1 to 1048576 bytes, counted modulo 2^32; a message of that size is framed as it is |
| `VnetFraming.RoundTrip` | pkg/vnet/message.go:80-108 | What was accepted for writing is read back exactly when it is shorter than 4 GiB |
| `VnetFraming.LongMessageIsCut` | pkg/vnet/message.go:80-108 | A longer one comes back as its first bytes, the rest taken for the next frame |
| `VnetFraming.Reader.ReadFull` | pkg/vnet/message.go:66-73 | However the stream is chunked, the buffer is filled with what comes first, as far as there is any |
| `VnetFraming.Reader.ReadMessage` | pkg/vnet/message.go:46-76 | The message or error of the specification, and what is left of the stream |
| `VnetFraming.Writer.WriteMessage` | pkg/vnet/message.go:80-108 | Refuses as specified without writing; otherwise writes the frame, or part of it if a write fails |

## Left out

- Sockets, TLS, QUIC, KCP, yamux, STUN, tun devices, encryption and compression: I/O. The port probe, the provider's
  answer, the clock, the success of a bind or a write and the order in which a map is visited are parameters.
- Parsing of addresses and networks from text (`netip`, `SplitHostPort`): two functions passed to the rule compiler.
- Wire codecs, configuration loading, the dashboard, plugins, visitors and the relay goroutines: plumbing around
  library code.
- `AllowControl`, `AllowWeb`, the provider's HTTP query and the saving of rules: they would add easy members only.
- Server shutdown (`ControlManager.Close`), the heartbeat and the pool of work connections.
- Handover beyond the direct predecessor: a login that replaces a control which was never started does not wait for
  the one before that, so nothing is claimed about it.
- The registry against live controls: the failure to write a login response marks the client offline by run id, so
  the two may disagree. They are modelled separately, and the login's registry step is a free choice.
- Who owns a port: `Release` does not check, and a reserved port is granted on the probe's word. TCP groups are
  modelled as the only users of the port manager, which grants no used port.
- The order of members in the concurrent model of TCP groups, which is a set there; the splice of the list is in
  `GroupObjects`. HTTPS and TCPMux groups follow the same protocol.
- Lower-casing of domains in the HTTP router, and routes of others beyond their names.
- The server-wide totals, the daily statistics and the reset of a proxy's counters when it closes.
- Descriptive fields of a client record (host name, address, version, protocol), which are copied.
- SessionObjects.Control.RegisterProxy: begins once the proxy object exists; a configuration that cannot be read fails
  before anything is changed, and the sockets closed on failure are not modelled. Its old state of the manager is that
  of the `Exist` check, and others act on the manager once, between that check and `Add`.
- SessionObjects.Control.CleanUp: the work connections it closes and the registry it tells are not part of the object.
- GroupObjects.Listener.Close: the group's clean-up function is counted there and run by `TCPGroup.CloseListener`.
- HttpGroup.HTTPGroup.CreateConn: stops at the function that is called.
- P2PMetrics.Reporter.Flush: its loads happen at once there; the state machine has them one by one.
