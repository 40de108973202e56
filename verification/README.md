# tunnelit-relay: a verified model

The relay gives home machines public ports. An agent on such a machine keeps a WebSocket open to the relay; the
relay listens on the public ports of the agent's tunnels and carries TCP connections and UDP datagrams over that
socket. This project models the relay's shared state (`AppState`) and everything that changes it, and proves what
holds in every reachable state.

There are five models, one for each kind of question.

**The lifecycle** (`World.dfy`, `AppState.dfy`). The tables (users, agents, tunnels) and the in-memory maps
(allocated ports, agent senders, pending claims, listener tasks) form one state; the events are connect, request
claim, authenticate, disconnect, register, generate token, claim, create, update, toggle and delete tunnel, delete
agent, ban, unban, restart, and a proxy task ending by itself. `AppState.dfy` has the state as a class whose
methods update it in place, handler by handler; each method is proved to do what the function of the same name in
`World` says. `World` puts the functions together into runs. Handlers are atomic here. Row orders, random draws,
clocks and the operating system's answer to a bind are parameters, so the theorems hold for all of them; a bind
can fail at will, and must fail while a running listener holds the address.

- `Lifecycle`: the tables keep their keys and references, and dedicated ports never change.
- `Listeners`, `Registry`: what starting, stopping and resynchronising listeners do and keep.
- `Claims`, `Subdomains`, `Capacity`: ownership, subdomains, registration.
- `Accounting`, `Reservations`: which ports are reserved while something listens on them or a row has them.
- `Effects`: what each handler answers, writes and sends, field by field.
- `Disconnects`: what a socket takes down when it goes.
- `Runs`: the theorems about all runs from an empty database.
- `Server`: the whole object; one method takes any event, and keeps the invariant of the runs.
- `Undo`: handlers that take one another back.
- `Failures`: runs on which plausible claims fail.

**The locks** (`Locks.dfy`, `LockScripts.dfy`). Tokio's locks queue fairly: a request waits in line even when it
is compatible with the holders. `Locks` models any number of handlers over such locks and proves that handlers
which climb one rank never deadlock, are never overtaken and always drain, even if any of them are cancelled or
aborted at any time. `LockScripts` writes down the lock operations of every handler and task, with every branch,
loop count and early return, and proves that all of them climb the rank
agent_senders < db < {pending_claims, allocated_ports} < tunnel_tasks.

**Starting and stopping listeners in small steps** (`ListenerRace.dfy`). Stop, bind with spawn, and insert
interleave freely, and an aborted task dies later.

**The subdomain check in small steps** (`SubdomainRace.dfy`). Checks, writes and deletions interleave freely.

**The data paths** (`Messages.dfy`, `TcpPlane.dfy`, `UdpPlane.dfy`, `EndToEnd.dfy`, `Telemetry.dfy`, `Proxies.dfy`,
`Base64.dfy`). The accept loops, the relay tasks, the UDP loops with their two address maps, the forwarder tasks and
the agents' messages interleave at the points where the code waits. `EndToEnd` states the integrity of both planes in
terms of what clients and agents sent, event by event. `Proxies.dfy` has the relay task, the UDP loop and the traffic
counters as classes with their reused buffers and maps, and proves that the code between two waits is one step of the
planes. `Telemetry` runs both planes together with the counters. Integers are unbounded in Dafny; the 16-bit ports are
a subset type and the 64-bit counters wrap explicitly.

`hide` statements keep definitions that a proof does not need out of its way.

## Where the code does not do what one would expect

The code was kept as it is. Each claim below is false of it: a run shows that, and a theorem has the exact condition.

- *Every listening port is reserved.* Two rows of one user share its port, and switching off, deleting, disconnecting
  or banning one of them frees the port under the other: `Failures.SharedPortUnreserved`. A step keeps the claim if and
  only if no listener that stays is on a port the step gives back: `Reservations.AccountedExact`. `Runs.PortsReserved`
  has it for runs; `Runs.PortsAccounted` proves the claim where rows never share a port.
- *Every reserved port has a tunnel row.* A failed insert leaves its port reserved, `Failures.FailedInsertUnbacked`, and
  deleting an agent removes rows only, `Failures.DeletedAgentUnbacked`. `Reservations.BackedExact` has the exact
  condition on every step, `Runs.PortsBacked` has it for runs. `Runs.OrphanKeepsPort` says what becomes of a listener
  whose row is gone.
- *AuthSuccess reaches only the socket that asked.* Claim codes have six digits and can repeat:
  `Failures.RepeatedCodeMisleads`. `Claims.WaitsExact` has the exact condition on each step; `Runs.AuthOnlyToShown`
  proves the claim under it, `Claims.UnsafeMisleads` shows what happens otherwise.
- *A disconnect takes down the senders, listeners and waiting claims on the socket's channel, and no others.* A socket
  whose agent was claimed on the web does not know the agent, and leaves sender and listeners behind:
  `Failures.ClaimedSocketStays`. An older socket takes down a newer one of the same agent:
  `Failures.OlderSocketTakesDown`. A socket removes the entry of another one that has taken over its claim code,
  `Failures.WaitingSocketForgotten`, and leaves its own entry for an earlier code, `Failures.FirstCodeStays`.
  `Disconnects.DisconnectExact` has the exact condition.
- *Stored subdomains are unique however handlers interleave.* The check and the insert lock the database one after the
  other, so two creations can both pass the check: `SubdomainRace.TwoCreations`. `SubdomainRace.UniqueExact` has the
  exact condition on each step of each run; with atomic handlers the claim holds, `Runs.SubdomainsUnique`.
- *A listener is never lost.* Once an agent's channel closes, a start call can file a dead task over a live one,
  `ListenerRace.ClosingLosesOne`; and after an edit of the protocol, one live task over another,
  `ListenerRace.EditLosesOne`. `ListenerRace.LosesExactly` has the exact condition on each step of each run.
- *A start call on a listening tunnel leaves it listening.* The call aborts the old task and binds without waiting for
  it to let go of the address: `ListenerRace.RestartStopsListening`. `ListenerRace.RestartExact` says exactly when the
  bind can be granted, `Listeners.ResyncExact` what a resynchronisation leaves in either case.
- *Every UDP route leads to a running loop.* Only the agent's CloseConnection removes one, `UdpPlane.RouteExact`, so
  routes outlive a stopped loop: `UdpPlane.RouteOutlivesLoop`. `UdpPlane.StrandsExact` has the exact condition.
- *The agent's CloseConnection ends the TCP connection.* It only takes the route away, and not even that before the
  route is filed: `TcpPlane.EarlyCloseLost`. `TcpPlane.CloseExact` has the exact condition under which later data can
  still reach the connection.
- *bytes_in counts every datagram.* Aborting a UDP loop while it waits to record one loses it:
  `Telemetry.AbortLosesCount`. `Telemetry.AbortsExact` has the exact condition, told by the events of the run.

## Model

| member | source | states |
|---|---|---|
| Runs.RegistryAgreement | src/tunnel_manager.rs:12-74 | In every state of every run, a tunnel row with an entry in tunnel_tasks is enabled, its agent has a sender in agent_senders, and the listener was started with the row's present port and protocol and with exactly that sender; no two running listeners hold one address, and every one of them is registered |
| Runs.PortIsolation | src/admin.rs:452-464 | Over a whole run, restarts and deleted rows included, a public port is only ever bound for tunnels of one user |
| Runs.OwnerWrittenOnce | src/db.rs:282-310 | Once an agent has an owner, it keeps that owner in every later state |
| Runs.ClaimLasts | src/admin.rs:277-328 | On every run, after a claim that was answered Done the agent, while it exists, belongs to that user and cannot be claimed, whether or not a socket waited on the code |
| Runs.DeletedForGood | src/db.rs:403-407 | On every run, a deleted agent is in no table, has no sender and no row in any later state, and presenting its token is answered with an error and changes nothing else |
| Runs.OwnedExactlyWhenClaimed | src/db.rs:233-310 | In every state an agent has an owner exactly when it has no claim code, and the owner is a registered user |
| Runs.AuthOnlyToShown | src/ws_handler.rs:51-133 | When no step makes a socket wait on a code that can claim an agent it has not shown, AuthSuccess for an agent goes only to a socket that requested its claim or presented its token, and the step in which it did so is found |
| Runs.TrafficOnlyToShown | src/ws_handler.rs:117-132 | When no step makes a socket wait on such a code, each registered listener of a tunnel row feeds only a socket that requested the claim of the row's agent or presented its token |
| Runs.AllTrafficToShown | src/admin.rs:377-393 | The same for every registered listener, also one that lost its row: it was registered, as it is, while its tunnel had a row, and feeds only a socket that showed that row's agent |
| Runs.NewCodesSafe | src/db.rs:236 | Runs whose claim codes never repeat one still claimable have only such steps |
| Runs.AnnouncedWhenOwned | src/admin.rs:285-322 | AuthSuccess is sent only for an agent that has an owner by then, whatever the codes |
| Runs.SubdomainsUnique | src/db.rs:588-604 | In every state the stored subdomains are trimmed, not empty, and pairwise distinct up to ASCII case |
| Runs.PortsAccounted | src/admin.rs:591-620 | On runs in which no two rows share a public port, every registered listener's port is reserved |
| Runs.PortsReserved | src/ws_handler.rs:257-262 | The same on every run none of whose steps gives back a port under a listener that stays |
| Runs.PortsBacked | src/admin.rs:461-481 | On every run in which no insert fails on a port without a row and no deleted agent takes a reserved port's last row, every reserved port has a row |
| Runs.OrphanKeepsPort | src/admin.rs:377-393 | On such runs, a listener whose row delete_agent removed keeps its handle and its reserved port until a restart; no row has that port, and every creation on it is refused |
| Lifecycle.TablesKept | src/db.rs:42-105 | Every event keeps the unique keys and the foreign keys of the tables, gives every tunnel the dedicated port of the user who created it, and never changes a user's name or port |
| Lifecycle.TunnelKeeps | src/admin.rs:428-653 | Tunnel handlers change neither users, agents, sockets nor claims, and authenticate nobody |
| Registry.WiredKept | src/ws_handler.rs:194-263 | Every event keeps tunnel_tasks in agreement with the rows and with agent_senders, across re-authentication, claim, ban, disconnect, deletion and restart |
| Listeners.SyncExact | src/ws_handler.rs:194-236 | With none of the agent's tunnels listening and binds failing only on a held address, exactly the first enabled row for each free address ends up listening, every enabled row's port is reserved, nothing else changes, and one SyncTunnels lists every row of the agent once, oldest first, each field as stored |
| Listeners.SyncResult | src/ws_handler.rs:206-231 | The same for any listing: the resulting listeners, entries and reservations are those of the winning rows |
| Listeners.ResyncExact | src/admin.rs:549-554 | From any state and for any outcome of the binds: the enabled rows' old listeners are gone, exactly the enabled rows listen whose bind the system grants and whose address is free of remaining listeners and of earlier rows' new ones, no other listener or entry changes, every enabled row's port is reserved, and one SyncTunnels lists every row of the agent once, oldest first, each field as stored; a row's own aborted listener may still hold its address, and then its bind is one that is not granted |
| Listeners.ResyncResult | src/ws_handler.rs:206-231 | The same for any listing, from any registry and for any outcome of the binds |
| Listeners.StartOk | src/tunnel_manager.rs:12-66 | Starting a listener keeps every running listener registered under its tunnel, addresses unshared, and every listener on the port of its tunnel's creator |
| Effects.SyncMessageExact | src/ws_handler.rs:204-235 | Resynchronising sends one message more: every row of the agent once, oldest first, with the row's id, name, local port, protocol, public port, subdomain and flag, field by field; the listeners are brought in line with that list |
| Effects.RestartedExact | src/tunnel_manager.rs:12-66 | After a start call the tunnel has a listener if and only if the bind is granted and no other listener holds the address; it is of the protocol's kind, on the port and the channel given; every other listener stays |
| Effects.KindExact | src/tunnel_manager.rs:22 | The three letters of tcp, in any case, mean TCP, and every other protocol means UDP |
| Effects.ClaimExact | src/db.rs:282-310 | A claim is answered Done if and only if an agent has the code and the user exists; then exactly that agent gets the owner and loses the code, with or without a waiting socket; a socket that waited becomes its sender, is told the agent's name and token and its rows, and its entry goes; any other answer changes nothing |
| Effects.DeleteAgentExact | src/admin.rs:377-393 | Afterwards the agent is in neither agents nor senders and no row names it; every other agent, row and sender, all listeners and reservations are as before; a sender it had gets an error |
| Effects.UpdateExact | src/admin.rs:518-557 | An update is answered Done if and only if the row exists and no other row has the cleaned subdomain; then the row has exactly the given name, local port, protocol and subdomain and keeps all else, no other row changes, a connected agent gets the rows as they now are, and a listener the enabled row ends up with is of the new protocol's kind; any other answer changes nothing |
| Effects.CreateExact | src/admin.rs:428-508 | Each answer of a creation is given exactly under its condition, in the order of the checks; the stored row has the requested name, local port, protocol and cleaned subdomain, the user's dedicated port, and is enabled; a connected agent is told to start that row, field by field |
| Effects.ToggleExact | src/admin.rs:559-623 | A toggle flips the flag and no other field; switching on reserves the port, restarts the listener and sends the row; switching off stops the listener, gives back the port and sends a stop |
| Effects.DeleteTunnelExact | src/admin.rs:625-653 | Exactly the row goes, with its listener and its reservation; its agent, if connected, is told to stop it |
| Effects.ConnectExact | src/ws_handler.rs:23-44 | A new socket has neither an agent nor a claim code, and nothing else changes |
| Effects.RequestClaimExact | src/db.rs:233-257 | One agent is added, with the code and a new token, without an owner, offline, under the host's name; the socket waits on the code and is sent code and token |
| Effects.AuthUnknown | src/ws_handler.rs:134-139 | A token that no agent has is answered with an error, and nothing else changes |
| Effects.AuthPending | src/ws_handler.rs:82-95 | The token of an agent with a claim code makes the socket wait on that code; the tables stay |
| Effects.AuthExact | src/ws_handler.rs:97-132 | The token of a claimed agent puts it online under the host's name, makes the socket its sender, and sends the name stored before, the token and the list of its rows |
| Effects.DisconnectEffect | src/ws_handler.rs:180-263 | The socket's session and its current code's entry go; if it had authenticated, the agent is offline without a sender, its rows' listeners are stopped and exactly their ports are given back |
| Effects.RegisterEffect | src/admin.rs:108-136 | A registration is a bad request if and only if the trimmed name has fewer than 3 bytes or the password fewer than 6; a created user has the trimmed name, is not banned, and has a port of the range and a name that no user had |
| Effects.GenerateTokenExact | src/admin.rs:355-374 | A user without an agent gets one, owned from the start and without a claim code; a user with one, or an unknown one, changes nothing |
| Effects.BanExact | src/admin.rs:234-256 | A ban sets the flag of that user only, stops exactly the listeners of the user's rows and gives back exactly their ports |
| Effects.UnbanExact | src/admin.rs:258-271 | Lifting a ban clears the flag of that user only, and starts nothing |
| Effects.RestartExact | src/state.rs:31-45 | After a restart the tables are as before, and no socket, sender, pending claim, listener or reservation is left |
| Claims.OwnershipKept | src/db.rs:259-310 | Every event keeps "owned exactly when unclaimable", keeps owners, and never brings a claim code back |
| Claims.WaitsExact | src/ws_handler.rs:51-97 | Every waiting socket has shown all agents its code can claim; a step keeps this if and only if it does not make a socket wait on a code that can claim another agent, one the socket has not shown |
| Claims.HeardKept | src/admin.rs:301-322 | While that holds, every step keeps all AuthSuccess messages with sockets that showed the agent |
| Claims.FedKept | src/ws_handler.rs:117-121 | While that holds, every step keeps each agent's sender a socket that showed the agent |
| Claims.UnsafeMisleads | src/admin.rs:285-322 | Where it fails, claiming the agent in question sends AuthSuccess to a socket that never showed it |
| Claims.DistinctKept | src/db.rs:233-257 | Codes that are new when drawn stay distinct among claimable agents, and make the step safe |
| Subdomains.SubdomainsKept | src/admin.rs:442-466 | With handlers atomic, every event keeps subdomain uniqueness, since the check at creation and update is against all other rows |
| SubdomainRace.UniqueExact | src/admin.rs:441-481 | With checks, writes and deletions interleaved, in every state of every run: a step from unique subdomains keeps them unique if and only if it is not a write whose subdomain, up to ASCII case, another row has got by a write made after this call's check |
| SubdomainRace.PromptUnique | src/admin.rs:534-547 | If no other write comes between a call's check and its write, subdomains stay unique on the whole run |
| SubdomainRace.TwoCreations | src/admin.rs:441-481 | A run in which two creations pass the check before either writes, and both rows are stored |
| Accounting.ReleaseExact | src/ws_handler.rs:257-262 | Stopping any set of tunnels and freeing their ports keeps all listening ports reserved if and only if no listener that stays is on one of these ports |
| Reservations.AccountedExact | src/admin.rs:234-256 | Any event keeps all listening ports reserved if and only if no listener that stays is on a port that the event gives back: those of the rows switched off, deleted, banned or disconnected |
| Reservations.BackedExact | src/admin.rs:377-393 | Any event keeps a row for every reserved port if and only if it is neither a creation whose insert fails on a port without a row, nor a deletion of an agent that has the last row of a reserved port |
| Reservations.FailedInsertExact | src/admin.rs:461-481 | A creation reserves a port without adding a row if and only if it passes every check and names an agent that does not exist; then it is refused, and nothing else changes |
| Disconnects.DisconnectExact | src/ws_handler.rs:180-192 | A disconnect removes exactly the senders, listeners and pending claims on the socket's channel if and only if the socket is the sender of the agent it authenticated as and of no other, waits on its current claim code and on no other, and no listener without a row is on its channel |
| Accounting.BalancedKept | src/ws_handler.rs:257-262 | While no two rows share a port, every event keeps listening ports reserved and orphans apart from rows |
| Accounting.OrphanKept | src/admin.rs:377-393 | Only a restart removes the entry of a listener that lost its row |
| Capacity.RegisterExact | src/db.rs:142-161 | A registration with an acceptable new name and an acceptable password succeeds if and only if there are fewer users than ports in the range, and gets a port of the range that nobody has; otherwise nothing changes |
| Capacity.FirstOnesSucceed | src/db.rs:116-161 | On every run from an empty database, whatever happens in between and whatever the draws, exactly the first hi - lo + 1 acceptable registrations with a new name succeed |
| Capacity.ExhaustionExact | src/db.rs:128-139 | The port-exhaustion error is returned if and only if every port of the range is taken |
| DedicatedPorts.DrawnExact | src/db.rs:118 | A random draw stands for the port of the range whose offset is the draw's remainder by the range's width |
| DedicatedPorts.GenerateUniqueDedicatedPort | src/db.rs:116-140 | The two search loops return the first free port among the draws and then the range, and fail only when the whole range is taken |
| State.AppState.constructor | src/state.rs:31-45 | The relay starts with empty tables and maps |
| State.AppState.AllocatePort | src/state.rs:46-62 | A preferred port is granted exactly when it is unprivileged and free; otherwise the least free port of the range, or None when the range is full; only the granted port is added |
| State.AppState.FreePort | src/state.rs:64-67 | Exactly the given port is taken out |
| TunnelManager.StopTunnelListener | src/tunnel_manager.rs:68-74 | The tunnel's entry is removed and its task aborted, and nothing else changes |
| TunnelManager.StartTunnelListener | src/tunnel_manager.rs:12-66 | An old listener of the tunnel is stopped first; the new one runs and is registered exactly when the bind succeeds |
| TunnelManager.StopRows | src/ws_handler.rs:257-262 | The loop over rows stops all their listeners and frees all their ports, as if in one step |
| WsHandler.SyncAgentTunnels | src/ws_handler.rs:194-236 | The loop over the agent's rows ends in the state of `World.Sync`, whose listeners ResyncResult fixes and whose message `Effects.SyncMessageExact` fixes |
| WsHandler.OnConnect | src/ws_handler.rs:23-45 | A socket gets a fresh identity and neither agent nor code |
| WsHandler.OnRequestClaim | src/ws_handler.rs:51-66 | A new unowned agent with this code, the socket waiting on the code, and ClaimReady sent |
| WsHandler.OnAuth | src/ws_handler.rs:75-133 | An unknown token is refused; the token of an unclaimed agent makes the socket wait on its code; otherwise the agent is online on this socket and its tunnels are resynchronised |
| WsHandler.CleanupAgent | src/ws_handler.rs:238-263 | The agent's sender goes, the agent is offline, its rows' listeners are stopped and their ports freed |
| WsHandler.OnDisconnect | src/ws_handler.rs:180-192 | The socket's pending code is forgotten and its agent cleaned up |
| Admin.HandleRegister | src/admin.rs:108-136 | A name under 3 bytes once trimmed, or a password under 6, is refused; otherwise a user with the trimmed name and a unique port, or a conflict and no change |
| Admin.HandleClaim | src/admin.rs:277-328 | The object takes the step of `World.Claim`, which `Effects.ClaimExact` fixes: the agent found by its code gets the user as owner and loses the code; a waiting socket becomes its connection |
| Admin.HandleGenerateToken | src/admin.rs:355-374 | A user's first agent is created once |
| Admin.HandleCreateTunnel | src/admin.rs:428-508 | Subdomain check, port reservation, insert and start, in this order, with each early return |
| Admin.HandleUpdateTunnel | src/admin.rs:518-557 | The object takes the step of `World.UpdateTunnel`, which `Effects.UpdateExact` fixes: the row is edited after the subdomain check that leaves it out, and an agent with a sender is resynchronised |
| Admin.HandleToggleTunnel | src/admin.rs:559-623 | The row is switched; its port is reserved and its listener started, or its listener stopped and its port freed |
| Admin.HandleDeleteTunnel | src/admin.rs:625-653 | Listener, port and row of the tunnel go, and an agent with a sender is told |
| Admin.HandleDeleteAgent | src/admin.rs:377-393 | The object takes the step of `World.DeleteAgent`, which `Effects.DeleteAgentExact` fixes: the agent, its sender and its rows go; listeners and reserved ports stay |
| Admin.HandleBanUser | src/admin.rs:234-256 | The listeners of all the user's rows are stopped and their ports freed; rows and agents stay |
| Admin.HandleUnbanUser | src/admin.rs:258-271 | Only the ban flag changes |
| Strings.TrimExact | src/admin.rs:112 | What trimming leaves is a middle part of the input, with nothing but white space before and after it |
| Strings.CleanExact | src/admin.rs:534 | A subdomain is dropped if and only if it is missing or all white space; otherwise its middle part stays |
| Strings.LowerExact | src/db.rs:588-604 | Lower-casing replaces each capital letter by the small letter at its place in the alphabet and nothing else |
| Strings.ByteLengthBounds | src/admin.rs:112-118 | A string is at least as long in bytes as in characters and at most four times as long, and equally long if and only if it is ASCII |
| Strings.TrimIsTrimmed | src/admin.rs:466 | Trimming leaves no white space at either end and is idempotent |
| Strings.Clean | src/admin.rs:534 | A subdomain that survives cleaning is trimmed and not empty |
| Undo.CreateThenDelete | src/admin.rs:428-508 | Deleting a tunnel right after its creation restores tables, listeners and reservations exactly, and the agent, if it has a sender, was told to start and then to stop it |
| Undo.ToggleTwice | src/admin.rs:559-623 | Switching a listening tunnel off and on again restores rows, listeners and reservations exactly, if the bind is granted |
| Failures.SharedPortUnreserved | src/admin.rs:559-623 | A run after which a running, registered listener's port is not reserved |
| Failures.RepeatedCodeMisleads | src/ws_handler.rs:51-66 | A run in which a repeated claim code sends AuthSuccess to a socket that never showed the agent |
| Failures.FailedInsertUnbacked | src/admin.rs:461-481 | A run in which a creation for a missing agent leaves a reserved port and no row |
| Failures.DeletedAgentUnbacked | src/admin.rs:377-393 | A run in which deleting an agent leaves a running listener and its reserved port without a row |
| Failures.ClaimedSocketStays | src/admin.rs:301-325 | A run in which a claimed agent's socket disconnects and its sender, listener and reserved port stay |
| Failures.OlderSocketTakesDown | src/ws_handler.rs:238-243 | A run in which an older socket's disconnect removes the sender of a newer socket of the same agent |
| Failures.WaitingSocketForgotten | src/ws_handler.rs:182-186 | A run in which a disconnect removes the pending claim of another socket, which is still connected |
| Failures.FirstCodeStays | src/ws_handler.rs:51-66 | A run in which a disconnected socket's earlier claim code is claimed, and its dead channel becomes the agent's sender |
| Server.Handle | src/admin.rs:23-50 | The object takes exactly the model's step for every event, and keeps the invariant behind all theorems on runs |
| Server.Serve | src/ws_handler.rs:47-178 | Over any sequence of events the object goes through the states of a run of the model, so those theorems hold of it |
| Locks.DeadlockFree | src/state.rs:10-28 | With any number of handlers that climb the rank, any of them cancelled at any time, in every reachable state some unfinished handler can take its next step; if any handler waits for a lock or holds one, one of those can |
| Locks.NoOvertaking | src/state.rs:10-28 | Whatever handlers keep arriving, while a handler waits at place k of a lock's queue every grant brings it at least one place ahead, so at most k others are granted the lock before it |
| Locks.Drains | src/state.rs:10-28 | Whatever the scheduler does and whichever handlers are cancelled, a run without new handlers ends within a bounded number of steps, and where no handler can proceed all are done and all locks free |
| Locks.SoundKept | src/state.rs:10-28 | Every lock operation and every cancellation keeps exclusion, the queues in step with the waiting handlers, and the climb |
| LockScripts.StagesClimb | src/admin.rs:428-653 | Every handler and task acquires locks only upwards in the rank and releases all of them, on every branch and for any number of rows and messages |
| LockScripts.SyncClimbs | src/ws_handler.rs:194-236 | Resynchronisation climbs even when it is entered with agent_senders held |
| LockScripts.RelayDeadlockFree | src/admin.rs:499-505 | The relay's handlers and tasks, any number of them in any interleaving and with any of them aborted, never deadlock: while any of them waits for a lock or holds one, one of those can move |
| LockScripts.RelayNoOvertaking | src/admin.rs:591-596 | No handler or task of the relay is overtaken in a lock's queue, on any run |
| LockScripts.RelayDrains | src/ws_handler.rs:199-227 | From every reachable state, once no new handler arrives, all of them finish or are aborted within a bounded number of steps, with every lock free |
| ListenerRace.InvKept | src/tunnel_manager.rs:18-57 | While channels are open and tunnels keep their addresses, every small step of start and stop calls keeps each serving listener registered or in the hand of the call that spawned it |
| ListenerRace.NoListenerLost | src/tunnel_manager.rs:12-74 | On every run with open channels and fixed addresses, each listener that runs unaborted is in tunnel_tasks or held by a start call yet to insert it, and no insert overwrites an entry |
| ListenerRace.StopLeavesNone | src/tunnel_manager.rs:68-74 | A stop with no start call holding a listener of that tunnel leaves none of its listeners unaborted |
| ListenerRace.InsertOverwritesNothing | src/tunnel_manager.rs:33-35 | While channels are open, the tunnel has no entry when a start call inserts one |
| ListenerRace.LosesExactly | src/tunnel_manager.rs:33-35 | In every state of every run, channels open or closed and protocols edited or not, a step loses a listener if and only if it inserts a handle over another serving listener that no other call holds |
| ListenerRace.NoneOverwritten | src/tunnel_manager.rs:33-35 | A run without such a step never loses a listener, whatever channels close |
| ListenerRace.ClosingLosesOne | src/tcp_proxy.rs:22-26 | A run with closing channels that ends with a serving listener nobody can stop |
| ListenerRace.EditLosesOne | src/admin.rs:543-554 | A run with open channels in which two starts bind different addresses of one tunnel, and one listener ends up out of reach |
| ListenerRace.RestartExact | src/tunnel_manager.rs:18-57 | On every run, a start call that has stopped a running listener can bind the same address again if and only if the old task has ended since, and no other running task holds the address |
| ListenerRace.RestartStopsListening | src/tunnel_manager.rs:18-64 | A run in which a start call on a listening tunnel, alone in flight, cannot bind for the task it has aborted, and leaves the tunnel without a listener |
| TcpPlane.ChannelGrammar | src/tcp_proxy.rs:30-93 | Over any interleaving, what an agent is told about a connection is a prefix of NewConnection, Data*, CloseConnection, all on the channel the connection was announced on |
| TcpPlane.InboundIntegrity | src/tcp_proxy.rs:51-71 | The agent's decoded bytes are a prefix of the bytes read from the client; outside of forwarding they differ only if the channel closed and the loop ended, and by at most 8192 bytes |
| TcpPlane.OutboundIntegrity | src/tcp_proxy.rs:78-84 | The bytes written to a client are a prefix of the decoded payloads addressed to it while its route existed; in the loop nothing is missing but what is in flight or queued, so an idle task with an empty queue has written all of it |
| TcpPlane.OutwardShrinks | src/tcp_proxy.rs:78-84 | Each step of a task towards its client, partial writes of at least one byte included, brings it nearer to having written everything queued or in flight, and loses none of it, with or without a route |
| TcpPlane.DrainExact | src/tcp_proxy.rs:54-86 | While a task is in its loop, some continuation writes all that is queued or in flight, with or without a route, if and only if the task is not about to leave the loop on a refused send, or nothing is queued |
| TcpPlane.CloseExact | src/ws_handler.rs:156-159 | In any state, the agent's CloseConnection changes nothing about the connections' tasks or the channel, and it keeps the connection from all later data if and only if the connection's route has been filed or its accept loop dropped it |
| TcpPlane.CloseCutsTheRoute | src/ws_handler.rs:156-159 | On a run, nothing that the agent sends after closing a registered connection is routed to it |
| TcpPlane.EarlyCloseLost | src/tcp_proxy.rs:30-43 | A run in which a close between the announcement and the registration is lost and later data is routed |
| TcpPlane.NoLeakedRoute | src/tcp_proxy.rs:39-48 | Every TCP key of tcp_conn_senders has a connection task that has not finished its cleanup |
| TcpPlane.StepKeeps | src/tcp_proxy.rs:12-101 | Every step of every task keeps the invariant of all connections |
| UdpPlane.SessionsAgree | src/udp_proxy.rs:42-67 | The two address maps stay mutual inverses, each source address opens one session per loop, the lookup of a reply never misses, and every reply goes to the address that opened its session |
| UdpPlane.SessionInbound | src/udp_proxy.rs:42-74 | A session is announced once and before its data; the agent decodes a prefix of the datagrams received from its address, and all but the one being forwarded while the loop runs on an open channel |
| UdpPlane.SessionOutbound | src/udp_proxy.rs:57-86 | What goes back to an address is a prefix of what the agent had routed to its session, and nothing is missing but what is on its way while the loop runs |
| UdpPlane.RouteExact | src/udp_proxy.rs:56-65 | On every run a UDP session has a route exactly from its registration until the agent closes it; the end of its loop removes none |
| UdpPlane.StrandsExact | src/udp_proxy.rs:34-40 | From a state in which all UDP routes lead to running loops, a step keeps it so if and only if it neither stops a loop that has a route nor files a route to a stopped loop |
| UdpPlane.RouteOutlivesLoop | src/udp_proxy.rs:56-65 | A run after which a UDP route leads to a stopped loop |
| UdpPlane.StepKeeps | src/udp_proxy.rs:34-88 | Every step of every loop and forwarder keeps the invariant of all loops and sessions |
| EndToEnd.TcpEndToEnd | src/tcp_proxy.rs:51-86 | Over any run, what an agent decodes about a connection is a prefix of the chunks the client sent, short by at most one buffer; what is written to the client is a prefix of what the agent's messages decode to while the route was filed, nothing missing in the loop but what is in flight or queued; and the route exists exactly from registration until the agent closes it or the task cleans up |
| EndToEnd.UdpEndToEnd | src/udp_proxy.rs:42-88 | Over any run, what an agent decodes about a session is a prefix of the datagrams its loop received from the session's address, one by one; what goes back, to that address only, is a prefix of what the agent's messages decode to while the route was filed; while the loop runs on an open channel nothing is missing but what is on its way |
| EndToEnd.TcpRemembers | src/ws_handler.rs:148-159 | The read bytes, the route and the routed bytes of each connection are those that the run's events amount to |
| Telemetry.StepCounts | src/state.rs:69-74 | Every step of both data paths keeps the counters equal to what was received and taken, less what is being recorded |
| Telemetry.Conserved | src/state.rs:69-74 | bytes_in is all bytes received from a tunnel's clients over all connections, datagrams and listeners, and bytes_out all bytes taken from its outbound queues, modulo 2^64, each if and only if none is between its receipt or taking and its recording, or was when its loop was aborted |
| Telemetry.AbortsExact | src/tunnel_manager.rs:68-74 | When nothing of a tunnel waits to be recorded, its counters lack exactly the bytes whose recording an abort cut short in the run; each is exact if and only if no loop of the tunnel was aborted while it waited to record a datagram, or a reply, that was not empty |
| Telemetry.AbortLosesCount | src/udp_proxy.rs:69 | A run that ends at rest with a received byte that no counter has |
| Telemetry.LossBounded | src/tcp_proxy.rs:61-71 | What TCP adds to bytes_in exceeds what agents got by at most 8192 bytes for each connection that a failed send ended |
| Relay.Shared.RecordTraffic | src/state.rs:69-74 | The tunnel's two counters grow modulo 2^64, from zero if it has no entry; no other entry changes |
| Relay.Shared.Send | src/protocol.rs:46-89 | A message is appended to an open channel, and refused by a closed one |
| TcpProxy.Connection.constructor | src/tcp_proxy.rs:39-51 | The route is filed before the relay task starts in its select loop |
| TcpProxy.Connection.Read | src/tcp_proxy.rs:55-61 | A read into the reused buffer is the plane's read step: bytes left from earlier reads are not part of the chunk |
| TcpProxy.Connection.Record | src/tcp_proxy.rs:61-71 | The chunk is counted, encoded and sent; a refused send leaves the loop |
| TcpProxy.Connection.Leave | src/tcp_proxy.rs:57-89 | The end of the stream, an error while reading and an error while writing leave the loop, and CloseConnection is sent on an open channel; the exit on a refused send is in Record |
| TcpProxy.Connection.Take | src/tcp_proxy.rs:78 | The oldest payload is taken from the queue |
| TcpProxy.Connection.RecordTaken | src/tcp_proxy.rs:79 | A taken payload is counted as bytes out before it is written |
| TcpProxy.Connection.Write | src/tcp_proxy.rs:80-84 | A partial write leaves the rest to be written, in order |
| TcpProxy.Connection.Remove | src/tcp_proxy.rs:89-93 | The cleanup removes exactly this connection's route |
| TcpProxy.OnAgentData | src/ws_handler.rs:148-155 | A payload that decodes joins the queue of the connection it names, if that has a route; no other queue changes |
| TcpProxy.OnAgentClose | src/ws_handler.rs:156-159 | Exactly the named route is removed |
| UdpProxy.SocketLoop.Datagram | src/udp_proxy.rs:42-67 | A datagram from a new address opens and announces a session and enters both maps; from a known one it reuses the session |
| UdpProxy.SocketLoop.Record | src/udp_proxy.rs:69-74 | The datagram is counted and forwarded to the agent |
| UdpProxy.SocketLoop.TakeReply | src/udp_proxy.rs:81-82 | The oldest reply is looked up; without an address it is dropped |
| UdpProxy.SocketLoop.RecordReply | src/udp_proxy.rs:83-84 | The reply is counted and handed to the socket with the looked-up address |
| Base64.RoundTrip | src/tcp_proxy.rs:63 | Decoding the encoding of any bytes gives them back, padding included; EncodeExact fixes the encoding |
| Base64.EncodeExact | src/tcp_proxy.rs:63 | The encoding of n bytes is 4 times n/3, rounded up, characters long; the last (3 - n % 3) % 3 are padding, and each one before is the character that Table 1 of RFC 4648 has for the next six bits of the bytes, most significant first and filled up with zeros |
| Base64.LastInverse | src/udp_proxy.rs:70 | The same for the last group of one to three bytes, where the padding is |
| Base64.Canonical | src/ws_handler.rs:149 | The decoder accepts nothing but encodings, so a payload has one spelling |

## Left out

- Password hashes, login, logout, admin sessions and token extraction: the current user is a parameter.
- Who may call update, toggle and delete: the handlers check nothing, and access is not the subject.
- SQL text, migrations and database failures other than the constraints of the schema; foreign keys are enforced, as
  in the bundled SQLite. Ids are fresh counters, so parsing an id always succeeds.
- Cancellation of a handler half-way by a client that goes away, except in the lock model; elsewhere handlers run to
  completion.
- Handlers that interleave in the lifecycle model: they are atomic there, and an abort takes effect at once.
- TunnelManager.StopTunnelListener: the aborted proxy is gone at once; in ListenerRace it goes on holding its socket
  until it next waits.
- ListenerRace.NoListenerLost: for tunnels whose protocol and port stay fixed and for channels that stay open;
  LosesExactly needs neither.
- A port range with lo = hi, or lo > hi, for registration: the draw divides by zero, or underflows.
- DedicatedPorts.GenerateUniqueDedicatedPort: for any number of draws, where the code makes 1000.
- LockScripts.StagesClimb: the lock operations are written down from the source by hand, stage by stage.
- Sockets, WebSocket frames, JSON, clocks and the log; the network is a choice of what arrives and what is accepted.
- A UDP reply counts as sent when it is handed to the socket; the send may still fail or be cut short.
- A restart in the data-path models: it ends all tasks and clears the counters. The TCP and UDP parts of
  tcp_conn_senders are two sets, which disjoint ids make equivalent.
- The small-step models of the locks, of start and stop, and of the data paths as wholes are state machines on values;
  only the code between two waits is in class form, so the accept loop and the select loops appear as the runs.
- Traffic totals stored in the database, statistics, launcher scripts, HTML pages and command-line parsing.
- The overflow panic of a debug build in the traffic counters; they wrap, as in a release build.
- Whether agents and clients ever answer.
