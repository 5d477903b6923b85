# Mock telemetry agent: a Dafny model

This project models the sequential core of a mock Instana agent written in Go.
The agent is a test double. It accepts span batches, discovery handshakes and
pings over HTTP. It keeps received spans in memory and returns them from `/dump`.
A supervising process spawns, kills and lists agents, each agent on its own port.

What is modelled:

- **URL patterns** (`Patterns`). The three regular expressions are traces,
  discovery and ping. Each is the plugin prefix `/com.instana.plugin.`, then
  `.*`, then a fixed tail, then (for traces and ping) a digit. `Matches` gives
  their declarative meaning, using Go's unanchored `MatchString` and a `.` that
  does not match a newline. `MatchString` is an executable search, proved equal
  to `Matches`. The key fact: every traces URL also matches the ping pattern,
  but not the other way round.
- **Dispatch** (`Dispatch`). This is the ordered `(pattern, handler)` list and
  the catch-all handler. The exact URL `/` answers 200. Otherwise the first
  matching entry's handler runs, and no match answers 404. `/dump` is routed by
  the mux. `Handle` specifies one request against an agent's span buffer. Lemmas
  show that the declared order routes traces URLs to ingestion. They also show
  that after batches B1..Bn the buffer is exactly B1 + ... + Bn.
- **Handlers** (`AgentHandlers`). These are the status and body decisions of
  the traces, discovery, ping and dump handlers. Each decision depends on the
  outcomes of reading the body and of JSON decoding and encoding.
- **Agents**. `AgentPackage.Agent` is the agent in `agent/agent.go`:
  `NewAgent`, `initServer`, `initEndpointCombos`, the append callback of the
  traces handler, the dump snapshot, `Start`, `Stop`, and the pid-defaulting
  discovery closure. `RootAgent.Agent` is the older `agent` type in `agent.go`.
  It builds its server lazily on `:<port>`.
- **Global handlers** (`RootHandlers.SpanStore`). These are the handlers in
  `handlers.go` that append to and dump a package-level span buffer.
- **Supervisor** (`Supervisor.Registry`). It models `spawnAgent`, `killAgent`
  and `agentList` over the port-to-agent map and the pool counter. It uses
  `strings.Split`, `strconv.Atoi` and `strconv.Itoa`, written out in `Text`.
  Its invariant: every registered port fits a Go `int`. Its agent has been
  started on `:<port>`, and no agent is registered twice. Started does not
  mean listening: a port no listener can bind is still registered. Lemmas
  show that ports handed out by `/spawn/` strictly increase from 29090.

External effects become parameters:

- The outcome of `io.ReadAll` is `Request.body` (None on error).
- The outcomes of `json.Unmarshal` and `json.Marshal` are the functions of a
  `Codec` (None on error). The proofs therefore hold for any JSON library
  behaviour.
- The outcome of `http.Server.Shutdown` is the `shutdownFails` parameter.

Notes on the source, where the model follows the code text:

- `agent/agent.go:157` calls `discoveryHandler` with a closure. The
  `discoveryHandler` declared in `agent/handlers.go:38` takes only `(w, r)`,
  and it always encodes a zero-valued `discoveryResponse`. The model routes
  discovery requests to that declared handler. The closure is modelled on its
  own as `DiscoveryReply`, with `DefaultPid`.
- The same closure sets a field `PID` from the request's `int` pid. The
  response type in `agent/sending_payloads.go:4` declares `Pid uint32`.
  `DiscoveryResponse.pid` is an `int` here, so the closure's assignment is
  modelled as written.
- `agent.go:48` and `agent.go:66` call `tracesHandler` and `dumpHandler` with
  a callback. Neither function has that form in `handlers.go`. Its handlers
  use the package-level `mu` and `dumpedSpans` (handlers.go:31-32, 79-82),
  which `handlers.go` does not declare. The older agent therefore uses the
  callback-taking handlers of `agent/handlers.go`.
- `/spawn/<p>` rejects only a port that fails `Atoi`, is registered, or is 0.
  Negative ports, ports above 65535, a leading `+` and leading zeros are all
  accepted, as the code does (`SpawnSignedPort`, `SpawnPaddedPort`,
  `SpawnUnusablePorts`).
- A span's entity id is a string, as the payload structs declare.

## Model

| member | source | states |
|---|---|---|
| `Text.Split` | main.go:45-51 | `strings.Split` on `/` yields at least one part, and no part contains the separator |
| `Text.JoinSplit` | main.go:45 | splitting loses nothing: joining the parts with `/` gives back the path |
| `Text.SplitJoin` | main.go:45-47 | parts without `/` are recovered exactly from their join; this is how `/spawn/<n>` and `/kill/<n>` split into three parts |
| `Text.SplitCount` | main.go:47 | the number of parts is the number of `/` plus one, so "three parts" means exactly two slashes |
| `Text.Itoa` | main.go:91 | `strconv.Itoa` is non-empty, is all digits after an optional leading `-`, and starts with `-` exactly for negative numbers |
| `Text.Atoi` | main.go:68-74 | `strconv.Atoi` accepts only an optional sign followed by at least one digit, with a value inside the 64-bit range; the sign fixes the sign of the value, and a bare sign is refused |
| `Text.AtoiDigits` | main.go:68 | on digits, with or without a `+` sign, `Atoi` gives their value exactly when it fits 64 bits |
| `Text.ZerosDigitsValue` | main.go:68 | leading zeros do not change the value of a numeral |
| `Text.AtoiLeadingZeros` | main.go:68-74 | a non-negative numeral padded with zeros, with or without `+`, parses to the same value |
| `Text.AtoiItoa` | main.go:115-125 | parsing the decimal form of any 64-bit integer gives that integer back |
| `Text.ItoaInjective` | main.go:90-92 | distinct 64-bit integers print differently |
| `Text.AsciiBytes` | main.go:100 | `[]byte(s)` of ASCII text is one byte per character, with the same code |
| `Patterns.MatchStringCorrect` | agent/agent.go:113 | the left-to-right search is exactly the unanchored regular-expression match |
| `Patterns.TracesImpliesPing` | agent/agent.go:37-43 | every URL the traces pattern matches, the ping pattern matches too |
| `Patterns.PingDoesNotImplyTraces` | agent/agent.go:42-43 | `/com.instana.plugin.golang.12345` matches ping but not traces, so ping is strictly weaker |
| `AgentHandlers.TracesHandler` | agent/handlers.go:10-36 | always 200; the callback runs once with the decoded spans exactly when the body was read and decoded and a callback exists |
| `AgentHandlers.DiscoveryHandler` | agent/handlers.go:38-72 | 500 with no body on a read, decode or encode failure; otherwise 200 and the encoding of the zero-valued response |
| `AgentHandlers.DiscoveryIgnoresRequest` | agent/handlers.go:58-59 | any two requests that decode get the same answer |
| `AgentHandlers.PingHandler` | agent/handlers.go:74-76 | always 200 with no body |
| `AgentHandlers.DumpHandler` | agent/handlers.go:78-99 | 500 without a snapshot function or on an encode failure; otherwise 200 and the encoding of exactly the snapshot |
| `Dispatch.FirstMatch` | agent/agent.go:112-117 | the chosen entry matches and no earlier entry does; with no result, no entry matches |
| `Dispatch.CatchAll` | agent/agent.go:104-120 | the loop answers `/` without looking at any pattern, returns the first matching entry's handler, or 404 |
| `Dispatch.DefaultRouting` | agent/agent.go:126-141 | with the declared order, a URL goes to traces, else discovery, else ping, whichever it matches first, else 404 |
| `Dispatch.TracesUrlsGoToTraces` | agent/agent.go:36-43 | a traces URL also matches ping, yet it is always dispatched to the traces handler |
| `Dispatch.ExampleTracesUrlMatches` | agent/agent.go:36-37 | `/com.instana.plugin.golang/traces.12345` matches the traces pattern |
| `Dispatch.OrderMatters` | agent/agent.go:127-140 | that URL goes to traces in the declared order, but would go to ping if ping came first |
| `Dispatch.Handle` | agent/agent.go:96-120 | one request only appends its accepted batch to the buffer; `/dump` answers from the buffer; `/` answers 200; no match answers 404; traces always answers 200 |
| `Dispatch.MalformedBatchIsTolerated` | agent/handlers.go:10-29 | a traces request whose body cannot be read or decoded answers 200 and leaves the buffer unchanged |
| `Dispatch.ReplayIngests` | agent/agent.go:146-148 | after any run of requests the buffer is the old buffer followed by each accepted batch, in arrival order |
| `Dispatch.DumpAfterReplay` | agent/agent.go:96-101 | on a fresh agent, a dump after batches B1..Bn encodes exactly B1 + ... + Bn |
| `AgentPackage.Agent.constructor` | agent/agent.go:78-83 | an agent on the given address, with no handler, an empty buffer and no entries |
| `AgentPackage.Agent.InitEndpointCombos` | agent/agent.go:126-141 | the entries become traces, discovery, ping, in that order |
| `AgentPackage.Agent.InitServer` | agent/agent.go:90-124 | no-op when a handler is attached and the address is non-empty; otherwise builds the entries and attaches the mux; the buffer is untouched |
| `AgentPackage.Agent.Snapshot` | agent/agent.go:97-101 | the dump snapshot is exactly the current buffer |
| `AgentPackage.Agent.TraceHandler` | agent/agent.go:143-150 | answers 200; on a successful decode the batch is appended at the end of the buffer, otherwise the buffer is unchanged |
| `AgentPackage.Agent.Serve` | agent/agent.go:96-120 | the response and the new buffer are those `Handle` specifies |
| `AgentPackage.Agent.Start` | agent/agent.go:168-174 | initialises as `InitServer` does, then the agent is running |
| `AgentPackage.Agent.Stop` | agent/agent.go:176-182 | returns the shutdown outcome; the agent stops running only when shutdown succeeds |
| `AgentPackage.NewAgent` | agent/agent.go:67-88 | nil exactly when the options are missing or their address is empty; otherwise a fresh agent on that address, initialised, with an empty buffer |
| `AgentPackage.DefaultPid` | agent/agent.go:158-162 | pid 0 becomes 1, any other pid is kept, and the result is never 0 |
| `AgentPackage.DiscoveryReply` | agent/agent.go:156-165 | the reply carries the defaulted pid and host id `88:66:5a:ff:fe:05:a5:f0`; every other field is zero |
| `RootAgent.Agent.constructor` | agent.go:31-37 | an agent with the given port and every other field at its zero value |
| `RootAgent.Agent.InitServer` | agent.go:39-96 | builds the entries and a server on `:` plus the decimal port only when there is no server; a second call changes nothing |
| `RootAgent.Agent.Start` | agent.go:98-104 | initialises as `InitServer` does, then the agent is running |
| `RootAgent.Agent.Stop` | agent.go:106-112 | with no server it returns no error; otherwise it returns the shutdown outcome |
| `RootAgent.Agent.Serve` | agent.go:65-89 | the response and the new buffer are those `Handle` specifies, with the traces entry appending to the buffer |
| `RootHandlers.SpanStore.SpanHandler` | handlers.go:10-36 | always 200; appends all decoded spans in order on success; leaves the buffer unchanged on a read or decode failure |
| `RootHandlers.SpanStore.DumpHandler` | handlers.go:78-94 | 200 and the encoding of the entire buffer, or 500 with no body when encoding fails |
| `Supervisor.Inc64` | main.go:55 | `portsPool++` adds one, wrapping from the largest to the smallest 64-bit value |
| `Supervisor.DecideSpawn` | main.go:45-88 | not three parts means rejected; `/spawn/` moves the counter up by one even when rejected, and is accepted exactly when the new counter is free and non-zero; `/spawn/<p>` is accepted exactly when `Atoi(p)` succeeds with a free, non-zero port, and then spawns on that port |
| `Supervisor.SpawnFromPool` | main.go:54-63 | `/spawn/` takes the incremented counter, and is rejected with the counter still incremented when that port is taken |
| `Supervisor.SpawnPathParts` | main.go:45-47 | `/spawn/` and a part without `/` split into exactly the three parts `""`, `spawn` and that part |
| `Supervisor.SpawnGivenPart` | main.go:66-88 | `/spawn/<p>` is decided by `Atoi(p)` alone: a failed parse, a registered port or 0 is rejected, any other port accepted |
| `Supervisor.SpawnOnGivenPort` | main.go:67-88 | `/spawn/<n>` is accepted on port n exactly when n is neither registered nor 0, and leaves the counter alone |
| `Supervisor.SpawnSignedPort` | main.go:68-82 | `/spawn/+7` spawns on port 7 |
| `Supervisor.SpawnPaddedPort` | main.go:68-82 | `/spawn/007` spawns on port 7 |
| `Supervisor.SpawnUnusablePorts` | main.go:68-88 | `/spawn/-5` and `/spawn/70000` are accepted, although no listener can bind those ports |
| `Supervisor.SpawnRejectsNonNumerals` | main.go:68-73 | `/spawn/abc` and `/spawn/+` answer 500 and keep the counter |
| `Supervisor.SpawnNeedsTwoSlashes` | main.go:45-51 | an accepted spawn path contains exactly two slashes |
| `Supervisor.KillTarget` | main.go:108-125 | the target is the parsed third path part, and only when the path has three parts and the port is registered |
| `Supervisor.KillGivenPort` | main.go:115-125 | `/kill/<n>` targets n exactly when n is registered |
| `Supervisor.SpawnReply` | main.go:98-100 | status 200, header `X-MOCK-AGENT-PORT` holding the decimal port, and a body of the decimal port followed by a newline |
| `Supervisor.SpawnReplyHeaderParses` | main.go:98 | the header value parses back to the spawned port |
| `Supervisor.Registry.constructor` | main.go:27-31 | an empty registry with the counter at 29090 |
| `Supervisor.Registry.Spawn` | main.go:38-105 | on acceptance, exactly one fresh agent is added under the decided port, with an empty buffer and the default entries, and all other entries are kept; on rejection the registry is unchanged and the answer is 500; the invariant is kept |
| `Supervisor.Registry.Register` | main.go:90-96 | a new agent on `:<port>`, built by `NewAgent` (empty buffer, default entries, handler attached) and started, is inserted under that port alone |
| `Supervisor.Registry.Kill` | main.go:107-140 | an unregistered target or a failed stop answers 500 and keeps the registry and every agent in it unchanged; otherwise the target agent is stopped, keeping its buffer, entries and address, only its entry is removed and the answer is 200; no other agent changes in any field |
| `Supervisor.Registry.List` | main.go:142-150 | the body is `", " + Itoa(k)` once for each registered port and nothing else, in some order |
| `Supervisor.AddressesDistinct` | main.go:90-96 | no two registered agents share an address |
| `Supervisor.PoolPortsIncrease` | main.go:54-63 | across any mix of spawn and kill requests, ports from `/spawn/` strictly increase and stay above the starting counter |
| `Supervisor.PoolPortsFromStart` | main.go:28 | from the initial counter 29090, `/spawn/` hands out ports above 29090 in strictly increasing order |

## Left out

- OpenTelemetry and gRPC setup (`initProvider`, `Lala`, `traceSomething`, the `ENABLE_JAEGER` switch) is not modelled. It is foreign library code with no logic to state.
- `sendSpanToJaeger` is not modelled, because it only prints the batch.
- The HTTP server lifecycle is abstract. `ListenAndServe` is the `running` flag, and its asynchronous errors are not seen. `Shutdown` is an outcome parameter. A failed shutdown is modelled as leaving the agent running.
- The supervisor's own listener, `log.Fatal` and the `MOCK_AGENT_PORT` override are left out, because they are process-level I/O and configuration.
- ServeMux details are left out: path cleaning, redirects and method matching. Only its choice between `/dump` and the catch-all is modelled.
- Mutexes are left out. Every operation is modelled as one sequential step, including the unlocked read of the map in `agentList`.
- JSON encoding and decoding and `io.ReadAll` are parameters, so the opaque `data` member of a span is never looked into.
- Logging is left out, because it has no effect on responses or state.
- A `WriteHeader(500)` after a failed `Write` is left out. net/http ignores it once the body has started.
- Go canonicalises the spawn header name to `X-Mock-Agent-Port` on the wire. The model keeps the name as written, since header names are case-insensitive.
- Strings are sequences of characters, so invalid UTF-8 in a URL is not modelled.
- The nil-`Server` branch of `initServer` in `agent/agent.go` is not modelled. `NewAgent` always sets the server, and the branch would dereference nil.
- The nil-`Server` branch of `Stop` in `agent/agent.go` (return no error) is not modelled either, for the same reason: every model agent has a server. The older agent's `Stop` does model it.
- The `discoveryHandler` and `pingHandler` of `handlers.go` are modelled once, by `AgentHandlers.DiscoveryHandler` and `AgentHandlers.PingHandler`. Their text is identical to `agent/handlers.go`, and the older agent's `Serve` uses them.
- Supervisor.PoolPortsIncrease: proved only while the counter stays below the top of the 64-bit range. `portsPool++` wraps there, and `Inc64` models that wrap.
- A general lemma that the listing of `agentList` splits back into its ports is not stated. `Registry.List` states the listing piece by piece instead.
