/**
 * The supervising process: a registry of agents keyed by port and the pool
 * counter from which `/spawn/` draws new ports, with the spawn, kill and
 * list handlers. The package-level `portMap` and `portsPool` are the fields
 * of `Registry`; its mutex only serialises the handlers and is not modelled.
 * Each handler's decision is a function of the path and the registered
 * ports (`DecideSpawn`, `KillTarget`); the methods are proved against them.
 */
module Supervisor {
  import opened Wrappers
  import opened Text
  import opened Http
  import opened AgentPackage
  import opened Dispatch

  const InitialPool: int := 29090
  const PortHeader: string := "X-MOCK-AGENT-PORT"

  /** `portsPool++` on a 64-bit Go `int`, which wraps around at the top. */
  function Inc64(x: int): (r: int)
    requires InInt64(x)
    ensures InInt64(r)
    ensures x < MaxInt64 ==> r == x + 1
    ensures x == MaxInt64 ==> r == MinInt64
  {
    if x == MaxInt64 then MinInt64 else x + 1
  }

  /** The path is `/spawn/` (no port given): three parts, the last one empty. */
  predicate FromPool(path: string) {
    var parts := Split(path, '/');
    |parts| == 3 && parts[2] == ""
  }

  datatype SpawnDecision = Rejected(pool: int) | Accepted(pool: int, port: int)

  /**
   * What `spawnAgent` decides for `path`, given the registered ports and the
   * pool counter: the new counter and, unless the answer is 500, the port.
   */
  function DecideSpawn(path: string, registered: set<int>, pool: int): (d: SpawnDecision)
    requires InInt64(pool)
    ensures InInt64(d.pool)
    ensures d.pool == (if FromPool(path) then Inc64(pool) else pool)
    ensures |Split(path, '/')| != 3 ==> d.Rejected?
    ensures d.Accepted? ==> d.port !in registered && d.port != 0 && InInt64(d.port)
    ensures d.Accepted? && FromPool(path) ==> d.port == d.pool
    ensures FromPool(path) ==> (d.Accepted? <==> Inc64(pool) !in registered && Inc64(pool) != 0)
    ensures var parts := Split(path, '/');
      |parts| == 3 && parts[2] != "" ==>
        && (d.Accepted? <==> Atoi(parts[2]).Some? && Atoi(parts[2]).value !in registered && Atoi(parts[2]).value != 0)
        && (d.Accepted? ==> Some(d.port) == Atoi(parts[2]))
  {
    var parts := Split(path, '/');
    if |parts| != 3 then Rejected(pool)
    else if parts[2] == "" then
      var next := Inc64(pool);
      if next in registered || next == 0 then Rejected(next) else Accepted(next, next)
    else
      match Atoi(parts[2])
      case None => Rejected(pool)
      case Some(port) =>
        if port in registered || port == 0 then Rejected(pool) else Accepted(pool, port)
  }

  /** `/spawn/` takes the next pool value, and fails (keeping the increment) if it is taken. */
  lemma SpawnFromPool(registered: set<int>, pool: int)
    requires InInt64(pool)
    ensures var next := Inc64(pool);
      DecideSpawn("/spawn/", registered, pool) ==
        if next in registered || next == 0 then Rejected(next) else Accepted(next, next)
  {
    SplitJoin(["", "spawn", ""], '/');
    assert Join(["", "spawn", ""], '/') == "/spawn/";
  }

  /** `/spawn/` followed by a part without `/` splits into exactly `["", "spawn", p]`. */
  lemma SpawnPathParts(p: string)
    requires '/' !in p
    ensures Split("/spawn/" + p, '/') == ["", "spawn", p]
  {
    var parts := ["", "spawn", p];
    SplitJoin(parts, '/');
    assert Join(parts[1..], '/') == "spawn" + "/" + p;
    assert Join(parts, '/') == "/spawn/" + p;
  }

  /** `/spawn/<n>` for a printed 64-bit `n` spawns on `n` exactly when `n` is free and not 0. */
  lemma SpawnOnGivenPort(n: int, registered: set<int>, pool: int)
    requires InInt64(n) && InInt64(pool)
    ensures DecideSpawn("/spawn/" + Itoa(n), registered, pool) ==
      if n in registered || n == 0 then Rejected(pool) else Accepted(pool, n)
  {
    SpawnPathParts(Itoa(n));
    AtoiItoa(n);
  }

  /** `/spawn/<p>` for a non-empty `p` without `/` is decided by `Atoi(p)` alone. */
  lemma SpawnGivenPart(p: string, registered: set<int>, pool: int)
    requires InInt64(pool)
    requires p != [] && '/' !in p
    ensures var port := Atoi(p);
      DecideSpawn("/spawn/" + p, registered, pool) ==
        if port.None? || port.value in registered || port.value == 0 then Rejected(pool)
        else Accepted(pool, port.value)
  {
    SpawnPathParts(p);
  }

  /** Only `Atoi` judges the port: a `+` sign is accepted. */
  lemma SpawnSignedPort(registered: set<int>, pool: int)
    requires InInt64(pool) && 7 !in registered
    ensures DecideSpawn("/spawn/" + "+7", registered, pool) == Accepted(pool, 7)
  {
    AtoiLeadingZeros(0, 7);
    assert "+" + Zeros(0) + Itoa(7) == "+7";
    SpawnGivenPart("+7", registered, pool);
  }

  /** Only `Atoi` judges the port: leading zeros are accepted. */
  lemma SpawnPaddedPort(registered: set<int>, pool: int)
    requires InInt64(pool) && 7 !in registered
    ensures DecideSpawn("/spawn/" + "007", registered, pool) == Accepted(pool, 7)
  {
    AtoiLeadingZeros(2, 7);
    assert Zeros(2) + Itoa(7) == "007";
    SpawnGivenPart("007", registered, pool);
  }

  /** Ports no listener can bind, a negative one or one above 65535, are still registered. */
  lemma SpawnUnusablePorts(registered: set<int>, pool: int)
    requires InInt64(pool) && -5 !in registered && 70000 !in registered
    ensures DecideSpawn("/spawn/" + "-5", registered, pool) == Accepted(pool, -5)
    ensures DecideSpawn("/spawn/" + "70000", registered, pool) == Accepted(pool, 70000)
  {
    AtoiItoa(-5);
    assert Itoa(-5) == "-5";
    SpawnGivenPart("-5", registered, pool);
    AtoiItoa(70000);
    assert Itoa(70000) == "70000";
    SpawnGivenPart("70000", registered, pool);
  }

  /** A port that is a word, or a sign with no digits, is answered with 500. */
  lemma SpawnRejectsNonNumerals(registered: set<int>, pool: int)
    requires InInt64(pool)
    ensures DecideSpawn("/spawn/" + "abc", registered, pool) == Rejected(pool)
    ensures DecideSpawn("/spawn/" + "+", registered, pool) == Rejected(pool)
  {
    assert !IsDigit("abc"[0]);
    SpawnGivenPart("abc", registered, pool);
    SpawnGivenPart("+", registered, pool);
  }

  /** An accepted spawn path has exactly two slashes. */
  lemma SpawnNeedsTwoSlashes(path: string, registered: set<int>, pool: int)
    requires InInt64(pool)
    ensures DecideSpawn(path, registered, pool).Accepted? ==> Count(path, '/') == 2
  {
    SplitCount(path, '/');
  }

  /** The port `killAgent` stops: the parsed third part of the path, if registered. */
  function KillTarget(path: string, registered: set<int>): (r: Option<int>)
    ensures r.Some? ==> r.value in registered
    ensures r.Some? <==>
      var parts := Split(path, '/');
      |parts| == 3 && Atoi(parts[2]).Some? && Atoi(parts[2]).value in registered
    ensures r.Some? ==> Atoi(Split(path, '/')[2]) == r
  {
    var parts := Split(path, '/');
    if |parts| != 3 then None
    else
      match Atoi(parts[2])
      case None => None
      case Some(port) => if port in registered then Some(port) else None
  }

  /** `/kill/<n>` for a printed 64-bit `n` targets `n` exactly when it is registered. */
  lemma KillGivenPort(n: int, registered: set<int>)
    requires InInt64(n)
    ensures KillTarget("/kill/" + Itoa(n), registered) == if n in registered then Some(n) else None
  {
    var parts := ["", "kill", Itoa(n)];
    SplitJoin(parts, '/');
    assert Join(parts[1..], '/') == "kill" + "/" + Itoa(n);
    assert Join(parts, '/') == "/kill/" + Itoa(n);
    AtoiItoa(n);
  }

  /** The successful answer of `spawnAgent`: the port in a header and as the body, plus a newline. */
  function SpawnReply(port: int): (r: Response)
    ensures r.status == StatusOK
    ensures r.headers == [Header(PortHeader, Itoa(port))]
    ensures |r.body| == |Itoa(port)| + 1 && r.body[|r.body| - 1] as int == '\n' as int
    ensures forall k :: 0 <= k < |Itoa(port)| ==> r.body[k] as int == Itoa(port)[k] as int
  {
    var text := Itoa(port) + "\n";
    Response(StatusOK, [Header(PortHeader, Itoa(port))], AsciiBytes(text))
  }

  /** A client reading the header back gets the spawned port. */
  lemma SpawnReplyHeaderParses(port: int)
    requires InInt64(port)
    ensures Atoi(SpawnReply(port).headers[0].value) == Some(port)
  {
    AtoiItoa(port);
  }

  /** The body of `agentList` for keys visited in the order `ports`: `", " + Itoa(k)` per key. */
  function Listing(ports: seq<int>): string
    decreases |ports|
  {
    if ports == [] then "" else Listing(ports[..|ports| - 1]) + ", " + Itoa(ports[|ports| - 1])
  }

  class Registry {
    var portMap: map<int, Agent>
    var portsPool: int

    /**
     * Every registered port fits a Go `int`, has an agent started on
     * `:<port>`, and no agent is registered under two ports.
     */
    ghost predicate Valid()
      reads this, portMap.Values
    {
      && InInt64(portsPool)
      && (forall k :: k in portMap ==> InInt64(k) && portMap[k].addr == ":" + Itoa(k) && portMap[k].running)
      && (forall k, k' :: k in portMap && k' in portMap && k != k' ==> portMap[k] != portMap[k'])
    }

    constructor ()
      ensures Valid()
      ensures portMap == map[] && portsPool == InitialPool
    {
      portMap := map[];
      portsPool := InitialPool;
    }

    /**
     * `spawnAgent`: on success a new running agent is registered under the
     * decided port and every other entry is kept; on failure the registry is
     * unchanged (the pool counter keeps its increment).
     */
    method Spawn(path: string) returns (resp: Response)
      requires Valid()
      modifies this
      ensures Valid()
      ensures var d := DecideSpawn(path, old(portMap).Keys, old(portsPool));
        && portsPool == d.pool
        && (d.Rejected? ==> portMap == old(portMap) && resp == Status(StatusInternalServerError))
        && (d.Accepted? ==>
              && portMap.Keys == old(portMap).Keys + {d.port}
              && fresh(portMap[d.port])
              && portMap[d.port].dumpedSpans == []
              && portMap[d.port].handlerAttached && portMap[d.port].endpointCombos == DefaultCombos
              && (forall k :: k in old(portMap) ==> portMap[k] == old(portMap)[k])
              && resp == SpawnReply(d.port))
    {
      var parts := Split(path, '/');
      if |parts| != 3 {
        return Status(StatusInternalServerError);
      }
      var newPort := 0;
      if parts[2] == "" {
        portsPool := Inc64(portsPool);
        if portsPool in portMap {
          return Status(StatusInternalServerError);
        }
        newPort := portsPool;
      }
      if parts[2] != "" {
        var parsed := Atoi(parts[2]);
        if parsed.None? {
          return Status(StatusInternalServerError);
        }
        if parsed.value in portMap {
          return Status(StatusInternalServerError);
        }
        newPort := parsed.value;
      }
      if newPort == 0 {
        return Status(StatusInternalServerError);
      }
      Register(newPort);
      resp := SpawnReply(newPort);
    }

    /** The success path of `spawnAgent`: a new agent on `:<port>`, started and registered. */
    method Register(port: int)
      requires Valid()
      requires port !in portMap && InInt64(port)
      modifies this`portMap
      ensures Valid()
      ensures portMap.Keys == old(portMap).Keys + {port}
      ensures fresh(portMap[port])
      ensures portMap[port].dumpedSpans == []
      ensures portMap[port].handlerAttached && portMap[port].endpointCombos == DefaultCombos
      ensures forall k :: k in old(portMap) ==> portMap[k] == old(portMap)[k]
    {
      var agent := NewAgent(Some(Options(":" + Itoa(port), 0, "", SecretsOptions("", []), [], [])));
      agent.Start();
      portMap := portMap[port := agent];
    }

    /**
     * `killAgent`: a target that is not registered, or whose shutdown fails,
     * answers 500 and keeps the registry and every agent as they were;
     * otherwise the target is stopped, only its entry is removed and the
     * answer is 200. Stopping changes nothing of the agent but its running state.
     */
    method Kill(path: string, shutdownFails: bool) returns (resp: Response)
      requires Valid()
      modifies this, portMap.Values
      ensures Valid()
      ensures portsPool == old(portsPool)
      ensures var target := KillTarget(path, old(portMap).Keys);
        && (target.None? ==> portMap == old(portMap) && resp == Status(StatusInternalServerError))
        && (target.Some? && shutdownFails ==> portMap == old(portMap) && resp == Status(StatusInternalServerError))
        && (target.Some? && !shutdownFails ==> portMap == old(portMap) - {target.value} && resp == Status(StatusOK))
        && (target.Some? && !shutdownFails ==> !old(portMap)[target.value].running)
        && (forall k :: k in old(portMap) && (target.None? || k != target.value || shutdownFails) ==> unchanged(old(portMap)[k]))
        && (target.Some? ==>
              var a := old(portMap)[target.value];
              && a.dumpedSpans == old(a.dumpedSpans) && a.endpointCombos == old(a.endpointCombos)
              && a.addr == old(a.addr) && a.handlerAttached == old(a.handlerAttached))
    {
      var parts := Split(path, '/');
      if |parts| != 3 {
        return Status(StatusInternalServerError);
      }
      var parsed := Atoi(parts[2]);
      if parsed.None? {
        return Status(StatusInternalServerError);
      }
      var port := parsed.value;
      if port in portMap {
        var failed := portMap[port].Stop(shutdownFails);
        if failed {
          return Status(StatusInternalServerError);
        }
        portMap := portMap - {port};
        return Status(StatusOK);
      }
      resp := Status(StatusInternalServerError);
    }

    /**
     * `agentList`: `", " + Itoa(k)` once for each registered port, in the
     * (unspecified) order of map iteration, which `order` records.
     */
    method List() returns (l: string, ghost order: seq<int>)
      ensures forall k :: k in order <==> k in portMap
      ensures forall a, b :: 0 <= a < b < |order| ==> order[a] != order[b]
      ensures l == Listing(order)
    {
      l := "";
      order := [];
      var rest := portMap.Keys;
      while rest != {}
        invariant rest <= portMap.Keys
        invariant forall k :: k in order <==> k in portMap && k !in rest
        invariant forall a, b :: 0 <= a < b < |order| ==> order[a] != order[b]
        invariant l == Listing(order)
        decreases |rest|
      {
        if forall p :: p !in rest {
          assert false;  // rest is not empty
        }
        var port :| port in rest;
        l := l + ", " + Itoa(port);
        assert (order + [port])[..|order|] == order;
        order := order + [port];
        rest := rest - {port};
      }
    }
  }

  /** No two registered agents share an address, so no two of them compete for one listener. */
  lemma AddressesDistinct(r: Registry, k: int, k': int)
    requires r.Valid()
    requires k in r.portMap && k' in r.portMap && k != k'
    ensures r.portMap[k].addr != r.portMap[k'].addr
  {
    if r.portMap[k].addr == r.portMap[k'].addr {
      assert Itoa(k) == (":" + Itoa(k))[1..];
      assert Itoa(k') == (":" + Itoa(k'))[1..];
      ItoaInjective(k, k');
    }
  }

  // ---------------------------------------------------------------------------
  // Runs of spawn and kill requests

  datatype Op = SpawnOp(path: string) | KillOp(path: string, shutdownFails: bool)

  /** The registered ports, the pool counter, and the ports handed out by `/spawn/` so far. */
  datatype RunState = RunState(registered: set<int>, pool: int, poolPorts: seq<int>)

  function Step(st: RunState, op: Op): (r: RunState)
    requires InInt64(st.pool)
    ensures InInt64(r.pool)
  {
    match op
    case SpawnOp(path) =>
      var d := DecideSpawn(path, st.registered, st.pool);
      if d.Rejected? then RunState(st.registered, d.pool, st.poolPorts)
      else RunState(st.registered + {d.port}, d.pool,
                    st.poolPorts + (if FromPool(path) then [d.port] else []))
    case KillOp(path, shutdownFails) =>
      var target := KillTarget(path, st.registered);
      if target.Some? && !shutdownFails then RunState(st.registered - {target.value}, st.pool, st.poolPorts)
      else st
  }

  function Run(st: RunState, ops: seq<Op>): (r: RunState)
    requires InInt64(st.pool)
    ensures InInt64(r.pool)
    decreases |ops|
  {
    if ops == [] then st else Run(Step(st, ops[0]), ops[1..])
  }

  ghost predicate Increasing(s: seq<int>) {
    forall a, b :: 0 <= a < b < |s| ==> s[a] < s[b]
  }

  /**
   * Until the counter reaches the top of the 64-bit range, ports handed out
   * by `/spawn/` strictly increase, each above the starting counter and at
   * most the current counter, whatever other requests are interleaved.
   */
  lemma {:induction false} PoolPortsIncrease(st: RunState, ops: seq<Op>)
    requires InInt64(st.pool) && st.pool + |ops| <= MaxInt64
    requires Increasing(st.poolPorts) && forall k :: 0 <= k < |st.poolPorts| ==> st.poolPorts[k] <= st.pool
    ensures var r := Run(st, ops);
      && Increasing(r.poolPorts)
      && st.pool <= r.pool <= st.pool + |ops|
      && |st.poolPorts| <= |r.poolPorts| && r.poolPorts[..|st.poolPorts|] == st.poolPorts
      && (forall k :: 0 <= k < |r.poolPorts| ==> r.poolPorts[k] <= r.pool)
      && (forall k :: |st.poolPorts| <= k < |r.poolPorts| ==> st.pool < r.poolPorts[k])
    decreases |ops|
  {
    if ops != [] {
      var next := Step(st, ops[0]);
      assert next.pool == st.pool || next.pool == st.pool + 1;
      assert next.poolPorts == st.poolPorts || next.poolPorts == st.poolPorts + [next.pool];
      PoolPortsIncrease(next, ops[1..]);
      var r := Run(next, ops[1..]);
      assert r == Run(st, ops);
      assert r.poolPorts[..|st.poolPorts|] == r.poolPorts[..|next.poolPorts|][..|st.poolPorts|];
    }
  }

  /** From the initial counter, `/spawn/` hands out strictly increasing ports above 29090. */
  lemma PoolPortsFromStart(ops: seq<Op>)
    requires InitialPool + |ops| <= MaxInt64
    ensures var r := Run(RunState({}, InitialPool, []), ops);
      Increasing(r.poolPorts) && forall k :: 0 <= k < |r.poolPorts| ==> InitialPool < r.poolPorts[k]
  {
    PoolPortsIncrease(RunState({}, InitialPool, []), ops);
  }
}
