/** The Minecraft manager's server records (`servers.go`): defaulting of the
    configuration, the fuzzy lookup of a server by host, and the decision
    tables of the `.start` and `.stop` lifecycle operations, with the cloud
    provider's answers given as inputs. */
module Servers {
  import opened Wrappers
  import opened Text
  import opened Decimal
  import Minecraft

  /** `time.Duration` is a count of nanoseconds. */
  const Second: int := 1_000_000_000
  const Minute: int := 60 * Second

  const DefaultPort: string := "19132"

  const NotFound: string := "server not found"

  /** Every field of a server record, the YAML-configured ones first, then
      the ones the manager derives and updates (`host`, `port`, the counters
      and the online flag). */
  datatype ServerState = ServerState(
    Host: string,
    Name: string,
    ResourceGroup: string,
    Timeout: int,
    CheckInterval: int,
    DeallocationThreshold: int,
    host: string,
    port: string,
    checkCount: int,
    checkErrors: int,
    online: bool)

  /** `server.setDefaults` on a record: split `Host` at `:`, then fill in the
      name, the resource group and the timeout where they are unset. */
  function Defaulted(st: ServerState): (r: Result<ServerState, string>)
    ensures r.Success? ==> r.value.Name != "" || st.Name == ""
    ensures r.Success? ==> r.value.ResourceGroup != "" && r.value.Timeout != 0
    ensures r.Failure? ==> r.error == "invalid server host: " + st.Host
  {
    var parts := Split(st.Host, ':');
    if |parts| > 2 then Failure("invalid server host: " + st.Host)
    else
      var host := parts[0];
      var port := if |parts| == 1 then DefaultPort else parts[1];
      var name := if st.Name == "" then host else st.Name;
      var group := if st.ResourceGroup == "" then name + "-rg" else st.ResourceGroup;
      var timeout := if st.Timeout == 0 then 5 * Second else st.Timeout;
      Success(st.(host := host, port := port, Name := name, ResourceGroup := group, Timeout := timeout))
  }

  /** Without a `:` the whole `Host` is the host name and the port is Bedrock's default. */
  lemma DefaultedNoColon(st: ServerState)
    requires ':' !in st.Host
    ensures Defaulted(st).Success?
    ensures Defaulted(st).value.host == st.Host && Defaulted(st).value.port == DefaultPort
  {
    SplitCount(st.Host, ':');
    CountNone(st.Host, ':');
    SplitJoin(st.Host, ':');
  }

  /** With one `:` the host and the port are the two sides of it. */
  lemma DefaultedOneColon(st: ServerState)
    requires Count(st.Host, ':') == 1
    ensures Defaulted(st).Success?
    ensures var d := Defaulted(st).value;
      d.host + ":" + d.port == st.Host && ':' !in d.host && ':' !in d.port
  {
    SplitCount(st.Host, ':');
    SplitJoin(st.Host, ':');
    var parts := Split(st.Host, ':');
    assert Join(parts, ":") == parts[0] + ":" + Join(parts[1..], ":");
  }

  /** Two or more `:` are an error, and nothing is defaulted. */
  lemma DefaultedManyColons(st: ServerState)
    requires Count(st.Host, ':') >= 2
    ensures Defaulted(st) == Failure("invalid server host: " + st.Host)
  {
    SplitCount(st.Host, ':');
  }

  /** What defaulting fills in, and that it touches nothing else. */
  lemma DefaultedFields(st: ServerState)
    requires Defaulted(st).Success?
    ensures var d := Defaulted(st).value;
      && d.Name == (if st.Name == "" then d.host else st.Name)
      && d.ResourceGroup == (if st.ResourceGroup == "" then d.Name + "-rg" else st.ResourceGroup)
      && d.Timeout == (if st.Timeout == 0 then 5 * Second else st.Timeout)
      && d.(host := st.host, port := st.port, Name := st.Name,
            ResourceGroup := st.ResourceGroup, Timeout := st.Timeout) == st
  {
  }

  /** Defaulting twice is defaulting once. */
  lemma DefaultedIdempotent(st: ServerState)
    requires Defaulted(st).Success?
    ensures Defaulted(Defaulted(st).value) == Defaulted(st)
  {
    var d := Defaulted(st).value;
    assert d.Host == st.Host;
    assert d.Name != "" || d.host == "";
  }

  /** One configured server, updated in place by the manager. */
  class Server {
    var Host: string
    var Name: string
    var ResourceGroup: string
    var Timeout: int
    var CheckInterval: int
    var DeallocationThreshold: int

    var host: string
    var port: string
    var checkCount: int
    var checkErrors: int
    var online: bool

    /** A record as read from the configuration file: the derived fields are zero. */
    constructor (Host: string, Name: string, ResourceGroup: string, Timeout: int,
                 CheckInterval: int, DeallocationThreshold: int)
      ensures State() == ServerState(Host, Name, ResourceGroup, Timeout, CheckInterval,
                                     DeallocationThreshold, "", "", 0, 0, false)
    {
      this.Host := Host;
      this.Name := Name;
      this.ResourceGroup := ResourceGroup;
      this.Timeout := Timeout;
      this.CheckInterval := CheckInterval;
      this.DeallocationThreshold := DeallocationThreshold;
      host, port := "", "";
      checkCount, checkErrors := 0, 0;
      online := false;
    }

    function State(): ServerState
      reads this
    {
      ServerState(Host, Name, ResourceGroup, Timeout, CheckInterval, DeallocationThreshold,
                  host, port, checkCount, checkErrors, online)
    }

    /** `server.setDefaults`: on an invalid `Host` it reports the error and
        changes nothing. */
    method SetDefaults() returns (err: Option<string>)
      modifies this
      ensures match Defaulted(old(State()))
        case Success(d) => err.None? && State() == d
        case Failure(e) => err == Some(e) && State() == old(State())
    {
      var parts := Split(Host, ':');
      if |parts| == 1 {
        host := parts[0];
        port := DefaultPort;
      } else if |parts| == 2 {
        host := parts[0];
        port := parts[1];
      } else {
        return Some("invalid server host: " + Host);
      }
      if Name == "" {
        Name := host;
      }
      if ResourceGroup == "" {
        ResourceGroup := Name + "-rg";
      }
      if Timeout == 0 {
        Timeout := 5 * Second;
      }
      return None;
    }
  }

  /** The settings file: global check interval and threshold, and the servers. */
  class ServerConfig {
    var CheckInterval: int
    var DeallocationThreshold: int
    var Servers: seq<Server>

    constructor (CheckInterval: int, DeallocationThreshold: int, Servers: seq<Server>)
      ensures this.CheckInterval == CheckInterval && this.DeallocationThreshold == DeallocationThreshold
      ensures this.Servers == Servers
    {
      this.CheckInterval := CheckInterval;
      this.DeallocationThreshold := DeallocationThreshold;
      this.Servers := Servers;
    }

    /** No server appears twice in the list. */
    predicate Distinct()
      reads this
    {
      forall i, j :: 0 <= i < j < |Servers| ==> Servers[i] != Servers[j]
    }

    /** `serverConfig.setDefaults`: the global defaults, then each server in
        order, stopping at the first one whose `Host` is invalid. The servers
        before it are defaulted; it and the ones after it are left as they were. */
    method SetDefaults() returns (err: Option<string>)
      requires Distinct()
      modifies this, set s | s in Servers
      ensures Servers == old(Servers)
      ensures CheckInterval == if old(CheckInterval) == 0 then 5 * Minute else old(CheckInterval)
      ensures DeallocationThreshold == if old(DeallocationThreshold) == 0 then 5 else old(DeallocationThreshold)
      ensures Walked(Servers, old(StatesOf(Servers)), err)
    {
      ghost var before := StatesOf(Servers);
      if CheckInterval == 0 {
        CheckInterval := 5 * Minute;
      }
      if DeallocationThreshold == 0 {
        DeallocationThreshold := 5;
      }
      err := DefaultEach(Servers, before);
    }
  }

  /** The servers' records after `serverConfig.setDefaults`, and its error:
      each record is defaulted in turn until one is rejected, which stops the
      walk and leaves that record and the rest as they were. */
  function DefaultAll(sts: seq<ServerState>): (seq<ServerState>, Option<string>)
    decreases |sts|
  {
    if sts == [] then ([], None)
    else match Defaulted(sts[0])
      case Failure(e) => (sts, Some(e))
      case Success(d) =>
        var rest := DefaultAll(sts[1..]);
        ([d] + rest.0, rest.1)
  }

  /** The loop of `serverConfig.setDefaults` over the servers, in order;
      `before` holds their records on entry. */
  method DefaultEach(servers: seq<Server>, ghost before: seq<ServerState>) returns (err: Option<string>)
    requires forall a, b :: 0 <= a < b < |servers| ==> servers[a] != servers[b]
    requires |before| == |servers| && forall k :: 0 <= k < |servers| ==> servers[k].State() == before[k]
    modifies set s | s in servers
    ensures Walked(servers, before, err)
  {
    ghost var cur := before;
    for i := 0 to |servers|
      invariant |cur| == |servers| && forall k :: 0 <= k < |servers| ==> servers[k].State() == cur[k]
      invariant forall k :: 0 <= k < i ==> !Invalid(before[k]) && cur[k] == Defaulted(before[k]).value
      invariant forall k :: i <= k < |servers| ==> cur[k] == before[k]
    {
      var e := servers[i].SetDefaults();
      if e.Some? {
        WalkStopped(servers, before, cur, i);
        return e;
      }
      cur := cur[i := servers[i].State()];
    }
    WalkFinished(servers, before, cur);
    return None;
  }

  lemma WalkStopped(servers: seq<Server>, before: seq<ServerState>, cur: seq<ServerState>, i: nat)
    requires |before| == |servers| == |cur| && i < |servers| && Invalid(before[i])
    requires forall k :: 0 <= k < |servers| ==> servers[k].State() == cur[k]
    requires forall k :: 0 <= k < i ==> !Invalid(before[k]) && cur[k] == Defaulted(before[k]).value
    requires forall k :: i <= k < |servers| ==> cur[k] == before[k]
    ensures Walked(servers, before, Some(Defaulted(before[i]).error))
  {
    FirstWhereAt(before, Invalid, i);
  }

  lemma WalkFinished(servers: seq<Server>, before: seq<ServerState>, cur: seq<ServerState>)
    requires |before| == |servers| == |cur|
    requires forall k :: 0 <= k < |servers| ==> servers[k].State() == cur[k]
    requires forall k :: 0 <= k < |servers| ==> !Invalid(before[k]) && cur[k] == Defaulted(before[k]).value
    ensures Walked(servers, before, None)
  {
  }

  /** The walk in `DefaultAll` stops at the first rejected record: the ones
      before it are defaulted, it and the rest are unchanged, and its error is
      reported; with no rejected record every one is defaulted. */
  lemma {:induction false} DefaultAllFirstInvalid(sts: seq<ServerState>)
    ensures var (after, err) := DefaultAll(sts);
      && |after| == |sts|
      && match FirstWhere(sts, Invalid)
        case None =>
          && err.None?
          && forall k :: 0 <= k < |sts| ==> after[k] == Defaulted(sts[k]).value
        case Some(i) =>
          && err == Some(Defaulted(sts[i]).error)
          && (forall k :: 0 <= k < i ==> after[k] == Defaulted(sts[k]).value)
          && after[i..] == sts[i..]
    decreases |sts|
  {
    if sts != [] && Defaulted(sts[0]).Success? {
      DefaultAllFirstInvalid(sts[1..]);
    }
  }

  /** The servers after `serverConfig.setDefaults` from the records `before`:
      the walk stops at the first rejected record and reports its error; the
      servers before it are defaulted, it and the rest are left as they were. */
  ghost predicate Walked(servers: seq<Server>, before: seq<ServerState>, err: Option<string>)
    requires |before| == |servers|
    reads set s | s in servers
  {
    match FirstWhere(before, Invalid)
    case None =>
      && err.None?
      && forall k :: 0 <= k < |servers| ==> servers[k].State() == Defaulted(before[k]).value
    case Some(i) =>
      && err == Some(Defaulted(before[i]).error)
      && (forall k :: 0 <= k < i ==> servers[k].State() == Defaulted(before[k]).value)
      && (forall k :: i <= k < |servers| ==> servers[k].State() == before[k])
  }

  /** A server whose `Host` defaulting rejects. */
  predicate Invalid(st: ServerState) {
    Defaulted(st).Failure?
  }

  /** The records of a list of servers, in order. */
  function StatesOf(servers: seq<Server>): (r: seq<ServerState>)
    reads set s | s in servers
    ensures |r| == |servers| && forall k :: 0 <= k < |servers| ==> r[k] == servers[k].State()
  {
    seq(|servers|, k reads set s | s in servers requires 0 <= k < |servers| => servers[k].State())
  }

  /** The configured `Host` of each record, in order. */
  function Hosts(sts: seq<ServerState>): (r: seq<string>)
    ensures |r| == |sts| && forall k :: 0 <= k < |sts| ==> r[k] == sts[k].Host
  {
    seq(|sts|, k requires 0 <= k < |sts| => sts[k].Host)
  }

  /** The test `findServerFuzzy` applies to each `Host`. */
  function Mentions(token: string): string -> bool {
    (h: string) => Contains(h, token)
  }

  /** `findServerFuzzy`: the first server, in configuration order, whose
      `Host` contains the token; several matches are not reported. */
  method FindServerFuzzy(servers: seq<Server>, token: string) returns (r: Result<Server, string>)
    ensures match FirstWhere(Hosts(StatesOf(servers)), Mentions(token))
      case None => r == Failure(NotFound)
      case Some(i) => r == Success(servers[i])
  {
    ghost var hosts := Hosts(StatesOf(servers));
    for i := 0 to |servers|
      invariant forall k :: 0 <= k < i ==> !Contains(hosts[k], token)
    {
      if Contains(servers[i].Host, token) {
        FirstWhereAt(hosts, Mentions(token), i);
        return Success(servers[i]);
      }
    }
    return Failure(NotFound);
  }

  // ---------------------------------------------------------------------
  // Lifecycle operations

  const Updating: string := "ProvisioningState/updating"
  const Starting: string := "PowerState/starting"
  const Running: string := "PowerState/running"
  const Deallocating: string := "PowerState/deallocating"
  const Deallocated: string := "PowerState/deallocated"

  /** The calls the manager makes to the cloud provider's VM client. */
  datatype CloudCall =
    | InstanceView(group: string, name: string)
    | BeginStart(group: string, name: string)
    | BeginDeallocate(group: string, name: string)
    | PollUntilDone

  /** The outcome of a server probe: the decoded pong, or why there is none. */
  type Probe = Result<Minecraft.Pong, string>

  /** What the cloud answers: the instance view's status codes (or the error
      of that call), and whether the begin call and the wait succeed. */
  datatype Cloud = Cloud(view: Result<seq<string>, string>, begin: Outcome<string>, poll: Outcome<string>)

  /** A reply to the operator or an error, and the calls issued on the way. */
  datatype Attempt = Attempt(reply: Result<string, string>, calls: seq<CloudCall>)

  predicate BlocksStart(code: string) { code == Updating || code == Starting || code == Running }

  predicate BlocksDeallocate(code: string) { code == Updating || code == Deallocating || code == Deallocated }

  function StartRefusal(host: string, code: string): string
    requires BlocksStart(code)
  {
    if code == Updating then host + " is currently updating, wait for it to finish whatever it's doing"
    else if code == Starting then host + " is already starting, please wait you impatient animal"
    else host + " is running, but Minecraft isn't up yet"
  }

  function DeallocateRefusal(host: string, code: string): string
    requires BlocksDeallocate(code)
  {
    if code == Updating then host + " is currently updating, wait for it to finish whatever it's doing"
    else if code == Deallocating then host + " is already deallocating"
    else host + " is already deallocated"
  }

  /** The decision table of `startServer`. */
  function StartPlan(st: ServerState, probe: Probe, cloud: Cloud): Attempt {
    var view := InstanceView(st.ResourceGroup, st.Name);
    if probe.Success? then
      Attempt(Success(st.Host + " is already running with " + Format(probe.value.PlayerCount) + " players"), [])
    else match cloud.view
      case Failure(e) => Attempt(Failure(e), [view])
      case Success(codes) =>
        match FirstWhere(codes, BlocksStart)
        case Some(i) => Attempt(Success(StartRefusal(st.Host, codes[i])), [view])
        case None =>
          var begin := BeginStart(st.ResourceGroup, st.Name);
          match cloud.begin
          case Fail(e) => Attempt(Failure("starting server: " + e), [view, begin])
          case Pass =>
            match cloud.poll
            case Fail(e) => Attempt(Failure("polling until start complete: " + e), [view, begin, PollUntilDone])
            case Pass => Attempt(Success(st.Host + " started"), [view, begin, PollUntilDone])
  }

  /** The decision table of `deallocateServer`; there is no probe and no
      check for players. */
  function DeallocatePlan(st: ServerState, cloud: Cloud): Attempt {
    var view := InstanceView(st.ResourceGroup, st.Name);
    match cloud.view
    case Failure(e) => Attempt(Failure(e), [view])
    case Success(codes) =>
      match FirstWhere(codes, BlocksDeallocate)
      case Some(i) => Attempt(Success(DeallocateRefusal(st.Host, codes[i])), [view])
      case None =>
        var begin := BeginDeallocate(st.ResourceGroup, st.Name);
        match cloud.begin
        case Fail(e) => Attempt(Failure("deallocating server: " + e), [view, begin])
        case Pass =>
          match cloud.poll
          case Fail(e) => Attempt(Failure("polling until deallocation complete: " + e), [view, begin, PollUntilDone])
          case Pass => Attempt(Success(st.Host + " deallocated"), [view, begin, PollUntilDone])
  }

  /** A reachable server is not touched: no cloud call, and the reply gives its player count. */
  lemma StartReachable(st: ServerState, probe: Probe, cloud: Cloud)
    requires probe.Success?
    ensures StartPlan(st, probe, cloud).calls == []
    ensures StartPlan(st, probe, cloud).reply ==
      Success(st.Host + " is already running with " + Format(probe.value.PlayerCount) + " players")
  {
  }

  /** A status code that means updating, starting or running prevents the
      start; the reply is the one for the first such code in the list. */
  lemma StartBlocked(st: ServerState, probe: Probe, cloud: Cloud, i: nat)
    requires probe.Failure? && cloud.view.Success?
    requires i < |cloud.view.value| && BlocksStart(cloud.view.value[i])
    requires forall k :: 0 <= k < i ==> !BlocksStart(cloud.view.value[k])
    ensures StartPlan(st, probe, cloud) ==
      Attempt(Success(StartRefusal(st.Host, cloud.view.value[i])), [InstanceView(st.ResourceGroup, st.Name)])
  {
    FirstWhereAt(cloud.view.value, BlocksStart, i);
  }

  /** The start is requested exactly when the probe fails and no status blocks it. */
  lemma StartBeginsIff(st: ServerState, probe: Probe, cloud: Cloud)
    ensures BeginStart(st.ResourceGroup, st.Name) in StartPlan(st, probe, cloud).calls <==>
      && probe.Failure? && cloud.view.Success?
      && forall k :: 0 <= k < |cloud.view.value| ==> !BlocksStart(cloud.view.value[k])
  {
    if probe.Failure? && cloud.view.Success? {
      var codes := cloud.view.value;
      if FirstWhere(codes, BlocksStart).Some? {
        var i := FirstWhere(codes, BlocksStart).value;
        assert BlocksStart(codes[i]);
      }
    }
  }

  /** A status code that means updating, deallocating or deallocated prevents
      the deallocation; the reply is the one for the first such code. */
  lemma DeallocateBlocked(st: ServerState, cloud: Cloud, i: nat)
    requires cloud.view.Success?
    requires i < |cloud.view.value| && BlocksDeallocate(cloud.view.value[i])
    requires forall k :: 0 <= k < i ==> !BlocksDeallocate(cloud.view.value[k])
    ensures DeallocatePlan(st, cloud) ==
      Attempt(Success(DeallocateRefusal(st.Host, cloud.view.value[i])), [InstanceView(st.ResourceGroup, st.Name)])
  {
    FirstWhereAt(cloud.view.value, BlocksDeallocate, i);
  }

  /** The deallocation is requested exactly when no status blocks it,
      whatever the number of players on the server. */
  lemma DeallocateBeginsIff(st: ServerState, cloud: Cloud)
    ensures BeginDeallocate(st.ResourceGroup, st.Name) in DeallocatePlan(st, cloud).calls <==>
      && cloud.view.Success?
      && forall k :: 0 <= k < |cloud.view.value| ==> !BlocksDeallocate(cloud.view.value[k])
  {
    if cloud.view.Success? {
      var codes := cloud.view.value;
      if FirstWhere(codes, BlocksDeallocate).Some? {
        var i := FirstWhere(codes, BlocksDeallocate).value;
        assert BlocksDeallocate(codes[i]);
      }
    }
  }

  /** Neither operation issues more than the view, one begin call and one wait, in that order. */
  lemma PlansCallOrder(st: ServerState, probe: Probe, cloud: Cloud)
    ensures var c := StartPlan(st, probe, cloud).calls;
      |c| <= 3 && (c != [] ==> c[0] == InstanceView(st.ResourceGroup, st.Name))
    ensures var c := DeallocatePlan(st, cloud).calls;
      1 <= |c| <= 3 && c[0] == InstanceView(st.ResourceGroup, st.Name)
  {
    StartCallOrder(st, probe, cloud);
    DeallocateCallOrder(st, cloud);
  }

  lemma StartCallOrder(st: ServerState, probe: Probe, cloud: Cloud)
    ensures var c := StartPlan(st, probe, cloud).calls;
      |c| <= 3 && (c != [] ==> c[0] == InstanceView(st.ResourceGroup, st.Name))
  {
  }

  lemma DeallocateCallOrder(st: ServerState, cloud: Cloud)
    ensures var c := DeallocatePlan(st, cloud).calls;
      1 <= |c| <= 3 && c[0] == InstanceView(st.ResourceGroup, st.Name)
  {
  }

  /** The body of `startServer` without its deferred update: it reads the
      server and walks the status codes until one blocks the start. */
  method StartBody(s: Server, probe: Probe, cloud: Cloud) returns (o: Attempt)
    ensures o == StartPlan(s.State(), probe, cloud)
  {
    if probe.Success? {
      return Attempt(Success(s.Host + " is already running with " + Format(probe.value.PlayerCount) + " players"), []);
    }
    var view := InstanceView(s.ResourceGroup, s.Name);
    if cloud.view.Failure? {
      return Attempt(Failure(cloud.view.error), [view]);
    }
    var codes := cloud.view.value;
    for i := 0 to |codes|
      invariant forall k :: 0 <= k < i ==> !BlocksStart(codes[k])
    {
      if BlocksStart(codes[i]) {
        FirstWhereAt(codes, BlocksStart, i);
        return Attempt(Success(StartRefusal(s.Host, codes[i])), [view]);
      }
    }
    var begin := BeginStart(s.ResourceGroup, s.Name);
    if cloud.begin.Fail? {
      return Attempt(Failure("starting server: " + cloud.begin.error), [view, begin]);
    }
    if cloud.poll.Fail? {
      return Attempt(Failure("polling until start complete: " + cloud.poll.error), [view, begin, PollUntilDone]);
    }
    return Attempt(Success(s.Host + " started"), [view, begin, PollUntilDone]);
  }

  /** `startServer`: the decision table, then, on every way out, the server
      is marked online with a fresh idle count. */
  method StartServer(s: Server, probe: Probe, cloud: Cloud) returns (o: Attempt)
    modifies s
    ensures o == StartPlan(old(s.State()), probe, cloud)
    ensures s.State() == old(s.State()).(online := true, checkCount := 0)
  {
    o := StartBody(s, probe, cloud);
    s.online := true;
    s.checkCount := 0;
  }

  /** The body of `deallocateServer` without its deferred update. */
  method DeallocateBody(s: Server, cloud: Cloud) returns (o: Attempt)
    ensures o == DeallocatePlan(s.State(), cloud)
  {
    var view := InstanceView(s.ResourceGroup, s.Name);
    if cloud.view.Failure? {
      return Attempt(Failure(cloud.view.error), [view]);
    }
    var codes := cloud.view.value;
    for i := 0 to |codes|
      invariant forall k :: 0 <= k < i ==> !BlocksDeallocate(codes[k])
    {
      if BlocksDeallocate(codes[i]) {
        FirstWhereAt(codes, BlocksDeallocate, i);
        return Attempt(Success(DeallocateRefusal(s.Host, codes[i])), [view]);
      }
    }
    var begin := BeginDeallocate(s.ResourceGroup, s.Name);
    if cloud.begin.Fail? {
      return Attempt(Failure("deallocating server: " + cloud.begin.error), [view, begin]);
    }
    if cloud.poll.Fail? {
      return Attempt(Failure("polling until deallocation complete: " + cloud.poll.error), [view, begin, PollUntilDone]);
    }
    return Attempt(Success(s.Host + " deallocated"), [view, begin, PollUntilDone]);
  }

  /** `deallocateServer`: the decision table, then, on every way out, the
      server is marked offline with a fresh idle count. */
  method DeallocateServer(s: Server, cloud: Cloud) returns (o: Attempt)
    modifies s
    ensures o == DeallocatePlan(old(s.State()), cloud)
    ensures s.State() == old(s.State()).(online := false, checkCount := 0)
  {
    o := DeallocateBody(s, cloud);
    s.online := false;
    s.checkCount := 0;
  }
}
