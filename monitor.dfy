/** The manager's periodic checks of one server (`deallocateCondionally` and
    the hourly reconciliation in `Run`): a probe outcome updates the idle and
    error counters, and a counter reaching the threshold takes the server
    offline and asks for its deallocation. */
module Monitor {
  import opened Wrappers
  import opened Decimal
  import opened Servers

  /** Why a server is being deallocated. `total` is the idle time, the
      threshold times the check interval. */
  datatype Reason = TooManyErrors(threshold: int) | NoPlayers(total: int)

  /** The message sent before deallocating; `totalText` is Go's rendering of
      the idle duration, taken as given. */
  function ReasonText(host: string, reason: Reason, totalText: string): string {
    match reason
    case TooManyErrors(t) => host + " deallocating because it had " + FormatInt(t) + " consecutive errors"
    case NoPlayers(_) => host + " deallocating because it had no players for " + totalText
  }

  /** The message names the server's `Host` first. For too many errors the
      count in it reads back as the threshold; for missing players it ends
      with the idle time. */
  lemma {:induction false} ReasonTextReadsBack(host: string, reason: Reason, totalText: string)
    requires reason.TooManyErrors? ==> Int64Min <= reason.threshold <= Int64Max
    ensures var text := ReasonText(host, reason, totalText);
      var lead := host + " deallocating because it had ";
      && |text| > |lead| && text[..|lead|] == lead
      && (reason.TooManyErrors? ==>
            var tail := " consecutive errors";
            && |text| >= |lead| + |tail| && text[|text| - |tail|..] == tail
            && Atoi(text[|lead|..|text| - |tail|]) == Success(reason.threshold))
      && (reason.NoPlayers? ==> text[|lead|..] == "no players for " + totalText)
  {
    var lead := host + " deallocating because it had ";
    var text := ReasonText(host, reason, totalText);
    if reason.TooManyErrors? {
      var n := FormatInt(reason.threshold);
      var tail := " consecutive errors";
      assert text == lead + n + tail;
      assert text[|lead|..|text| - |tail|] == n;
      AtoiFormatInt(reason.threshold);
    } else {
      assert text == lead + ("no players for " + totalText);
    }
  }

  /** A deallocation `Step` asks for carries the threshold that was reached
      (too many errors) or the idle time, threshold times interval (no
      players), so its message reports them. */
  lemma StepAnnounces(st: ServerState, probe: Probe)
    requires Step(st, probe).1.Some?
    ensures var reason := Step(st, probe).1.value;
      && (reason.TooManyErrors? ==> reason.threshold == st.DeallocationThreshold)
      && (reason.NoPlayers? ==> reason.total == st.DeallocationThreshold * st.CheckInterval)
  {
  }

  /** The counters after one probe of an online server. */
  function Counted(st: ServerState, probe: Probe): ServerState {
    match probe
    case Failure(_) => st.(checkErrors := st.checkErrors + 1)
    case Success(pong) =>
      if pong.PlayerCount == 0 then st.(online := true, checkCount := st.checkCount + 1)
      else st.(online := true, checkCount := 0, checkErrors := 0)
  }

  /** One periodic check: the new record and, when the server is to be
      deallocated, why. The idle reason is checked last and so wins when
      both counters reach the threshold. */
  function Step(st: ServerState, probe: Probe): (ServerState, Option<Reason>) {
    if !st.online then (st, None)
    else
      var c := Counted(st, probe);
      var t := c.DeallocationThreshold;
      if c.checkCount >= t then (c.(online := false), Some(NoPlayers(t * c.CheckInterval)))
      else if c.checkErrors >= t then (c.(online := false), Some(TooManyErrors(t)))
      else (c, None)
  }

  /** `deallocateCondionally` on a server record: the probe outcome is an
      input, and the deallocation it launches in the background is returned
      as a request together with its reason. */
  method DeallocateConditionally(s: Server, probe: Probe) returns (deallocate: Option<Reason>)
    modifies s
    ensures (s.State(), deallocate) == Step(old(s.State()), probe)
  {
    if !s.online {
      return None;
    }
    if probe.Failure? {
      s.checkErrors := s.checkErrors + 1;
    } else {
      s.online := true;
      if probe.value.PlayerCount == 0 {
        s.checkCount := s.checkCount + 1;
      } else {
        s.checkCount := 0;
        s.checkErrors := 0;
      }
    }
    deallocate := None;
    if s.checkErrors >= s.DeallocationThreshold {
      deallocate := Some(TooManyErrors(s.DeallocationThreshold));
      s.online := false;
    }
    if s.checkCount >= s.DeallocationThreshold {
      deallocate := Some(NoPlayers(s.DeallocationThreshold * s.CheckInterval));
      s.online := false;
    }
  }

  /** The hourly reconciliation: a server is online exactly when it answers the probe. */
  method Reconcile(s: Server, probe: Probe)
    modifies s
    ensures s.State() == old(s.State()).(online := probe.Success?)
  {
    s.online := false;
    if probe.Success? {
      s.online := true;
    }
  }

  /** A server believed offline is not probed for deallocation. */
  lemma StepOffline(st: ServerState, probe: Probe)
    requires !st.online
    ensures Step(st, probe) == (st, None)
  {
  }

  /** Each probe outcome moves exactly the counters the source names, and
      nothing else in the record except `online`. */
  lemma StepCounters(st: ServerState, probe: Probe)
    requires st.online
    ensures var n := Step(st, probe).0;
      && n.(online := true, checkCount := st.checkCount, checkErrors := st.checkErrors) == st
      && (probe.Failure? ==> n.checkErrors == st.checkErrors + 1 && n.checkCount == st.checkCount)
      && (probe.Success? && probe.value.PlayerCount == 0 ==>
            n.checkCount == st.checkCount + 1 && n.checkErrors == st.checkErrors)
      && (probe.Success? && probe.value.PlayerCount != 0 ==> n.checkCount == 0 && n.checkErrors == 0)
  {
  }

  /** A deallocation is requested, and the server marked offline, exactly
      when a counter reached the threshold. */
  lemma StepTrigger(st: ServerState, probe: Probe)
    requires st.online
    ensures var (n, r) := Step(st, probe);
      && (r.Some? <==> n.checkCount >= st.DeallocationThreshold || n.checkErrors >= st.DeallocationThreshold)
      && n.online == r.None?
      && (r.Some? && n.checkCount >= st.DeallocationThreshold ==>
            r.value == NoPlayers(st.DeallocationThreshold * st.CheckInterval))
      && (r.Some? && n.checkCount < st.DeallocationThreshold ==> r.value == TooManyErrors(st.DeallocationThreshold))
  {
  }

  /** A probe that reaches the server with nobody on it. */
  predicate Idle(probe: Probe) {
    probe.Success? && probe.value.PlayerCount == 0
  }

  /** The record after a run of checks, and the deallocation requests made on the way. */
  function Run(st: ServerState, probes: seq<Probe>): (ServerState, seq<Reason>)
    decreases |probes|
  {
    if probes == [] then (st, [])
    else
      var (n, r) := Step(st, probes[0]);
      var (last, rs) := Run(n, probes[1..]);
      (last, (if r.Some? then [r.value] else []) + rs)
  }

  /** From a zero idle count, `k` idle probes below the threshold leave the
      server online with count `k` and request nothing. */
  lemma {:induction false} IdleRunBelow(st: ServerState, probes: seq<Probe>)
    requires st.online && st.checkCount + |probes| < st.DeallocationThreshold
    requires st.checkErrors < st.DeallocationThreshold
    requires forall k :: 0 <= k < |probes| ==> Idle(probes[k])
    ensures Run(st, probes) == (st.(checkCount := st.checkCount + |probes|), [])
    decreases |probes|
  {
    if probes != [] {
      var n := st.(checkCount := st.checkCount + 1);
      assert Step(st, probes[0]) == (n, None);
      IdleRunBelow(n, probes[1..]);
      var rest := Run(n, probes[1..]);
      assert rest.0 == st.(checkCount := st.checkCount + |probes|);
      assert rest.1 == [];
      assert Run(st, probes) == (rest.0, [] + rest.1);
      assert Run(st, probes).1 == [];
      assert Run(st, probes).0 == st.(checkCount := st.checkCount + |probes|);
    } else {
      assert st.(checkCount := st.checkCount + 0) == st;
    }
  }

  /** From zero counters, the deallocation fires on exactly the
      threshold-th consecutive idle probe, for the idle reason. */
  lemma IdleRunFires(st: ServerState, probes: seq<Probe>)
    requires st.online && st.checkCount == 0 && st.checkErrors == 0 && st.DeallocationThreshold >= 1
    requires |probes| == st.DeallocationThreshold
    requires forall k :: 0 <= k < |probes| ==> Idle(probes[k])
    ensures Run(st, probes[..|probes| - 1]).1 == []
    ensures Run(st, probes).1 == [NoPlayers(st.DeallocationThreshold * st.CheckInterval)]
    ensures !Run(st, probes).0.online
  {
    var t := st.DeallocationThreshold;
    var init := probes[..t - 1];
    IdleRunBelow(st, init);
    RunAppend(st, init, [probes[t - 1]]);
    assert init + [probes[t - 1]] == probes;
  }

  /** Running two stretches of checks one after the other. */
  lemma {:induction false} RunAppend(st: ServerState, a: seq<Probe>, b: seq<Probe>)
    ensures Run(st, a + b) == (Run(Run(st, a).0, b).0, Run(st, a).1 + Run(Run(st, a).0, b).1)
    decreases |a|
  {
    if a == [] {
      assert a + b == b;
      assert Run(st, a).1 + Run(Run(st, a).0, b).1 == Run(st, b).1;
    } else {
      var (n, r) := Step(st, a[0]);
      RunAppend(n, a[1..], b);
      assert (a + b)[0] == a[0] && (a + b)[1..] == a[1..] + b;
      var head: seq<Reason> := if r.Some? then [r.value] else [];
      assert Run(st, a) == (Run(n, a[1..]).0, head + Run(n, a[1..]).1);
      assert Run(st, a + b) == (Run(n, a[1..] + b).0, head + Run(n, a[1..] + b).1);
      assert Run(st, a + b).0 == Run(Run(st, a).0, b).0;
      assert Run(st, a + b).1 == Run(st, a).1 + Run(Run(st, a).0, b).1;
    }
  }

  /** Number of failed probes in a run. */
  function Failures(probes: seq<Probe>): nat {
    if probes == [] then 0 else (if probes[0].Failure? then 1 else 0) + Failures(probes[1..])
  }

  /** Errors are not forgotten across idle probes: while no probe finds
      players and no counter reaches the threshold, the error count grows by
      the number of failures and the idle count by the number of idle probes. */
  lemma {:induction false} ErrorsAccumulate(st: ServerState, probes: seq<Probe>)
    requires st.online
    requires forall k :: 0 <= k < |probes| ==> probes[k].Failure? || Idle(probes[k])
    requires st.checkErrors + Failures(probes) < st.DeallocationThreshold
    requires st.checkCount + (|probes| - Failures(probes)) < st.DeallocationThreshold
    ensures Run(st, probes) ==
      (st.(checkErrors := st.checkErrors + Failures(probes),
           checkCount := st.checkCount + (|probes| - Failures(probes))), [])
    decreases |probes|
  {
    if probes != [] {
      FailuresBound(probes[1..]);
      var n := Step(st, probes[0]).0;
      assert Step(st, probes[0]).1 == None;
      ErrorsAccumulate(n, probes[1..]);
      assert Run(st, probes) == (Run(n, probes[1..]).0, [] + Run(n, probes[1..]).1);
      assert Run(st, probes).1 == [];
      assert Run(st, probes).0 == st.(checkErrors := st.checkErrors + Failures(probes),
        checkCount := st.checkCount + (|probes| - Failures(probes)));
    }
  }

  lemma {:induction false} FailuresBound(probes: seq<Probe>)
    ensures Failures(probes) <= |probes|
  {
    if probes != [] {
      FailuresBound(probes[1..]);
    }
  }

  /** After a reconciliation that finds the server unreachable, the next
      check changes nothing and requests nothing. */
  lemma ReconciledOfflineIsQuiet(st: ServerState, probe: Probe, next: Probe)
    requires probe.Failure?
    ensures Step(st.(online := probe.Success?), next) == (st.(online := false), None)
  {
  }
}
