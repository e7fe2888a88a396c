/** The manager's Discord front end (`onMessageCreate` and `sendMessagef`):
    which messages it answers, how a message becomes a command, what it
    replies, which server it touches, and how a reply is shaped before it is
    sent to the management channel. */
module Commands {
  import opened Wrappers
  import opened Text
  import opened Minecraft
  import opened Servers

  /** What goes to the management channel: a plain message, or a file attachment. */
  datatype Outbound = Message(text: string) | File(name: string, text: string)

  /** Longest wrapped reply, in bytes, that is sent as a message. */
  const MaxMessageBytes: nat := 1000

  const Fence: string := "```"

  /** `sendMessagef` once its format has been trimmed and formatted: an
      empty text becomes "ok", the text is put in a code block, and a block
      longer than the limit goes as `output.txt` instead. */
  function Deliver(formatted: string): Outbound {
    var body := if formatted == "" then "ok" else formatted;
    var wrapped := Fence + "\n" + body + "\n" + Fence;
    if Utf8Len(wrapped) > MaxMessageBytes then File("output.txt", TrimSpace(wrapped))
    else Message(wrapped)
  }

  /** `sendMessagef(msg)` with no arguments: the text, trimmed. */
  function SendText(msg: string): Outbound {
    Deliver(TrimSpace(msg))
  }

  /** A reply the bot asks to send, before it is shaped: a message sent as
      it is (the "pong" of `.ping`), `sendMessagef(text)` without arguments, or
      `sendMessagef(prefix + "%s", name)`, whose format has no space to trim. */
  datatype Send = Direct(message: string) | Reply(text: string) | Named(prefix: string, name: string)

  /** What reaches the channel for a send request. */
  function Outgoing(s: Send): Outbound {
    match s
    case Direct(message) => Message(message)
    case Reply(text) => SendText(text)
    case Named(prefix, name) => Deliver(prefix + name)
  }

  /** A delivered reply is the text in a code block, "ok" for nothing, and it
      is an attachment exactly when that block is over the limit in bytes. */
  lemma DeliverShape(formatted: string)
    ensures var body := if formatted == "" then "ok" else formatted;
      var wrapped := Fence + "\n" + body + "\n" + Fence;
      && Deliver(formatted).text == wrapped
      && (Deliver(formatted).File? <==> Utf8Len(wrapped) > MaxMessageBytes)
      && (Deliver(formatted).File? ==> Deliver(formatted).name == "output.txt")
  {
    var body := if formatted == "" then "ok" else formatted;
    var wrapped := Fence + "\n" + body + "\n" + Fence;
    assert wrapped[0] == '`' && wrapped[|wrapped| - 1] == '`';
    TrimNoop(wrapped, GoSpace);
  }

  /** The body of a delivered message can be read back out of its code
      block: it is the formatted text, or "ok" when that was empty. */
  lemma DeliverUnwrap(formatted: string)
    ensures var t := Deliver(formatted).text;
      && |t| >= 8 && t[..4] == Fence + "\n" && t[|t| - 4..] == "\n" + Fence
      && t[4..|t| - 4] == (if formatted == "" then "ok" else formatted)
  {
    DeliverShape(formatted);
  }

  /** An incoming Discord message. */
  datatype Incoming = Incoming(channel: string, author: string, content: string)

  datatype Request =
    | Help
    | Ping
    | Uptime
    | List
    | Info(arg: string)
    | Start(arg: string)
    | Stop(arg: string)
    | Unknown

  /** The command word and its argument text: the content is cut at its
      first space and the rest is trimmed. */
  function Words(content: string): (string, string) {
    var parts := CutAtSpace(content);
    (parts[0], if |parts| > 1 then TrimSpace(parts[1]) else "")
  }

  /** Which command a message asks for; `None` when the bot ignores it. */
  function Route(m: Incoming, mgmt: string, self: string): Option<Request> {
    if m.channel != mgmt || m.author == self || !HasPrefix(m.content, ".") then None
    else
      var (cmd, args) := Words(m.content);
      Some(Command(cmd, args))
  }

  /** The switch on the command word. */
  function Command(cmd: string, args: string): Request {
    if cmd == ".help" then Help
    else if cmd == ".ping" then Ping
    else if cmd == ".uptime" then Uptime
    else if cmd == ".list" then List
    else if cmd == ".info" then Info(args)
    else if cmd == ".start" then Start(args)
    else if cmd == ".stop" then Stop(args)
    else Unknown
  }

  /** Messages from another channel, from the bot itself, or not starting
      with `.` are ignored, and every other message is answered. */
  lemma RouteIgnores(m: Incoming, mgmt: string, self: string)
    ensures Route(m, mgmt, self).None? <==>
      m.channel != mgmt || m.author == self || m.content == [] || m.content[0] != '.'
  {
    assert HasPrefix(m.content, ".") <==> m.content != [] && m.content[..1] == [m.content[0]] == ".";
  }

  /** Writing a server command with an argument and routing it gives back
      that command and that argument, whatever space follows the word. */
  lemma RouteServerCommand(mgmt: string, author: string, self: string, word: string, pad: string, arg: string)
    requires author != self
    requires (word == ".info" || word == ".start" || word == ".stop")
    requires forall k :: 0 <= k < |pad| ==> pad[k] in GoSpace
    requires arg != [] && arg[0] !in GoSpace && arg[|arg| - 1] !in GoSpace
    ensures Route(Incoming(mgmt, author, word + " " + pad + arg), mgmt, self) ==
      Some(if word == ".info" then Info(arg) else if word == ".start" then Start(arg) else Stop(arg))
  {
    var content := word + " " + pad + arg;
    ServerWord(word, arg);
    WordsOfCommand(word, pad, arg);
    RouteOfWords(Incoming(mgmt, author, content), mgmt, self, word, arg);
  }

  /** The three server commands: their words start with `.`, hold no space,
      and name the command that takes the argument. */
  lemma ServerWord(word: string, arg: string)
    requires word == ".info" || word == ".start" || word == ".stop"
    ensures word != [] && word[0] == '.' && ' ' !in word
    ensures Command(word, arg) ==
      if word == ".info" then Info(arg) else if word == ".start" then Start(arg) else Stop(arg)
  {
  }

  /** A message on the management channel, from someone else and starting
      with `.`, asks for the command its first word names. */
  lemma RouteOfWords(m: Incoming, mgmt: string, self: string, cmd: string, args: string)
    requires m.channel == mgmt && m.author != self
    requires HasPrefix(m.content, ".") && Words(m.content) == (cmd, args)
    ensures Route(m, mgmt, self) == Some(Command(cmd, args))
  {
  }

  /** A word without spaces, a space, padding and an argument split back into the word and the argument. */
  lemma WordsOfCommand(word: string, pad: string, arg: string)
    requires word != [] && word[0] == '.' && ' ' !in word
    requires forall k :: 0 <= k < |pad| ==> pad[k] in GoSpace
    requires arg != [] && arg[0] !in GoSpace && arg[|arg| - 1] !in GoSpace
    ensures Words(word + " " + pad + arg) == (word, arg)
    ensures HasPrefix(word + " " + pad + arg, ".")
  {
    var content := word + " " + pad + arg;
    assert content[..|word|] == word && content[|word|] == ' ';
    assert content[..1] == ".";
    assert IndexOf(content, ' ') == Some(|word|);
    assert content[|word| + 1..] == pad + arg;
    TrimPadded(pad, arg);
  }

  lemma TrimPadded(pad: string, arg: string)
    requires forall k :: 0 <= k < |pad| ==> pad[k] in GoSpace
    requires arg != [] && arg[0] !in GoSpace && arg[|arg| - 1] !in GoSpace
    ensures TrimSpace(pad + arg) == arg
  {
    TrimLeftPadded(pad, arg, GoSpace);
    TrimNoop(arg, GoSpace);
  }

  /** Leading characters from `ws` are all that a left trim removes. */
  lemma {:induction false} TrimLeftPadded(pad: string, arg: string, ws: set<char>)
    requires forall k :: 0 <= k < |pad| ==> pad[k] in ws
    requires arg != [] && arg[0] !in ws
    ensures TrimLeft(pad + arg, ws) == arg
  {
    if pad == [] {
      assert pad + arg == arg;
    } else {
      assert (pad + arg)[1..] == pad[1..] + arg;
      TrimLeftPadded(pad[1..], arg, ws);
    }
  }

  const HelpText: string :=
    "\n.help - show this help message\n.ping - pong\n.uptime - show uptime of this bot\n.list - list servers\n" +
    ".info <server> - show server info\n.start <server> - start a server\n.stop <server> - stop a server\n"

  /** The `.uptime` reply; both values come from the environment. */
  function UptimeText(hostname: string, uptime: string): string {
    "\nhost: " + hostname + "\nuptime: " + uptime + "\n"
  }

  /** Go's `%-10s`: the text left-aligned in ten columns. */
  function PadTen(s: string): (r: string)
    ensures |r| == if |s| < 10 then 10 else |s|
    ensures r[..|s|] == s && forall k :: |s| <= k < |r| ==> r[k] == ' '
  {
    if |s| < 10 then s + seq(10 - |s|, _ => ' ') else s
  }

  /** One line of `.list`: the status in ten columns, then `host:port`. */
  function ListLine(st: ServerState): string {
    PadTen("[" + (if st.online then "online" else "offline") + "]") + st.host + ":" + st.port
  }

  /** A `.list` line starts with the padded status and ends with the address. */
  lemma ListLineParts(st: ServerState)
    ensures var l := ListLine(st);
      && |l| >= 10
      && l[..10] == (if st.online then "[online]  " else "[offline] ")
      && l[10..] == st.host + ":" + st.port
  {
  }

  /** The lines of `.list`, one per configured server in order. */
  function ListLines(sts: seq<ServerState>): (r: seq<string>)
    ensures |r| == |sts| && forall k :: 0 <= k < |sts| ==> r[k] == ListLine(sts[k])
  {
    seq(|sts|, k requires 0 <= k < |sts| => ListLine(sts[k]))
  }

  /** The `k`-th line of `.list` shows the `k`-th server's status in ten
      columns and then its address. */
  lemma ListLinesShape(sts: seq<ServerState>, k: int)
    requires 0 <= k < |sts|
    ensures var l := ListLines(sts)[k];
      && |l| >= 10
      && l[..10] == (if sts[k].online then "[online]  " else "[offline] ")
      && l[10..] == sts[k].host + ":" + sts[k].port
  {
    ListLineParts(sts[k]);
  }

  /** `.list` without servers replies "ok". */
  lemma ListEmptySaysOk(sts: seq<ServerState>)
    requires sts == []
    ensures Outgoing(Reply(Join(ListLines(sts), "\n"))) == Message(Fence + "\nok\n" + Fence)
  {
    assert ListLines(sts) == [];
    EmptyReplySaysOk(Join(ListLines(sts), "\n"));
  }

  /** A reply with no text at all is sent as "ok". */
  lemma EmptyReplySaysOk(msg: string)
    requires msg == ""
    ensures Outgoing(Reply(msg)) == Message(Fence + "\nok\n" + Fence)
  {
    assert TrimSpace(msg) == msg;
    DeliverShort(msg);
    assert Fence + "\n" + "ok" + "\n" + Fence == Fence + "\nok\n" + Fence;
  }

  /** `.list`: the lines of the servers, in order, one per line. */
  method ListServers(servers: seq<Server>) returns (msg: string)
    ensures msg == Join(ListLines(StatesOf(servers)), "\n")
  {
    ghost var sts := StatesOf(servers);
    var lines: seq<string> := [];
    for i := 0 to |servers|
      invariant lines == ListLines(sts)[..i]
    {
      var status := "offline";
      if servers[i].online {
        status := "online";
      }
      lines := lines + [PadTen("[" + status + "]") + servers[i].host + ":" + servers[i].port];
      assert ListLines(sts)[..i + 1] == ListLines(sts)[..i] + [ListLine(sts[i])];
    }
    assert ListLines(sts)[..|servers|] == ListLines(sts);
    msg := Join(lines, "\n");
  }

  /** What the environment answers while a command runs: the host name and
      uptime text, the probe of the server, and the cloud's answers. */
  datatype Env = Env(hostname: string, uptime: string, probe: Probe, cloud: Cloud)

  /** The effect of a command: the messages sent in order, the server it
      updated (its index and new record), and the cloud calls it made. */
  datatype Effect = Effect(sent: seq<Send>, change: Option<(nat, ServerState)>, calls: seq<CloudCall>)

  /** The server a server command works on, defaulted, or the reply that
      says why there is none. */
  function Target(sts: seq<ServerState>, arg: string): (r: Result<(nat, ServerState), string>)
    ensures r.Success? ==> r.value.0 < |sts| && Defaulted(sts[r.value.0]) == Success(r.value.1)
  {
    match FirstWhere(Hosts(sts), Mentions(arg))
    case None => Failure("error finding server:\n" + NotFound)
    case Some(i) =>
      match Defaulted(sts[i])
      case Failure(e) => Failure("error setting defaults:\n" + e)
      case Success(d) => Success((i, d))
  }

  function Usage(req: Request): string
    requires req.Info? || req.Start? || req.Stop?
  {
    if req.Info? then "usage: .info <server>"
    else if req.Start? then "usage: .start <server>"
    else "usage: .stop <server>"
  }

  /** `.info` on the `i`-th server, defaulted to `d`: its name, then its
      description or why the probe failed. */
  function InfoEffect(i: nat, d: ServerState, probe: Probe): Effect {
    var msg := match probe
      case Failure(e) => "error checking " + d.Name + ":\n" + e
      case Success(pong) => Pretty(pong);
    Effect([Named("", d.Name), Reply(msg)], Some((i, d)), [])
  }

  /** `.start` on the `i`-th server, defaulted to `d`. */
  function StartEffect(i: nat, d: ServerState, env: Env): Effect {
    var plan := StartPlan(d, env.probe, env.cloud);
    var msg := match plan.reply
      case Success(t) => t
      case Failure(e) => "error starting " + d.Name + ":\n" + e;
    Effect([Named("received start request for ", d.Name), Reply(msg)],
           Some((i, d.(online := true, checkCount := 0))), plan.calls)
  }

  /** `.stop` on the `i`-th server, defaulted to `d`. */
  function StopEffect(i: nat, d: ServerState, env: Env): Effect {
    var plan := DeallocatePlan(d, env.cloud);
    var msg := match plan.reply
      case Success(t) => t
      case Failure(e) => "error deallocating " + d.Name + ":\n" + e;
    Effect([Named("received deallocation request for ", d.Name), Reply(msg)],
           Some((i, d.(online := false, checkCount := 0))), plan.calls)
  }

  /** The `.info`, `.start` and `.stop` commands. */
  function ServerCommand(req: Request, sts: seq<ServerState>, env: Env): Effect
    requires req.Info? || req.Start? || req.Stop?
  {
    if req.arg == "" then Effect([Reply(Usage(req))], None, [])
    else match Target(sts, req.arg)
      case Failure(msg) => Effect([Reply(msg)], None, [])
      case Success((i, d)) =>
        if req.Info? then InfoEffect(i, d, env.probe)
        else if req.Start? then StartEffect(i, d, env)
        else StopEffect(i, d, env)
  }

  /** The effect of one routed command on the servers' records `sts`. */
  function Handle(req: Request, sts: seq<ServerState>, env: Env): Effect {
    match req
    case Help => Effect([Reply(HelpText)], None, [])
    case Ping => Effect([Direct("pong"), Reply("")], None, [])
    case Uptime => Effect([Reply(UptimeText(env.hostname, env.uptime))], None, [])
    case List => Effect([Reply(Join(ListLines(sts), "\n"))], None, [])
    case Unknown => Effect([Reply("unknown command, try .help")], None, [])
    case _ => ServerCommand(req, sts, env)
  }

  /** A server command without an argument only replies with its usage. */
  lemma UsageWithoutArgument(req: Request, sts: seq<ServerState>, env: Env)
    requires (req.Info? || req.Start? || req.Stop?) && req.arg == ""
    ensures Handle(req, sts, env) == Effect([Reply(Usage(req))], None, [])
  {
  }

  /** Only `.info`, `.start` and `.stop` change a server, and only the first
      one whose `Host` mentions the argument; only `.start` and `.stop` call
      the cloud. */
  lemma HandleTouchesTarget(req: Request, sts: seq<ServerState>, env: Env)
    ensures var e := Handle(req, sts, env);
      && (e.change.Some? ==>
            && (req.Info? || req.Start? || req.Stop?) && req.arg != ""
            && FirstWhere(Hosts(sts), Mentions(req.arg)) == Some(e.change.value.0)
            && Defaulted(sts[e.change.value.0]).Success?)
      && (e.calls != [] ==> req.Start? || req.Stop?)
  {
    if req.Info? || req.Start? || req.Stop? {
      HandleServerCommand(req, sts, env);
      if req.arg != "" && Target(sts, req.arg).Success? {
        var (i, d) := Target(sts, req.arg).value;
        ServerCommandFound(req, sts, env, i, d);
      }
    }
  }

  /** A short text is sent as a message, never as an attachment. */
  lemma DeliverShort(formatted: string)
    requires |formatted| <= 240
    ensures Deliver(formatted) ==
      Message(Fence + "\n" + (if formatted == "" then "ok" else formatted) + "\n" + Fence)
  {
  }

  /** `.ping` answers "pong" and then, having no reply text, also "ok". */
  lemma PingSendsPongThenOk(sts: seq<ServerState>, env: Env)
    ensures var sent := Handle(Ping, sts, env).sent;
      && |sent| == 2
      && Outgoing(sent[0]) == Message("pong")
      && Outgoing(sent[1]) == Message(Fence + "\nok\n" + Fence)
  {
    var sent := Handle(Ping, sts, env).sent;
    assert sent == [Direct("pong"), Reply("")];
    EmptyReplySaysOk(sent[1].text);
  }

  /** `.start` on a server that answers the probe reports its players and calls nothing. */
  lemma StartRunningServer(arg: string, sts: seq<ServerState>, env: Env)
    requires arg != "" && env.probe.Success? && Target(sts, arg).Success?
    ensures var d := Target(sts, arg).value.1;
      var e := ServerCommand(Start(arg), sts, env);
      && e.calls == []
      && e.sent[1] == Reply(d.Host + " is already running with " + Decimal.Format(env.probe.value.PlayerCount) + " players")
  {
    var t := Target(sts, arg).value;
    StartReachable(t.1, env.probe, env.cloud);
    var plan := StartPlan(t.1, env.probe, env.cloud);
    assert plan.calls == [] && plan.reply.Success?;
    var e := StartEffect(t.0, t.1, env);
    assert e.calls == plan.calls && e.sent[1] == Reply(plan.reply.value);
    assert ServerCommand(Start(arg), sts, env) == e;
  }

  /** `onMessageCreate`: route the message, then carry out the command on
      the configured servers. */
  method OnMessageCreate(cfg: ServerConfig, m: Incoming, mgmt: string, self: string, env: Env)
    returns (sent: seq<Send>, calls: seq<CloudCall>)
    requires cfg.Distinct()
    modifies set s | s in cfg.Servers
    ensures Route(m, mgmt, self).None? ==>
      && sent == [] && calls == []
      && forall k :: 0 <= k < |cfg.Servers| ==> cfg.Servers[k].State() == old(cfg.Servers[k].State())
    ensures Route(m, mgmt, self).Some? ==>
      var e := Handle(Route(m, mgmt, self).value, old(StatesOf(cfg.Servers)), env);
      && sent == e.sent && calls == e.calls
      && Changed(cfg.Servers, old(StatesOf(cfg.Servers)), e.change)
  {
    var servers := cfg.Servers;
    ghost var before := StatesOf(servers);
    var route := Route(m, mgmt, self);
    if route.None? {
      return [], [];
    }
    var req := route.value;
    if req.Info? || req.Start? || req.Stop? {
      sent, calls := RunServerCommand(servers, req, env, before);
      HandleServerCommand(req, before, env);
    } else {
      sent := ReplyCommand(servers, req, env);
      calls := [];
      ChangedNone(servers, before);
    }
  }

  lemma HandleServerCommand(req: Request, sts: seq<ServerState>, env: Env)
    requires req.Info? || req.Start? || req.Stop?
    ensures Handle(req, sts, env) == ServerCommand(req, sts, env)
  {
  }

  /** The commands that only reply: `.help`, `.ping`, `.uptime`, `.list`
      and an unknown command. */
  method ReplyCommand(servers: seq<Server>, req: Request, env: Env) returns (sent: seq<Send>)
    requires !(req.Info? || req.Start? || req.Stop?)
    ensures var e := Handle(req, StatesOf(servers), env);
      sent == e.sent && e.change.None? && e.calls == []
  {
    match req
    case Help =>
      sent := [Reply(HelpText)];
    case Ping =>
      sent := [Direct("pong"), Reply("")];
    case Uptime =>
      sent := [Reply(UptimeText(env.hostname, env.uptime))];
    case List =>
      var msg := ListServers(servers);
      sent := [Reply(msg)];
    case Unknown =>
      sent := [Reply("unknown command, try .help")];
  }

  /** The servers' records after `change`: the one it names has the new
      record and every other one is as it was in `before`. */
  ghost predicate Changed(servers: seq<Server>, before: seq<ServerState>, change: Option<(nat, ServerState)>)
    requires |before| == |servers|
    reads set s | s in servers
  {
    forall k :: 0 <= k < |servers| ==>
      servers[k].State() == if change.Some? && change.value.0 == k then change.value.1 else before[k]
  }

  /** `.info`, `.start` and `.stop` on the configured servers. */
  method RunServerCommand(servers: seq<Server>, req: Request, env: Env, ghost before: seq<ServerState>)
    returns (sent: seq<Send>, calls: seq<CloudCall>)
    requires req.Info? || req.Start? || req.Stop?
    requires forall a, b :: 0 <= a < b < |servers| ==> servers[a] != servers[b]
    requires |before| == |servers| && forall k :: 0 <= k < |servers| ==> servers[k].State() == before[k]
    modifies set s | s in servers
    ensures var e := ServerCommand(req, before, env);
      sent == e.sent && calls == e.calls && Changed(servers, before, e.change)
  {
    if req.arg == "" {
      ServerCommandUsage(req, before, env);
      ChangedNone(servers, before);
      return [Reply(Usage(req))], [];
    }
    assert Hosts(StatesOf(servers)) == Hosts(before);
    var found := FindServerFuzzy(servers, req.arg);
    if found.Failure? {
      assert FirstWhere(Hosts(before), Mentions(req.arg)).None?;
      ServerCommandMissing(req, before, env, "error finding server:\n" + found.error);
      ChangedNone(servers, before);
      return [Reply("error finding server:\n" + found.error)], [];
    }
    ghost var i := FirstWhere(Hosts(before), Mentions(req.arg)).value;
    sent, calls := RunOnFound(servers, found.value, req, env, before, i);
  }

  /** A server command once the lookup found `s`, the `i`-th server. */
  method RunOnFound(servers: seq<Server>, s: Server, req: Request, env: Env, ghost before: seq<ServerState>, ghost i: nat)
    returns (sent: seq<Send>, calls: seq<CloudCall>)
    requires (req.Info? || req.Start? || req.Stop?) && req.arg != ""
    requires forall a, b :: 0 <= a < b < |servers| ==> servers[a] != servers[b]
    requires |before| == |servers| && forall k :: 0 <= k < |servers| ==> servers[k].State() == before[k]
    requires FirstWhere(Hosts(before), Mentions(req.arg)) == Some(i) && i < |servers| && s == servers[i]
    modifies s
    ensures var e := ServerCommand(req, before, env);
      sent == e.sent && calls == e.calls && Changed(servers, before, e.change)
  {
    var err := s.SetDefaults();
    if err.Some? {
      ServerCommandMissing(req, before, env, "error setting defaults:\n" + err.value);
      ChangedNone(servers, before);
      return [Reply("error setting defaults:\n" + err.value)], [];
    }
    ghost var d := Defaulted(before[i]).value;
    ServerCommandFound(req, before, env, i, d);
    if req.Info? {
      sent, calls := InfoCommand(s, env.probe, i);
    } else if req.Start? {
      sent, calls := StartCommand(s, env, i);
    } else {
      sent, calls := StopCommand(s, env, i);
    }
    ChangedAt(servers, before, i, s.State());
  }

  lemma ServerCommandUsage(req: Request, sts: seq<ServerState>, env: Env)
    requires (req.Info? || req.Start? || req.Stop?) && req.arg == ""
    ensures ServerCommand(req, sts, env) == Effect([Reply(Usage(req))], None, [])
  {
  }

  lemma ServerCommandMissing(req: Request, sts: seq<ServerState>, env: Env, msg: string)
    requires (req.Info? || req.Start? || req.Stop?) && req.arg != ""
    requires Target(sts, req.arg) == Failure(msg)
    ensures ServerCommand(req, sts, env) == Effect([Reply(msg)], None, [])
  {
  }

  lemma ServerCommandFound(req: Request, sts: seq<ServerState>, env: Env, i: nat, d: ServerState)
    requires (req.Info? || req.Start? || req.Stop?) && req.arg != ""
    requires Target(sts, req.arg) == Success((i, d))
    ensures ServerCommand(req, sts, env) ==
      if req.Info? then InfoEffect(i, d, env.probe)
      else if req.Start? then StartEffect(i, d, env)
      else StopEffect(i, d, env)
  {
  }

  /** No server differs from `before`. */
  lemma ChangedNone(servers: seq<Server>, before: seq<ServerState>)
    requires |before| == |servers|
    requires forall k :: 0 <= k < |servers| ==> servers[k].State() == before[k]
    ensures Changed(servers, before, None)
  {
  }

  /** Only the `i`-th server differs from `before`. */
  lemma ChangedAt(servers: seq<Server>, before: seq<ServerState>, i: nat, st: ServerState)
    requires |before| == |servers| && i < |servers| && servers[i].State() == st
    requires forall k :: 0 <= k < |servers| && k != i ==> servers[k].State() == before[k]
    ensures Changed(servers, before, Some((i, st)))
  {
  }

  /** The `.info` branch once its server is found and defaulted. */
  method InfoCommand(s: Server, probe: Probe, ghost i: nat) returns (sent: seq<Send>, calls: seq<CloudCall>)
    ensures var e := InfoEffect(i, s.State(), probe);
      sent == e.sent && calls == e.calls
  {
    var msg: string;
    match probe {
      case Failure(e) =>
        msg := "error checking " + s.Name + ":\n" + e;
      case Success(pong) =>
        msg := Pretty(pong);
    }
    sent, calls := [Named("", s.Name), Reply(msg)], [];
  }

  /** The `.start` branch once its server is found and defaulted. */
  method StartCommand(s: Server, env: Env, ghost i: nat) returns (sent: seq<Send>, calls: seq<CloudCall>)
    modifies s
    ensures var e := StartEffect(i, old(s.State()), env);
      sent == e.sent && calls == e.calls && e.change == Some((i, s.State()))
  {
    var msg: string;
    sent := [Named("received start request for ", s.Name)];
    var name := s.Name;
    var o := StartServer(s, env.probe, env.cloud);
    calls := o.calls;
    match o.reply {
      case Success(t) =>
        msg := t;
      case Failure(e) =>
        msg := "error starting " + name + ":\n" + e;
    }
    sent := sent + [Reply(msg)];
  }

  /** The `.stop` branch once its server is found and defaulted. */
  method StopCommand(s: Server, env: Env, ghost i: nat) returns (sent: seq<Send>, calls: seq<CloudCall>)
    modifies s
    ensures var e := StopEffect(i, old(s.State()), env);
      sent == e.sent && calls == e.calls && e.change == Some((i, s.State()))
  {
    var msg: string;
    sent := [Named("received deallocation request for ", s.Name)];
    var name := s.Name;
    var o := DeallocateServer(s, env.cloud);
    calls := o.calls;
    match o.reply {
      case Success(t) =>
        msg := t;
      case Failure(e) =>
        msg := "error deallocating " + name + ":\n" + e;
    }
    sent := sent + [Reply(msg)];
  }
}
