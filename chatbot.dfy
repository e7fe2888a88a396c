/** The chatbot's settings and conversation state (`go/chatbot/command/discord.go`):
    the prompt table, the message queue behind one system prompt, the guard
    that decides whether the bot speaks on a reply tick, and the management
    commands `.prompts add` and `.set`. OpenAI, Discord, tickers, floats and
    randomness are inputs or left out. */
module Chatbot {
  import opened Wrappers
  import opened Text
  import opened Decimal
  import opened Queue

  datatype Role = System | User | Assistant

  /** One chat-completion message. */
  datatype Message = Message(role: Role, content: string)

  // ---------------------------------------------------------------------
  // Prompts

  /** The prompt table after `parsePrompts`: every personality's prompt
      between the meta prefix and suffix. */
  function Wrapped(ps: map<string, string>, prefix: string, suffix: string): (r: map<string, string>)
    ensures r.Keys == ps.Keys
  {
    map name | name in ps :: prefix + ps[name] + suffix
  }

  /** What the `.prompts` listing shows of a stored prompt: the prefix and
      the suffix removed again. */
  function Unwrapped(prompt: string, prefix: string, suffix: string): string {
    TrimSuffix(TrimPrefix(prompt, prefix), suffix)
  }

  /** A wrapped prompt is its prefix, the raw prompt and its suffix, and the
      listing gives back the raw prompt. */
  lemma WrappedRoundTrip(ps: map<string, string>, prefix: string, suffix: string, name: string)
    requires name in ps
    ensures var w := Wrapped(ps, prefix, suffix)[name];
      && HasPrefix(w, prefix) && HasSuffix(w, suffix)
      && w[|prefix|..|w| - |suffix|] == ps[name]
      && Unwrapped(w, prefix, suffix) == ps[name]
  {
    var w := Wrapped(ps, prefix, suffix)[name];
    assert w == prefix + ps[name] + suffix;
    assert w[..|prefix|] == prefix;
    assert w[|w| - |suffix|..] == suffix;
    assert w[|prefix|..] == ps[name] + suffix;
    assert HasSuffix(ps[name] + suffix, suffix) by {
      assert (ps[name] + suffix)[|ps[name]|..] == suffix;
    }
  }

  /** The nine keys `.set` knows, in the order the error message lists them. */
  const ValidKeys: seq<string> := [
    "model", "prompt", "top_p", "temperature", "message_context", "message_context_interval",
    "message_reply_interval", "message_reply_interval_jitter", "message_self_reply_chance"]

  /** The keys whose values go through `strconv.Atoi`. */
  predicate IntegerKey(key: string) {
    key == "message_context" || key == "message_context_interval" || key == "message_reply_interval"
    || key == "message_reply_interval_jitter" || key == "message_self_reply_chance"
  }

  /** The keys whose values go through `strconv.ParseFloat`. */
  predicate FloatKey(key: string) {
    key == "top_p" || key == "temperature"
  }

  /** Every key `.set` handles is listed, and every listed key is handled. */
  lemma ValidKeysAreHandled(key: string)
    ensures key in ValidKeys <==> key == "model" || key == "prompt" || FloatKey(key) || IntegerKey(key)
    ensures |ValidKeys| == 9
  {
  }

  /** The error text of `strconv.Atoi`; the value is shown between double
      quotes (Go's escaping of special characters is not modelled). */
  function AtoiErrorText(val: string, e: NumError): string {
    "strconv.Atoi: parsing \"" + val + "\": " + (if e == SyntaxError then "invalid syntax" else "value out of range")
  }

  /** The bot's scalar settings and flags, as one value. */
  datatype Settings = Settings(
    Model: string,
    personality: string,
    MessageContext: int,
    MessageContextInterval: int,
    MessageReplyInterval: int,
    MessageReplyIntervalJitter: int,
    MessageSelfReplyChance: int,
    replying: bool)

  /** What `.set key val` does to the settings: the reply, the new settings,
      and whether the message queue is rebuilt. `floatParse` is what
      `strconv.ParseFloat` made of the value for the two float keys (the
      `%f` rendering, or the error text); `pick` is the personality
      `getRandom` draws when a reset is asked for with no name. */
  function SetKeyValPlan(st: Settings, prompts: map<string, string>, key: string, val: string,
                         floatParse: Result<string, string>, pick: string): (string, Settings, bool)
  {
    if key == "model" then ("set model to " + val, st.(Model := val), false)
    else if key == "prompt" then
      if val !in prompts then ("please provide a valid prompt name", st, false)
      else ("set prompt to " + val, st.(personality := if val == "" then pick else val, replying := true), true)
    else if FloatKey(key) then
      match floatParse
      case Failure(e) => ("error parsing " + key + ": " + e, st, false)
      case Success(t) => ("set " + key + " to " + t, st, false)
    else if IntegerKey(key) then IntegerPlan(st, key, val, pick)
    else ("unknown key, valid keys are: " + Join(ValidKeys, ", "), st, false)
  }

  /** The integer keys of `.set`: parse with `strconv.Atoi`, then store. */
  function IntegerPlan(st: Settings, key: string, val: string, pick: string): (string, Settings, bool)
    requires IntegerKey(key)
  {
    match Atoi(val)
    case Failure(e) => ("error parsing " + key + ": " + AtoiErrorText(val, e), st, false)
    case Success(i) =>
      var reply := "set " + key + " to " + FormatInt(i);
      if key == "message_context" then
        (reply, st.(MessageContext := i, replying := true,
                    personality := if st.personality == "" then pick else st.personality), true)
      else if key == "message_context_interval" then (reply, st.(MessageContextInterval := i, replying := true), false)
      else if key == "message_reply_interval" then (reply, st.(MessageReplyInterval := i, replying := true), false)
      else if key == "message_reply_interval_jitter" then (reply, st.(MessageReplyIntervalJitter := i, replying := true), false)
      else (reply, st.(MessageSelfReplyChance := i), false)
  }

  /** A value that is not an integer leaves every setting as it was, and the
      reply names the key. */
  lemma SetIntegerRejects(st: Settings, prompts: map<string, string>, key: string, val: string,
                          floatParse: Result<string, string>, pick: string)
    requires IntegerKey(key) && Atoi(val).Failure?
    ensures var (reply, after, reset) := SetKeyValPlan(st, prompts, key, val, floatParse, pick);
      && after == st && !reset
      && reply == "error parsing " + key + ": " + AtoiErrorText(val, Atoi(val).error)
  {
  }

  /** An integer value is stored in the setting the key names, and only there
      (besides marking the bot as about to reply, and for the context size
      choosing a personality when none is set). */
  lemma SetIntegerStores(st: Settings, prompts: map<string, string>, key: string, val: string,
                         floatParse: Result<string, string>, pick: string)
    requires IntegerKey(key) && Atoi(val).Success?
    ensures var (reply, after, reset) := SetKeyValPlan(st, prompts, key, val, floatParse, pick);
      var i := Atoi(val).value;
      && reply == "set " + key + " to " + FormatInt(i)
      && (key == "message_context" <==> reset)
      && (key == "message_context" ==> after.MessageContext == i)
      && (key == "message_context_interval" ==> after.MessageContextInterval == i)
      && (key == "message_reply_interval" ==> after.MessageReplyInterval == i)
      && (key == "message_reply_interval_jitter" ==> after.MessageReplyIntervalJitter == i)
      && (key == "message_self_reply_chance" ==> after == st.(MessageSelfReplyChance := i))
      && after.Model == st.Model
  {
  }

  /** An unknown prompt name changes nothing. */
  lemma SetUnknownPrompt(st: Settings, prompts: map<string, string>, val: string,
                         floatParse: Result<string, string>, pick: string)
    requires val !in prompts
    ensures SetKeyValPlan(st, prompts, "prompt", val, floatParse, pick) ==
      ("please provide a valid prompt name", st, false)
  {
  }

  /** An unknown key changes nothing and lists the valid keys, which are
      exactly the keys `.set` handles. */
  lemma SetUnknownKey(st: Settings, prompts: map<string, string>, key: string, val: string,
                      floatParse: Result<string, string>, pick: string)
    requires key !in ValidKeys
    ensures SetKeyValPlan(st, prompts, key, val, floatParse, pick) ==
      ("unknown key, valid keys are: " + Join(ValidKeys, ", "), st, false)
  {
    ValidKeysAreHandled(key);
  }

  // ---------------------------------------------------------------------
  // `.prompts add`

  const PromptsAddWord: string := ".prompts add"

  /** The prompt table and reply after `.prompts add …`. */
  function PromptsAddPlan(prompts: map<string, string>, content: string): (string, map<string, string>)
    requires HasPrefix(content, PromptsAddWord)
  {
    AddPrompt(prompts, TrimSpace(TrimPrefix(content, PromptsAddWord)))
  }

  /** The branch on the trimmed value `name prompt`. */
  function AddPrompt(prompts: map<string, string>, val: string): (string, map<string, string>) {
    var splat := CutAtSpace(val);
    if |splat| != 2 then ("please provide a prompt name and prompt to add", prompts)
    else
      var name := splat[0];
      var prompt := splat[1];
      if prompt == "" then ("removed prompt " + name, prompts - {name})
      else ("added prompt " + name, prompts[name := prompt])
  }

  /** `.prompts add …` on a copy of the table: the value after the command
      word, trimmed, then the branch on it. */
  method AddPromptTo(prompts: map<string, string>, content: string) returns (reply: string, table: map<string, string>)
    requires HasPrefix(content, PromptsAddWord)
    ensures (reply, table) == PromptsAddPlan(prompts, content)
  {
    var val := TrimSpace(TrimPrefix(content, PromptsAddWord));
    var splat := CutAtSpace(val);
    if |splat| != 2 {
      return "please provide a prompt name and prompt to add", prompts;
    }
    var name := splat[0];
    var prompt := splat[1];
    if prompt == "" {
      table := prompts - {name};
      reply := "removed prompt " + name;
    } else {
      table := prompts[name := prompt];
      reply := "added prompt " + name;
    }
  }

  /** Without a space between a name and the text there is only the usage
      reply; otherwise the text after the first space is stored as it is,
      without prefix or suffix, and nothing is ever removed: the value was
      trimmed, so the text after its first space cannot be empty. */
  lemma PromptsAddOutcome(prompts: map<string, string>, content: string)
    requires HasPrefix(content, PromptsAddWord)
    ensures var val := TrimSpace(content[|PromptsAddWord|..]);
      var (reply, after) := PromptsAddPlan(prompts, content);
      && (' ' !in val ==> reply == "please provide a prompt name and prompt to add" && after == prompts)
      && (' ' in val ==>
            var parts := CutAtSpace(val);
            && parts[1] != ""
            && reply == "added prompt " + parts[0]
            && after == prompts[parts[0] := parts[1]])
  {
    assert TrimPrefix(content, PromptsAddWord) == content[|PromptsAddWord|..];
    var val := TrimSpace(content[|PromptsAddWord|..]);
    assert val != [] ==> val[|val| - 1] != ' ' by {
      SpaceIsGoSpace();
    }
    AddTrimmed(prompts, val);
  }

  lemma SpaceIsGoSpace()
    ensures ' ' in GoSpace
  {
  }

  /** A value that does not end in a space never takes the removal branch. */
  lemma AddTrimmed(prompts: map<string, string>, val: string)
    requires val != [] ==> val[|val| - 1] != ' '
    ensures var (reply, after) := AddPrompt(prompts, val);
      && (' ' !in val ==> reply == "please provide a prompt name and prompt to add" && after == prompts)
      && (' ' in val ==>
            var parts := CutAtSpace(val);
            && parts[1] != ""
            && reply == "added prompt " + parts[0]
            && after == prompts[parts[0] := parts[1]])
  {
  }

  // ---------------------------------------------------------------------
  // The reply guard

  /** What a reply tick does: stay quiet and stop the reply ticker, or send
      all queued messages to the model. */
  datatype Decision = Quiet | Send(messages: seq<Message>)

  /** What `attemptSendReply` does as written: with one non-sticky message,
      from the assistant, it reads `LastN(2)`, the index -1, and panics. */
  datatype Written = Panics | Decides(decision: Decision)

  /** The guard of `attemptSendReply` as written; `dice` is `rand.Intn(100)`. */
  function ReplyGuardAsWritten(sticky: seq<Message>, slice: seq<Message>, selfReplyChance: int, dice: int): Written {
    if |slice| == 0 then Decides(Quiet)
    else if slice[|slice| - 1].role == Assistant then
      if |slice| - 2 < 0 then Panics
      else if slice[|slice| - 2].role == Assistant || dice < 100 - selfReplyChance then Decides(Quiet)
      else Decides(Send(sticky + slice))
    else Decides(Send(sticky + slice))
  }

  /** After `.set message_context 1` and a reply of the bot's own, the next
      reply tick panics. */
  lemma SingleAssistantMessagePanics(sticky: seq<Message>, text: string, chance: int, dice: int)
    ensures ReplyGuardAsWritten(sticky, [Message(Assistant, text)], chance, dice) == Panics
  {
  }

  /** The guard as its comment describes it: with no messages the bot stays
      quiet; after a message of its own it speaks again only when that was
      not already its second in a row and the dice allow a self-reply. */
  function ReplyGuard(sticky: seq<Message>, slice: seq<Message>, selfReplyChance: int, dice: int): (d: Decision)
    ensures d.Send? ==> d.messages == sticky + slice && slice != []
    ensures |slice| >= 2 && slice[|slice| - 1].role == Assistant && slice[|slice| - 2].role == Assistant ==> d == Quiet
    ensures slice != [] && slice[|slice| - 1].role != Assistant ==> d == Send(sticky + slice)
  {
    if |slice| == 0 then Quiet
    else if slice[|slice| - 1].role == Assistant then
      if (|slice| >= 2 && slice[|slice| - 2].role == Assistant) || dice < 100 - selfReplyChance then Quiet
      else Send(sticky + slice)
    else Send(sticky + slice)
  }

  /** The corrected guard decides as the written one wherever that one does
      not panic, and it never lets the bot speak three times in a row. */
  lemma ReplyGuardAgrees(sticky: seq<Message>, slice: seq<Message>, chance: int, dice: int)
    ensures ReplyGuardAsWritten(sticky, slice, chance, dice).Decides? ==>
      ReplyGuardAsWritten(sticky, slice, chance, dice).decision == ReplyGuard(sticky, slice, chance, dice)
    ensures ReplyGuardAsWritten(sticky, slice, chance, dice).Panics? <==>
      |slice| == 1 && slice[0].role == Assistant
  {
  }

  // ---------------------------------------------------------------------
  // The bot

  /** The chatbot's state that its commands and ticks update in place. */
  class Bot {
    var Model: string
    var Prefix: string
    var Suffix: string
    var Personalities: map<string, string>
    var personality: string
    var MessageContext: int
    var MessageContextInterval: int
    var MessageReplyInterval: int
    var MessageReplyIntervalJitter: int
    var MessageSelfReplyChance: int
    var messages: LimitedQueue<Message>
    var replying: bool

    /** The bot after `AfterApply`, before the prompts are read: an empty
        queue of capacity `MessageContext`. */
    constructor (Model: string, MessageContext: int, MessageContextInterval: int, MessageReplyInterval: int,
                 MessageReplyIntervalJitter: int, MessageSelfReplyChance: int)
      ensures Snapshot() == Settings(Model, "", MessageContext, MessageContextInterval, MessageReplyInterval,
                                     MessageReplyIntervalJitter, MessageSelfReplyChance, false)
      ensures Personalities == map[] && Prefix == "" && Suffix == ""
      ensures fresh(messages) && messages.slice == [] && messages.sticky == [] && messages.max == MessageContext
    {
      this.Model := Model;
      Prefix, Suffix := "", "";
      Personalities := map[];
      personality := "";
      this.MessageContext := MessageContext;
      this.MessageContextInterval := MessageContextInterval;
      this.MessageReplyInterval := MessageReplyInterval;
      this.MessageReplyIntervalJitter := MessageReplyIntervalJitter;
      this.MessageSelfReplyChance := MessageSelfReplyChance;
      messages := new LimitedQueue(MessageContext);
      replying := false;
    }

    function Snapshot(): Settings
      reads this
    {
      Settings(Model, personality, MessageContext, MessageContextInterval, MessageReplyInterval,
               MessageReplyIntervalJitter, MessageSelfReplyChance, replying)
    }

    /** The prompt of a personality; Go's map lookup gives "" for a missing name. */
    function PromptOf(name: string): (r: string)
      reads this
      ensures name in Personalities ==> r == Personalities[name]
      ensures name !in Personalities ==> r == ""
    {
      if name in Personalities then Personalities[name] else ""
    }

    /** `parsePrompts` once the YAML document is decoded into its meta
        prefix and suffix and its personalities: every prompt is wrapped. */
    method ParsePrompts(prefix: string, suffix: string, personalities: map<string, string>)
      modifies this
      ensures Prefix == prefix && Suffix == suffix
      ensures Personalities == Wrapped(personalities, prefix, suffix)
      ensures Snapshot() == old(Snapshot()) && messages == old(messages)
    {
      Prefix, Suffix := prefix, suffix;
      Personalities := personalities;
      var todo := Personalities.Keys;
      while todo != {}
        invariant todo <= personalities.Keys && Personalities.Keys == personalities.Keys
        invariant forall name :: name in todo ==> Personalities[name] == personalities[name]
        invariant forall name :: name in personalities && name !in todo ==>
          Personalities[name] == prefix + personalities[name] + suffix
        invariant Prefix == prefix && Suffix == suffix
        invariant Snapshot() == old(Snapshot()) && messages == old(messages)
        decreases todo
      {
        var name :| name in todo;
        Personalities := Personalities[name := Prefix + Personalities[name] + Suffix];
        todo := todo - {name};
      }
    }

    /** `resetMessageQueue(p)`: the personality becomes `p`, or `pick` when
        `p` is empty (`getRandom`, which panics on an empty table, returns
        one of its names), and the queue is replaced by an empty one of
        capacity `MessageContext` whose one sticky message is that
        personality's prompt. */
    method ResetMessageQueue(p: string, pick: string)
      requires p != "" || pick in Personalities
      modifies this
      ensures personality == if p == "" then pick else p
      ensures Snapshot() == old(Snapshot()).(personality := personality)
      ensures Personalities == old(Personalities) && Prefix == old(Prefix) && Suffix == old(Suffix)
      ensures fresh(messages) && messages.max == MessageContext && messages.slice == []
      ensures messages.sticky == [Message(System, PromptOf(personality))]
    {
      personality := p;
      if p == "" {
        personality := pick;
      }
      var prompt := PromptOf(personality);
      messages := new LimitedQueue(MessageContext);
      messages.AddSticky(Message(System, prompt));
    }

    /** `attemptSendReply` with `dice` as `rand.Intn(100)`, using the
        corrected guard: when the bot stays quiet it stops replying. */
    method AttemptSendReply(dice: int) returns (d: Decision)
      requires 0 <= dice < 100
      modifies this
      ensures d == ReplyGuard(messages.sticky, messages.slice, MessageSelfReplyChance, dice)
      ensures d == Quiet ==> Snapshot() == old(Snapshot()).(replying := false)
      ensures d.Send? ==> Snapshot() == old(Snapshot())
      ensures Personalities == old(Personalities) && messages == old(messages)
    {
      if |messages.Items()| == 0 {
        replying := false;
        return Quiet;
      }
      var items := messages.Items();
      if messages.LastN(1).role == Assistant {
        if (|items| >= 2 && messages.LastN(2).role == Assistant) || dice < 100 - MessageSelfReplyChance {
          replying := false;
          return Quiet;
        }
      }
      return Send(messages.AllItems());
    }

    /** `.prompts add …`: the table changes as PromptsAddPlan says. */
    method PromptsAdd(content: string) returns (reply: string)
      requires HasPrefix(content, PromptsAddWord)
      modifies this
      ensures (reply, Personalities) == PromptsAddPlan(old(Personalities), content)
      ensures Snapshot() == old(Snapshot()) && messages == old(messages)
    {
      var table;
      reply, table := AddPromptTo(Personalities, content);
      Personalities := table;
    }

    /** `setKeyVal(key, val)`: the settings change as SetKeyValPlan says; when
        it rebuilds the queue, the queue is as `resetMessageQueue` leaves it. */
    method SetKeyVal(key: string, val: string, floatParse: Result<string, string>, pick: string) returns (reply: string)
      requires NeedsPick(key, val) ==> pick in Personalities
      modifies this
      ensures var (r, after, reset) := SetKeyValPlan(old(Snapshot()), old(Personalities), key, val, floatParse, pick);
        && reply == r && Snapshot() == after
        && (reset ==> fresh(messages) && messages.max == MessageContext && messages.slice == []
                      && messages.sticky == [Message(System, PromptOf(personality))])
        && (!reset ==> messages == old(messages))
      ensures Personalities == old(Personalities)
    {
      if key == "model" {
        Model := val;
        return "set model to " + val;
      } else if key == "prompt" {
        if val !in Personalities {
          return "please provide a valid prompt name";
        }
        ResetMessageQueue(val, pick);
        replying := true;
        return "set prompt to " + val;
      } else if FloatKey(key) {
        match floatParse {
          case Failure(e) => return "error parsing " + key + ": " + e;
          case Success(t) => return "set " + key + " to " + t;
        }
      } else if IntegerKey(key) {
        reply := SetInteger(key, val, pick);
      } else {
        return "unknown key, valid keys are: " + Join(ValidKeys, ", ");
      }
    }

    /** The integer branches of `setKeyVal`. */
    method SetInteger(key: string, val: string, pick: string) returns (reply: string)
      requires IntegerKey(key)
      requires key == "message_context" && personality == "" && Atoi(val).Success? ==> pick in Personalities
      modifies this
      ensures var (r, after, reset) := IntegerPlan(old(Snapshot()), key, val, pick);
        && reply == r && Snapshot() == after
        && (reset ==> fresh(messages) && messages.max == MessageContext && messages.slice == []
                      && messages.sticky == [Message(System, PromptOf(personality))])
        && (!reset ==> messages == old(messages))
      ensures Personalities == old(Personalities)
    {
      var parsed := Atoi(val);
      if parsed.Failure? {
        return "error parsing " + key + ": " + AtoiErrorText(val, parsed.error);
      }
      var i := parsed.value;
      if key == "message_context" {
        MessageContext := i;
        ResetMessageQueue(personality, pick);
        replying := true;
      } else if key == "message_context_interval" {
        MessageContextInterval := i;
        replying := true;
      } else if key == "message_reply_interval" {
        MessageReplyInterval := i;
        replying := true;
      } else if key == "message_reply_interval_jitter" {
        MessageReplyIntervalJitter := i;
        replying := true;
      } else {
        MessageSelfReplyChance := i;
      }
      return "set " + key + " to " + FormatInt(i);
    }

    /** Whether `.set key val` draws a random personality: a prompt named "",
        or a new context size while no personality is set. */
    predicate NeedsPick(key: string, val: string)
      reads this
    {
      (key == "prompt" && val == "" && "" in Personalities) || (key == "message_context" && personality == "" && Atoi(val).Success?)
    }
  }
}
