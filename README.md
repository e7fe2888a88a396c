# discord-bots, modelled in Dafny

This project models the deterministic core of the `discord-bots` repository:

- **The Minecraft manager** (`go/mcmanager/command/`). It runs Bedrock servers on cloud VMs, probes them, and deallocates a VM once its server has been idle or unreachable for a threshold number of checks. The model covers:
  - the parser of the RakNet "unconnected pong" payload, `Ping.Check` after the network call, and `Pong.Pretty` (module `Minecraft`);
  - the server records: `server.setDefaults`, `serverConfig.setDefaults`, `findServerFuzzy`, and the decision tables of `startServer` and `deallocateServer` (module `Servers`);
  - the periodic check `deallocateCondionally` and the hourly reconciliation in `Run` (module `Monitor`);
  - the Discord front end `onMessageCreate` and the reply shaping of `sendMessagef` (module `Commands`).
- **The chatbot**:
  - its `LimitedQueue`, a bounded FIFO behind a prefix of "sticky" items that are never dropped (module `Queue`);
  - its settings and conversation state: `parsePrompts`, `resetMessageQueue`, the reply guard of `attemptSendReply`, `.prompts add` and `.set` (module `Chatbot`).
- **The JavaScript bots**:
  - the star list of `src/stars.js` (module `Stars`);
  - the `chunk` helper, which `lib/index.js` and `cf/lib/index.js` define identically;
  - the request-body handling of both `discord` wrappers, and the guard of `commandHandlerFunc` (module `JsLib`);
  - the `sanitize` newline folding of `cf/gochujang/src/copypasta.js` (module `Copypasta`).

The network, the cloud provider, OpenAI, clocks and randomness are parameters:
- a probe outcome (`Probe`, the decoded pong or an error);
- the cloud's answers (`Cloud`: the instance view's status codes, and whether the begin call and the wait succeed);
- the host name and uptime text;
- the personality `getRandom` draws (`pick`);
- the self-reply dice (`dice`).

Operations that update state in place are methods on classes:
- `Queue.LimitedQueue`;
- `Chatbot.Bot`;
- `Servers.Server` and `Servers.ServerConfig`.

Each method is proved against a function of the old state. The in-place sort of the star list keeps its `array`.

The helper modules hold the standard-library behaviour the bots rely on:
- `Text`: Go's `strings.TrimSpace`, `Split`, `SplitN`, `Join` and `Contains`, JavaScript's `trim`, and UTF-8 length;
- `Decimal`: `%d` and `strconv.Atoi`;
- `Wrappers`: `Option`, `Result` and a first-match search.

Some behaviour of the code is easy to miss; the model keeps it as written:
- `deallocateServer` has no check for active players. The model issues the deallocation whatever the player count (`Servers.DeallocateBeginsIff`).
- `findServerFuzzy` returns the first server whose `Host` contains the token and never reports ambiguity (`Servers.FindServerFuzzy`).
- A completed start or stop resets only `checkCount` and `online`, not `checkErrors`.
- `discord.go` uses per-server `CheckInterval`, `DeallocationThreshold` and `checkErrors`, and calls `setServerDefaults`. None of these appear in `servers.go`. The server record carries all three fields, and the commands default a server with `server.setDefaults`.
- The sample payload in the comment at `minecraft.go:24` ends with the last field's `;`. The pattern needs at least one more character, so that sample does not parse (`Minecraft.NothingAfterLastFieldRejected`).

## Model

| member | source | states |
|---|---|---|
| Queue.LimitedQueue.constructor | go/chatbot/pkg/limited_queue.go:9-15 | A new queue has no items, no sticky items and capacity `size`. |
| Queue.LimitedQueue.Add | go/chatbot/pkg/limited_queue.go:17-25 | The non-sticky items become `Added(old items, item, max)`; the sticky items and the capacity do not change. |
| Queue.Added | go/chatbot/pkg/limited_queue.go:17-25 | If the queue grows by one, the result is the old items plus the new one. Otherwise its length is unchanged, and the result is the old items minus the oldest, plus the new one. |
| Queue.AddedBound | go/chatbot/pkg/limited_queue.go:19-24 | A queue within a non-negative capacity stays within it. |
| Queue.AddedOrder | go/chatbot/pkg/limited_queue.go:19-24 | The new item is last. The items before it are the old ones in order, less the oldest exactly when the capacity is exceeded. |
| Queue.AddedThenLast | go/chatbot/pkg/limited_queue.go:19-24 | With a positive capacity, the newest item right after `Add(item)` is `item`. |
| Queue.AddedAllWindow | go/chatbot/pkg/limited_queue.go:17-25 | Adding a run of items one by one leaves the newest `max` items seen, in arrival order: a sliding window. |
| Queue.LimitedQueue.AddSticky | go/chatbot/pkg/limited_queue.go:28-30 | The item is appended to the sticky items only. |
| Queue.LimitedQueue.AllItems | go/chatbot/pkg/limited_queue.go:33-35 | The sticky items come first, then the others, each in order. |
| Queue.LimitedQueue.ClearNonSticky | go/chatbot/pkg/limited_queue.go:37-39 | No non-sticky item is left; the sticky items and the capacity are unchanged. |
| Queue.LimitedQueue.Items | go/chatbot/pkg/limited_queue.go:41-43 | The non-sticky items: everything in `AllItems` after the sticky prefix. |
| Queue.LimitedQueue.LastN | go/chatbot/pkg/limited_queue.go:45-50 | With no non-sticky items it returns the first sticky item; otherwise the `n`-th newest item. It requires the indices Go would otherwise panic on to be in range. |
| Chatbot.Wrapped | go/chatbot/command/discord.go:112-115 | Wrapping keeps exactly the same personality names. |
| Chatbot.WrappedRoundTrip | go/chatbot/command/discord.go:250-252 | A stored prompt is prefix, raw prompt and suffix. Stripping the prefix and the suffix, as the `.prompts` listing does, gives back the raw prompt. |
| Chatbot.Bot.ParsePrompts | go/chatbot/command/discord.go:103-118 | Every personality's prompt is replaced by `prefix + prompt + suffix`; the settings and the queue are untouched. |
| Chatbot.Bot.constructor | go/chatbot/command/discord.go:90-92 | The bot starts with an empty queue whose capacity is `MessageContext`, and with no personality. |
| Chatbot.Bot.ResetMessageQueue | go/chatbot/command/discord.go:170-187 | The personality becomes `p`, or the drawn one when `p` is empty. The queue is fresh, has capacity `MessageContext`, holds no non-sticky items, and has exactly one sticky system message with that personality's prompt. Nothing else changes. |
| Chatbot.ReplyGuard | go/chatbot/command/discord.go:205-213 | The corrected guard. The bot speaks only when there are messages, and then it sends the sticky prompt plus all of them. After a user message it always speaks. After two of its own messages in a row it stays quiet. |
| Chatbot.SingleAssistantMessagePanics | go/chatbot/command/discord.go:207-208 | As written, one non-sticky message that is the bot's own makes the guard read `LastN(2)`, index -1, and panic. |
| Chatbot.ReplyGuardAgrees | go/chatbot/command/discord.go:205-213 | The corrected guard decides as the written one wherever that one does not panic. The written one panics exactly on a single assistant message. |
| Chatbot.Bot.AttemptSendReply | go/chatbot/command/discord.go:195-221 | The reply tick decides by the corrected guard. Staying quiet sets `replying` to false and changes nothing else; speaking changes nothing. |
| Chatbot.AddPromptTo | go/chatbot/command/discord.go:258-273 | The trim, the cut at the first space and the branch compute the reply and table that `PromptsAddPlan` specifies. |
| Chatbot.PromptsAddOutcome | go/chatbot/command/discord.go:258-273 | Without a space after the name it gives the usage reply and the table is unchanged. Otherwise the text after the first space is stored raw, without prefix or suffix. The "removed prompt" branch is never taken, because the trimmed value cannot end in a space. |
| Chatbot.AddTrimmed | go/chatbot/command/discord.go:260-273 | A value that does not end in a space never reaches the removal branch. |
| Chatbot.Bot.PromptsAdd | go/chatbot/command/discord.go:258-273 | The prompt table and the reply are those of `PromptsAddPlan`; the settings and the queue are untouched. |
| Chatbot.ValidKeysAreHandled | go/chatbot/command/discord.go:322-391 | The nine keys listed in the error message are exactly the keys `.set` handles. |
| Chatbot.SetIntegerRejects | go/chatbot/command/discord.go:348-387 | For an integer key, a value `strconv.Atoi` rejects leaves every setting and the queue as they were, and the reply names the key and the parse error: "value out of range" when the digits overflow before any stray character, "invalid syntax" otherwise. |
| Chatbot.SetIntegerStores | go/chatbot/command/discord.go:348-387 | A parsed integer is stored in the setting the key names, and the reply shows it. Only `message_context` rebuilds the queue. `message_self_reply_chance` changes nothing else. |
| Chatbot.SetUnknownPrompt | go/chatbot/command/discord.go:327-330 | An unknown prompt name changes nothing, and the reply asks for a valid name. |
| Chatbot.SetUnknownKey | go/chatbot/command/discord.go:388-390 | An unknown key changes nothing, and the reply lists the nine valid keys. |
| Chatbot.Bot.SetKeyVal | go/chatbot/command/discord.go:322-392 | The reply and the new settings are those of `SetKeyValPlan`. When the plan rebuilds the queue, the queue is as `resetMessageQueue` leaves it; otherwise it is the same queue. The prompt table never changes. |
| Chatbot.Bot.SetInteger | go/chatbot/command/discord.go:348-387 | The integer branches of `.set`, as `IntegerPlan` specifies, including the queue rebuild for `message_context`. |
| Decimal.AtoiFormatInt | go/chatbot/command/discord.go:349-356 | `strconv.Atoi` reads back the `%d` rendering of every 64-bit integer, so a stored value is shown exactly. |
| Decimal.AtoiOverflowFirst | go/chatbot/command/discord.go:349-352 | After an optional sign, a run of digits that overflows 64 unsigned bits makes `strconv.Atoi` fail with a range error, whatever follows the run. |
| Decimal.AtoiStrayCharacter | go/chatbot/command/discord.go:349-352 | After an optional sign, a run of digits that fits 64 unsigned bits, followed by a non-digit, makes `strconv.Atoi` fail with a syntax error. |
| Minecraft.LineEnd | go/mcmanager/command/minecraft.go:27 | The greedy `.+` tail runs up to the next newline or the end of the payload. |
| Minecraft.Fields | go/mcmanager/command/minecraft.go:27 | `n` groups `[^;]+;` yield `n` non-empty fields without `;`. |
| Minecraft.FieldsText | go/mcmanager/command/minecraft.go:27 | The text the groups cover is exactly their fields, each followed by `;`. |
| Minecraft.MatchAt | go/mcmanager/command/minecraft.go:27 | A match at a position starts with `MCPE;` or `MCEE;`, has eleven more non-empty fields without `;`, and has a non-empty tail without a newline. |
| Minecraft.MatchAtText | go/mcmanager/command/minecraft.go:27 | A match covers the edition, its fields each ended by `;`, and its tail, in order. The tail stops at a newline or the end. |
| Minecraft.Leftmost | go/mcmanager/command/minecraft.go:75 | The match found is a real match at the position reported. |
| Minecraft.LeftmostFirst | go/mcmanager/command/minecraft.go:75 | The match found is at the leftmost position where the pattern matches; none is found only when it matches nowhere. |
| Minecraft.UintField | go/mcmanager/command/minecraft.go:34-41 | A `,string` integer field accepts a digit string exactly when its value fits the field's width; the quoted literal `null` is accepted as 0. |
| Minecraft.DecodeCaptures | go/mcmanager/command/minecraft.go:88-96 | Decoding succeeds exactly when all six integer fields fit their widths: three uint32, one uint64, two uint16. The text fields and the tail are kept as captured. |
| Minecraft.Parse | go/mcmanager/command/minecraft.go:67-99 | A parsed `Pong` is well formed. The result is "unexpected pong response" exactly when the pattern matches nowhere in the payload; the only other failure is a bad integer field. |
| Minecraft.ParseIgnoresPrefix | go/mcmanager/command/minecraft.go:75 | Whatever precedes the leftmost match is ignored: the result is the decoding of that match. |
| Minecraft.ParseSerialize | go/mcmanager/command/minecraft.go:27-43 | Parsing the payload a server sends for a well-formed `Pong` gives back that `Pong`. |
| Minecraft.MatchNeedsTwelveSemicolons | go/mcmanager/command/minecraft.go:27 | A payload with a match holds at least twelve `;`. |
| Minecraft.FewSemicolonsRejected | go/mcmanager/command/minecraft.go:75-79 | A payload with fewer than twelve `;` is an "unexpected pong response". |
| Minecraft.NothingAfterLastFieldRejected | go/mcmanager/command/minecraft.go:20-27 | A payload with at most twelve `;` that ends with the last field's `;`, like the sample in the comment, is an "unexpected pong response". |
| Minecraft.Pretty | go/mcmanager/command/minecraft.go:45-55 | The trim removes only the template's framing newlines: the text is the seven lines joined by newlines. |
| Minecraft.PrettyReportsPlayers | go/mcmanager/command/minecraft.go:51 | The players line is `count/max`, and both numbers read back from it. |
| Minecraft.PrettyReportsPorts | go/mcmanager/command/minecraft.go:53 | The port line splits at its spaces into five words: `Port:`, the IPv4 port, `(IPv4),`, the IPv6 port and `(IPv6)`. Both port words are digits that read back as the ports. |
| Servers.Defaulted | go/mcmanager/command/servers.go:52-74 | A defaulted record has a resource group and a timeout, and a name unless its host name was empty. The only error is "invalid server host" for its `Host`. |
| Servers.DefaultedNoColon | go/mcmanager/command/servers.go:55-57 | Without `:` the whole `Host` is the host name and the port is 19132. |
| Servers.DefaultedOneColon | go/mcmanager/command/servers.go:58-60 | With one `:` the host and the port are its two sides, and `host:port` gives back `Host`. |
| Servers.DefaultedManyColons | go/mcmanager/command/servers.go:61-62 | Two or more `:` are rejected with "invalid server host". |
| Servers.DefaultedFields | go/mcmanager/command/servers.go:64-72 | An empty name becomes the host name, and an empty resource group becomes the (defaulted) name plus `-rg`. A zero timeout becomes five seconds. No other field changes. |
| Servers.DefaultedIdempotent | go/mcmanager/command/servers.go:52-74 | Defaulting twice is defaulting once. |
| Servers.Server.constructor | go/mcmanager/command/servers.go:16-26 | A record as read from the configuration: the derived fields and the counters are zero. |
| Servers.Server.SetDefaults | go/mcmanager/command/servers.go:52-74 | The record becomes `Defaulted` of the old one; on an invalid `Host` it reports the error and changes nothing. |
| Servers.ServerConfig.constructor | go/mcmanager/command/servers.go:10-14 | The settings hold the given interval, threshold and servers. |
| Servers.ServerConfig.SetDefaults | go/mcmanager/command/servers.go:37-50 | A zero interval becomes five minutes and a zero threshold becomes 5. The servers are defaulted in order; at the first invalid one the walk stops, reports that server's error, and leaves it and the rest unchanged. |
| Servers.DefaultEach | go/mcmanager/command/servers.go:44-49 | The loop over the servers ends in the state the walk describes: defaulted up to the first invalid server, unchanged from it on. |
| Servers.DefaultAllFirstInvalid | go/mcmanager/command/servers.go:44-49 | The walk over records stops at the first invalid one with its error; the earlier records are defaulted and the rest are unchanged. With no invalid record, every record is defaulted. |
| Servers.FindServerFuzzy | go/mcmanager/command/servers.go:28-35 | The result is the first server, in configuration order, whose `Host` contains the token, or "server not found" when none does. |
| Servers.StartReachable | go/mcmanager/command/servers.go:96-100 | A server that answers the probe gets no cloud call, and the reply gives its player count. |
| Servers.StartBlocked | go/mcmanager/command/servers.go:107-117 | An updating, starting or running status prevents the start. The reply is the one for the first such code in the list, after the instance view only. |
| Servers.StartBeginsIff | go/mcmanager/command/servers.go:96-118 | `BeginStart` is issued exactly when the probe fails, the instance view succeeds, and no status blocks the start. |
| Servers.DeallocateBlocked | go/mcmanager/command/servers.go:156-166 | An updating, deallocating or deallocated status prevents the deallocation. The reply is the one for the first such code. |
| Servers.DeallocateBeginsIff | go/mcmanager/command/servers.go:151-167 | `BeginDeallocate` is issued exactly when the instance view succeeds and no status blocks it; players are not considered. |
| Servers.PlansCallOrder | go/mcmanager/command/servers.go:85-177 | Each operation issues at most the instance view, one begin call and one wait, in that order. The deallocation always asks for the view first. |
| Servers.StartBody | go/mcmanager/command/servers.go:96-142 | The walk over the status codes produces the reply and the cloud calls of the start decision table. |
| Servers.StartServer | go/mcmanager/command/servers.go:85-143 | The result is that of the start decision table. On every way out the server is marked online with a zero idle count, and nothing else changes. |
| Servers.DeallocateBody | go/mcmanager/command/servers.go:151-176 | The walk over the status codes produces the reply and the cloud calls of the deallocation decision table. |
| Servers.DeallocateServer | go/mcmanager/command/servers.go:145-177 | The result is that of the deallocation decision table. On every way out the server is marked offline with a zero idle count, and `checkErrors` is untouched. |
| Monitor.DeallocateConditionally | go/mcmanager/command/discord.go:117-162 | The record and the deallocation request are those of one `Step` from the old record. |
| Monitor.ReasonTextReadsBack | go/mcmanager/command/discord.go:141-156 | The deallocation message starts with the server's `Host`. For too many errors, the count in it reads back through `strconv.Atoi` as the reason's threshold; for no players, it ends with the idle time. |
| Monitor.StepAnnounces | go/mcmanager/command/discord.go:141-150 | The reason a check gives for deallocating carries the threshold that was reached (too many errors) or the threshold times the check interval (no players), which the message then reports. |
| Monitor.Reconcile | go/mcmanager/command/discord.go:102-107 | After the hourly check, a server is online exactly when it answered the probe; nothing else changes. |
| Monitor.StepOffline | go/mcmanager/command/discord.go:118-120 | A server believed offline is left alone and nothing is requested. |
| Monitor.StepCounters | go/mcmanager/command/discord.go:123-139 | A failed probe increments only `checkErrors`. An idle probe increments only `checkCount`. A probe with players resets both. Nothing but the counters and `online` changes. |
| Monitor.StepTrigger | go/mcmanager/command/discord.go:141-159 | A deallocation is requested, and the server marked offline, exactly when a counter reached the threshold. When the idle count reached it, that is the reason given. |
| Monitor.IdleRunBelow | go/mcmanager/command/discord.go:129-133 | Idle probes below the threshold only count up and request nothing. |
| Monitor.IdleRunFires | go/mcmanager/command/discord.go:141-159 | From zero counters, the deallocation fires on exactly the threshold-th consecutive idle probe, for the idle reason, and never before. |
| Monitor.ErrorsAccumulate | go/mcmanager/command/discord.go:124-138 | Errors are not forgotten across idle probes. Until a probe finds players or a counter reaches the threshold, each counter grows by its own kind of probe. |
| Monitor.ReconciledOfflineIsQuiet | go/mcmanager/command/discord.go:104-120 | After the hourly check finds a server unreachable, the next periodic check changes nothing and requests nothing. |
| Commands.DeliverShape | go/mcmanager/command/discord.go:289-309 | A reply is the text, or "ok" for none, in a code block. It goes as `output.txt` exactly when that block is over 1000 bytes. |
| Commands.DeliverUnwrap | go/mcmanager/command/discord.go:292-295 | The body can be read back out of the code block. |
| Commands.DeliverShort | go/mcmanager/command/discord.go:296-307 | A text of at most 240 characters is always sent as a message. |
| Commands.EmptyReplySaysOk | go/mcmanager/command/discord.go:292-294 | A reply with no text is sent as "ok" in a code block. |
| Commands.RouteIgnores | go/mcmanager/command/discord.go:165-173 | A message is ignored exactly when it comes from another channel, comes from the bot itself, or does not start with `.`. |
| Commands.WordsOfCommand | go/mcmanager/command/discord.go:175-180 | The content is cut at the first space and the argument is trimmed. |
| Commands.RouteServerCommand | go/mcmanager/command/discord.go:175-183 | A server command word followed by a space, any whitespace and an argument routes to that command with that argument. |
| Commands.PadTen | go/mcmanager/command/discord.go:210 | `%-10s` leaves the text in front and pads it with spaces to ten columns. |
| Commands.ListLineParts | go/mcmanager/command/discord.go:206-210 | A `.list` line is the padded status, then `host:port`. |
| Commands.ListLinesShape | go/mcmanager/command/discord.go:204-211 | The `k`-th line of `.list` shows the `k`-th configured server's status padded to ten columns, then its `host:port`. |
| Commands.ListServers | go/mcmanager/command/discord.go:203-212 | The loop builds the lines of all servers, in order, joined by newlines. |
| Commands.ListEmptySaysOk | go/mcmanager/command/discord.go:203-212 | `.list` without servers replies "ok". |
| Commands.Target | go/mcmanager/command/discord.go:220-228 | The target is a configured server, defaulted. |
| Commands.UsageWithoutArgument | go/mcmanager/command/discord.go:213-264 | `.info`, `.start` and `.stop` without an argument only reply with their usage: no lookup, no change, no cloud call. |
| Commands.HandleTouchesTarget | go/mcmanager/command/discord.go:213-279 | Only `.info`, `.start` and `.stop` with an argument change a server, and only the first one whose `Host` mentions the argument. Only `.start` and `.stop` call the cloud. |
| Commands.PingSendsPongThenOk | go/mcmanager/command/discord.go:194-195 | `.ping` sends "pong" and then, having no reply text, "ok" in a code block. |
| Commands.StartRunningServer | go/mcmanager/command/discord.go:236-257 | `.start` on a server that answers the probe reports its players and calls nothing. |
| Commands.OnMessageCreate | go/mcmanager/command/discord.go:164-287 | An ignored message sends nothing, calls nothing and changes nothing. Otherwise the sends, the cloud calls and the one changed server are those `Handle` gives for the routed command on the old records. |
| Commands.ReplyCommand | go/mcmanager/command/discord.go:184-212 | `.help`, `.ping`, `.uptime`, `.list` and unknown commands only send replies. |
| Commands.RunServerCommand | go/mcmanager/command/discord.go:213-279 | The server commands send, call and change exactly what `ServerCommand` specifies. |
| Commands.RunOnFound | go/mcmanager/command/discord.go:220-279 | Once the lookup has found a server, it is defaulted and the command runs on it alone. |
| Commands.InfoCommand | go/mcmanager/command/discord.go:229-235 | `.info` sends the server's name, then its description or why the probe failed. |
| Commands.StartCommand | go/mcmanager/command/discord.go:252-257 | `.start` announces the request and then replies with the start's outcome or its error. |
| Commands.StopCommand | go/mcmanager/command/discord.go:274-279 | `.stop` announces the request and then replies with the deallocation's outcome or its error. |
| Stars.MinutesIncrease | src/stars.js:6-17 | A higher tier lasts longer. |
| Stars.EstimateAfterCall | src/stars.js:22-32 | A record's call time is in milliseconds. Its estimate exists exactly for tiers 0 to 9, equals the call time plus the tier's minutes, and is never before the call. |
| Stars.RowsCarryStars | src/stars.js:22-32 | Each record carries its own star: the call time in milliseconds, the tier, world, location and caller, and an estimated death that exists exactly for tiers 0 to 9 and then comes no earlier than the call. |
| Stars.KeptContents | src/stars.js:33 | The filter keeps exactly the records with tier above 3, each as often as it occurs. |
| Stars.KeptEmpty | src/stars.js:33 | Nothing is left exactly when no record has a tier above 3. |
| Stars.CompareOrder | src/stars.js:34 | The comparator orders by tier, highest first, then by call time, newest first, and is antisymmetric. |
| Stars.SortRows | src/stars.js:34 | The in-place sort leaves the array holding `InsertionSorted` of what it held: the stable sort by the comparator. |
| Stars.InsertionSortedStable | src/stars.js:34 | The stable sort is sorted by the comparator, a permutation of its input, and keeps the input order of records with the same tier and call time, as a stable `Array.prototype.sort` does. |
| Stars.InsertedKeepsTies | src/stars.js:34 | One insertion step keeps every class of tied records in order and puts the new record last in its class. |
| Stars.GetStars | src/stars.js:19-40 | It fails exactly when no star has a tier above 3. Otherwise the header lists the six keys in order, and the rows are the stable sort of the kept records: sorted, a permutation, and tied records in fetch order. |
| JsLib.SliceSplit | lib/index.js:24 | `arr.slice(0, size)` and `arr.slice(size)` always put the array back together. A size within bounds cuts there, a negative one within bounds leaves its magnitude of elements in the second piece, and one at or below minus the length leaves the whole array in it. |
| JsLib.ChunkShape | lib/index.js:20-25 | The chunks concatenate back to the array. Every chunk but the last has exactly `size` elements, and the last has at most `size` and is empty only for an empty array. |
| JsLib.ChunkEdges | cf/lib/index.js:29-34 | `chunk([])` is `[[]]`, and the default size gives the whole array as its only chunk. |
| JsLib.ChunkDiverges | cf/lib/index.js:30-33 | With a size of zero or below, a non-empty array reaches an argument whose recursive call has that same argument. The recursion does not return, and in JavaScript it ends when the call stack overflows and `chunk` throws a `RangeError`. |
| JsLib.LibBodyCases | lib/index.js:4-6 | A truthy non-string body is JSON-encoded; strings and falsy bodies pass unchanged. |
| JsLib.CfBodyCases | cf/lib/index.js:10-15 | A non-empty string becomes the encoding of `{content: body}`. Other truthy bodies are encoded, and falsy ones pass unchanged. A body is encoded exactly when it is truthy. |
| JsLib.BodiesAgree | cf/lib/index.js:10-15 | The two wrappers send the same body except for non-empty strings. |
| JsLib.LowerFixed | cf/lib/index.js:96 | `toLowerCase` leaves a name alone exactly when it has no upper-case ASCII letter. Its result has none, so lowering twice is lowering once. |
| JsLib.HandleInteractionCases | cf/lib/index.js:89-98 | A 400 response is returned, and the handler is not called, exactly for interactions that are not application commands. Otherwise the handler gets the name lower-cased. |
| Copypasta.FoldFrom | cf/gochujang/src/copypasta.js:1 | From a position outside any match, the global replacement produces the reference output character by character. |
| Copypasta.FoldIsOut | cf/gochujang/src/copypasta.js:1 | The replacement equals the reference output, which says for each newline whether it is replaced. |
| Copypasta.FoldChanges | cf/gochujang/src/copypasta.js:1 | The output is as long as the trimmed text. Only newlines change, each into a space. A newline next to another newline stays. A newline between two other characters is replaced unless the one two places before was. |
| Copypasta.SanitizeEnds | cf/gochujang/src/copypasta.js:1 | The output neither starts nor ends with whitespace. |
| Copypasta.SanitizeOverlap | cf/gochujang/src/copypasta.js:1 | Matches do not overlap: `a\nb\nc` becomes `a b\nc`. |

## Left out

- The network and SDK calls are inputs, not modelled. This covers `raknet.PingTimeout`, the cloud VM client (`InstanceView`, `BeginStart`, `BeginDeallocate`, `PollUntilDone`), the Discord session and its sends, and the OpenAI client.
- Concurrency is not modelled; each step runs alone over one server record. This covers the per-server goroutines, tickers and `WaitGroup` of `Run`, the background `go c.deallocateServer(s)`, and the momentary `online = false` of the hourly check. `Monitor.DeallocateConditionally` returns the deallocation as a request instead of running it.
- The chatbot's ticker loop, signal handling and `resetMessageTickers` durations are not modelled. Only the `replying = true` that `resetMessageTickers` sets is kept.
- Chatbot.SetIntegerStores: `resetMessageTickers` calls `rand.Intn` on the jitter, which panics when the jitter is 0 or below. Setting `message_context`, `message_context_interval`, `message_reply_interval` or `message_reply_interval_jitter` then crashes the bot after storing the value, so the reply is never sent. The model still shows the reply.
- Chatbot.Bot.SetInteger: the same `rand.Intn` panic for a jitter of 0 or below is not modelled.
- Chatbot.Bot.SetKeyVal: the same `rand.Intn` panic is not modelled, for the integer keys above and for `prompt`.
- Floating point is not modelled. For `top_p` and `temperature`, `Chatbot.Bot.SetKeyVal` takes the rendering or error text of `strconv.ParseFloat` as an input and stores no float.
- Randomness is an input. `getRandom`'s choice is `pick`, and the self-reply roll is `dice`.
- Chatbot.Bot.ResetMessageQueue: requires a drawn name that is in the table when `p` is empty. `getRandom` panics on an empty table, and that panic is not modelled.
- Chatbot.Bot.AttemptSendReply: decides with the corrected guard (see Findings). The chat request, the typing notice and the send are not modelled.
- Chatbot.AtoiErrorText: shows the value in double quotes without Go's `strconv.Quote` escaping of special characters.
- The chatbot's other management commands (`.help`, `.ping`, `.reset`, `.users`, `.info` and the `.prompts` listing text) are not modelled. The same goes for its message dispatch, `handleChatMessage`, `username` and the regular expression that strips a leading name from replies. Only the prompt unwrapping of the listing is modelled (`Chatbot.WrappedRoundTrip`).
- Commands.Outgoing: a reply is used as `sendMessagef`'s format string. Go's format verbs inside reply text are not interpreted. `Send.Named` assumes the format ends with a single `%s`.
- Go's rendering of durations and the host name and uptime of `.uptime` are inputs: `Monitor.ReasonText` takes the idle time as text.
- Minecraft.DecodeCaptures: reports any rejected integer field as `InvalidNumericField`, without `encoding/json`'s error text.
- `timeago` formatting and `table` rendering of the star list are not modelled; the fetch is an input list of stars.
- JavaScript numbers are integers in the model: NaN from a missing tier is `None`, and fractional and non-numeric values are not modelled. `JSON.stringify` is kept abstract (`Body.Encoded`).
- JsLib.Lower: lowers ASCII letters only; the rest of Unicode case mapping is not modelled.
- Go slice aliasing is not modelled. `LimitedQueue.AllItems` appends onto `sticky` and may share its backing array; the model returns a fresh sequence.
- Servers.ServerConfig.SetDefaults: requires the server list to hold no server twice. A list decoded from YAML never does, and aliased entries are not modelled.
- Commands.OnMessageCreate: requires the configuration's server list to hold no server twice (`ServerConfig.Distinct`), for the same reason.
- Commands.RunServerCommand: requires the server list to hold no server twice, for the same reason.
- Copypasta.Fold: the scan reads code points. The JavaScript pattern has no `u` flag, so it reads UTF-16 code units, and a character above U+FFFF counts as two. For a line made of one such character, JavaScript replaces the newlines on both sides (`"a\nX\nb"` with X = U+1F600 becomes `"a X b"`), while the model keeps the second newline. Text without characters above U+FFFF is not affected.
- Copypasta.FoldIsOut: the reference output is over code points too, so the same gap applies to lines made of a single character above U+FFFF.
- Copypasta.FoldChanges: which newlines are replaced is stated over code points; for a line made of a single character above U+FFFF, JavaScript replaces one more newline.
- Minecraft.Parse: the payload is a string of code points. `json.Marshal` replaces bytes that are not valid UTF-8 in the captured text fields with U+FFFD, and the model cannot express such bytes.
- The Cloudflare routing and middleware, signature checks, `register.js`, `handle.js`, `sleep`, the `Dispatch` workflow stub, the kong wiring and both `main.go` files are outside the modelled core.

## Findings

| source | as written | input that shows it | evidently intended | confidence | as-written member | corrected member |
|---|---|---|---|---|---|---|
| go/chatbot/command/discord.go:207-208 | After its own message, the guard reads `LastN(2)`, whose index `len(slice)-2` is -1 when only one non-sticky message is queued (go/chatbot/pkg/limited_queue.go:49). The reply tick panics. | `.set message_context 1`, then any reply of the bot: the queue holds one assistant message when the next reply tick runs | Check that there are two messages before looking at the second newest; with one assistant message, roll the self-reply dice | not executed | Chatbot.SingleAssistantMessagePanics | Chatbot.ReplyGuardAgrees |
