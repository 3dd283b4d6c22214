# AURIA request dispatch, modelled in Dafny

This project models the request-dispatch core of the AURIA agent, an
OpenAI-style chat-completion front end that forwards each request to one of
several worker nodes. The core takes a `ChatCompletionRequest` through these
steps:

1. resolve a service tier from the model identifier (`AURIA:STANDARD`,
   `standard`, …), falling back to the configured default;
2. put it through the policy engine, which shapes the token budget
   (default 256, cap 4096);
3. turn the conversation into a `role: content` prompt;
4. pick a worker with the round-robin router and the node pool;
5. call the worker once and assemble the response.

The project also models the configuration defaults and the
environment-variable override rules of the loader.

Modules, one per source file, plus two support modules:

| file | module | models |
|---|---|---|
| `base.dfy` | `Base` | `Option`, `Result`; the `u32`/`u64`/`usize`/`i64` ranges (64-bit target) |
| `strings.dfy` | `Strings` | the Rust string functions the core calls: `trim` (Unicode White_Space), `to_ascii_uppercase`, `split`, `join`, `u64::from_str` |
| `models.dfy` | `Models` | `Tier`, `Tier::parse`, the request/response records, `new_id` |
| `policy.dfy` | `Policy` | `PolicyDecision`, `PolicyEngine::decide` |
| `node_client.dfy` | `Node` | the worker request/response records; the client itself is abstract |
| `routing.dfy` | `Routing` | `RoundRobinRouter` (a class with the mutable counter `next`), `NodePool` |
| `config.dfy` | `Config` | `AppConfig`, its defaults and the override block of `AppConfig::load` |
| `agent.dfy` | `Agent` | `parse_model_tier`, `messages_to_prompt`, the `AuriaAgent` class with `new` and `chat_completions` |

The remote worker is abstract. `NodeClient::new` is a function parameter of
type `Connect`, and `NodeClient::generate` is a function parameter of type
`Generate`. Either may fail. The id suffix (a UUID in the source) and the
`created` timestamp (the clock) are parameters.

`chat_completions` is specified by the function `Agent.Dispatch`. It maps a
request and the router's counter before the call to the outcome and the
counter after the call. `AuriaAgent.ChatCompletions` is the imperative
pipeline, and its postcondition is equality with `Dispatch`. The deny branch
of the source (agent.rs:50-52) is modelled in `Agent.Admit` and
`AuriaAgent.Serve`, which take an arbitrary `PolicyDecision`. `Decide`
always allows, so through `Dispatch` that branch is never taken.

The shaped `max_tokens` has no lower bound: a request for 0 tokens passes
unchanged (`Policy.DecideExamples`).

## Model

| member | source | states |
|---|---|---|
| Strings.TrimStart | src/models.rs:15 | the result is a suffix of the input; everything removed is whitespace; it starts with a non-whitespace character or is empty |
| Strings.TrimEnd | src/models.rs:15 | the result is a prefix of the input; everything removed is whitespace; it ends with a non-whitespace character or is empty |
| Strings.Trim | src/models.rs:15 | the result is no longer than the input, and neither edge is whitespace |
| Strings.TrimFixed | src/models.rs:15 | a string with no whitespace at either edge is its own trim |
| Strings.TrimIdempotent | src/models.rs:15 | trimming twice equals trimming once |
| Strings.TrimEmptyIff | src/config.rs:68-69 | a string trims to empty exactly when it is all whitespace |
| Strings.TrimKeepsAbsent | src/config.rs:68 | trimming never introduces a character |
| Strings.TrimStartStep | src/models.rs:15 | a leading whitespace character is dropped by trimming the start |
| Strings.TrimEndStep | src/models.rs:15 | a trailing whitespace character is dropped by trimming the end |
| Strings.TrimEndKeepsPrefix | src/models.rs:15 | trimming the end of `a + b` stops inside `b` when `b` holds a non-whitespace character |
| Strings.TrimStartKeepsSuffix | src/models.rs:15 | trimming the start of `a + b` stops inside `a` when `a` holds a non-whitespace character |
| Strings.TrimPadded | src/models.rs:15 | whitespace padding on both sides is removed exactly |
| Strings.TrimAroundSeparator | src/agent.rs:97-98 | trimming `a c b` around a non-whitespace `c` trims only the start of `a` and the end of `b` |
| Strings.ToAsciiUpper | src/models.rs:15 | the mapped character is whitespace exactly when the original is, and is never a lower-case ASCII letter |
| Strings.ToAsciiUpperMaps | src/models.rs:15 | `a`-`z` map to `A`-`Z` letter for letter; every other character is unchanged |
| Strings.ToAsciiUppercase | src/models.rs:15 | the uppercased string has the length of the original |
| Strings.UppercaseMaps | src/models.rs:15 | each character is uppercased on its own, at its own position |
| Strings.UppercaseIdempotent | src/models.rs:15 | upper-casing twice equals upper-casing once |
| Strings.TrimUppercaseCommute | src/models.rs:15 | trimming and ASCII upper-casing commute |
| Strings.Count | src/agent.rs:98-99 | the count is at most the length, and it is zero exactly when the character is absent |
| Strings.CountAppend | src/agent.rs:98-99 | counting is additive over concatenation |
| Strings.TrimKeepsCount | src/agent.rs:97-98 | trimming keeps the number of occurrences of any non-whitespace character |
| Strings.Split | src/agent.rs:98 | splitting gives one more part than there are separators, and no part contains the separator |
| Strings.JoinSplit | src/config.rs:66-67 | joining the parts of a split with the separator gives back the original string |
| Strings.SplitJoin | src/config.rs:66-67 | splitting the join of separator-free parts gives back those parts |
| Strings.SplitNoSeparator | src/agent.rs:98-102 | a string without the separator splits into itself alone |
| Strings.SplitAroundSeparator | src/agent.rs:98-99 | splitting `a sep b` gives the parts of `a` followed by the parts of `b` |
| Strings.SplitBlank | src/config.rs:66-69 | a string made of separators and whitespace splits into all-whitespace parts |
| Strings.Concat | src/agent.rs:64 | the joined tokens are as long as all the tokens together; with ConcatOne and ConcatAppend it is the in-order join with no separator |
| Strings.ConcatOne | src/agent.rs:64 | a single token joins to itself |
| Strings.ConcatAppend | src/agent.rs:64 | joining tokens with no separator is additive over concatenation |
| Strings.DecimalString | src/config.rs:79 | the rendering is a non-empty digit string with no leading zero unless the value is 0 |
| Strings.DecimalRoundTrip | src/config.rs:79 | the decimal rendering of n reads back as n |
| Strings.LeadingZero | src/config.rs:79 | leading zeros do not change the value read |
| Strings.ParseU64 | src/config.rs:79 | the parse succeeds exactly when the text after an optional `+` is a non-empty digit string whose value is below 2^64, and then it returns that value |
| Strings.ParseU64RoundTrip | src/config.rs:79 | every u64, written in decimal (with or without `+`), parses back to itself |
| Strings.ParseU64Overflow | src/config.rs:79-81 | a decimal value of 2^64 or more is rejected |
| Strings.ParseU64RejectsWhitespace | src/config.rs:79-81 | text holding any whitespace is rejected |
| Models.Tier.FromName | src/models.rs:16-20 | a tier is returned only for its exact wire name; None means the text is no tier's name |
| Models.Tier.Parse | src/models.rs:14-22 | on success the trimmed, upper-cased input equals the tier's wire name; on None it equals no tier's name |
| Models.ParseName | src/models.rs:5-10 | every tier's UPPERCASE wire name parses back to that tier |
| Models.FromNameOfName | src/models.rs:16-19 | each wire name maps to its own tier |
| Models.NameFixed | src/models.rs:15 | an upper-case word is already normalised |
| Models.NameIsUpperWord | src/models.rs:5-10 | every wire name consists of upper-case ASCII letters only |
| Models.ParseIgnoresTrim | src/models.rs:15 | the parse of a string equals the parse of its trim |
| Models.ParseIgnoresPadding | src/models.rs:15 | any whitespace padding on either side leaves the parse unchanged |
| Models.ParseCaseInsensitive | src/models.rs:15 | strings that agree up to ASCII case parse alike |
| Models.ParseNormalised | src/models.rs:15 | normalising first (trim, then uppercase) changes nothing |
| Models.ParseSmoke | tests/smoke.rs:9-10 | `STANDARD` parses to Standard and `nano` to Nano |
| Models.ParsePadded | src/models.rs:15-17 | ` standard ` parses to Standard |
| Models.ParseLowerStandard | src/models.rs:15-17 | `standard` parses to Standard |
| Models.ParseUnknown | src/models.rs:20 | `bogus` parses to None |
| Models.NewId | src/models.rs:63-65 | an id is the prefix `auria_` followed by the token, with the length to match |
| Models.NewIdInjective | src/models.rs:63-65 | distinct tokens give distinct ids |
| Policy.PolicyEngine.Decide | src/policy.rs:22-32 | the tier is the requested one, else the default. The budget is the requested one (256 if absent), capped at 4096, with no lower bound. The decision always allows and carries no reason |
| Policy.CostCeilingInert | src/policy.rs:26-31 | two engines that differ only in their cost ceiling decide identically |
| Policy.DecideIdempotent | src/policy.rs:22-32 | deciding again on a decision's own tier and budget reproduces it |
| Policy.DecideExamples | src/policy.rs:24 | `(None, None)` gives the default tier and 256; 10000 gives 4096; 10 and 0 pass through |
| Routing.WrappingIncrement | src/routing.rs:24 | the counter is incremented by one, and wraps from `usize::MAX` to 0 |
| Routing.RoundRobinRouter.constructor | src/routing.rs:17-20 | a fresh router's counter is 0 |
| Routing.RoundRobinRouter.Pick | src/routing.rs:23-25 | returns the counter's old value, whatever the tier, and increments the counter once with wrap-around |
| Routing.Picks | src/routing.rs:23-25 | n successive picks give n values |
| Routing.PicksStep | src/routing.rs:23-25 | the first of n picks is the value `Pick` returns, and the rest are the picks of the counter `Pick` leaves |
| Routing.PicksConsecutive | src/routing.rs:24 | without overflow, the i-th pick from `start` returns `start + i` |
| Routing.FreshRouterPicks | src/routing.rs:17-25 | a fresh router's i-th pick (from 0) returns i |
| Routing.PicksIncreasing | src/routing.rs:24 | without overflow, successive picks are strictly increasing |
| Routing.PicksWrap | src/routing.rs:24 | the pick after `usize::MAX` returns 0 |
| Routing.NodePool.Len | src/routing.rs:34-36 | the length is the number of nodes held |
| Routing.NodePool.Get | src/routing.rs:37-39 | on a non-empty pool the result is a pool member, and it is `nodes[idx]` when `idx` is in range |
| Routing.GetWraparound | src/routing.rs:38 | `get(i) == get(i + len)` |
| Routing.RoundRobinCoverage | src/routing.rs:24 | from a fresh router, len picks through `get` visit nodes 0..len-1 in order, and the next pick returns node 0 |
| Routing.WindowCoversPool | src/routing.rs:38 | any len consecutive picks without overflow select every slot of the pool, each exactly once |
| Config.Kept | src/config.rs:68-69 | one piece contributes at most one entry |
| Config.TrimNonEmpty | src/config.rs:68-70 | the trim-and-filter step never lengthens the list |
| Config.SplitNodeUrls | src/config.rs:66-70 | every entry of the override is non-empty, has no whitespace at either edge, and contains no comma |
| Config.TrimNonEmptyWellFormed | src/config.rs:68-70 | comma-free pieces, once trimmed and filtered, are well-formed entries |
| Config.TrimNonEmptyAppend | src/config.rs:68-70 | trim-and-filter distributes over concatenation, so order is kept |
| Config.SplitNodeUrlsAppend | src/config.rs:66-70 | the entries of `a,b` are the entries of `a` followed by those of `b` |
| Config.TrimNonEmptyEntries | src/config.rs:68-70 | trim-and-filter leaves a list of well-formed entries unchanged |
| Config.SplitNodeUrlsRoundTrip | src/config.rs:66-70 | a list of well-formed entries, comma-joined, reads back exactly |
| Config.TrimNonEmptyBlank | src/config.rs:68-69 | all-whitespace pieces are all dropped |
| Config.SplitNodeUrlsBlank | src/config.rs:66-70 | a value made only of commas and whitespace yields no node URL, so `AuriaAgent.New` then fails with `no node urls configured` |
| Config.Default | src/config.rs:32-41 | the default node list is a single well-formed entry |
| Config.DefaultConfig | src/config.rs:32-41 | bind `127.0.0.1:8787`, node list `[http://127.0.0.1:8080]`, default tier Standard, cost ceiling 0 |
| Config.SplitNodeUrlsPiece | src/config.rs:66-70 | a piece without a comma is read back as its trim, or as nothing when it is blank |
| Config.SplitNodeUrlsSingle | src/config.rs:66-70 | a single well-formed entry is read back as a one-element list |
| Config.DefaultNodeUrlsStable | src/config.rs:34-36 | the default node address, given as the override, yields the default node list |
| Config.EntriesAppend | src/config.rs:68-70 | well-formed entry lists stay well-formed under concatenation |
| Config.ApplyEnvOverrides | src/config.rs:65-82 | each variable that is set replaces its field. An unset one keeps the field. A node list is split, trimmed and filtered. `bind` is taken verbatim. A tier or cost that does not parse keeps the old value |
| Agent.Prompt | src/agent.rs:88-91 | the prompt has at least three characters per message and, when there are messages, ends with a newline |
| Agent.LineLayout | src/agent.rs:89-90 | a message's line is its role, `: `, its content and a newline |
| Agent.PromptAppend | src/agent.rs:85-93 | the prompt of a concatenated conversation is the concatenation of the prompts |
| Agent.PromptIsJoinedLines | src/agent.rs:88-91 | the prompt is the lines `role: content\n`, in order, with nothing between them |
| Agent.PromptLineCount | src/agent.rs:88-91 | without newlines in roles and contents, the prompt has one newline per message |
| Agent.PromptExample | src/agent.rs:88-91 | a single `user`/`hi` message becomes `user: hi\n` |
| Agent.MessagesToPrompt | src/agent.rs:85-93 | the loop builds exactly the prompt, which is `""` for no messages |
| Agent.ParseModelTier | src/agent.rs:95-103 | an identifier without a colon parses as a whole tier name |
| Agent.ModelWithNamespace | src/agent.rs:97-101 | for `ns:t` with one colon, the namespace is ignored and only `t` is parsed |
| Agent.ParseIgnoresTrimEnd | src/agent.rs:97-100 | trailing whitespace on the tier part does not change its parse |
| Agent.ModelWithManyColons | src/agent.rs:98-102 | two or more colons give None |
| Agent.ColonNeverParses | src/models.rs:15-20 | text containing a colon never parses as a tier |
| Agent.ModelExampleNamespaced | src/agent.rs:96 | `AURIA:PRO` resolves to Pro |
| Agent.ModelExampleBare | src/agent.rs:96 | `PRO` resolves to Pro |
| Agent.ModelExampleUnknown | src/agent.rs:99-100 | `AURIA:bogus` resolves to None |
| Agent.ModelExampleStandard | src/models.rs:33 | `AURIA:STANDARD` resolves to Standard |
| Agent.WorkerRequest | src/agent.rs:47-61 | the worker gets the resolved tier, the prompt, and the shaped budget: at most 4096, 256 if absent, the request's own value if it is within the cap, and the cap itself if it is above |
| Agent.ResolveTier | src/agent.rs:47 | the tier is the parsed one when the model id parses, and the configured default otherwise |
| Agent.Assemble | src/agent.rs:64-81 | the response has the shape of `IsResponseTo`: fresh id, given timestamp, echoed model, one `assistant` choice with the joined tokens and reason `stop`, usage `(0, n, n)` |
| Agent.UnknownTierUsesDefault | src/agent.rs:47 | an unresolvable model id is served at the configured default tier, not rejected |
| Agent.Admit | src/agent.rs:50-81 | a denied decision fails with its reason, or `request denied`, and leaves the counter unchanged. An allowed one advances the counter once and calls the picked worker once. A worker failure is the request's failure. A success has the response shape of `IsResponseTo` |
| Agent.Dispatch | src/agent.rs:46-82 | every request advances the counter once and calls the worker the counter selects, once. A worker failure is propagated. A success echoes the model and has one choice: index 0, role `assistant`, content the joined tokens, reason `stop`. Usage is `(0, n, n)` |
| Agent.EndToEndExample | src/agent.rs:46-82 | two workers, `AURIA:STANDARD`, one `hi` message: the worker gets Standard, `user: hi\n` and 256, and its tokens become the answer |
| Agent.ExampleWorkerRequest | src/agent.rs:47-61 | the worker request of the end-to-end example |
| Agent.ConnectAll | src/agent.rs:20-23 | on success there is one client per address, pointwise and in order. On failure some address failed with that error, and every earlier address was accepted |
| Agent.AuriaAgent.constructor | src/agent.rs:28-33 | the policy is built from the configuration, the pool holds the given nodes, and the router starts at 0 |
| Agent.AuriaAgent.New | src/agent.rs:19-34 | construction fails exactly when there are no addresses or one of them is rejected. No addresses gives `no node urls configured`. Otherwise the error is that of the first address rejected. On success the pool holds one client per address in order and the router starts at 0 |
| Agent.AuriaAgent.ChatCompletions | src/agent.rs:46-82 | the outcome and the new counter are those of `Dispatch` on the old counter |
| Agent.AuriaAgent.Serve | src/agent.rs:50-81 | the outcome and the new counter are those of `Admit` on the old counter |

## Left out

- `src/api.rs`, `src/main.rs`, `src/telemetry.rs` and `src/lib.rs` are not part of this model. They hold HTTP transport, process entry, tracing setup and module declarations.
- `src/node_client.rs` is not part of this model beyond its record types.
  - URL validation and the HTTP calls are abstract function parameters.
  - The body of `generate` is a fixed placeholder, so it is not specified.
- `AuriaAgent::check_nodes` is not modelled. It is asynchronous network I/O; it ignores every probe result and returns success.
- `AuriaAgent::config` is a plain accessor; the model reads the `cfg` field directly.
- The Figment merge of defaults, TOML, JSON and prefixed environment variables in `AppConfig::load` is not modelled, and neither are the `std::env::var` reads. `Config.ApplyEnvOverrides` starts from the extracted configuration, with each variable given as an optional string.
- The UUID generator and the clock are not modelled; the id suffix and the timestamp are parameters.
- The `temperature` field is carried but unused by the pipeline; it is modelled as an optional real.
- Concurrency and the relaxed atomic ordering of the router counter are not modelled; picks are sequential. `Pick` models `fetch_add`'s wrap-around at 2^64, assuming a 64-bit target.
- The `NodeRouter` trait is not modelled as an interface; the round-robin router is its only implementation.
- Configuration deserialisation failures (`fig.extract()?`) are not modelled.
