/**
  The orchestrator: resolve the tier, decide, build the prompt, pick a worker,
  call it once and assemble the response.
 */
module Agent {
  import opened Base
  import opened Strings
  import opened Models
  import opened Policy
  import opened Routing
  import opened Node
  import opened Config

  /** One line of the prompt: `role: content` followed by a newline. */
  function Line(m: ChatMessage): (line: string) {
    m.role + ": " + m.content + "\n"
  }

  /** A line is the role, `": "`, the content and a newline, in that order. */
  lemma LineLayout(m: ChatMessage)
    ensures |Line(m)| == |m.role| + |m.content| + 3
    ensures Line(m)[..|m.role|] == m.role && Line(m)[|m.role|..|m.role| + 2] == ": "
    ensures Line(m)[|m.role| + 2..|Line(m)| - 1] == m.content && Line(m)[|Line(m)| - 1] == '\n'
  {
  }

  /** The prompt: one line per message, in conversation order. */
  function Prompt(msgs: seq<ChatMessage>): (prompt: string)
    ensures |prompt| >= 3 * |msgs|
    ensures msgs != [] ==> prompt[|prompt| - 1] == '\n'
  {
    if msgs == [] then "" else Prompt(msgs[..|msgs| - 1]) + Line(msgs[|msgs| - 1])
  }

  /** The prompt of a conversation is the prompts of its parts, concatenated. */
  lemma {:induction false} PromptAppend(a: seq<ChatMessage>, b: seq<ChatMessage>)
    ensures Prompt(a + b) == Prompt(a) + Prompt(b)
    decreases |b|
  {
    if b == [] {
      assert a + b == a;
    } else {
      var ab, init, last := a + b, b[..|b| - 1], b[|b| - 1];
      assert ab[..|ab| - 1] == a + init;
      assert ab[|ab| - 1] == last;
      assert Prompt(ab) == Prompt(a + init) + Line(last);
      PromptAppend(a, init);
      Associative(Prompt(a), Prompt(init), Line(last));
    }
  }

  /** An independent reading: the prompt is the lines of the messages joined with nothing between them. */
  lemma {:induction false} PromptIsJoinedLines(msgs: seq<ChatMessage>)
    ensures Prompt(msgs) == Concat(seq(|msgs|, i requires 0 <= i < |msgs| => Line(msgs[i])))
    decreases |msgs|
  {
    if msgs != [] {
      var init, last := msgs[..|msgs| - 1], Line(msgs[|msgs| - 1]);
      var initLines := seq(|init|, i requires 0 <= i < |init| => Line(init[i]));
      assert Prompt(msgs) == Prompt(init) + last;
      PromptIsJoinedLines(init);
      LinesSnoc(msgs);
      ConcatAppend(initLines, [last]);
      ConcatOne(last);
    }
  }

  lemma LinesSnoc(msgs: seq<ChatMessage>)
    requires msgs != []
    ensures var init := msgs[..|msgs| - 1];
      seq(|msgs|, i requires 0 <= i < |msgs| => Line(msgs[i]))
        == seq(|init|, i requires 0 <= i < |init| => Line(init[i])) + [Line(msgs[|msgs| - 1])]
  {
    var init := msgs[..|msgs| - 1];
    var lines := seq(|msgs|, i requires 0 <= i < |msgs| => Line(msgs[i]));
    var initLines := seq(|init|, i requires 0 <= i < |init| => Line(init[i]));
    forall i | 0 <= i < |init|
      ensures lines[i] == initLines[i]
    {
      assert init[i] == msgs[i];
    }
    assert lines == initLines + [Line(msgs[|msgs| - 1])];
  }

  /** When no role or content holds a newline, the prompt has exactly one newline per message. */
  lemma {:induction false} PromptLineCount(msgs: seq<ChatMessage>)
    requires forall i :: 0 <= i < |msgs| ==> '\n' !in msgs[i].role && '\n' !in msgs[i].content
    ensures Count(Prompt(msgs), '\n') == |msgs|
    decreases |msgs|
  {
    if msgs != [] {
      var m := msgs[|msgs| - 1];
      PromptLineCount(msgs[..|msgs| - 1]);
      CountAppend(Prompt(msgs[..|msgs| - 1]), Line(m), '\n');
      CountAppend(m.role + ": " + m.content, "\n", '\n');
      CountAppend(m.role + ": ", m.content, '\n');
      CountAppend(m.role, ": ", '\n');
    }
  }

  /** `messages_to_prompt`: appends each message's line to the output in turn. */
  method MessagesToPrompt(msgs: seq<ChatMessage>) returns (out: string)
    ensures out == Prompt(msgs)
  {
    out := "";
    for i := 0 to |msgs|
      invariant out == Prompt(msgs[..i])
    {
      assert msgs[..i + 1][..i] == msgs[..i];
      out := out + Line(msgs[i]);
    }
    assert msgs[..|msgs|] == msgs;
  }

  /**
    `parse_model_tier`: an identifier `NS:TIER` is resolved by its tier part
    alone; an identifier without `:` is parsed whole.
   */
  function ParseModelTier(model: string): (r: Option<Tier>)
    // Without a colon the whole identifier is a tier name.
    ensures ':' !in model ==> r == Tier.Parse(model)
  {
    var m := Trim(model);
    var parts := Split(m, ':');
    assert ':' !in model ==> parts == [m] && Tier.Parse(m) == Tier.Parse(model) by {
      if ':' !in model {
        TrimKeepsAbsent(model, ':');
        SplitNoSeparator(m, ':');
        ParseIgnoresTrim(model);
      }
    }
    if |parts| == 2 then Tier.Parse(parts[1]) else Tier.Parse(m)
  }

  /** With one colon the namespace is ignored and only the part after it is parsed. */
  lemma ModelWithNamespace(ns: string, t: string)
    requires ':' !in ns && ':' !in t
    ensures ParseModelTier(ns + ":" + t) == Tier.Parse(t)
  {
    assert ns + ":" + t == ns + [':'] + t;
    TrimAroundSeparator(ns, ':', t);
    var a, b := TrimStart(ns), TrimEnd(t);
    assert ':' !in a by {
      assert a == ns[|ns| - |a|..];
    }
    assert ':' !in b by {
      assert b == t[..|b|];
    }
    TrimmedWithOneColon(ns + ":" + t, a, b);
    ParseIgnoresTrimEnd(t);
  }

  /** A trimmed identifier `a:b` with colon-free halves resolves by `b`. */
  lemma TrimmedWithOneColon(model: string, a: string, b: string)
    requires Trim(model) == a + [':'] + b && ':' !in a && ':' !in b
    ensures ParseModelTier(model) == Tier.Parse(b)
  {
    SplitOneColon(a, b);
  }

  lemma SplitOneColon(a: string, b: string)
    requires ':' !in a && ':' !in b
    ensures Split(a + [':'] + b, ':') == [a, b]
  {
    SplitAroundSeparator(a, b, ':');
    SplitNoSeparator(a, ':');
    SplitNoSeparator(b, ':');
  }

  /** Trailing whitespace does not change what a tier name parses to. */
  lemma ParseIgnoresTrimEnd(t: string)
    ensures Tier.Parse(TrimEnd(t)) == Tier.Parse(t)
  {
    TrimEndFixed(TrimEnd(t));
    assert Trim(TrimEnd(t)) == Trim(t);
    assert Normalise(TrimEnd(t)) == Normalise(t);
  }

  /** Two or more colons make the identifier unresolvable. */
  lemma ModelWithManyColons(model: string)
    requires Count(model, ':') >= 2
    ensures ParseModelTier(model) == None
  {
    var m := Trim(model);
    TrimKeepsCount(model, ':');
    assert |Split(m, ':')| != 2;
    ColonNeverParses(m);
  }

  /** No tier name contains a colon, so text with one never parses as a tier. */
  lemma ColonNeverParses(m: string)
    requires ':' in m
    ensures Tier.Parse(m) == None
  {
    var t := Trim(m);
    ColonSurvivesTrim(m);
    var k :| 0 <= k < |t| && t[k] == ':';
    var u := ToAsciiUppercase(t);
    assert u[k] == ToAsciiUpper(t[k]) == ':';
    NoNameHasColon(u, k);
  }

  lemma ColonSurvivesTrim(m: string)
    requires ':' in m
    ensures ':' in Trim(m)
  {
    TrimKeepsCount(m, ':');
  }

  lemma NoNameHasColon(u: string, k: nat)
    requires k < |u| && u[k] == ':'
    ensures forall t: Tier :: u != t.Name()
  {
    forall t: Tier
      ensures u != t.Name()
    {
      NameIsUpperWord(t);
    }
  }

  /** A namespaced identifier resolves by its tier part. */
  lemma ModelExampleNamespaced()
    ensures ParseModelTier("AURIA:PRO") == Some(Pro)
  {
    assert "AURIA:PRO" == "AURIA" + ":" + "PRO";
    ModelWithNamespace("AURIA", "PRO");
    ParseName(Pro);
  }

  /** A bare tier name is accepted as the identifier. */
  lemma ModelExampleBare()
    ensures ParseModelTier("PRO") == Some(Pro)
  {
    ParseName(Pro);
  }

  /** An unknown tier part makes the identifier unresolvable. */
  lemma ModelExampleUnknown()
    ensures ParseModelTier("AURIA:bogus") == None
  {
    assert "AURIA:bogus" == "AURIA" + ":" + "bogus";
    ModelWithNamespace("AURIA", "bogus");
    ParseUnknown();
  }

  /** The tier a request is served at: its model's tier, else the configured default. */
  function ResolveTier(cfg: AppConfig, model: string): (t: Tier)
    ensures ParseModelTier(model).Some? ==> t == ParseModelTier(model).value
    ensures ParseModelTier(model).None? ==> t == cfg.defaultTier
  {
    var requested := ParseModelTier(model);
    requested.GetOr(cfg.defaultTier)
  }

  /** What the chosen worker is asked to do for `req`. */
  function WorkerRequest(cfg: AppConfig, policy: PolicyEngine, req: ChatCompletionRequest): (w: NodeGenerateRequest)
    ensures w.tier == ResolveTier(cfg, req.model)
    ensures w.prompt == Prompt(req.messages)
    ensures w.maxTokens <= MAX_TOKENS_CAP
    ensures req.maxTokens.None? ==> w.maxTokens == DEFAULT_MAX_TOKENS
    ensures req.maxTokens.Some? && req.maxTokens.value <= MAX_TOKENS_CAP ==> w.maxTokens == req.maxTokens.value
    ensures req.maxTokens.Some? && req.maxTokens.value > MAX_TOKENS_CAP ==> w.maxTokens == MAX_TOKENS_CAP
  {
    var pd := policy.Decide(Some(ResolveTier(cfg, req.model)), req.maxTokens);
    NodeGenerateRequest(pd.tier, Prompt(req.messages), pd.maxTokens)
  }

  /** An unknown tier is never an error: the configured default is used instead. */
  lemma UnknownTierUsesDefault(cfg: AppConfig, policy: PolicyEngine, req: ChatCompletionRequest)
    requires ParseModelTier(req.model) == None
    ensures WorkerRequest(cfg, policy, req).tier == cfg.defaultTier
  {
  }

  /** The response layout: one assistant choice carrying the worker's tokens, and the worker's count as usage. */
  predicate IsResponseTo(r: ChatCompletionResponse, model: string, resp: NodeGenerateResponse, idToken: string, created: i64) {
    && r.id == NewId(idToken)
    && r.created == created
    && r.model == model
    && |r.choices| == 1
    && r.choices[0].index == 0
    && r.choices[0].message == ChatMessage("assistant", Concat(resp.tokens))
    && r.choices[0].finishReason == "stop"
    && r.usage == Usage(0, resp.tokensGenerated, resp.tokensGenerated)
  }

  function Assemble(model: string, resp: NodeGenerateResponse, idToken: string, created: i64): (r: ChatCompletionResponse)
    ensures IsResponseTo(r, model, resp, idToken, created)
  {
    ChatCompletionResponse(
      NewId(idToken),
      created,
      model,
      [Choice(0, ChatMessage("assistant", Concat(resp.tokens)), "stop")],
      Usage(0, resp.tokensGenerated, resp.tokensGenerated))
  }

  /**
    The pipeline after the policy step, for any decision `pd`: a denied
    request fails with the decision's reason before the router or a worker
    is touched; an allowed one takes the next pick, calls that worker once
    and either propagates its failure or assembles the response.
   */
  function Admit(
    pool: NodePool, counter: usize, pd: PolicyDecision,
    req: ChatCompletionRequest, generate: Generate, idToken: string, created: i64)
    : (out: (Result<ChatCompletionResponse, string>, usize))
    requires |pool.nodes| > 0
    ensures !pd.allowed && pd.denyReason.Some? ==> out == (Err(pd.denyReason.value), counter)
    ensures !pd.allowed && pd.denyReason.None? ==> out == (Err("request denied"), counter)
    ensures pd.allowed ==> out.1 == WrappingIncrement(counter)
    ensures pd.allowed ==>
      var call := generate(pool.Get(counter), NodeGenerateRequest(pd.tier, Prompt(req.messages), pd.maxTokens));
      && (call.Err? ==> out.0 == Err(call.error))
      && (call.Ok? ==> out.0.Ok? && IsResponseTo(out.0.value, req.model, call.value, idToken, created))
  {
    if !pd.allowed then
      (Err(pd.denyReason.GetOr("request denied")), counter)
    else
      var next := WrappingIncrement(counter);
      match generate(pool.Get(counter), NodeGenerateRequest(pd.tier, Prompt(req.messages), pd.maxTokens))
      case Err(e) => (Err(e), next)
      case Ok(resp) => (Ok(Assemble(req.model, resp, idToken, created)), next)
  }

  /**
    One request through the whole pipeline, given the router's counter
    before it: the outcome and the counter after it. Since `decide` always
    allows, every request is routed: the worker is called once, on the node
    the counter selects, and its failure is the request's failure.
   */
  function Dispatch(
    cfg: AppConfig, policy: PolicyEngine, pool: NodePool, counter: usize,
    req: ChatCompletionRequest, generate: Generate, idToken: string, created: i64)
    : (out: (Result<ChatCompletionResponse, string>, usize))
    requires |pool.nodes| > 0
    ensures out.1 == WrappingIncrement(counter)
    ensures var call := generate(pool.Get(counter), WorkerRequest(cfg, policy, req));
      && (call.Err? ==> out.0 == Err(call.error))
      && (call.Ok? ==> out.0.Ok? && IsResponseTo(out.0.value, req.model, call.value, idToken, created))
  {
    Admit(pool, counter, policy.Decide(Some(ResolveTier(cfg, req.model)), req.maxTokens), req, generate, idToken, created)
  }

  /**
    The end-to-end example: two workers, model `AURIA:STANDARD`, one user
    message `hi`, no token limit. The selected worker receives the Standard
    tier, the prompt `user: hi` and a budget of 256, and its answer comes
    back as the assistant's message.
   */
  lemma EndToEndExample(
    cfg: AppConfig, n0: NodeClient, n1: NodeClient, counter: usize,
    generate: Generate, resp: NodeGenerateResponse, idToken: string, created: i64)
    requires generate(NodePool([n0, n1]).Get(counter), NodeGenerateRequest(Standard, "user: hi\n", 256)) == Ok(resp)
    ensures
      var req := ChatCompletionRequest("AURIA:STANDARD", [ChatMessage("user", "hi")], None, None);
      var policy := PolicyEngine(cfg.defaultTier, cfg.maxCostMicrousdc);
      var out := Dispatch(cfg, policy, NodePool([n0, n1]), counter, req, generate, idToken, created);
      && out.0.Ok?
      && out.0.value.choices[0].message.role == "assistant"
      && out.0.value.choices[0].message.content == Concat(resp.tokens)
      && out.0.value.usage.completionTokens == resp.tokensGenerated
      && out.0.value.id == "auria_" + idToken
  {
    ExampleWorkerRequest(cfg);
  }

  /** What the worker is asked for in the end-to-end example. */
  lemma ExampleWorkerRequest(cfg: AppConfig)
    ensures WorkerRequest(cfg, PolicyEngine(cfg.defaultTier, cfg.maxCostMicrousdc),
                          ChatCompletionRequest("AURIA:STANDARD", [ChatMessage("user", "hi")], None, None))
         == NodeGenerateRequest(Standard, "user: hi\n", 256)
  {
    ModelExampleStandard();
    PromptExample();
  }

  lemma ModelExampleStandard()
    ensures ParseModelTier("AURIA:STANDARD") == Some(Standard)
  {
    assert "AURIA:STANDARD" == "AURIA" + ":" + "STANDARD";
    ModelWithNamespace("AURIA", "STANDARD");
    ParseName(Standard);
  }

  /** A single user message becomes one prompt line. */
  lemma PromptExample()
    ensures Prompt([ChatMessage("user", "hi")]) == "user: hi\n"
  {
    var msgs := [ChatMessage("user", "hi")];
    assert msgs[..0] == [];
  }

  /** `NodeClient::new` applied to each address in order, stopping at the first that fails. */
  method ConnectAll(urls: seq<string>, connect: Connect) returns (r: Result<seq<NodeClient>, string>)
    ensures r.Ok? ==> |r.value| == |urls| && forall i :: 0 <= i < |urls| ==> connect(urls[i]) == Ok(r.value[i])
    ensures r.Err? ==> exists i :: (0 <= i < |urls| && connect(urls[i]) == Err(r.error)
                                    && forall k :: 0 <= k < i ==> connect(urls[k]).Ok?)
  {
    var nodes: seq<NodeClient> := [];
    for i := 0 to |urls|
      invariant |nodes| == i
      invariant forall k :: 0 <= k < i ==> connect(urls[k]) == Ok(nodes[k])
    {
      var c := connect(urls[i]);
      if c.Err? {
        return Err(c.error);
      }
      nodes := nodes + [c.value];
    }
    r := Ok(nodes);
  }

  /** The agent: configuration, policy and pool fixed at start-up, and the router. */
  class AuriaAgent {
    const cfg: AppConfig
    const policy: PolicyEngine
    const pool: NodePool
    const router: RoundRobinRouter

    predicate Valid() {
      && |pool.nodes| > 0
      && policy == PolicyEngine(cfg.defaultTier, cfg.maxCostMicrousdc)
    }

    /** The agent over an already validated, non-empty list of workers. */
    constructor (cfg: AppConfig, nodes: seq<NodeClient>)
      requires |nodes| > 0
      ensures Valid() && this.cfg == cfg && pool.nodes == nodes
      ensures fresh(router) && router.next == 0
    {
      this.cfg := cfg;
      policy := PolicyEngine(cfg.defaultTier, cfg.maxCostMicrousdc);
      pool := NodePool(nodes);
      router := new RoundRobinRouter();
    }

    /**
      `AuriaAgent::new`: one worker handle per configured address, in order.
      An address the client rejects fails construction with the client's
      error; an empty address list fails with a configuration error.
     */
    static method New(cfg: AppConfig, connect: Connect) returns (r: Result<AuriaAgent, string>)
      ensures r.Err? <==> |cfg.nodeUrls| == 0 || exists i :: 0 <= i < |cfg.nodeUrls| && connect(cfg.nodeUrls[i]).Err?
      ensures |cfg.nodeUrls| == 0 ==> r == Err("no node urls configured")
      ensures r.Err? && |cfg.nodeUrls| > 0 ==> exists i :: (0 <= i < |cfg.nodeUrls| && connect(cfg.nodeUrls[i]) == Err(r.error)
                                                  && forall k :: 0 <= k < i ==> connect(cfg.nodeUrls[k]).Ok?)
      ensures r.Ok? ==> && fresh(r.value) && fresh(r.value.router)
                        && r.value.Valid() && r.value.cfg == cfg && r.value.router.next == 0
                        && |r.value.pool.nodes| == |cfg.nodeUrls|
                        && forall i :: 0 <= i < |cfg.nodeUrls| ==> connect(cfg.nodeUrls[i]) == Ok(r.value.pool.nodes[i])
    {
      var nodes := ConnectAll(cfg.nodeUrls, connect);
      if nodes.Err? {
        return Err(nodes.error);
      }
      if |nodes.value| == 0 {
        return Err("no node urls configured");
      }
      var agent := new AuriaAgent(cfg, nodes.value);
      r := Ok(agent);
    }

    /**
      `chat_completions`: resolves the tier (falling back to the configured
      default), asks the policy, and serves the decision.
     */
    method ChatCompletions(req: ChatCompletionRequest, generate: Generate, idToken: string, created: i64)
      returns (r: Result<ChatCompletionResponse, string>)
      requires Valid()
      modifies router
      ensures (r, router.next) == Dispatch(cfg, policy, pool, old(router.next), req, generate, idToken, created)
    {
      var requested := ParseModelTier(req.model);
      if requested.None? {
        requested := Some(cfg.defaultTier);
      }
      var pd := policy.Decide(requested, req.maxTokens);
      r := Serve(pd, req, generate, idToken, created);
    }

    /**
      The rest of `chat_completions` once the decision `pd` is known: the
      early return on a denial, then prompt, pick, worker call and response.
     */
    method Serve(pd: PolicyDecision, req: ChatCompletionRequest, generate: Generate, idToken: string, created: i64)
      returns (r: Result<ChatCompletionResponse, string>)
      requires Valid()
      modifies router
      ensures (r, router.next) == Admit(pool, old(router.next), pd, req, generate, idToken, created)
    {
      if !pd.allowed {
        return Err(pd.denyReason.GetOr("request denied"));
      }
      var prompt := MessagesToPrompt(req.messages);
      var idx := router.Pick(pd.tier);
      var node := pool.Get(idx);
      var nodeResp := generate(node, NodeGenerateRequest(pd.tier, prompt, pd.maxTokens));
      if nodeResp.Err? {
        return Err(nodeResp.error);
      }
      var content := Concat(nodeResp.value.tokens);
      r := Ok(ChatCompletionResponse(
        NewId(idToken),
        created,
        req.model,
        [Choice(0, ChatMessage("assistant", content), "stop")],
        Usage(0, nodeResp.value.tokensGenerated, nodeResp.value.tokensGenerated)));
    }
  }
}
