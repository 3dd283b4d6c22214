/**
  The records exchanged with a worker node. The HTTP client itself (URL
  parsing, the health probe and the generate call) is not part of this
  model: the orchestrator receives `NodeClient::new` and `generate` as
  function parameters.
 */
module Node {
  import opened Base
  import opened Models

  /** A handle on one worker, known by its base address. */
  datatype NodeClient = NodeClient(base: string)

  datatype NodeGenerateRequest = NodeGenerateRequest(tier: Tier, prompt: string, maxTokens: u32)

  datatype NodeGenerateResponse = NodeGenerateResponse(tokens: seq<string>, tokensGenerated: u32)

  /** `NodeClient::new`: validates a base address, or fails with a message. */
  type Connect = string -> Result<NodeClient, string>

  /** `NodeClient::generate`: one request/response exchange with a worker, which may fail. */
  type Generate = (NodeClient, NodeGenerateRequest) -> Result<NodeGenerateResponse, string>
}
