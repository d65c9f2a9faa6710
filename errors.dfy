/**
 * The error type of the whole program and its translation into the error codes
 * of the JSON-RPC 2.0 Specification, section 5.1 (the error object).
 */
module Errors {
  import opened Numeric

  /**
   * `TraderGraderError`. The variants that wrap a foreign error
   * (`reqwest::Error`, `serde_json::Error`) carry that error's text instead.
   */
  datatype TraderGraderError =
    | EsiApiError(message: string)
    | InvalidRegionId(regionId: i32)
    | InvalidTypeId(typeId: i32)
    | NetworkError(cause: string)
    | JsonError(cause: string)
    | CacheError(message: string)
    | RateLimitError(reason: string)
    | AuthenticationError(reason: string)
    | InternalError(reason: string)

  // Codes of section 5.1 of the JSON-RPC 2.0 Specification.
  const PARSE_ERROR: int := -32700
  const INVALID_PARAMS: int := -32602
  const INTERNAL_ERROR: int := -32603
  /** The range the specification reserves for pre-defined errors. */
  const RESERVED_LOW: int := -32768
  const RESERVED_HIGH: int := -32000
  /** The sub-range it leaves to implementation-defined server errors. */
  const SERVER_ERROR_LOW: int := -32099

  predicate IsServerErrorCode(code: int)
  {
    SERVER_ERROR_LOW <= code <= RESERVED_HIGH
  }

  /**
   * `to_rpc_code`. Bad region or type ids are "invalid params", JSON failures
   * are "parse error", the rate-limit and authentication failures get their own
   * implementation-defined server codes, and everything else is "internal error".
   */
  function ToRpcCode(e: TraderGraderError): (code: int)
    ensures RESERVED_LOW <= code <= RESERVED_HIGH
    ensures code == PARSE_ERROR <==> e.JsonError?
    ensures code == INVALID_PARAMS <==> e.InvalidRegionId? || e.InvalidTypeId?
    ensures code == INTERNAL_ERROR <==>
              e.EsiApiError? || e.NetworkError? || e.CacheError? || e.InternalError?
    ensures IsServerErrorCode(code) <==> e.RateLimitError? || e.AuthenticationError?
    ensures e.RateLimitError? ==> code == -32000
    ensures e.AuthenticationError? ==> code == -32001
  {
    match e
    case EsiApiError(_) => -32603
    case InvalidRegionId(_) => -32602
    case InvalidTypeId(_) => -32602
    case NetworkError(_) => -32603
    case JsonError(_) => -32700
    case CacheError(_) => -32603
    case RateLimitError(_) => -32000
    case AuthenticationError(_) => -32001
    case InternalError(_) => -32603
  }

  /**
   * `From<String>` and `From<&str>`: a bare message becomes an internal error
   * carrying that same text (both impls; `to_string` on a `&str` copies it).
   */
  function FromMessage(message: string): (e: TraderGraderError)
    ensures e.InternalError? && e.reason == message
    ensures ToRpcCode(e) == INTERNAL_ERROR
  {
    InternalError(message)
  }

  /** Two messages convert to the same error only when they are the same text. */
  lemma FromMessageInjective(m1: string, m2: string)
    ensures FromMessage(m1) == FromMessage(m2) <==> m1 == m2
  {
  }

  /** The two caller-side classes of JSON-RPC errors never share a code. */
  lemma RpcCodeSeparatesClientFromServerFaults(e1: TraderGraderError, e2: TraderGraderError)
    requires e1.InvalidRegionId? || e1.InvalidTypeId? || e1.JsonError?
    requires !(e2.InvalidRegionId? || e2.InvalidTypeId? || e2.JsonError?)
    ensures ToRpcCode(e1) != ToRpcCode(e2)
  {
  }
}
