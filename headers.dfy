/**
 * The part of an HTTP header map the core reads: a lookup by (lower-case)
 * header name, and `HeaderValue::to_str`, which only succeeds on visible ASCII.
 */
module Headers {
  import opened Wrappers
  import opened Numeric

  /**
   * A `HeaderMap` as seen through `get`: each lower-case header name to the raw
   * bytes of its first value.
   */
  type HeaderMap = map<string, seq<byte>>

  const CACHE_CONTROL: string := "cache-control"
  const RETRY_AFTER: string := "retry-after"
  const ESI_ERROR_LIMIT_REMAIN: string := "x-esi-error-limit-remain"
  const ESI_ERROR_LIMIT_RESET: string := "x-esi-error-limit-reset"

  /** The bytes `to_str` accepts: horizontal tab and printable ASCII 0x20..0x7E. */
  predicate IsVisibleAscii(b: byte)
  {
    b == 9 || 32 <= b < 127
  }

  /** `HeaderValue::to_str`: the value as text, or nothing if a byte is not visible ASCII. */
  function ToStr(v: seq<byte>): (r: Option<string>)
    ensures r.Some? <==> forall i :: 0 <= i < |v| ==> IsVisibleAscii(v[i])
    ensures r.Some? ==> |r.value| == |v| && forall i :: 0 <= i < |v| ==> r.value[i] as int == v[i]
  {
    if forall i :: 0 <= i < |v| ==> IsVisibleAscii(v[i])
    then Some(seq(|v|, i requires 0 <= i < |v| => v[i] as char))
    else None
  }

  /** `headers.get(name).and_then(|v| v.to_str().ok())`. */
  function GetStr(headers: HeaderMap, name: string): Option<string>
  {
    if name in headers then ToStr(headers[name]) else None
  }

  /** The bytes of an ASCII string, as `HeaderValue::from_static` stores them. */
  function Bytes(s: string): (v: seq<byte>)
    requires forall i :: 0 <= i < |s| ==> s[i] as int < 0x100
    ensures |v| == |s|
  {
    seq(|s|, i requires 0 <= i < |s| => s[i] as int)
  }

  /** Text that is visible ASCII comes back unchanged from `to_str`. */
  lemma ToStrOfBytes(s: string)
    requires forall i :: 0 <= i < |s| ==> s[i] == '\t' || ' ' <= s[i] <= '~'
    ensures ToStr(Bytes(s)) == Some(s)
  {
    var v := Bytes(s);
    assert forall i :: 0 <= i < |v| ==> v[i] == s[i] as int && IsVisibleAscii(v[i]);
    var r := ToStr(v);
    assert forall i :: 0 <= i < |s| ==> r.value[i] as int == s[i] as int;
    assert r.value == s;
  }
}
