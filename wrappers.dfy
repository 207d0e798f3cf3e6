/** Small value wrappers shared by every module of the model. */
module Wrappers {

  /** A value that may be absent: JavaScript's `undefined` / `null`. */
  datatype Option<+T> = None | Some(value: T) {
    function GetOr(default: T): T {
      match this
      case Some(v) => v
      case None => default
    }
  }

  /** What an awaited `fetch` to a remote service yields: a response whose `ok`
      flag is set together with its decoded JSON body, a response that is not
      ok (with its status), or an exception (network failure, bad JSON). */
  datatype Fetched<+T> = Ok(body: T) | NotOk(status: int) | Thrown

  /** How one remote call fares before the remote service's own logic is
      reached: it gets through, the server answers with an error status, or
      the request fails outright. */
  datatype Link = Up | Down(status: int) | Unreachable

  /** JavaScript's `a || b` on an optional string: an absent or empty value is falsy. */
  function OrElse(s: Option<string>, default: string): (r: string)
    ensures s.Some? && s.value != "" ==> r == s.value
    ensures s.None? || s.value == "" ==> r == default
  {
    if s.Some? && s.value != "" then s.value else default
  }

  /** `Math.floor(r * n)` for a draw `r` of `Math.random()`, which lies in
      [0, 1): an index into a collection of `n` elements. */
  function Pick(r: real, n: nat): (k: nat)
    requires 0.0 <= r < 1.0 && n > 0
    ensures k < n
    ensures k as real <= r * n as real < k as real + 1.0
  {
    (r * n as real).Floor as nat
  }

  /** Every index can be drawn: the draw `k / n` picks the `k`-th element. */
  lemma PickOnto(k: nat, n: nat)
    requires k < n
    ensures 0.0 <= k as real / n as real < 1.0
    ensures Pick(k as real / n as real, n) == k
  {
    var r := k as real / n as real;
    assert r * n as real == k as real;
  }
}
