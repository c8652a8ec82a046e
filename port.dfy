/**
 * `getAvailablePort` of the relay server: starting from a requested port,
 * try up to `maxAttempts` consecutive ports and return the first one the
 * server can listen on. Whether a port can be listened on is an oracle
 * (`probe`), fixed for the duration of one search.
 */
module Ports {
  import opened Wrappers
  import Text

  const DEFAULT_MAX_ATTEMPTS: int := 10

  /** What a trial listen on a port reports: it listened, the address was
      in use (`EADDRINUSE`), or some other error. */
  datatype Probe = Free | InUse | Failed

  /** Port `start + k` is the first tried port whose probe is not `Failed`,
      within `max` attempts. */
  predicate FirstAnswer(probe: int -> Probe, start: int, max: int, k: nat) {
    k < max && probe(start + k) != Failed && forall p :: start <= p < start + k ==> probe(p) == Failed
  }

  /** The search as written. An `EADDRINUSE` moves to the next port and
      then leaves the loop through the `return` that follows the probe, so
      the next port is returned without being tried; any other error tries
      the next port; after `max` attempts the search fails. */
  method GetAvailablePortAsWritten(start: int, max: int, probe: int -> Probe) returns (r: Result<int, string>)
    ensures r.Ok? <==> exists k: nat :: FirstAnswer(probe, start, max, k)
    ensures forall k: nat :: FirstAnswer(probe, start, max, k) ==>
      r == Ok(if probe(start + k) == Free then start + k else start + k + 1)
  {
    var currentPort := start;
    var attempts: nat := 0;
    while attempts < max
      invariant currentPort == start + attempts
      invariant forall p :: start <= p < currentPort ==> probe(p) == Failed
      decreases max - attempts
    {
      match probe(currentPort)
      case Free =>
        assert FirstAnswer(probe, start, max, attempts);
        AnswerIsFirst(probe, start, max, attempts);
        return Ok(currentPort);
      case InUse =>
        assert FirstAnswer(probe, start, max, attempts);
        AnswerIsFirst(probe, start, max, attempts);
        currentPort := currentPort + 1;
        attempts := attempts + 1;
        return Ok(currentPort);
      case Failed =>
        currentPort := currentPort + 1;
        attempts := attempts + 1;
    }
    NoAnswer(probe, start, max, attempts);
    r := Err(NoPortMessage(start, max));
  }

  /** An integer in decimal, as a template literal prints it. */
  function IntText(n: int): string {
    if n < 0 then "-" + Text.NatToString(-n) else Text.NatToString(n)
  }

  function NoPortMessage(start: int, max: int): string {
    "Could not find an available port after " + IntText(max) + " attempts starting from " + IntText(start)
  }

  /** The first answer is unique. */
  lemma AnswerIsFirst(probe: int -> Probe, start: int, max: int, k: nat)
    requires FirstAnswer(probe, start, max, k)
    ensures forall k': nat :: FirstAnswer(probe, start, max, k') ==> k' == k
  {
    forall k': nat | FirstAnswer(probe, start, max, k') ensures k' == k {
      assert k' < k ==> probe(start + k') == Failed;
      assert k < k' ==> probe(start + k) == Failed;
    }
  }

  lemma NoAnswer(probe: int -> Probe, start: int, max: int, attempts: nat)
    requires attempts >= max
    requires forall p :: start <= p < start + attempts ==> probe(p) == Failed
    ensures !exists k: nat :: FirstAnswer(probe, start, max, k)
  {
    forall k: nat ensures !FirstAnswer(probe, start, max, k) {
      if k < max {
        assert probe(start + k) == Failed;
      }
    }
  }

  /** When the requested port is in use, the search as written returns the
      next port without trying it, even when that port is in use too. */
  lemma InUseReturnsUntriedPort(start: int)
    ensures var probe := (p: int) => InUse;
      FirstAnswer(probe, start, DEFAULT_MAX_ATTEMPTS, 0) && probe(start + 1) == InUse
  {
  }

  /** The search with `EADDRINUSE` handled like the other errors: the loop
      goes on to the next port, and only a port that listened is returned. */
  method GetAvailablePort(start: int, max: int, probe: int -> Probe) returns (r: Result<int, string>)
    ensures r.Ok? ==> start <= r.value < start + max && probe(r.value) == Free
    ensures r.Ok? ==> forall p :: start <= p < r.value ==> probe(p) != Free
    ensures r.Err? ==> forall p :: start <= p < start + max ==> probe(p) != Free
  {
    var currentPort := start;
    var attempts: nat := 0;
    while attempts < max
      invariant currentPort == start + attempts
      invariant forall p :: start <= p < currentPort ==> probe(p) != Free
      decreases max - attempts
    {
      if probe(currentPort) == Free {
        return Ok(currentPort);
      }
      currentPort := currentPort + 1;
      attempts := attempts + 1;
    }
    r := Err(NoPortMessage(start, max));
  }
}
