/** The two exponential-backoff loops: opening an SAP connection and reading from ADT. */
module Retry {
  import opened Common

  function Pow2(n: nat): (p: nat)
    ensures p >= 1
  {
    if n == 0 then 1 else 2 * Pow2(n - 1)
  }

  /** The attempt that ends the loop: the first one that must not be repeated, or the last
      one there is. `again(i)` says that attempt `i` failed in a way worth repeating. */
  function EndingAttempt(again: nat -> bool, maxRetries: nat): nat { EndingFrom(again, maxRetries, 0) }

  function EndingFrom(again: nat -> bool, maxRetries: nat, i: nat): nat
    requires i <= maxRetries
    decreases maxRetries - i
  {
    if i == maxRetries || !again(i) then i else EndingFrom(again, maxRetries, i + 1)
  }

  /** The requested sleep before attempt `k`, when every pause doubles. */
  function Slept(base: real, k: nat): real { base * (Pow2(k) - 1) as real }

  /** Attempt `k` ends the loop exactly if everything before it was worth repeating and `k`
      either was not or exhausted the retries. */
  lemma {:induction false} EndingIsFirst(again: nat -> bool, maxRetries: nat, i: nat, k: nat)
    requires i <= maxRetries && forall j | 0 <= j < i :: again(j)
    ensures EndingFrom(again, maxRetries, i) == k <==>
            i <= k <= maxRetries && (forall j | 0 <= j < k :: again(j)) && (k < maxRetries ==> !again(k))
    decreases maxRetries - i
  {
    if i < maxRetries && again(i) {
      EndingIsFirst(again, maxRetries, i + 1, k);
    }
  }

  lemma {:induction false} Pow2Monotone(m: nat, n: nat)
    requires m <= n
    ensures Pow2(m) <= Pow2(n)
    decreases n
  {
    if m < n { Pow2Monotone(m, n - 1); }
  }

  /** Under the configured cap of ten retries the total sleep is at most 1023 times the base
      delay, however many attempts there were. */
  lemma SleepIsBounded(base: real, maxRetries: nat, tries: nat)
    requires base >= 0.0 && maxRetries <= 10 && 1 <= tries <= maxRetries + 1
    ensures 0.0 <= Slept(base, tries - 1) <= 1023.0 * base
  {
    var k := tries - 1;
    Pow2Monotone(k, 10);
    assert Pow2(10) == 1024 by {
      assert Pow2(2) == 4 && Pow2(4) == 16 && Pow2(6) == 64 && Pow2(8) == 256;
    }
    Scale(base, (Pow2(k) - 1) as real, 1023.0);
    Scale(base, 0.0, (Pow2(k) - 1) as real);
  }

  lemma Scale(base: real, x: real, y: real)
    requires base >= 0.0 && x <= y
    ensures base * x <= y * base
  {}

  lemma NextSleep(base: real, k: nat)
    ensures Slept(base, k) + base * Pow2(k) as real == Slept(base, k + 1)
  {
    var p := Pow2(k) as real;
    assert Pow2(k + 1) as real == 2.0 * p;
    assert base * (p - 1.0) + base * p == base * (2.0 * p - 1.0);
  }

  // ---- ConnectionPool._open_with_retry ----

  /** `Unreachable` is SAPCommunicationError; `Rejected` any other exception. */
  datatype Dial<C, E> = Opened(conn: C) | Unreachable(error: E) | Rejected(error: E)

  function Dialled<C, E>(d: Dial<C, E>): Result<C, E> {
    match d
    case Opened(c) => Ok(c)
    case Unreachable(e) => Err(e)
    case Rejected(e) => Err(e)
  }

  function Redials<C, E>(dial: nat -> Dial<C, E>): nat -> bool { (i: nat) => dial(i).Unreachable? }

  /** `dial(i)` is what the i-th try to open a connection comes to. */
  method OpenWithRetry<C, E>(dial: nat -> Dial<C, E>, maxRetries: nat, base: real)
    returns (r: Result<C, E>, slept: real, tries: nat)
    ensures 1 <= tries <= maxRetries + 1
    ensures forall j | 0 <= j < tries - 1 :: dial(j).Unreachable?
    ensures tries <= maxRetries ==> !dial(tries - 1).Unreachable?
    ensures match dial(tries - 1)
            case Opened(c) => r == Ok(c)
            case Unreachable(e) => r == Err(e)
            case Rejected(e) => r == Err(e)
    ensures tries - 1 == EndingAttempt(Redials(dial), maxRetries) && r == Dialled(dial(tries - 1))
    ensures slept == Slept(base, tries - 1)
  {
    slept := 0.0;
    var last: Option<E> := None;
    var factor := 1;
    for attempt := 0 to maxRetries + 1
      invariant factor == Pow2(attempt)
      invariant forall j | 0 <= j < attempt :: Redials(dial)(j) && dial(j).Unreachable?
      invariant slept == Slept(base, if attempt <= maxRetries then attempt else maxRetries)
      invariant attempt > 0 ==> last.Some? && Err(last.value) == Dialled(dial(attempt - 1))
    {
      match dial(attempt)
      case Opened(c) =>
        EndingIsFirst(Redials(dial), maxRetries, 0, attempt);
        return Ok(c), slept, attempt + 1;
      case Rejected(e) =>
        EndingIsFirst(Redials(dial), maxRetries, 0, attempt);
        return Err(e), slept, attempt + 1;
      case Unreachable(e) =>
        last := Some(e);
        if attempt < maxRetries {
          NextSleep(base, attempt);
          slept := slept + base * factor as real;
        }
        factor := 2 * factor;
    }
    EndingIsFirst(Redials(dial), maxRetries, 0, maxRetries);
    return Err(last.value), slept, maxRetries + 1;
  }

  // ---- ADTClient._get_with_retry ----

  /** What one GET comes to: a response, a failure of the transport, or another exception. */
  datatype Get<B> = Response(status: int, body: B) | TransportFailure(code: int) | OtherFailure(code: int)

  datatype GetError = HttpError(status: int) | Transport(code: int) | Unexpected(code: int)

  /** Only transport failures and server errors are repeated; any other response ends the loop. */
  method GetWithRetry<B>(get: nat -> Get<B>, maxRetries: nat, base: real)
    returns (r: Result<B, GetError>, slept: real, tries: nat)
    ensures 1 <= tries <= maxRetries + 1
    ensures forall j | 0 <= j < tries - 1 ::
              get(j).TransportFailure? || (get(j).Response? && get(j).status >= 500)
    ensures tries <= maxRetries ==>
              !get(tries - 1).TransportFailure? && !(get(tries - 1).Response? && get(tries - 1).status >= 500)
    ensures match get(tries - 1)
            case Response(status, body) => r == if 200 <= status < 300 then Ok(body) else Err(HttpError(status))
            case TransportFailure(code) => r == Err(Transport(code))
            case OtherFailure(code) => r == Err(Unexpected(code))
    ensures slept == Slept(base, tries - 1)
  {
    slept := 0.0;
    var last: Option<GetError> := None;
    var factor := 1;
    for attempt := 0 to maxRetries + 1
      invariant factor == Pow2(attempt)
      invariant forall j | 0 <= j < attempt ::
                  get(j).TransportFailure? || (get(j).Response? && get(j).status >= 500)
      invariant slept == Slept(base, if attempt <= maxRetries then attempt else maxRetries)
      invariant attempt > 0 ==> last == Some(if get(attempt - 1).Response? then HttpError(get(attempt - 1).status)
                                             else Transport(get(attempt - 1).code))
    {
      match get(attempt) {
      case Response(status, body) =>
        if 200 <= status < 300 {
          return Ok(body), slept, attempt + 1;
        }
        if status < 500 {
          return Err(HttpError(status)), slept, attempt + 1;
        }
        last := Some(HttpError(status));
      case TransportFailure(code) =>
        last := Some(Transport(code));
      case OtherFailure(code) =>
        return Err(Unexpected(code)), slept, attempt + 1;
      }
      if attempt < maxRetries {
        NextSleep(base, attempt);
        slept := slept + base * factor as real;
      }
      factor := 2 * factor;
    }
    return Err(last.value), slept, maxRetries + 1;
  }
}
