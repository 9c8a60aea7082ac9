/** Downloading the media of an inbound message: up to three attempts, a placeholder for what can never
    be downloaded, a retry of the whole job otherwise, and no placeholder when the worker is being stopped. */
module WhatsAppMedia {
  import opened Prelude

  type Bytes = seq<bv8>

  const MAX_ATTEMPTS := 3

  /** What the error chain of a failed attempt contains. */
  datatype MediaError = MediaError(tooLarge: bool, metaStatus: Option<int>, network: bool, deadline: bool, unexpectedEof: bool)

  /** The error can never go away by trying again. */
  predicate IsPermanentMediaError(e: MediaError) {
    match e.metaStatus
    case Some(status) =>
      if status == 408 || status == 429 || status == 401 || status == 403 then false
      else 400 <= status < 500
    case None => !e.network && !e.deadline && !e.unexpectedEof
  }

  datatype Response<T> = Got(value: T) | Failed(error: MediaError)

  /** What the server does in one attempt; the announced size is compared with the upload limit first. */
  datatype Attempt = Attempt(url: Response<nat>, body: Response<Bytes>)

  /** The request context: the instant it is cancelled at, if ever. Instants are the points at which the code looks. */
  datatype Context = Context(cancelledAt: Option<nat>)

  predicate IsCancelled(ctx: Context, instant: nat) {
    ctx.cancelledAt.Some? && ctx.cancelledAt.value <= instant
  }

  function AfterAttempt(n: nat): nat { 2 * n }

  function WhileWaiting(n: nat): nat { 2 * n + 1 }

  const AFTER_FETCH := 2 * MAX_ATTEMPTS + 2

  datatype Outcome = ExceedsLimit | Downloaded(body: Bytes) | Broke(error: MediaError)

  function OutcomeOf(a: Attempt, maxBytes: nat): Outcome {
    match a.url
    case Failed(e) => if e.tooLarge then ExceedsLimit else Broke(e)
    case Got(size) =>
      if size > maxBytes then ExceedsLimit
      else match a.body
        case Failed(e) => if e.tooLarge then ExceedsLimit else Broke(e)
        case Got(body) => Downloaded(body)
  }

  /** Attempts before `n` all broke without the cancellation being seen. */
  ghost predicate Reaches(attempts: nat -> Attempt, ctx: Context, n: nat, maxBytes: nat) {
    && 1 <= n <= MAX_ATTEMPTS
    && forall k | 1 <= k < n :: OutcomeOf(attempts(k), maxBytes).Broke? && !IsCancelled(ctx, AfterAttempt(k))
  }

  /** The coded reasons for a placeholder: too large, downloaded empty, or a permanent error on the last attempt. */
  predicate Hopeless(attempts: nat -> Attempt, n: nat, maxBytes: nat) {
    match OutcomeOf(attempts(n), maxBytes)
    case ExceedsLimit => true
    case Downloaded(body) => body == []
    case Broke(e) => n == MAX_ATTEMPTS && IsPermanentMediaError(e)
  }

  /** The attempt ended with this error, which is not that the media are too large. */
  predicate EndedWith(a: Attempt, maxBytes: nat, e: MediaError) {
    && (a.url == Failed(e) || (a.url.Got? && a.url.value <= maxBytes && a.body == Failed(e)))
    && !e.tooLarge
  }

  ghost predicate Ended(a: Attempt, maxBytes: nat) {
    exists e :: EndedWith(a, maxBytes, e)
  }

  /** The attempts before this one ended with an error, and none was the last one allowed. */
  ghost predicate TriedUpTo(attempts: nat -> Attempt, n: nat, maxBytes: nat) {
    1 <= n <= 3 && forall k | 1 <= k < n :: Ended(attempts(k), maxBytes)
  }

  /** The server will not answer differently: a 4xx status other than 401, 403, 408 and 429, or no status and no sign of a
      broken connection. */
  predicate NeverChanges(e: MediaError) {
    if e.metaStatus.Some? then
      400 <= e.metaStatus.value <= 499 && e.metaStatus.value !in {401, 403, 408, 429}
    else
      !e.network && !e.deadline && !e.unexpectedEof
  }

  lemma OutcomeOutright(a: Attempt, maxBytes: nat)
    ensures OutcomeOf(a, maxBytes).Broke? <==> Ended(a, maxBytes)
    ensures OutcomeOf(a, maxBytes).Broke? ==> EndedWith(a, maxBytes, OutcomeOf(a, maxBytes).error)
    ensures OutcomeOf(a, maxBytes).Downloaded? <==> a.url.Got? && a.url.value <= maxBytes && a.body.Got?
    ensures OutcomeOf(a, maxBytes).Downloaded? ==> a.body == Got(OutcomeOf(a, maxBytes).body)
  {
    if OutcomeOf(a, maxBytes).Broke? {
      assert EndedWith(a, maxBytes, OutcomeOf(a, maxBytes).error);
    }
  }

  lemma PermanentNeverChanges(e: MediaError)
    ensures IsPermanentMediaError(e) <==> NeverChanges(e)
  {
  }

  lemma ReachesTried(attempts: nat -> Attempt, ctx: Context, n: nat, maxBytes: nat)
    requires Reaches(attempts, ctx, n, maxBytes)
    ensures TriedUpTo(attempts, n, maxBytes)
  {
    forall k | 1 <= k < n ensures Ended(attempts(k), maxBytes) {
      OutcomeOutright(attempts(k), maxBytes);
    }
  }

  /** What a body, an error and a placeholder say of the attempts. */
  lemma FetchedOutright(attempts: nat -> Attempt, ctx: Context, n: nat, maxBytes: nat)
    requires Reaches(attempts, ctx, n, maxBytes)
    ensures TriedUpTo(attempts, n, maxBytes)
    ensures forall e | OutcomeOf(attempts(n), maxBytes) == Broke(e) :: EndedWith(attempts(n), maxBytes, e)
    ensures forall body | OutcomeOf(attempts(n), maxBytes) == Downloaded(body) ::
              attempts(n).url.Got? && attempts(n).url.value <= maxBytes && attempts(n).body == Got(body)
    ensures Hopeless(attempts, n, maxBytes) ==>
              || (attempts(n).url.Got? && attempts(n).url.value > maxBytes)
              || (attempts(n).url.Failed? && attempts(n).url.error.tooLarge)
              || (attempts(n).url.Got? && attempts(n).body.Failed? && attempts(n).body.error.tooLarge)
              || attempts(n).body == Got([])
              || (n == 3 && exists e :: EndedWith(attempts(n), maxBytes, e) && NeverChanges(e))
  {
    ReachesTried(attempts, ctx, n, maxBytes);
    OutcomeOutright(attempts(n), maxBytes);
    if OutcomeOf(attempts(n), maxBytes).Broke? {
      PermanentNeverChanges(OutcomeOf(attempts(n), maxBytes).error);
    }
  }

  /** The result of the fetch: nothing and no error means a placeholder, unless the context has been cancelled. */
  method FetchWhatsAppAttachments(hasMedia: bool, attempts: nat -> Attempt, ctx: Context, timerWins: nat -> bool, maxBytes: nat)
    returns (body: Option<Bytes>, err: Option<MediaError>)
    ensures err.Some? ==> body.None?
    ensures !hasMedia ==> body.None? && err.None?
    // a body is the non-empty download of the first attempt that did not break
    ensures body.Some? ==>
              exists n :: Reaches(attempts, ctx, n, maxBytes) && OutcomeOf(attempts(n), maxBytes) == Downloaded(body.value) && body.value != []
    // an error is the third attempt's, and it is not a permanent one
    ensures err.Some? ==>
              && Reaches(attempts, ctx, MAX_ATTEMPTS, maxBytes) && OutcomeOf(attempts(MAX_ATTEMPTS), maxBytes) == Broke(err.value)
              && !IsPermanentMediaError(err.value) && !IsCancelled(ctx, AfterAttempt(MAX_ATTEMPTS))
    ensures err.Some? ==> TriedUpTo(attempts, 3, maxBytes) && EndedWith(attempts(3), maxBytes, err.value) && !NeverChanges(err.value)
    // nothing at all: too large, empty, permanently broken, or cancelled
    ensures hasMedia && body.None? && err.None? ==>
              || IsCancelled(ctx, AFTER_FETCH)
              || exists n :: Reaches(attempts, ctx, n, maxBytes) && Hopeless(attempts, n, maxBytes)
  {
    if !hasMedia {
      return None, None;
    }
    var attempt := 1;
    while true
      invariant Reaches(attempts, ctx, attempt, maxBytes)
      decreases MAX_ATTEMPTS - attempt
    {
      var failure: MediaError;
      match attempts(attempt).url {
        case Got(size) =>
          if size > maxBytes {
            assert Hopeless(attempts, attempt, maxBytes);
            return None, None;
          }
          match attempts(attempt).body {
            case Got(bytes) =>
              if |bytes| == 0 {
                assert Hopeless(attempts, attempt, maxBytes);
                return None, None;
              }
              return Some(bytes), None;
            case Failed(e) => failure := e;
          }
        case Failed(e) => failure := e;
      }
      if failure.tooLarge {
        assert Hopeless(attempts, attempt, maxBytes);
        return None, None;
      }
      if IsCancelled(ctx, AfterAttempt(attempt)) {
        return None, None;
      }
      if attempt >= MAX_ATTEMPTS {
        if IsPermanentMediaError(failure) {
          assert Hopeless(attempts, attempt, maxBytes);
          return None, None;
        }
        FetchedOutright(attempts, ctx, attempt, maxBytes);
        PermanentNeverChanges(failure);
        return None, Some(failure);
      }
      if IsCancelled(ctx, WhileWaiting(attempt)) && !timerWins(attempt) {
        return None, None;
      }
      attempt := attempt + 1;
    }
  }
}
