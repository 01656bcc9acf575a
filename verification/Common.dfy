/** Result types and the outcome of a call whose reply can be lost. */
module Common {
  datatype Option<+T> = None | Some(value: T)

  datatype Result<+T, +E> = Ok(value: T) | Err(error: E)

  /** The errors of internal/platform/apperr, and Failure for every other error value. */
  datatype AppError =
    | AlreadySubscribed
    | InvalidEmail
    | InvalidRepoFormat
    | InvalidToken
    | RepoNotFound
    | TokenNotFound
    | RateLimited
    | Failure

  /** What became of a remote write: applied and acknowledged, refused without
      effect, or applied with the acknowledgement lost. The last two look alike
      to the caller. */
  datatype Outcome = Done | Refused | ReplyLost {
    predicate Applied() { !Refused? }
  }

  /** The caller's view of an outcome. */
  function Ack(o: Outcome): Result<(), AppError> {
    if o.Done? then Ok(()) else Err(Failure)
  }

  /** A set that is not empty has a member. */
  lemma Member<T>(s: set<T>) returns (x: T)
    requires s != {}
    ensures x in s
  {
    x :| x in s;
  }

  lemma Regroup<T>(a: seq<T>, b: seq<T>, c: seq<T>)
    ensures a + b + c == a + (b + c)
  {
  }

  /** There is a number beyond those of a set. */
  lemma BeyondAll(ids: set<int>) returns (id: int)
    ensures forall i | i in ids :: i < id
    decreases |ids|
  {
    if ids == {} {
      id := 0;
    } else {
      var i := Member(ids);
      var rest := BeyondAll(ids - {i});
      assert forall j | j in ids :: j == i || j in ids - {i};
      id := if i < rest then rest else i + 1;
    }
  }
}
