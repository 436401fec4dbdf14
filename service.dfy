/**
 * `Service::Result` with its two frozen variants `Success` and `Failure`. A Ruby Result is
 * immutable once built, so it is a datatype value here.
 */
module Service {
  import opened Wrappers
  import opened Errors

  datatype Result<+T, +E> = Success(data: T) | Failure(error: E)
  {
    /** `success?`. */
    predicate IsSuccess()
    {
      Success?
    }

    /** `failure?`, defined in the base class as the negation of `success?`. */
    predicate IsFailed()
    {
      !IsSuccess()
    }

    /** `result.data`: the wrapped data of a Success; a Failure raises NoMethodError. */
    function Data(): (r: Raising<T>)
      ensures Success? ==> r == Returns(data)
      ensures Failure? ==> r == Raises(RubyError("NoMethodError", "Data is only available on Success results", None))
    {
      if IsSuccess() then Returns(data)
      else Raise("NoMethodError", "Data is only available on Success results")
    }

    /** `result.error`: the error of a Failure; a Success raises NoMethodError. */
    function Error(): (r: Raising<E>)
      ensures Failure? ==> r == Returns(error)
      ensures Success? ==> r == Raises(RubyError("NoMethodError", "Error is only available on Failure results", None))
    {
      if IsFailed() then Returns(error)
      else Raise("NoMethodError", "Error is only available on Failure results")
    }
  }

  /** `Success.new(data:)`. */
  function NewSuccess<T, E>(data: T): (r: Result<T, E>)
    ensures r.IsSuccess() && !r.IsFailed() && r.Data() == Returns(data)
  {
    Success(data)
  }

  /** `Failure.new(error:)`: a nil error raises ArgumentError, so every Failure holds an error. */
  function NewFailure<T, E>(error: Option<E>): (r: Raising<Result<T, E>>)
    ensures r.Returns? <==> error.Some?
    ensures r.Returns? ==> r.value.IsFailed() && !r.value.IsSuccess() && r.value.Error() == Returns(error.value)
    ensures r.Raises? ==> r.exception == RubyError("ArgumentError", "Failure error cannot be nil", None)
  {
    if error.None? then Raise("ArgumentError", "Failure error cannot be nil")
    else Returns(Failure(error.value))
  }

  /** Exactly one of `success?` and `failure?` holds, and exactly one of `data` and `error` returns. */
  lemma ResultAccessors<T, E>(r: Result<T, E>)
    ensures r.IsFailed() == !r.IsSuccess()
    ensures r.Data().Returns? != r.Error().Returns?
  {
  }
}
