/**
 * The results both geocoders build the same way: the error for a blank address, the
 * error for an address without a match, and the Location made from parsed attributes.
 */
module GeocodeResults {
  import opened Wrappers
  import opened Text
  import opened Errors
  import opened Runtime
  import opened Service
  import opened Locations

  /** The failure message for an address without a match. */
  function NoMatch(address: string): (e: AppError)
    ensures e.NotFoundError? && e.statusCode == Some(404) && e.serviceName.None?
    ensures e.message == StatusMessage("No match found for address: " + address, None, Some(404))
  {
    NewNotFoundError("No match found for address: " + address)
  }

  /** The attributes turned into a Location. */
  function ToLocation(r: Raising<Result<LocationData, AppError>>, rt: Foreign): (l: Raising<Result<Location, AppError>>)
    ensures r.Raises? ==> l == Raises(r.exception)
    ensures r.Returns? && r.value.Failure? ==> l == Returns(Failure(r.value.error))
    ensures r.Returns? && r.value.Success? ==> l == Returns(Success(NewLocation(r.value.data, rt)))
  {
    var result :- r;
    match result
    case Failure(e) => Returns(Failure(e))
    case Success(d) => Returns(Success(NewLocation(d, rt)))
  }

  /** The InvalidInputError for a blank address. */
  function BlankAddress(): (e: AppError)
    ensures e.InvalidInputError? && e.message == "Address cannot be blank" && e.statusCode == Some(400)
  {
    NewInvalidInputError("Address cannot be blank")
  }
}
