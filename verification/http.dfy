/** What a route handler sends back: a status code with a body, or a status
    code with an error message. */
module Http {

  datatype Reply<+T> =
    | Success(code: int, body: T)
    | Failure(code: int, message: string)
  {
    function Code(): int
    {
      match this
      case Success(c, _) => c
      case Failure(c, _) => c
    }
  }
}
