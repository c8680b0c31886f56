/** The request/response pair a middleware works on, and the two ways a
    guard can end: by calling `next()` with a principal attached to the
    request, or by answering itself. */
module Express {
  import opened Wrappers
  import opened UserModel
  import opened AdminAuth

  /** Outcome of a guard's decision chain. */
  datatype Guard<P> =
    | Pass(principal: P)               // attach the principal, call next()
    | Halt(code: int, message: string) // res.status(code).json({ error: message })

  /** An error answer already sent. */
  datatype Answer = Answer(code: int, message: string)

  /** One request in flight: its Authorization header, what the guards have
      attached to it (`req.admin`, `req.user`), the answer sent so far, and
      how many times `next()` has been called. */
  class Exchange {
    const authorization: Option<string>
    var admin: Option<Option<AdminAccount>>   // req.admin: unset, or set (possibly to null)
    var user: Option<Account>                  // req.user
    var answer: Option<Answer>
    var nextCalls: nat

    constructor (authorization: Option<string>)
      ensures this.authorization == authorization
      ensures admin.None? && user.None? && answer.None? && nextCalls == 0
    {
      this.authorization := authorization;
      admin := None;
      user := None;
      answer := None;
      nextCalls := 0;
    }
  }
}
