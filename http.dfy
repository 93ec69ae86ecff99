/** The parts of Express's `req` and `res` that the core reads and writes. */
module Http {
  import opened Wrappers
  import opened Jwt

  /** One `res.status(status).json({message, token})` call; `token` is absent from most replies. */
  datatype Reply = Reply(status: int, message: string, token: Option<string>)

  /** The `catch` of every handler. */
  const INTERNAL_ERROR := Reply(500, "Internal Server Error", None)
  const MISSING_CREDENTIALS := Reply(400, "Email and password are required", None)
  const INVALID_CREDENTIALS := Reply(400, "Invalid Credentials", None)
  const MISSING_PASSWORDS := Reply(400, "Current password and new password are required", None)
  const UPDATE_FAILED := Reply(500, "Error updating password", None)
  const LOGGED_OUT := Reply(200, "Logged out successfully", None)
  const BLACKLIST_FAILED := Reply(500, "Failed to blackList token", None)
  const ALREADY_BLACKLISTED := Reply(400, "Token already blacklisted", None)

  /** JavaScript truthiness of a request-body string: present and not empty. */
  predicate Truthy(s: Option<string>) {
    s.Some? && s.value != ""
  }

  /** The request: its `Authorization` header and the three fields the middleware sets. */
  class Request {
    var authorization: Option<string>
    var user: Option<Subject>
    var dealership: Option<Subject>
    var admin: Option<Subject>

    constructor(authorization: Option<string>)
      ensures this.authorization == authorization
      ensures user == None && dealership == None && admin == None
    {
      this.authorization := authorization;
      user, dealership, admin := None, None, None;
    }
  }

  /** The response: every reply the code writes, in order. */
  class ServerResponse {
    var sent: seq<Reply>

    constructor()
      ensures sent == []
    {
      sent := [];
    }
  }
}
