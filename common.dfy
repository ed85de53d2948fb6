/** Document identifiers as the store hands them out. */
module Ids {

  /** A Mongo ObjectId. The store never hands out 0, so 0 stands for a
      missing or empty id (JavaScript's falsy values). */
  type ObjectId = nat

  predicate Falsy(id: ObjectId) {
    id == 0
  }
}

/** Optional values, the error kinds the services throw, and results that
    carry either a value or one of those errors. */
module Outcomes {

  datatype Option<+T> = None | Some(value: T) {
    function GetOr(default: T): T {
      match this
      case Some(v) => v
      case None => default
    }
  }

  /** The HTTP exceptions the services raise (Nest's ConflictException,
      NotFoundException, BadRequestException, InternalServerErrorException). */
  datatype Error =
    | Conflict(message: string)
    | NotFound(message: string)
    | BadRequest(fields: seq<string>)
    | InternalError(message: string)

  datatype Result<+T> = Success(value: T) | Failure(error: Error)

  /** Array.prototype.join. */
  function Join(parts: seq<string>, sep: string): string
    decreases |parts|
  {
    if parts == [] then ""
    else if |parts| == 1 then parts[0]
    else parts[0] + sep + Join(parts[1..], sep)
  }

  /** The message text the exception carries. */
  function Message(e: Error): string {
    match e
    case Conflict(m) => m
    case NotFound(m) => m
    case BadRequest(fields) => "Cannot update fields: " + Join(fields, ", ")
    case InternalError(m) => m
  }
}

/** The password hashing and token signing behind AuthService, kept abstract:
    a digest is an opaque value that matches exactly the password it was made
    from, and a token carries the claims it was signed with. */
module Credentials {
  import opened Ids

  /** A salted one-way digest. The salt is the randomness bcrypt draws; the
      model records which password the digest was computed from, which is
      all that comparing against it can reveal. */
  datatype Digest = Digest(salt: nat, preimage: string)

  /** AuthService.comparePassword: does the candidate password match the digest? */
  predicate Matches(password: string, d: Digest) {
    d.preimage == password
  }

  /** AuthService.hashPassword, with the salt passed in. */
  function Hash(password: string, salt: nat): (d: Digest)
    ensures Matches(password, d)
    ensures forall other :: Matches(other, d) ==> other == password
    ensures d.salt == salt
  {
    Digest(salt, password)
  }

  /** The claims AuthService.generateJwtToken signs: the user's id and admin flag. */
  datatype Token = Token(subject: ObjectId, isAdmin: bool)
}
