/** The Express error middleware: an ordered cascade from the shape of the
    error to a status code and a JSON body. */
module ErrorHandler {
  import opened Base

  /** The fields the cascade inspects. `fieldMessages` are the messages of
      `err.errors` in order, `keyValueKeys` the keys of `err.keyValue`,
      `multer` tells whether the error is a `MulterError`; a missing
      `statusCode` is None. */
  datatype AppError = AppError(
    name: string,
    code: Option<int>,
    fieldMessages: seq<string>,
    keyValueKeys: seq<string>,
    multer: bool,
    statusCode: Option<int>,
    message: string)

  /** The JSON response: its status, `message`, and `errors` when present. */
  datatype Response = Response(status: int, message: string, errors: Option<seq<string>>)

  const DuplicateKeyCode: int := 11000

  /** Which branch of the cascade an error falls into, first match first. */
  datatype Kind = Validation | DuplicateKey | BadToken | Upload | Other

  function KindOf(err: AppError): Kind {
    if err.name == "ValidationError" then Validation
    else if err.code == Some(DuplicateKeyCode) then DuplicateKey
    else if err.name == "JsonWebTokenError" then BadToken
    else if err.multer then Upload
    else Other
  }

  /** `Object.keys(err.keyValue)[0]` in a template string. */
  function FirstKey(keys: seq<string>): string {
    if |keys| > 0 then keys[0] else "undefined"
  }

  function HandleError(err: AppError): (r: Response)
    ensures r.errors.Some? <==> KindOf(err) == Validation
    ensures KindOf(err) == Validation ==> r == Response(400, "Validation Error", Some(err.fieldMessages))
    ensures KindOf(err) == DuplicateKey ==> r.status == 400 && r.message == FirstKey(err.keyValueKeys) + " already exists"
    ensures KindOf(err) == BadToken ==> r.status == 401 && r.message == "Invalid token"
    ensures KindOf(err) == Upload ==> r.status == 400 && r.message == err.message
    ensures KindOf(err) == Other ==>
              && r.status == (if err.statusCode.Some? && err.statusCode.value != 0 then err.statusCode.value else 500)
              && r.message == OrElse(err.message, "Internal Server Error")
  {
    match KindOf(err)
    case Validation => Response(400, "Validation Error", Some(err.fieldMessages))
    case DuplicateKey => Response(400, FirstKey(err.keyValueKeys) + " already exists", None)
    case BadToken => Response(401, "Invalid token", None)
    case Upload => Response(400, err.message, None)
    case Other =>
      var status := if err.statusCode.Some? && err.statusCode.value != 0 then err.statusCode.value else 500;
      Response(status, OrElse(err.message, "Internal Server Error"), None)
  }

  /** The checks are ordered: a validation error is reported as such whatever
      else it carries, and `statusCode` matters only to errors no check claims. */
  lemma ValidationFirst(err: AppError)
    requires err.name == "ValidationError"
    ensures HandleError(err) == HandleError(err.(code := Some(DuplicateKeyCode), multer := true, statusCode := Some(418)))
  {
  }

  lemma StatusCodeOnlyForOther(err: AppError, status: Option<int>)
    requires KindOf(err) != Other
    ensures HandleError(err.(statusCode := status)) == HandleError(err)
  {
  }

  /** Only an upload error passes its own message through unchanged; every
      other branch answers with a non-empty message. */
  lemma MessageNonEmpty(err: AppError)
    requires KindOf(err) != Upload
    ensures HandleError(err).message != ""
  {
  }
}
