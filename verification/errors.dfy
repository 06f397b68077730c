/** How a route ends when it does not succeed, with the message text the route sends. */
module Errors {
  import opened Text

  datatype Error =
      /** 404 with a message. */
    | NotFound(message: string)
      /** 400 with a message: a failed precondition, a duplicate, or an id that is not an ObjectId. */
    | BadRequest(message: string)
      /** 400 "Validation failed", listing the paths whose validators failed. */
    | ValidationFailed(paths: set<string>)
      /** 500 "Internal server error": an exception the route does not classify. */
    | InternalError

  /**
    The message a route sends for a duplicate-key error (code 11000) on `field`:
    `<entity> with this <Field> already exists`, the field name with its first character
    upper-cased.
   */
  function DuplicateKeyMessage(entity: string, field: string): (m: string)
    ensures |m| == |entity| + 26 + |field|
    ensures m[..|entity|] == entity
    ensures field != "" ==> m[|entity| + 11] == UpperChar(field[0])
    ensures m[|entity| + 11 + |field|..] == " already exists"
  {
    entity + " with this " + Capitalize(field) + " already exists"
  }
}
