/** Shapes shared by the server routes and the browser script. */
module Common {

  /** A field of a JSON request body: absent (undefined) or given. */
  datatype Option<+T> = None | Some(value: T)

  /** What a route handler answers: the JSON body on success, or an HTTP status code with the
      `message` of the error body. */
  datatype Reply<+T> = Ok(body: T) | Error(code: nat, message: string)

  /** A JavaScript string is truthy exactly when it is present and not empty. Mongoose's
      `required: true` on a String path admits the same values, so this one predicate serves
      both the route guards and the schemas. */
  predicate Filled(f: Option<string>)
  {
    f.Some? && f.value != ""
  }

  /** A JavaScript number is truthy when it is present and not zero (NaN is not modelled). */
  predicate TruthyNumber(f: Option<int>)
  {
    f.Some? && f.value != 0
  }
}
