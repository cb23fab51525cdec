/**
 * What the route handlers share: the status-plus-body reply that Express sends
 * with `res.status(..).json(..)`, and JavaScript truthiness of body fields,
 * which is what the `!campo` guards of every handler test.
 */
module Http {
  import opened Wrappers

  /** A reply: the HTTP status code and the JSON body. */
  datatype Reply<B> = Reply(status: nat, body: B)

  /**
   * A text field of the request body passes `!campo` exactly when it is
   * present and not the empty string (both `undefined` and `""` are falsy).
   */
  function Informado(f: Option<string>): (b: bool)
    ensures f == None ==> !b
    ensures f == Some("") ==> !b
    ensures f.Some? && |f.value| > 0 ==> b
  {
    f.Some? && f.value != ""
  }

  /** A numeric field passes `!campo` exactly when it is present and not 0. */
  function InformadoNum(f: Option<int>): (b: bool)
    ensures f == None ==> !b
    ensures f == Some(0) ==> !b
    ensures f.Some? && (f.value < 0 || f.value > 0) ==> b
  {
    f.Some? && f.value != 0
  }
}
