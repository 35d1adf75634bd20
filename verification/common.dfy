/** Values shared by every handler of the backend: optional request fields, the
    JavaScript truthiness the handlers test them with, and the validation error
    entries that express-validator collects. */
module Common {

  datatype Option<+T> = None | Some(value: T)

  /** User ids are the hex strings of the store's ObjectIds, as they appear in
      token claims and in the `user` reference of a note. */
  type UserId = string

  /** JavaScript truthiness of an optional string: an absent field (undefined)
      and the empty string are both falsy. */
  predicate Truthy(s: Option<string>) {
    s.Some? && s.value != ""
  }

  /** The string a validator sees: express-validator reads an absent field as "". */
  function Text(s: Option<string>): string {
    if s.Some? then s.value else ""
  }

  /** One entry of `validationResult(req).array()`: the field and its message. */
  datatype FieldError = FieldError(path: string, msg: string)

  /** Where a field stands in a route's validation chain; a field not in it comes last. */
  function Position(chain: seq<string>, path: string): nat {
    if chain == [] then 0 else if chain[0] == path then 0 else 1 + Position(chain[1..], path)
  }

  /** The errors follow the chain: at most one per field, in the chain's order. */
  predicate InChainOrder(errors: seq<FieldError>, chain: seq<string>) {
    forall i, j :: 0 <= i < j < |errors| ==> Position(chain, errors[i].path) < Position(chain, errors[j].path)
  }
}
