/**
 * Form validation as explicit predicates: each schema is a function from the
 * submitted record to the list of field errors it reports, in field order.
 */
module Forms {

  /** One violated rule: the field's path in the form and the message shown under it. */
  datatype FieldError = FieldError(path: string, message: string)

  /** The error list contributed by one rule: empty when the rule holds. */
  function Rule(holds: bool, path: string, message: string): (errs: seq<FieldError>)
    ensures holds <==> errs == []
    ensures !holds ==> errs == [FieldError(path, message)]
  {
    if holds then [] else [FieldError(path, message)]
  }

  /** The paths that carry an error. */
  function Paths(errs: seq<FieldError>): (r: set<string>)
    ensures forall e :: e in errs ==> e.path in r
    ensures forall p :: p in r ==> exists e :: e in errs && e.path == p
  {
    set e | e in errs :: e.path
  }

}
