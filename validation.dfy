/** The validation stub of `piecrust/validation.py`. */
module Validation {
  import opened Http

  /** The data a resource asks to have validated. */
  datatype Bundle = Bundle(data: map<string, string>)

  /** Field name to error messages; an empty mapping means valid. */
  type Errors = map<string, seq<string>>

  predicate Passes(errors: Errors) {
    errors == map[]
  }

  /** `Validation` keeps no configuration. */
  datatype Validation = Validation
  {
    /** `is_valid(bundle, request=None)` reports no error for any bundle. */
    function IsValid(bundle: Bundle, request: Request?): (errors: Errors)
      ensures Passes(errors)
      ensures |errors| == 0
    {
      map[]
    }
  }

  /** `Validation(**kwargs)` accepts any options and stores none of them. */
  function NewValidation(options: map<string, string>): (v: Validation)
    ensures v == Validation
  {
    Validation
  }

  /** Every bundle validates, with or without a request, whatever options the
      validator was built with. */
  lemma EveryBundleValidates(options: map<string, string>, bundle: Bundle, request: Request?)
    ensures Passes(NewValidation(options).IsValid(bundle, request))
    ensures NewValidation(options).IsValid(bundle, request) == NewValidation(map[]).IsValid(bundle, null)
  {
  }
}
