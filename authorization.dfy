/** The authorization classes of `piecrust/authorization.py`. An
    `Authorization` object is a descriptor on a resource's options: reading
    it through an options instance records that instance on the shared
    object. */
module Authorization {
  import opened Wrappers
  import opened Http

  /** `Authorization` (allow everything) or `ReadOnlyAuthorization`. */
  datatype Policy = Open | ReadOnly

  class Authorization {
    const policy: Policy
    /** `resource_meta`: absent until the descriptor is first read. */
    var resourceMeta: Option<object?>

    constructor(policy: Policy)
      ensures this.policy == policy && resourceMeta.None?
    {
      this.policy := policy;
      resourceMeta := None;
    }

    /** `__get__(instance, owner)`: remember the accessing instance (`None`
        for access through the class) and hand back this same object. */
    method DescriptorGet(instance: object?, owner: object?) returns (self: Authorization)
      modifies this
      ensures self == this
      ensures resourceMeta == Some(instance)
    {
      resourceMeta := Some(instance);
      self := this;
    }

    /** `is_authorized(request, object=None)`. */
    function IsAuthorized(request: Request, obj: object?): (allowed: bool)
      ensures policy == Open ==> allowed
      ensures policy == ReadOnly ==> (allowed <==> request.httpMethod == "GET")
    {
      match policy
      case Open => true
      case ReadOnly => request.httpMethod == "GET"
    }
  }

  /** The object under check never changes the decision. */
  lemma ObjectIgnored(a: Authorization, request: Request, o1: object?, o2: object?)
    ensures a.IsAuthorized(request, o1) == a.IsAuthorized(request, o2)
  {
  }

  /** The read-only check compares the method name exactly: lower-case `get`,
      `HEAD` and `OPTIONS` are refused. */
  lemma ReadOnlyIsExact(a: Authorization, request: Request, obj: object?)
    requires a.policy == ReadOnly
    requires request.httpMethod in {"get", "HEAD", "OPTIONS", "POST", "PUT", "DELETE"}
    ensures !a.IsAuthorized(request, obj)
  {
  }

  /** Reading the descriptor through two owners in turn leaves one shared
      object bound to the last of them. */
  method RebindToLastOwner(a: Authorization, first: object?, second: object?, owner: object?)
      returns (viaFirst: Authorization, viaSecond: Authorization)
    modifies a
    ensures viaFirst == a && viaSecond == a
    ensures a.resourceMeta == Some(second)
  {
    viaFirst := a.DescriptorGet(first, owner);
    viaSecond := a.DescriptorGet(second, owner);
  }
}
