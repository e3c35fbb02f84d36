/** The guard that lets a request through only when its user holds every
    permission the route requires. */
module PermissionsGuard {
  import opened Wrappers
  import opened Http

  datatype RequestUser = RequestUser(id: string, permissions: seq<string>)

  const NotAuthenticated := "User not authenticated"

  /** `required.every(p => held.includes(p))` */
  predicate Every(required: seq<string>, held: seq<string>) {
    required == [] || (required[0] in held && Every(required[1..], held))
  }

  lemma {:induction false} EveryIff(required: seq<string>, held: seq<string>)
    ensures Every(required, held) <==> forall p :: p in required ==> p in held
  {
    if required != [] {
      EveryIff(required[1..], held);
      assert forall p :: p in required <==> p == required[0] || p in required[1..];
    }
  }

  /** `canActivate`: the required permissions come from the handler, else the
      controller class. */
  function CanActivate(meta: Metadata<seq<string>>, user: Option<RequestUser>): (r: Result<bool, HttpError>)
    ensures AllAndOverride(meta).None? || AllAndOverride(meta).value == [] ==> r == Success(true)
    ensures AllAndOverride(meta).Some? && AllAndOverride(meta).value != [] && user.None?
            ==> r == Failure(Forbidden(NotAuthenticated))
    ensures AllAndOverride(meta).Some? && AllAndOverride(meta).value != [] && user.Some?
            ==> r.Success? && (r.value <==> forall p :: p in AllAndOverride(meta).value ==> p in user.value.permissions)
  {
    var required := AllAndOverride(meta);
    if required.None? || |required.value| == 0 then Success(true)
    else if user.None? then Failure(Forbidden(NotAuthenticated))
    else
      EveryIff(required.value, user.value.permissions);
      Success(Every(required.value, user.value.permissions))
  }

  /** Granting a user more permissions never turns an allowed request into a
      refused one. */
  lemma MorePermissionsStillAllowed(required: seq<string>, id: string, held: seq<string>, more: seq<string>)
    requires CanActivate(Metadata(Some(required), None), Some(RequestUser(id, held))) == Success(true)
    requires forall p :: p in held ==> p in more
    ensures CanActivate(Metadata(Some(required), None), Some(RequestUser(id, more))) == Success(true)
  {
  }

  /** Requiring more permissions never turns a refused request into an
      allowed one. */
  lemma MoreRequirementsStillRefused(required: seq<string>, extra: seq<string>, user: Option<RequestUser>)
    requires CanActivate(Metadata(Some(required), None), user) == Success(false)
    ensures CanActivate(Metadata(Some(required + extra), None), user) == Success(false)
  {
    var missing :| missing in required && missing !in user.value.permissions;
    assert missing in required + extra;
  }

  /** A handler-level requirement replaces the class-level one, even when the
      handler's list is empty. */
  lemma HandlerRequirementOverridesClass(user: Option<RequestUser>, classRequired: seq<string>)
    ensures CanActivate(Metadata(Some([]), Some(classRequired)), user) == Success(true)
  {
  }
}
