/** `smart_auth` (views.py): the decorator that, depending on the settings
    read when a view is decorated, returns the view unchanged or wraps it
    behind an access check that answers `Http404` on refusal. */
module Auth {
  import opened Results
  import opened Http

  /** The settings `smart_auth` reads: `PYRES_PROTECT` (absent means off)
      and `PYRES_PROTECT_WITH` (absent means the default check). */
  datatype AuthSettings = AuthSettings(protect: bool, protectWith: Option<Request -> bool>)

  /** The default check: an active staff user. */
  predicate StaffOnly(r: Request)
  {
    r.user.isActive && r.user.isStaff
  }

  /** The check a protected view applies. */
  function Checker(settings: AuthSettings): (check: Request -> bool)
    ensures settings.protectWith.Some? ==> check == settings.protectWith.value
    ensures settings.protectWith.None? ==> forall r :: check(r) == StaffOnly(r)
  {
    match settings.protectWith
    case Some(c) => c
    case None => StaffOnly
  }

  /** `smart_auth(view)`. */
  function SmartAuth<R>(view: Request -> Response<R>, settings: AuthSettings): (wrapped: Request -> Response<R>)
    ensures !settings.protect ==> wrapped == view
    ensures settings.protect ==> forall r ::
      wrapped(r) == if Checker(settings)(r) then view(r) else NotFound
  {
    if settings.protect then
      var check := Checker(settings);
      r => if check(r) then view(r) else NotFound
    else view
  }

  /** With the default check, protection admits exactly the active staff users. */
  lemma DefaultProtection<R>(view: Request -> Response<R>, r: Request)
    ensures var wrapped := SmartAuth(view, AuthSettings(true, None));
      wrapped(r) == if r.user.isActive && r.user.isStaff then view(r) else NotFound
  {
  }
}
