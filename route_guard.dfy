/** The request middleware (src/utils/middleware.ts): sign-in protection for
    non-public routes, then referrer checks that keep the checkout pages from
    being opened directly. The route matcher and Clerk's `auth.protect` are
    inputs: whether the route is public and whether the visitor is signed in. */
module RouteGuard {
  import opened Options
  import opened Strings

  /** `referrer && referrer.includes(t)`: the `referer` header is present,
      non-empty and contains `t`. */
  predicate Referred(referer: Option<string>, t: string) {
    referer.Some? && Contains(referer.value, t)
  }

  /** The redirect target, a path on the request's own origin, or `None`
      when the request goes through. */
  function RedirectTarget(pathname: string, referer: Option<string>): (r: Option<string>)
    ensures pathname == "/billing-summary" ==>
      r == (if Referred(referer, "/carts") then None else Some("/carts"))
    ensures pathname == "/success" ==>
      r == (if Referred(referer, "/billing-summary") || Referred(referer, "stripe.com") then None else Some("/carts"))
    ensures pathname == "/cancel" ==>
      r == (if Referred(referer, "stripe.com") then None else Some("/"))
    ensures pathname != "/billing-summary" && pathname != "/success" && pathname != "/cancel" ==> r.None?
    ensures r.Some? ==> (r.value == "/carts" || r.value == "/") && r.value != pathname
  {
    if pathname == "/billing-summary" then
      if referer.None? || !Contains(referer.value, "/carts") then Some("/carts") else None
    else if pathname == "/success" then
      if referer.None? then Some("/carts")
      else if !Contains(referer.value, "/billing-summary") && !Contains(referer.value, "stripe.com") then Some("/carts")
      else None
    else if pathname == "/cancel" then
      if referer.None? || !Contains(referer.value, "stripe.com") then Some("/")
      else None
    else None
  }

  /** What the middleware does with a request. */
  datatype Decision = SignInRequired | Redirect(target: string) | PassThrough

  /** `auth.protect()` runs first, for every non-public route, and ends a
      request by a visitor who is not signed in before any referrer check. */
  function Middleware(pathname: string, referer: Option<string>, isPublic: bool, signedIn: bool): (d: Decision)
    ensures d == SignInRequired <==> !isPublic && !signedIn
    ensures d != SignInRequired ==>
      (d.Redirect? <==> RedirectTarget(pathname, referer).Some?)
      && (d.Redirect? ==> d.target == RedirectTarget(pathname, referer).value)
  {
    if !isPublic && !signedIn then SignInRequired
    else
      match RedirectTarget(pathname, referer)
      case Some(target) => Redirect(target)
      case None => PassThrough
  }

  /** Redirects never chain: the page a request is sent to is not itself
      guarded, whatever its referrer. */
  lemma RedirectsDoNotChain(pathname: string, referer: Option<string>, next: Option<string>)
    requires RedirectTarget(pathname, referer).Some?
    ensures RedirectTarget(RedirectTarget(pathname, referer).value, next).None?
  {
  }

  /** Coming from the cart (any referrer URL containing `/carts`) the
      billing summary opens; with no referrer it never does. */
  lemma BillingSummaryFromCart(before: string, after: string)
    ensures RedirectTarget("/billing-summary", Some(before + "/carts" + after)).None?
    ensures RedirectTarget("/billing-summary", None) == Some("/carts")
  {
    ContainsInfix(before, "/carts", after);
  }

  /** The success page opens coming from the billing summary or from
      Stripe, and never without a referrer. */
  lemma SuccessFromCheckout(before: string, after: string)
    ensures RedirectTarget("/success", Some(before + "/billing-summary" + after)).None?
    ensures RedirectTarget("/success", Some(before + "stripe.com" + after)).None?
    ensures RedirectTarget("/success", None) == Some("/carts")
  {
    ContainsInfix(before, "/billing-summary", after);
    ContainsInfix(before, "stripe.com", after);
  }

  /** Back from Stripe, both the success and the cancel page open. */
  lemma ReturnFromStripe(before: string, after: string)
    ensures RedirectTarget("/success", Some(before + "stripe.com" + after)).None?
    ensures RedirectTarget("/cancel", Some(before + "stripe.com" + after)).None?
  {
    ContainsInfix(before, "stripe.com", after);
  }

  /** An empty `referer` header is falsy and counts as none. */
  lemma EmptyRefererIsMissing(pathname: string)
    ensures RedirectTarget(pathname, Some("")) == RedirectTarget(pathname, None)
  {
    assert !Contains("", "/carts") && !Contains("", "/billing-summary") && !Contains("", "stripe.com");
  }
}
