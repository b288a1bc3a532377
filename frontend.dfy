/**
 * The per-request logic: the shield condition and the two hooks that act on
 * it, `template_redirect` (redirect to the login page) and `the_content`
 * (replace the post body with the shield block). Both read the same
 * `$this->options`, loaded once when the plugin object is built, so both
 * take the same `Options` value here.
 */
module Frontend {
  import opened PhpValues
  import opened ShieldOptions
  import opened WordPress

  /**
   * What WordPress reports about the current request: `is_user_logged_in()`,
   * `is_singular()`, `get_post_type()` (`None` stands for its `false`) and
   * `get_permalink()`.
   */
  datatype Request = Request(loggedIn: bool, singular: bool, postType: Option<string>, permalink: string)

  /** `get_post_type()` as a PHP value. */
  function PostTypeValue(t: Option<string>): Value {
    match t
    case Some(name) => VStr(name)
    case None => VBool(false)
  }

  /** `in_array( $current_post_type, $shielded_post_types, true )`. */
  predicate PostTypeShielded(o: Options, req: Request) {
    PostTypeValue(req.postType) in ArrayCast(o.shieldedPostTypes)
  }

  /**
   * `is_shield_active_for_current_post`: four checks, each of which returns
   * `false` early; the shield is active exactly when all four pass.
   */
  function IsShieldActive(o: Options, req: Request): (active: bool)
    ensures active <==>
      && SetAndTruthy(o.enableShield)
      && !req.loggedIn
      && req.singular
      && PostTypeShielded(o, req)
  {
    if !SetAndTruthy(o.enableShield) then false
    else if req.loggedIn then false
    else if !req.singular then false
    else if !PostTypeShielded(o, req) then false
    else true
  }

  // ---------------------------------------------------------------------
  // template_redirect

  datatype RedirectStep = Redirect(url: string) | Continue

  /**
   * `shield_post_content_redirect`: when the shield is active and
   * `redirect_to_login` is set, `wp_safe_redirect` to the login page with the
   * permalink as return target, then `exit`.
   */
  function ShieldPostContentRedirect(o: Options, req: Request, wp: Api): (step: RedirectStep)
    ensures step.Redirect? <==> IsShieldActive(o, req) && SetAndTruthy(o.redirectToLogin)
    ensures step.Redirect? ==> step.url == wp.loginUrl(req.permalink)
  {
    if !IsShieldActive(o, req) then Continue
    else if SetAndTruthy(o.redirectToLogin) then Redirect(wp.loginUrl(req.permalink))
    else Continue
  }

  // ---------------------------------------------------------------------
  // the_content

  datatype FilterStep = Pass(content: string) | Replace(html: string) {
    /** The string the filter hands back to WordPress. */
    function Text(): string {
      match this
      case Pass(content) => content
      case Replace(html) => html
    }
  }

  const LoginLinkText := "Login here"
  const BlockOpen :=
    "<div style=\"border: 1px solid #ddd; padding: 20px; margin: 20px 0; background-color: #f9f9f9; text-align: center; border-radius: 5px; font-family: 'Georgia', serif; color: #555;\">"
    + "<p style=\"font-size: 1.2em; line-height: 1.6;\">"
  const LinkOpen := "</p><p><a href=\""
  const LinkClose :=
    "\" style=\"display: inline-block; padding: 8px 15px; background-color: #4CAF50; color: #fff; text-decoration: none; border-radius: 3px; transition: background-color 0.3s ease;\">"
    + LoginLinkText + "</a></p></div>"

  /**
   * The shield block: the message, then a link to `href`. Both can be read
   * back at fixed positions, so the block depends on nothing else.
   */
  function ShieldBlock(message: string, href: string): (html: string)
    ensures |html| == |BlockOpen| + |message| + |LinkOpen| + |href| + |LinkClose|
    ensures html[|BlockOpen|..|BlockOpen| + |message|] == message
    ensures html[|BlockOpen| + |message| + |LinkOpen|..|html| - |LinkClose|] == href
  {
    FivePartSlices(BlockOpen, message, LinkOpen, href, LinkClose);
    BlockOpen + message + LinkOpen + href + LinkClose
  }

  /** Where the middle parts of a five-part concatenation sit. */
  lemma FivePartSlices(a: string, m: string, b: string, h: string, c: string)
    ensures var s := a + m + b + h + c;
      && |s| == |a| + |m| + |b| + |h| + |c|
      && s[|a|..|a| + |m|] == m
      && s[|a| + |m| + |b|..|s| - |c|] == h
  {
  }

  /**
   * The message shown in the block: the stored one through `wp_kses_post`
   * when it is set and not `empty()`, the default otherwise.
   */
  function ShownMessage(o: Options, wp: Api): (m: string)
    ensures !SetAndTruthy(o.shieldMessage) ==> m == DefaultMessage
    ensures SetAndTruthy(o.shieldMessage) ==> m == wp.ksesPost(o.shieldMessage.value)
  {
    if SetAndTruthy(o.shieldMessage) then wp.ksesPost(o.shieldMessage.value) else DefaultMessage
  }

  /**
   * `shield_post_content_message`: the content passes unchanged when
   * `redirect_to_login` is set or the shield is inactive; otherwise it is
   * replaced by the shield block with a login link back to the permalink.
   */
  function ShieldPostContentMessage(o: Options, req: Request, wp: Api, content: string): (step: FilterStep)
    ensures step.Pass? <==> SetAndTruthy(o.redirectToLogin) || !IsShieldActive(o, req)
    ensures step.Pass? ==> step.content == content
    ensures step.Replace? ==> step.html == ShieldBlock(ShownMessage(o, wp), wp.escUrl(wp.loginUrl(req.permalink)))
  {
    if SetAndTruthy(o.redirectToLogin) then Pass(content)
    else if !IsShieldActive(o, req) then Pass(content)
    else Replace(ShieldBlock(ShownMessage(o, wp), wp.escUrl(wp.loginUrl(req.permalink))))
  }

  // ---------------------------------------------------------------------
  // One request through both hooks

  datatype Response = Redirected(url: string) | Page(body: string)

  /**
   * `template_redirect` runs before the content is rendered; a redirect ends
   * the request with `exit`, otherwise `the_content` filters the body.
   */
  function Respond(o: Options, req: Request, wp: Api, content: string): Response {
    match ShieldPostContentRedirect(o, req, wp)
    case Redirect(url) => Redirected(url)
    case Continue => Page(ShieldPostContentMessage(o, req, wp, content).Text())
  }

  /** At most one of the two hooks acts, and when the redirect acts the filter would pass. */
  lemma HooksNeverBothAct(o: Options, req: Request, wp: Api, content: string)
    ensures !(ShieldPostContentRedirect(o, req, wp).Redirect? && ShieldPostContentMessage(o, req, wp, content).Replace?)
    ensures ShieldPostContentRedirect(o, req, wp).Redirect? ==> ShieldPostContentMessage(o, req, wp, content) == Pass(content)
  {
  }

  /** The three outcomes of the shield for a request. */
  datatype Decision = Allow | BlockWithMessage | BlockWithRedirect

  /**
   * The decision stated in one piece: block when the shield is enabled, the
   * visitor is anonymous, the view is a single item and its post type is
   * shielded; redirect rather than show a message when `redirect_to_login`
   * is set.
   */
  function Decide(o: Options, req: Request): Decision {
    if SetAndTruthy(o.enableShield) && !req.loggedIn && req.singular && PostTypeShielded(o, req) then
      if SetAndTruthy(o.redirectToLogin) then BlockWithRedirect else BlockWithMessage
    else
      Allow
  }

  /** Running both hooks realises the decision. */
  lemma RespondFollowsDecision(o: Options, req: Request, wp: Api, content: string)
    ensures Respond(o, req, wp, content) ==
      match Decide(o, req)
      case Allow => Page(content)
      case BlockWithMessage => Page(ShieldBlock(ShownMessage(o, wp), wp.escUrl(wp.loginUrl(req.permalink))))
      case BlockWithRedirect => Redirected(wp.loginUrl(req.permalink))
  {
  }

  /**
   * The four ways the shield stays off: disabled or unset, a logged-in
   * visitor, a listing or archive view, a post type not selected.
   */
  lemma AllowCases(o: Options, req: Request)
    ensures !SetAndTruthy(o.enableShield) ==> Decide(o, req) == Allow
    ensures req.loggedIn ==> Decide(o, req) == Allow
    ensures !req.singular ==> Decide(o, req) == Allow
    ensures PostTypeValue(req.postType) !in ArrayCast(o.shieldedPostTypes) ==> Decide(o, req) == Allow
  {
  }

  /**
   * Fail-open: with no stored record, or with the activation defaults, no
   * request is shielded.
   */
  lemma NoShieldWithoutSettings(req: Request)
    ensures Decide(View(map[]), req) == Allow
    ensures Decide(View(DefaultOptions), req) == Allow
  {
  }

  /**
   * A saved record selects post types by name: a post type is shielded
   * exactly when its name is in the stored list.
   */
  lemma SavedPostTypesByName(a: PhpArray, req: Request)
    requires WellFormed(a)
    ensures req.postType.Some? ==>
      (PostTypeShielded(View(a), req) <==> VStr(req.postType.value) in a[ShieldedPostTypesKey].elems)
    ensures req.postType.None? ==> !PostTypeShielded(View(a), req)
  {
  }
}
