/** The page-transition link intercept of ui.js: which clicked links count as
    internal, and what the capturing click handler then does. Resolving a URL
    (`new URL(href, base).origin`) is a parameter: a partial function from an
    href and a base to an origin, `None` where the constructor would throw. */
module Links {
  import opened Wrappers

  /** The anchor's resolved `href` property (empty when it has none), its `target`
      property (empty when unset) and its raw `href` attribute (`None` for
      `getAttribute` returning `null`). */
  datatype Anchor = Anchor(href: string, target: string, hrefAttr: Option<string>)

  /** `window.location`: the page's full `href` and its `origin`. */
  datatype Location = Location(href: string, origin: string)

  /** A browser keeps the two views of a link in step: an anchor without an `href`
      attribute has an empty `href` property. */
  predicate Consistent(a: Anchor)
  {
    a.hrefAttr.None? ==> a.href == ""
  }

  predicate StartsWith(s: string, prefix: string)
  {
    |prefix| <= |s| && s[..|prefix|] == prefix
  }

  /** The raw attribute names an in-page fragment, a mail address or a phone number. */
  predicate LeavesPageAlone(attr: string)
  {
    StartsWith(attr, "#") || StartsWith(attr, "mailto:") || StartsWith(attr, "tel:")
  }

  /** `a.getAttribute('href') || ''`: the raw attribute, empty exactly when it is
      missing or empty, so only a present attribute can trip a prefix rule. */
  function AttrText(a: Anchor): (s: string)
    ensures a.hrefAttr.Some? ==> s == a.hrefAttr.value
    ensures s == "" <==> a.hrefAttr.None? || a.hrefAttr.value == ""
    ensures LeavesPageAlone(s) ==> a.hrefAttr.Some? && LeavesPageAlone(a.hrefAttr.value)
  {
    match a.hrefAttr
    case None => ""
    case Some(v) => v
  }

  /** `isInternalLink(a)`: the early returns in the source's order. A missing anchor,
      an empty `href`, a `_blank` target or a raw attribute starting with `#`,
      `mailto:` or `tel:` is never internal; otherwise the link is internal exactly
      when its `href`, resolved against the page, has the page's origin, and a
      resolution failure counts as external. */
  function IsInternalLink(a: Option<Anchor>, page: Location, resolve: (string, string) -> Option<string>): (r: bool)
    ensures a.None? || a.value.href == "" ==> !r
    ensures a.Some? && a.value.target == "_blank" ==> !r
    ensures a.Some? && LeavesPageAlone(AttrText(a.value)) ==> !r
    ensures a.Some? && resolve(a.value.href, page.href).None? ==> !r
    ensures a.Some? && a.value.href != "" && a.value.target != "_blank" && !LeavesPageAlone(AttrText(a.value)) ==>
      (r <==> resolve(a.value.href, page.href) == Some(page.origin))
  {
    if a.None? || a.value.href == "" then false
    else if a.value.target == "_blank" then false
    else if LeavesPageAlone(AttrText(a.value)) then false
    else
      match resolve(a.value.href, page.href)
      case None => false
      case Some(origin) => origin == page.origin
  }

  /** What the capturing click listener does with a click: lets it through, or
      prevents the default, shows the overlay and schedules
      `window.location.assign(href)` with the raw attribute after `delayMs`. */
  datatype ClickOutcome = PassThrough | Intercept(navigateTo: Option<string>, delayMs: nat)

  const TransitionDelayMs: nat := 260

  /** The click handler given `e.target.closest('a')`: the click is intercepted
      exactly when there is an enclosing anchor and it is internal, and the
      navigation goes to the raw attribute after 260 ms. */
  function OnClick(closest: Option<Anchor>, page: Location, resolve: (string, string) -> Option<string>): (d: ClickOutcome)
    ensures d.Intercept? <==> closest.Some? && IsInternalLink(closest, page, resolve)
    ensures d.Intercept? ==> d.delayMs == TransitionDelayMs && d.navigateTo == closest.value.hrefAttr
  {
    if closest.None? then PassThrough
    else if !IsInternalLink(closest, page, resolve) then PassThrough
    else Intercept(closest.value.hrefAttr, TransitionDelayMs)
  }

  /** An intercepted click on a consistent anchor always has an attribute to
      navigate to, and that attribute is not a fragment, mail or phone link. */
  lemma InterceptNavigatesToAttribute(closest: Option<Anchor>, page: Location, resolve: (string, string) -> Option<string>)
    requires closest.Some? && Consistent(closest.value)
    ensures OnClick(closest, page, resolve).Intercept? ==>
      var target := OnClick(closest, page, resolve).navigateTo;
      target.Some? && !LeavesPageAlone(target.value)
  {
  }

  /** The prefix rules read the raw attribute, not the resolved `href`: a fragment
      link on the page's own origin still loads without the transition. */
  lemma FragmentLinkNotIntercepted(frag: string, page: Location, resolve: (string, string) -> Option<string>)
    requires resolve(page.href + "#" + frag, page.href) == Some(page.origin)
    ensures OnClick(Some(Anchor(page.href + "#" + frag, "", Some("#" + frag))), page, resolve) == PassThrough
  {
  }
}
