/**
 * The absolute-to-relative URL filter (`Relative::make_relative_url` of
 * includes/relative-url.php).
 *
 * `parse_url` is taken as already done: the input URL and the site's home URL
 * arrive as records of optional parts (a URL that does not parse is the record
 * with every part absent, which the filter treats the same way). The request
 * flags are a `Context`, and WordPress's own `wp_make_link_relative` is an
 * arrow the filter applies without knowing what it does.
 */
module RelativeUrl {
  import opened Options

  /** The parts of a URL `parse_url` reports; a missing key is None. */
  datatype UrlParts = UrlParts(scheme: Option<string>, host: Option<string>, port: Option<int>, path: Option<string>)

  /** `is_feed()`, `is_user_logged_in()` and `current_filter()` at the time of the call. */
  datatype Context = Context(isFeed: bool, isUserLoggedIn: bool, currentFilter: string)

  /**
   * The URL points at the site's own origin: same host; same scheme, a URL
   * without one taking the site's; same port, unless either side names none.
   */
  predicate SameOrigin(url: UrlParts, site: UrlParts) {
    && url.host == site.host
    && (url.scheme.None? || url.scheme == site.scheme)
    && (url.port.None? || site.port.None? || url.port == site.port)
  }

  /** The filter leaves the URL alone in feeds, on partial URLs and for `site_url` of a logged-in user. */
  predicate Exempt(url: UrlParts, context: Context) {
    || context.isFeed
    || url.host.None? || url.path.None?
    || (context.isUserLoggedIn && context.currentFilter == "site_url")
  }

  /**
   * `make_relative_url($input)`, where `url` is `parse_url($input)` and `site`
   * is `parse_url(network_home_url())`: the relative form of a same-origin URL,
   * the input itself otherwise.
   */
  function MakeRelativeUrl(input: string, url: UrlParts, site: UrlParts, context: Context,
                           makeLinkRelative: string -> string): (output: string)
    ensures output == input || output == makeLinkRelative(input)
    ensures !Exempt(url, context) && SameOrigin(url, site) ==> output == makeLinkRelative(input)
    ensures Exempt(url, context) || !SameOrigin(url, site) ==> output == input
  {
    if context.isFeed then input
    else if url.host.None? || url.path.None? then input
    else if context.isUserLoggedIn && context.currentFilter == "site_url" then input
    else
      var scheme := if url.scheme.None? then site.scheme else url.scheme;
      var hostsMatch := site.host == url.host;
      var schemesMatch := site.scheme == scheme;
      var portsExist := site.port.Some? && url.port.Some?;
      var portsMatch := if portsExist then site.port == url.port else true;
      if hostsMatch && schemesMatch && portsMatch then makeLinkRelative(input) else input
  }

  /** In a feed the input comes back untouched, however well it matches the site. */
  lemma FeedIsUntouched(input: string, url: UrlParts, site: UrlParts, context: Context, makeLinkRelative: string -> string)
    requires context.isFeed
    ensures MakeRelativeUrl(input, url, site, context, makeLinkRelative) == input
  {
  }

  /** A URL without a host or without a path comes back untouched. */
  lemma PartialUrlIsUntouched(input: string, url: UrlParts, site: UrlParts, context: Context, makeLinkRelative: string -> string)
    requires url.host.None? || url.path.None?
    ensures MakeRelativeUrl(input, url, site, context, makeLinkRelative) == input
  {
  }

  /** `site_url` is never rewritten for a logged-in user. */
  lemma LoggedInSiteUrlIsUntouched(input: string, url: UrlParts, site: UrlParts, context: Context, makeLinkRelative: string -> string)
    requires context.isUserLoggedIn && context.currentFilter == "site_url"
    ensures MakeRelativeUrl(input, url, site, context, makeLinkRelative) == input
  {
  }

  /**
   * Removing the scheme from a URL never stops it from being rewritten: a
   * scheme-less URL borrows the site's scheme.
   */
  lemma SchemelessNeverFailsSchemeCheck(input: string, url: UrlParts, site: UrlParts, context: Context, makeLinkRelative: string -> string)
    requires MakeRelativeUrl(input, url, site, context, makeLinkRelative) == makeLinkRelative(input)
    requires makeLinkRelative(input) != input
    ensures MakeRelativeUrl(input, url.(scheme := None), site, context, makeLinkRelative) == makeLinkRelative(input)
  {
  }

  /**
   * Ports only matter when both sides name one: adding or dropping the port of
   * a URL the site names no port for changes nothing.
   */
  lemma PortIgnoredWithoutSitePort(input: string, url: UrlParts, site: UrlParts, context: Context,
                                   makeLinkRelative: string -> string, port: Option<int>)
    requires site.port.None?
    ensures MakeRelativeUrl(input, url.(port := port), site, context, makeLinkRelative)
         == MakeRelativeUrl(input, url, site, context, makeLinkRelative)
  {
  }

  /** A URL on another host is never rewritten. */
  lemma OtherHostIsUntouched(input: string, url: UrlParts, site: UrlParts, context: Context, makeLinkRelative: string -> string)
    requires url.host != site.host
    ensures MakeRelativeUrl(input, url, site, context, makeLinkRelative) == input
  {
  }
}
