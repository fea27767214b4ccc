# WP Static Site API — a Dafny model

The plugin exposes `GET /wp-json/static/v1/pages`, a JSON listing of a
WordPress site's public URLs: the homepage, every published post, the paginated
posts listing, the monthly archives and the taxonomy terms, with a `count`
array that tallies them. It also rewrites stylesheet `<link>` tags and makes
same-origin URLs host-relative. This project models the decision logic of those
three pieces and proves what they promise:

- `rest_api.dfy` (module `RestApi`) — class `API` of `includes/rest-api.php`:
  the site-key permission check, the posts page, the page arithmetic and
  pagination links, the post-type filter, the archive and taxonomy sections,
  and `available_routes`, whose `count` array is proved to keep `total` equal to
  the sum of its other entries and to the number of counted routes, when no
  post type clashes with a key the code writes itself (see below).
- `relative_url.dfy` (module `RelativeUrl`) — `Relative::make_relative_url` of
  `includes/relative-url.php`: the guard chain and the host/scheme/port match.
- `cleanup.dfy` (module `Cleanup`) — `Cleanup::clean_style_tag` of
  `includes/cleanup.php`: the media-attribute rule and the rebuilt tag.
- `php.dfy` (module `Php`) — the PHP value semantics these rely on: string
  truthiness, the decimal form of an integer in concatenation, and sums over an
  associative array of counters. `options.dfy` holds `Option`.

`API` keeps no state, so its methods are module-level members. Every WordPress
call is an input: the options, `home_url`, `get_post_types`, the `WP_Query`
result, `wp_count_posts`, the archive rows, `get_taxonomies`/`get_terms` and the
link builders (`get_permalink`, `get_month_link`, `get_term_link`) are fields of
the `RestApi.Site` record (values, or functions the model applies without
knowing what they compute). `parse_url` and the stylesheet regular expression
are taken as already run: the model receives their results as records.
`is_feed`, `is_user_logged_in`, `current_filter` and `wp_make_link_relative`
are parameters of `RelativeUrl.MakeRelativeUrl`.

The loops of the source stay loops, each a method with invariants whose
`ensures` equates its result with a specification function:
`GetPostTypes` with `ListedPostTypes`, `GetPostsPagination` with `Pagination`
(built from `PageLinks`), `GetPosttypeArchives` with `ArchiveLinks`,
`GetTaxonomyTerms` with `TaxonomyLinks`, and `ListPosts` (the post loop of
`available_routes`) with `PostRoutes` for its routes and `Tally` for its
`count`. `AvailableRoutes` is in turn tied to `Counts`. What the source
promises is then proved about those functions. The three repeated blocks of
`available_routes` that add a section are one method, `AddSectionTo`, and the
counting lines of its post loop are `CountPost`.

A post type named `total`, `pagination`, `archive` or `taxonomy` would share a
key with the entries the code writes itself. The model keeps that behaviour as
written: `TallyTotal` shows that a post of type `total` is counted twice. The
final `total` equals the number of counted routes whenever no post has type
`total` (`RestApi.NoTotalType`); each post type other than those four has an
entry equal to its number of posts, for every site. That `total` is also the sum of the other entries, and that a
section's entry is its size, are proved for sites without any of the four
names as a post type (`RestApi.NoReservedTypes`), since a section overwrites
an entry of the same name.

## Model

| member | source | states |
|---|---|---|
| `RestApi.PermissionCallback` | includes/rest-api.php:36-52 | Without the site-key constant every request is refused. A truthy header is the presented key. Only a falsy header ("" or "0") lets the request parameter decide, and only when it is set. The request is allowed iff the presented key equals the constant. |
| `RestApi.HeaderTakesPrecedence` | includes/rest-api.php:41-45 | With a truthy X-Site-Key header, the bediq_site_key parameter cannot change the outcome. |
| `RestApi.UndefinedKeyDenies` | includes/rest-api.php:37-39 | When BEDIQ_SITE_KEY is undefined, no request passes, whatever it presents. |
| `RestApi.PostsPage` | includes/rest-api.php:72-84 | The posts page is the home URL when the front page shows posts. It is false when `page_for_posts` is "0". Otherwise it is the permalink of that page. |
| `RestApi.MaxPages` | includes/rest-api.php:187-193 | The page count is at least 1. It is 1 exactly when the total fits on one page. Otherwise it is the ceiling of total / per_page: the last page is partly filled and the pages before it are not enough. |
| `RestApi.MaxPagesIsLeast` | includes/rest-api.php:191-193 | No smaller number of pages holds all posts: the page count is the least sufficient one. |
| `RestApi.GetPostsPagination` | includes/rest-api.php:180-210 | Returns false exactly when there is no truthy posts page or the published posts fit on one page. Otherwise it returns max_pages - 1 links (at least one). Link k is posts page + "page/" + (k+2) + "/" with type `pagination`, in increasing page order. Equals `Pagination`. |
| `RestApi.NoPostsPageNoPagination` | includes/rest-api.php:180-185 | When the front page does not list posts and `page_for_posts` is "0", there is no pagination whatever the post count. |
| `RestApi.PageLinksDistinct` | includes/rest-api.php:199-207 | The urls of any two pagination links differ. |
| `Php.DecimalString` | includes/rest-api.php:204 | The decimal form of a page number is non-empty, all digits, and has no leading zero. |
| `Php.DecimalRoundTrip` | includes/rest-api.php:204 | Reading the decimal form of a number back gives the number. |
| `Php.DecimalStringInjective` | includes/rest-api.php:204 | Distinct page numbers print differently. |
| `RestApi.GetPostTypes` | includes/rest-api.php:91-102 | The result holds exactly the public post types other than `attachment` and `elementor_library`, each with its value unchanged; it equals `ListedPostTypes`. |
| `RestApi.GetPosttypeArchives` | includes/rest-api.php:235-244 | One `archive` link per archive row, in row order; link k is the month link of row k's year and month; equals `ArchiveLinks`. |
| `RestApi.NonEmptyMembers` | includes/rest-api.php:262-270 | A term is kept iff it is among the taxonomy's terms and its count is not zero. |
| `RestApi.GetTaxonomyTerms` | includes/rest-api.php:252-275 | The result is the term link of each non-empty term, taxonomy by taxonomy and then in term order: one link per such term, each of type `taxonomy`. Equals `TaxonomyLinks`. |
| `RestApi.Tally` | includes/rest-api.php:133-150 | After the post loop the `count` keys are the initial keys plus the types of the posts. |
| `RestApi.TallyTypeCount` | includes/rest-api.php:143-147 | The entry of a post type other than `total` grows by the number of posts of that type. |
| `RestApi.TallyTotal` | includes/rest-api.php:143-148 | `total` grows by one per post, and by one more per post whose type is `total`: such a post is counted twice. |
| `RestApi.IncrementBalanced` | includes/rest-api.php:143-148 | One post of a type other than `total` keeps `total` equal to the sum of the other entries. |
| `RestApi.TallyBalanced` | includes/rest-api.php:133-150 | The post loop keeps `total` equal to the sum of the other entries when no post has type `total`. |
| `RestApi.TallyFacts` | includes/rest-api.php:114-150 | Starting from `['total' => 0]` with no clashing post type: after the post loop `total` is the number of posts and the sum of the other entries. The keys are `total` plus the post types, and each type's entry is its number of posts. |
| `RestApi.AddSectionFacts` | includes/rest-api.php:152-156 | Adding a section keeps the balance. It adds an entry exactly when the section is not empty, that entry is the section's size, `total` grows by that size, and every other entry is unchanged. |
| `RestApi.CountsTotal` | includes/rest-api.php:143-168 | With no post of type `total` (post types named like a section allowed), the final `total` is the number of posts plus the sizes of the pagination, archive and taxonomy sections. |
| `RestApi.CountsBalanced` | includes/rest-api.php:114-168 | With no clashing post type, the final `total` equals the sum of every other entry of the `count` array. |
| `RestApi.CountsPerType` | includes/rest-api.php:143-168 | For every list of posts, a post type other than `total`, `pagination`, `archive` and `taxonomy` has an entry exactly when some post has it, and the entry is its number of posts. |
| `RestApi.CountsPerSection` | includes/rest-api.php:152-168 | With no clashing post type, `pagination`, `archive` and `taxonomy` have an entry exactly when their section is not empty, and the entry is the section's size. |
| `RestApi.CountPost` | includes/rest-api.php:143-148 | Counting one post sets its type's entry (0 when unset) one higher, then `total` one higher. |
| `RestApi.AddSectionTo` | includes/rest-api.php:152-156 | A non-empty section adds its entry, adds its size to `total` and appends its routes. An empty one changes nothing. |
| `RestApi.ListPosts` | includes/rest-api.php:133-150 | The post loop appends one route per post in query order and leaves `count` at `Tally` of the posts. |
| `RestApi.AvailableRoutes` | includes/rest-api.php:111-171 | The routes are, in order: the homepage (only when the front page lists posts), the posts of the query over the filtered post types, the pagination, the monthly archives and the taxonomy terms. `count` is the tally of those posts plus an entry per non-empty section. With no post of type `total`, `total` is the number of routes minus the uncounted homepage. |
| `RelativeUrl.MakeRelativeUrl` | includes/relative-url.php:43-74 | The output is always the input or its relative form. It is the relative form exactly when the call is not exempt (feed, URL without host or path, `site_url` for a logged-in user) and the URL has the site's origin: same host, same scheme with a missing scheme taken as the site's, same port unless either side has none. |
| `RelativeUrl.FeedIsUntouched` | includes/relative-url.php:44-46 | In a feed the input is returned as is, before any other check. |
| `RelativeUrl.PartialUrlIsUntouched` | includes/relative-url.php:48-51 | A URL without a host or without a path is returned as is. |
| `RelativeUrl.LoggedInSiteUrlIsUntouched` | includes/relative-url.php:54-56 | For a logged-in user under the `site_url` filter the input is returned as is. |
| `RelativeUrl.SchemelessNeverFailsSchemeCheck` | includes/relative-url.php:60-65 | Dropping the scheme of a URL that is rewritten keeps it rewritten: a scheme-less URL uses the site's scheme. |
| `RelativeUrl.PortIgnoredWithoutSitePort` | includes/relative-url.php:66-67 | When the site URL has no port, the URL's port does not affect the outcome. |
| `RelativeUrl.OtherHostIsUntouched` | includes/relative-url.php:64-73 | A URL on a different host is returned as is. |
| `Cleanup.MediaAttribute` | includes/cleanup.php:55 | The media attribute is omitted exactly when the media value is "" or "all". Any other value appears verbatim as ` media="value"`. |
| `Cleanup.CleanStyleTag` | includes/cleanup.php:47-57 | Without a match the input is returned unchanged. With a match the output is a new `<link rel="stylesheet" href="...` tag ending in `>` and a newline; it carries no media attribute when the first match's media is "" or "all", and ` media="value"` with that media otherwise. |
| `Cleanup.ParseMediaAttribute` | includes/cleanup.php:55 | The media attribute reads back as no attribute for "" and "all" and as the media value otherwise. |
| `Cleanup.ParseRebuiltTag` | includes/cleanup.php:55-56 | A tag built from an href without a double quote and a media value reads back as that href, with no media attribute exactly for "" and "all". |
| `Cleanup.CleanStyleTagKeepsLink` | includes/cleanup.php:55-56 | Reading the rewritten tag back gives the first match's href, no media attribute exactly when its media is "" or "all", and its media otherwise. So the rewrite keeps what the link means ("all" when empty), for an href without a double quote. |
| `Cleanup.OnlyFirstMatchCounts` | includes/cleanup.php:55-56 | Only the first match is used: later matches and the rest of the input do not change the output. |
| `Cleanup.IdIsDropped` | includes/cleanup.php:48-56 | The output does not depend on the matched id attribute. |

## Left out

- Hook wiring is not modelled. This covers the constructors, `register_routes`, `apply_relative_url` with its filter list, and `head_cleanup` with its `remove_action`/`add_filter` calls and the `ob_start`/`ob_get_clean` removal of the comments-feed link. All of it is calls into WordPress's hook system and output buffering. `static-api.php` only loads the files and creates the objects.
- WordPress and database calls are inputs, not behaviour. They are fields of `RestApi.Site` or parameters, as described above. The SQL text of the archive query and its object-cache memoisation are left out; the model starts from the result rows.
- `rest_ensure_response` is left out. So is the unused `$data` parameter of `available_routes`.
- The regular expression of `clean_style_tag` and `parse_url` are not modelled. Their results are records (`Cleanup.StyleMatch`, `RelativeUrl.UrlParts`). A `parse_url` failure (`false`) is the record with every part absent, which the filter treats the same way.
- `RestApi.PermissionCallback`: PHP's loose `==` is modelled as string equality. Loose comparison of numeric strings (such as "1e1" against "10") or of a non-string constant is not captured. A missing header is the empty string, which compares like the `null` that `get_header` returns.
- `RestApi.PostsPage`: the loose comparisons of the two options are modelled as string equality.
- `RestApi.MaxPages`: PHP computes `ceil` on a float. The model uses exact integer ceiling division, so float rounding on very large counts is not captured.
- `RestApi.GetPostsPagination`: requires `posts_per_page > 0`. The code never guards against zero or a negative value, and the model does not cover those values (a negative value, such as -1, makes the code return an empty list that `available_routes` then skips; zero divides by zero once there is a published post). The same requirement is on `RestApi.Pagination` and `RestApi.AvailableRoutes`.
- `RestApi.PostRoute`: `get_permalink` returning `false` for a post is not modelled; the url is always a string.
- `RestApi.GetTaxonomyTerms`: a `WP_Error` from `get_terms` is not modelled; each taxonomy yields a list of terms.
- `RestApi.Response`: the `count` array is a map, so the key order of the JSON object is not modelled. The order of the `routes` list is modelled.
- `RestApi.GetPostTypes`: the result is a map, so the order of the post types handed to the query is not modelled.
