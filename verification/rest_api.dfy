/**
 * The `static/v1/pages` REST endpoint (class API of includes/rest-api.php).
 *
 * The class keeps no state of its own, so its methods become module-level
 * members. Every WordPress call they make is a field of `Site`: a value
 * (an option, the public post types) or an arrow (get_permalink,
 * get_month_link, the query engine), so the model decides only what the
 * plugin decides and takes WordPress's answers as given.
 */
module RestApi {
  import opened Options
  import opened Php

  /** A post as WP_Query returns it. */
  datatype Post = Post(id: int, postType: string, date: string, modified: string)

  /** One row of the monthly archive query. */
  datatype ArchiveRow = ArchiveRow(year: int, month: int, posts: int)

  /** A term as get_terms returns it; `count` is its number of posts. */
  datatype Term = Term(taxonomy: string, slug: string, count: int)

  /** What a content-backed route carries besides its url and type. */
  datatype Entry = Entry(id: int, created: string, updated: string)

  /** One element of the `routes` list; `kind` is the JSON field `type`. */
  datatype Route = Route(url: string, kind: string, entry: Option<Entry>)

  /** The response body: the `count` array and the `routes` list. */
  datatype Response = Response(count: map<string, int>, routes: seq<Route>)

  /**
   * A request as the permission check sees it: the X-Site-Key header ("" when
   * the header is absent, which PHP's `==` treats like the null get_header
   * returns) and the bediq_site_key request parameter.
   */
  datatype Request = Request(header: string, param: Option<string>)

  /** What WordPress answers while the request is served. */
  datatype Site = Site(
    showOnFront: string,                     // get_option('show_on_front')
    pageForPosts: string,                    // get_option('page_for_posts')
    homeUrl: string,                         // home_url('/')
    pageLink: string -> Option<string>,      // get_permalink($page_id); None is false
    postsPerPage: int,                       // get_option('posts_per_page', 10)
    publishedCount: string -> nat,           // (int) wp_count_posts($type)->publish
    publicPostTypes: map<string, string>,    // get_post_types(['public' => true], 'names')
    query: map<string, string> -> seq<Post>, // WP_Query over these post types, in query order
    postLink: Post -> string,                // get_permalink($post)
    archiveRows: string -> seq<ArchiveRow>,  // the monthly archive rows of a post type
    monthLink: (int, int) -> string,         // get_month_link($year, $month)
    taxonomies: seq<string>,                 // names of get_taxonomies(['public' => true])
    terms: string -> seq<Term>,              // get_terms of one taxonomy, hiding empty ones
    termLink: Term -> string                 // get_term_link($term)
  )

  // ---------------------------------------------------------------------
  // Permission check
  // ---------------------------------------------------------------------

  /**
   * `permission_callback`: `siteKey` is the BEDIQ_SITE_KEY constant (None when
   * it is not defined). The header decides unless it is falsy; only then is
   * the request parameter consulted, and only when it is set.
   */
  function PermissionCallback(siteKey: Option<string>, request: Request): (allowed: bool)
    ensures siteKey.None? ==> !allowed
    ensures Truthy(request.header) ==> (allowed <==> siteKey == Some(request.header))
    ensures !Truthy(request.header) && request.param.Some? ==>
              (allowed <==> siteKey == Some(request.param.value))
    ensures !Truthy(request.header) && request.param.None? ==>
              (allowed <==> siteKey == Some(request.header))
  {
    if siteKey.None? then false
    else
      var presented :=
        if !Truthy(request.header) && request.param.Some? then request.param.value
        else request.header;
      siteKey.value == presented
  }

  /** A usable header makes the request parameter irrelevant. */
  lemma HeaderTakesPrecedence(siteKey: Option<string>, header: string, p: Option<string>, q: Option<string>)
    requires Truthy(header)
    ensures PermissionCallback(siteKey, Request(header, p)) == PermissionCallback(siteKey, Request(header, q))
  {
  }

  /** Without the constant no request is let through, whatever it presents. */
  lemma UndefinedKeyDenies(request: Request)
    ensures !PermissionCallback(None, request)
  {
  }

  // ---------------------------------------------------------------------
  // Posts page and pagination
  // ---------------------------------------------------------------------

  /** `get_posts_page`: the URL of the page that lists the posts, or false. */
  function PostsPage(site: Site): (page: Option<string>)
    ensures site.showOnFront == "posts" ==> page == Some(site.homeUrl)
    ensures site.showOnFront != "posts" && site.pageForPosts == "0" ==> page == None
    ensures site.showOnFront != "posts" && site.pageForPosts != "0" ==>
              page == site.pageLink(site.pageForPosts)
  {
    if site.showOnFront == "posts" then Some(site.homeUrl)
    else if site.pageForPosts == "0" then None
    else site.pageLink(site.pageForPosts)
  }

  /** `$max_pages`: ceil(total / perPage) when the posts overflow one page, else 1. */
  function MaxPages(total: nat, perPage: int): (pages: nat)
    requires perPage > 0
    ensures pages >= 1
    ensures pages == 1 <==> total <= perPage
    ensures total > perPage ==> (pages - 1) * perPage < total <= pages * perPage
  {
    if total > perPage then
      var q := (total + perPage - 1) / perPage;
      assert q * perPage + (total + perPage - 1) % perPage == total + perPage - 1;
      assert q * perPage > perPage;
      q
    else 1
  }

  /** The ceiling is the least page count that holds every post. */
  lemma MaxPagesIsLeast(total: nat, perPage: int, n: nat)
    requires perPage > 0 && total > perPage
    requires total <= n * perPage
    ensures MaxPages(total, perPage) <= n
  {
    var m := MaxPages(total, perPage);
    assert (m - 1) * perPage < n * perPage;
  }

  /** The url of listing page `page`: `$base . $i . '/'`. */
  function PageUrl(base: string, page: nat): string {
    base + DecimalString(page) + "/"
  }

  /** The pagination links for pages 2 .. n + 1, in increasing page order. */
  function PageLinks(base: string, n: nat): seq<Route> {
    seq(n, k requires 0 <= k < n => Route(PageUrl(base, k + 2), "pagination", None))
  }

  /** The pagination links' urls are pairwise distinct. */
  lemma PageLinksDistinct(base: string, n: nat, j: nat, k: nat)
    requires j < n && k < n && j != k
    ensures PageLinks(base, n)[j].url != PageLinks(base, n)[k].url
  {
    if PageUrl(base, j + 2) == PageUrl(base, k + 2) {
      var dj, dk := DecimalString(j + 2), DecimalString(k + 2);
      assert base + dj + "/" == base + dk + "/";
      assert |dj| == |dk|;
      assert dj == (base + dj + "/")[|base|..|base| + |dj|];
      assert dk == (base + dk + "/")[|base|..|base| + |dk|];
      DecimalStringInjective(j + 2, k + 2);
    }
  }

  /** What `get_posts_pagination($postType)` returns; None is false. */
  function Pagination(site: Site, postType: string): Option<seq<Route>>
    requires site.postsPerPage > 0
  {
    var postsPage := PostsPage(site);
    if !TruthyOpt(postsPage) then None
    else
      var maxPages := MaxPages(site.publishedCount(postType), site.postsPerPage);
      if maxPages == 1 then None
      else Some(PageLinks(postsPage.value + "page/", maxPages - 1))
  }

  /**
   * `get_posts_pagination`: false when there is no posts page or everything
   * fits on one page; otherwise one `pagination` route for each page from 2 to
   * the last, with url posts page + "page/" + number + "/".
   */
  method GetPostsPagination(site: Site, postType: string) returns (pages: Option<seq<Route>>)
    requires site.postsPerPage > 0
    ensures pages == Pagination(site, postType)
    ensures pages.None? <==>
              !TruthyOpt(PostsPage(site)) || site.publishedCount(postType) <= site.postsPerPage
    ensures pages.Some? ==>
              var maxPages := MaxPages(site.publishedCount(postType), site.postsPerPage);
              && |pages.value| == maxPages - 1 >= 1
              && forall k :: 0 <= k < |pages.value| ==>
                   pages.value[k] == Route(PostsPage(site).value + "page/" + DecimalString(k + 2) + "/", "pagination", None)
  {
    var postsPage := PostsPage(site);
    if !TruthyOpt(postsPage) {
      return None;
    }
    var perPage := site.postsPerPage;
    var total := site.publishedCount(postType);
    var maxPages := 1;
    if total > perPage {
      maxPages := MaxPages(total, perPage);
    }
    if maxPages == 1 {
      return None;
    }
    var links: seq<Route> := [];
    var base := postsPage.value + "page/";
    var i := 2;
    while i <= maxPages
      invariant 2 <= i <= maxPages + 1
      invariant links == PageLinks(base, i - 2)
    {
      links := links + [Route(PageUrl(base, i), "pagination", None)];
      i := i + 1;
    }
    pages := Some(links);
  }

  /** Without a posts page there is no pagination, whatever the post count. */
  lemma NoPostsPageNoPagination(site: Site, postType: string)
    requires site.postsPerPage > 0
    requires site.showOnFront != "posts" && site.pageForPosts == "0"
    ensures Pagination(site, postType) == None
  {
  }

  // ---------------------------------------------------------------------
  // Post types
  // ---------------------------------------------------------------------

  /** The post types the listing never includes. */
  const SkippedPostTypes: seq<string> := ["attachment", "elementor_library"]

  /** `get_post_types`: the public post types minus the two skipped ones. */
  method GetPostTypes(publicTypes: map<string, string>) returns (types: map<string, string>)
    ensures forall t :: t in types <==> t in publicTypes && t != "attachment" && t != "elementor_library"
    ensures forall t :: t in types ==> types[t] == publicTypes[t]
    ensures types == ListedPostTypes(publicTypes)
  {
    types := publicTypes;
    for i := 0 to |SkippedPostTypes|
      invariant forall t :: t in types <==> t in publicTypes && t !in SkippedPostTypes[..i]
      invariant forall t :: t in types ==> types[t] == publicTypes[t]
    {
      var skip := SkippedPostTypes[i];
      assert SkippedPostTypes[..i + 1] == SkippedPostTypes[..i] + [skip];
      if skip in types {
        types := types - {skip};
      }
    }
    assert SkippedPostTypes[..|SkippedPostTypes|] == ["attachment", "elementor_library"];
    assert types.Keys == ListedPostTypes(publicTypes).Keys;
  }

  /** The post types the query is run over, as `get_post_types` leaves them. */
  function ListedPostTypes(publicTypes: map<string, string>): map<string, string> {
    publicTypes - {"attachment", "elementor_library"}
  }

  // ---------------------------------------------------------------------
  // Routes of the individual sections
  // ---------------------------------------------------------------------

  /** The route of one post: its id, permalink, post type and dates. */
  function PostRoute(post: Post, postLink: Post -> string): Route {
    Route(postLink(post), post.postType, Some(Entry(post.id, post.date, post.modified)))
  }

  /** One route per post, in query order. */
  function PostRoutes(posts: seq<Post>, postLink: Post -> string): seq<Route> {
    seq(|posts|, k requires 0 <= k < |posts| => PostRoute(posts[k], postLink))
  }

  /** The homepage route, present only when the front page lists the posts. */
  function Homepage(site: Site): seq<Route> {
    if site.showOnFront == "posts" then [Route(site.homeUrl, "homepage", None)] else []
  }

  /** One `archive` route per archive row, in row order. */
  function ArchiveLinks(rows: seq<ArchiveRow>, monthLink: (int, int) -> string): seq<Route> {
    seq(|rows|, k requires 0 <= k < |rows| => Route(monthLink(rows[k].year, rows[k].month), "archive", None))
  }

  /**
   * `get_posttype_archives`, from the point where the (cached) query rows are
   * known: one monthly archive link per row.
   */
  method GetPosttypeArchives(site: Site, postType: string) returns (links: seq<Route>)
    ensures |links| == |site.archiveRows(postType)|
    ensures forall k :: 0 <= k < |links| ==>
              var row := site.archiveRows(postType)[k];
              links[k] == Route(site.monthLink(row.year, row.month), "archive", None)
    ensures links == ArchiveLinks(site.archiveRows(postType), site.monthLink)
  {
    var results := site.archiveRows(postType);
    links := [];
    for i := 0 to |results|
      invariant |links| == i
      invariant forall k :: 0 <= k < i ==>
                  links[k] == Route(site.monthLink(results[k].year, results[k].month), "archive", None)
    {
      var result := results[i];
      links := links + [Route(site.monthLink(result.year, result.month), "archive", None)];
    }
    assert links == ArchiveLinks(results, site.monthLink);
  }

  /** The terms of the given taxonomies, taxonomy by taxonomy, each in get_terms order. */
  function AllTerms(taxonomies: seq<string>, terms: string -> seq<Term>): seq<Term> {
    if taxonomies == [] then []
    else AllTerms(taxonomies[..|taxonomies| - 1], terms) + terms(taxonomies[|taxonomies| - 1])
  }

  /** The terms whose count is not zero, in their original order. */
  function NonEmpty(terms: seq<Term>): (kept: seq<Term>)
    ensures |kept| <= |terms|
  {
    if terms == [] then []
    else
      var last := terms[|terms| - 1];
      NonEmpty(terms[..|terms| - 1]) + (if last.count != 0 then [last] else [])
  }

  /** Exactly the terms with a non-zero count survive. */
  lemma {:induction false} NonEmptyMembers(terms: seq<Term>, t: Term)
    ensures t in NonEmpty(terms) <==> t in terms && t.count != 0
  {
    if terms != [] {
      var prefix, last := terms[..|terms| - 1], terms[|terms| - 1];
      assert terms == prefix + [last];
      NonEmptyMembers(prefix, t);
    }
  }

  /** One `taxonomy` route per term, in term order. */
  function TermRoutes(terms: seq<Term>, termLink: Term -> string): seq<Route> {
    seq(|terms|, k requires 0 <= k < |terms| => Route(termLink(terms[k]), "taxonomy", None))
  }

  /** The taxonomy section: a route for every term with posts, taxonomy by taxonomy. */
  function TaxonomyLinks(site: Site): seq<Route> {
    TermRoutes(NonEmpty(AllTerms(site.taxonomies, site.terms)), site.termLink)
  }

  lemma TermRoutesSnoc(terms: seq<Term>, t: Term, termLink: Term -> string)
    ensures TermRoutes(terms + [t], termLink) == TermRoutes(terms, termLink) + [Route(termLink(t), "taxonomy", None)]
  {
  }

  /** Adding one term at the end adds its route exactly when its count is not zero. */
  lemma NonEmptySnoc(terms: seq<Term>, t: Term)
    ensures NonEmpty(terms + [t]) == NonEmpty(terms) + (if t.count != 0 then [t] else [])
  {
    assert (terms + [t])[..|terms|] == terms;
  }

  /** The terms gathered so far grow by the whole term list of the next taxonomy. */
  lemma AllTermsSnoc(taxonomies: seq<string>, i: nat, terms: string -> seq<Term>)
    requires i < |taxonomies|
    ensures AllTerms(taxonomies[..i + 1], terms) == AllTerms(taxonomies[..i], terms) + terms(taxonomies[i])
  {
    assert taxonomies[..i + 1][..i] == taxonomies[..i];
  }

  /**
   * `get_taxonomy_terms`: for each public taxonomy in order, one `taxonomy`
   * link for each of its terms whose count is not zero, in term order.
   */
  method GetTaxonomyTerms(site: Site) returns (links: seq<Route>)
    ensures links == TaxonomyLinks(site)
    ensures |links| == |NonEmpty(AllTerms(site.taxonomies, site.terms))|
    ensures forall k :: 0 <= k < |links| ==> links[k].kind == "taxonomy"
  {
    var taxonomies := site.taxonomies;
    links := [];
    ghost var kept: seq<Term> := [];
    for i := 0 to |taxonomies|
      invariant kept == NonEmpty(AllTerms(taxonomies[..i], site.terms))
      invariant links == TermRoutes(kept, site.termLink)
    {
      ghost var done := AllTerms(taxonomies[..i], site.terms);
      var taxonomyTerms := site.terms(taxonomies[i]);
      assert done + taxonomyTerms[..0] == done;
      for j := 0 to |taxonomyTerms|
        invariant kept == NonEmpty(done + taxonomyTerms[..j])
        invariant links == TermRoutes(kept, site.termLink)
      {
        var term := taxonomyTerms[j];
        assert done + taxonomyTerms[..j + 1] == (done + taxonomyTerms[..j]) + [term];
        NonEmptySnoc(done + taxonomyTerms[..j], term);
        if term.count != 0 {
          TermRoutesSnoc(kept, term, site.termLink);
          links := links + [Route(site.termLink(term), "taxonomy", None)];
          kept := kept + [term];
        }
      }
      AllTermsSnoc(taxonomies, i, site.terms);
      assert taxonomyTerms[..|taxonomyTerms|] == taxonomyTerms;
    }
    assert taxonomies[..|taxonomies|] == taxonomies;
  }

  // ---------------------------------------------------------------------
  // The count array
  // ---------------------------------------------------------------------

  /** The keys of `count` the code itself writes besides the post types. */
  const CountKeys: set<string> := {"total", "pagination", "archive", "taxonomy"}

  /** `$count[$key] += $amount`, the key created at 0 first when it is not set. */
  function Increment(count: map<string, int>, key: string, amount: int): map<string, int> {
    count[key := Get(count, key) + amount]
  }

  /** The post types that occur among the posts. */
  function TypesOf(posts: seq<Post>): set<string> {
    set p | p in posts :: p.postType
  }

  /** How many posts have the given type. */
  function Occurrences(posts: seq<Post>, postType: string): nat {
    if posts == [] then 0
    else Occurrences(posts[..|posts| - 1], postType) + (if posts[|posts| - 1].postType == postType then 1 else 0)
  }

  /**
   * The `count` array after the loop over the posts: each post adds one to the
   * entry of its type and then one to `total`.
   */
  function Tally(count: map<string, int>, posts: seq<Post>): (tally: map<string, int>)
    requires "total" in count
    ensures tally.Keys == count.Keys + TypesOf(posts)
  {
    if posts == [] then count
    else
      var last := posts[|posts| - 1];
      assert posts == posts[..|posts| - 1] + [last];
      assert TypesOf(posts) == TypesOf(posts[..|posts| - 1]) + {last.postType};
      Increment(Increment(Tally(count, posts[..|posts| - 1]), last.postType, 1), "total", 1)
  }

  /** A post type's entry grows by the number of posts of that type. */
  lemma {:induction false} TallyTypeCount(count: map<string, int>, posts: seq<Post>, postType: string)
    requires "total" in count && postType != "total"
    ensures Get(Tally(count, posts), postType) == Get(count, postType) + Occurrences(posts, postType)
  {
    if posts != [] {
      TallyTypeCount(count, posts[..|posts| - 1], postType);
    }
  }

  /**
   * `total` grows by one per post, and by one more per post whose type is
   * itself called `total`: such a post is counted twice.
   */
  lemma {:induction false} TallyTotal(count: map<string, int>, posts: seq<Post>)
    requires "total" in count
    ensures Get(Tally(count, posts), "total") == count["total"] + |posts| + Occurrences(posts, "total")
  {
    if posts != [] {
      TallyTotal(count, posts[..|posts| - 1]);
    }
  }

  /** `$count[$name] = count($links); $count['total'] += $count[$name]` when the section is not empty. */
  function AddSection(count: map<string, int>, name: string, links: seq<Route>): map<string, int> {
    if links == [] then count
    else
      var c := count[name := |links|];
      c["total" := Get(c, "total") + |links|]
  }

  /** The `count` array of the response. */
  function Counts(posts: seq<Post>, pagination: seq<Route>, archive: seq<Route>, taxonomy: seq<Route>): map<string, int> {
    var tally := Tally(map["total" := 0], posts);
    AddSection(AddSection(AddSection(tally, "pagination", pagination), "archive", archive), "taxonomy", taxonomy)
  }

  /** `total` is present and equals the sum of every other entry. */
  ghost predicate Balanced(count: map<string, int>) {
    "total" in count && MapSum(count - {"total"}) == count["total"]
  }

  /** No post has the type `total`, the one key a post type can be counted twice under. */
  predicate NoTotalType(posts: seq<Post>) {
    forall p :: p in posts ==> p.postType != "total"
  }

  /** No post has a type that clashes with a key the code writes itself. */
  predicate NoReservedTypes(posts: seq<Post>) {
    forall p :: p in posts ==> p.postType !in CountKeys
  }

  lemma {:induction false} TallyBalanced(count: map<string, int>, posts: seq<Post>)
    requires Balanced(count)
    requires NoTotalType(posts)
    ensures Balanced(Tally(count, posts))
  {
    if posts != [] {
      var prefix := posts[..|posts| - 1];
      var t := posts[|posts| - 1].postType;
      TallyBalanced(count, prefix);
      IncrementBalanced(Tally(count, prefix), t);
    }
  }

  /** One post of a type other than `total` keeps `total` equal to the sum of the rest. */
  lemma IncrementBalanced(count: map<string, int>, postType: string)
    requires Balanced(count) && postType != "total"
    ensures Balanced(Increment(Increment(count, postType, 1), "total", 1))
  {
    var rest := count - {"total"};
    var bumped := Increment(count, postType, 1);
    var after := Increment(bumped, "total", 1);
    assert Get(rest, postType) == Get(count, postType);
    assert bumped - {"total"} == rest[postType := Get(rest, postType) + 1];
    assert after - {"total"} == bumped - {"total"};
    MapSumUpdate(rest, postType, Get(rest, postType) + 1);
    assert after["total"] == count["total"] + 1;
  }

  /** A new, non-empty section adds one entry, its size, and adds that size to `total`. */
  lemma AddSectionFacts(count: map<string, int>, name: string, links: seq<Route>)
    requires Balanced(count)
    requires name != "total" && name !in count
    ensures var after := AddSection(count, name, links);
            && Balanced(after)
            && after["total"] == count["total"] + |links|
            && (name in after <==> links != [])
            && Get(after, name) == |links|
            && forall k :: k != name && k != "total" ==> (k in after <==> k in count) && Get(after, k) == Get(count, k)
  {
    if links != [] {
      var after := AddSection(count, name, links);
      assert after - {"total"} == (count - {"total"})[name := |links|];
      MapSumUpdate(count - {"total"}, name, |links|);
    }
  }

  /** The `count` array right after the post loop. */
  lemma TallyFacts(posts: seq<Post>)
    requires NoReservedTypes(posts)
    ensures var tally := Tally(map["total" := 0], posts);
            && Balanced(tally)
            && tally["total"] == |posts|
            && tally.Keys == {"total"} + TypesOf(posts)
            && "pagination" !in tally && "archive" !in tally && "taxonomy" !in tally
            && forall t :: t !in CountKeys ==> Get(tally, t) == Occurrences(posts, t)
  {
    var init := map["total" := 0];
    assert init - {"total"} == map[];
    assert init.Keys == {"total"};
    assert "pagination" !in TypesOf(posts) && "archive" !in TypesOf(posts) && "taxonomy" !in TypesOf(posts);
    TallyBalanced(init, posts);
    TallyTotal(init, posts);
    OccurrencesAbsent(posts, "total");
    forall t | t !in CountKeys
      ensures Get(Tally(init, posts), t) == Occurrences(posts, t)
    {
      TallyTypeCount(init, posts, t);
    }
  }

  /**
   * With no post of type `total`, `total` is the number of posts plus the sizes
   * of the three sections (a post type named like a section does not matter).
   */
  lemma {:induction false} CountsTotal(posts: seq<Post>, pagination: seq<Route>, archive: seq<Route>, taxonomy: seq<Route>)
    requires NoTotalType(posts)
    ensures var count := Counts(posts, pagination, archive, taxonomy);
            && "total" in count
            && count["total"] == |posts| + |pagination| + |archive| + |taxonomy|
  {
    var init := map["total" := 0];
    var tally := Tally(init, posts);
    TallyTotal(init, posts);
    assert "total" !in TypesOf(posts);
    OccurrencesAbsent(posts, "total");
    assert tally["total"] == |posts|;
    var c1 := AddSection(tally, "pagination", pagination);
    assert c1["total"] == |posts| + |pagination|;
    var c2 := AddSection(c1, "archive", archive);
    assert c2["total"] == |posts| + |pagination| + |archive|;
  }

  /**
   * With no post type clashing with the keys the code writes itself, `total`
   * is the sum of all other entries of the `count` array.
   */
  lemma CountsBalanced(posts: seq<Post>, pagination: seq<Route>, archive: seq<Route>, taxonomy: seq<Route>)
    requires NoReservedTypes(posts)
    ensures Balanced(Counts(posts, pagination, archive, taxonomy))
  {
    var tally := Tally(map["total" := 0], posts);
    TallyFacts(posts);
    var c1 := AddSection(tally, "pagination", pagination);
    AddSectionFacts(tally, "pagination", pagination);
    var c2 := AddSection(c1, "archive", archive);
    AddSectionFacts(c1, "archive", archive);
    AddSectionFacts(c2, "taxonomy", taxonomy);
  }

  /**
   * Each post type other than the keys the code writes itself has an entry
   * exactly when some post has it, and the entry is its number of posts.
   */
  lemma {:induction false} CountsPerType(posts: seq<Post>, pagination: seq<Route>, archive: seq<Route>, taxonomy: seq<Route>)
    ensures var count := Counts(posts, pagination, archive, taxonomy);
            forall t :: t !in CountKeys ==>
              && (t in count <==> t in TypesOf(posts))
              && Get(count, t) == Occurrences(posts, t)
  {
    var init := map["total" := 0];
    forall t | t !in CountKeys
      ensures Get(Tally(init, posts), t) == Occurrences(posts, t)
    {
      TallyTypeCount(init, posts, t);
    }
  }

  /**
   * With no post type clashing with the keys the code writes itself, a section
   * has an entry exactly when it is not empty, and the entry is its size.
   */
  lemma {:induction false} CountsPerSection(posts: seq<Post>, pagination: seq<Route>, archive: seq<Route>, taxonomy: seq<Route>)
    requires NoReservedTypes(posts)
    ensures var count := Counts(posts, pagination, archive, taxonomy);
            && ("pagination" in count <==> pagination != []) && Get(count, "pagination") == |pagination|
            && ("archive" in count <==> archive != []) && Get(count, "archive") == |archive|
            && ("taxonomy" in count <==> taxonomy != []) && Get(count, "taxonomy") == |taxonomy|
  {
    var tally := Tally(map["total" := 0], posts);
    TallyFacts(posts);
    var c1 := AddSection(tally, "pagination", pagination);
    AddSectionFacts(tally, "pagination", pagination);
    var c2 := AddSection(c1, "archive", archive);
    AddSectionFacts(c1, "archive", archive);
    AddSectionFacts(c2, "taxonomy", taxonomy);
  }

  /** A type that no post has does not occur. */
  lemma {:induction false} OccurrencesAbsent(posts: seq<Post>, postType: string)
    requires postType !in TypesOf(posts)
    ensures Occurrences(posts, postType) == 0
  {
    if posts != [] {
      var prefix := posts[..|posts| - 1];
      assert posts == prefix + [posts[|posts| - 1]];
      assert TypesOf(prefix) <= TypesOf(posts);
      OccurrencesAbsent(prefix, postType);
    }
  }

  /** One turn of the post loop adds one route and one post to the tally. */
  lemma PostLoopStep(count: map<string, int>, posts: seq<Post>, i: nat, postLink: Post -> string)
    requires "total" in count && i < |posts|
    ensures PostRoutes(posts[..i + 1], postLink) == PostRoutes(posts[..i], postLink) + [PostRoute(posts[i], postLink)]
    ensures Tally(count, posts[..i + 1]) == Increment(Increment(Tally(count, posts[..i]), posts[i].postType, 1), "total", 1)
  {
    assert posts[..i + 1][..i] == posts[..i];
  }

  // ---------------------------------------------------------------------
  // The endpoint
  // ---------------------------------------------------------------------

  /** The routes of a section that may be false: none. */
  function Listed(links: Option<seq<Route>>): seq<Route> {
    if links.Some? then links.value else []
  }

  /** The body of the post loop's counting: the post's type entry, then `total`. */
  method CountPost(count: map<string, int>, postType: string) returns (counted: map<string, int>)
    requires "total" in count
    ensures counted == Increment(Increment(count, postType, 1), "total", 1)
    ensures postType != "total" ==>
              && counted[postType] == Get(count, postType) + 1
              && counted["total"] == count["total"] + 1
  {
    counted := count;
    if postType !in counted {
      counted := counted[postType := 0];
    }
    counted := counted[postType := counted[postType] + 1];
    counted := counted["total" := counted["total"] + 1];
  }

  /**
   * The `foreach ( $posts as $post )` loop: one route per post, in query order,
   * and the post's type entry and `total` counted up.
   */
  method ListPosts(count: map<string, int>, routes: seq<Route>, posts: seq<Post>, postLink: Post -> string)
    returns (counted: map<string, int>, listed: seq<Route>)
    requires "total" in count
    ensures listed == routes + PostRoutes(posts, postLink)
    ensures counted == Tally(count, posts)
  {
    counted, listed := count, routes;
    for i := 0 to |posts|
      invariant listed == routes + PostRoutes(posts[..i], postLink)
      invariant counted == Tally(count, posts[..i])
      invariant "total" in counted
    {
      var post := posts[i];
      PostLoopStep(count, posts, i, postLink);
      listed := listed + [Route(postLink(post), post.postType, Some(Entry(post.id, post.date, post.modified)))];
      counted := CountPost(counted, post.postType);
    }
    assert posts[..|posts|] == posts;
  }

  /**
   * One of the three `if ( $section = ... )` blocks: a non-empty section gets
   * its count entry, adds its size to `total` and appends its routes; an empty
   * one changes nothing.
   */
  method AddSectionTo(count: map<string, int>, routes: seq<Route>, name: string, links: seq<Route>)
    returns (counted: map<string, int>, listed: seq<Route>)
    requires "total" in count && name != "total"
    ensures counted == AddSection(count, name, links)
    ensures listed == routes + links
    ensures links != [] ==> counted[name] == |links| && counted["total"] == count["total"] + |links|
  {
    counted, listed := count, routes;
    if links != [] {
      counted := counted[name := |links|];
      counted := counted["total" := counted["total"] + counted[name]];
      listed := listed + links;
    }
  }

  /**
   * `available_routes`: the homepage (not counted), the posts in query order,
   * the pagination, the monthly archives and the taxonomy terms, with the
   * `count` array built alongside.
   */
  method AvailableRoutes(site: Site) returns (response: Response)
    requires site.postsPerPage > 0
    ensures var posts := site.query(ListedPostTypes(site.publicPostTypes));
            var pagination := Listed(Pagination(site, "post"));
            var archive := ArchiveLinks(site.archiveRows("post"), site.monthLink);
            && response.routes == Homepage(site) + PostRoutes(posts, site.postLink) + pagination + archive + TaxonomyLinks(site)
            && response.count == Counts(posts, pagination, archive, TaxonomyLinks(site))
    ensures NoTotalType(site.query(ListedPostTypes(site.publicPostTypes))) ==>
              && "total" in response.count
              && response.count["total"] + |Homepage(site)| == |response.routes|
  {
    var postTypes := GetPostTypes(site.publicPostTypes);
    assert postTypes == ListedPostTypes(site.publicPostTypes);
    var count := map["total" := 0];
    var routes: seq<Route> := [];
    var posts := site.query(postTypes);

    if site.showOnFront == "posts" {
      routes := routes + [Route(site.homeUrl, "homepage", None)];
    }
    ghost var home := routes;

    count, routes := ListPosts(count, routes, posts, site.postLink);
    ghost var tally := count;
    ghost var listed := routes;

    var pagination := GetPostsPagination(site, "post");
    var paginationLinks := Listed(pagination);
    count, routes := AddSectionTo(count, routes, "pagination", paginationLinks);
    assert count == AddSection(tally, "pagination", paginationLinks);
    ghost var withPagination := count;

    var archive := GetPosttypeArchives(site, "post");
    assert archive == ArchiveLinks(site.archiveRows("post"), site.monthLink);
    count, routes := AddSectionTo(count, routes, "archive", archive);
    assert count == AddSection(withPagination, "archive", archive);
    ghost var withArchive := count;

    var taxonomies := GetTaxonomyTerms(site);
    count, routes := AddSectionTo(count, routes, "taxonomy", taxonomies);
    assert count == AddSection(withArchive, "taxonomy", taxonomies);
    assert routes == listed + paginationLinks + archive + taxonomies;
    assert home == Homepage(site);
    assert count == Counts(posts, paginationLinks, archive, taxonomies);

    response := Response(count, routes);
    if NoTotalType(posts) {
      CountsTotal(posts, paginationLinks, archive, taxonomies);
    }
  }
}
