/**
 * `Meta.title`: the page title for a URL fragment. The fragment is
 * classified as a translated page, a category, a topic or a user page; the
 * title found is put in front of the site title.
 *
 * The translator and the category, topic and user lookups are parameters.
 */
module MetaTitle {
  import opened Lists
  import opened Decimal

  /** The lookups the title code calls; a missing name or title is `None`. */
  datatype TitleEnv = TitleEnv(
    translate: string -> string,
    categoryName: string -> Option<string>,
    topicTitle: string -> Option<string>,
    usernameBySlug: string -> Option<string>)

  const TranslatedPages: seq<string> := ["", "recent", "unread", "users", "notifications"]
  const CategoryPrefix: string := "category/"
  const TopicPrefix: string := "topic/"
  const UserPrefix: string := "user/"
  const DefaultSiteTitle: string := "NodeBB"

  /** A value as string concatenation renders it; a missing one reads `null`. */
  function Text(v: Option<string>): string {
    if v.Some? then v.value else "null"
  }

  /** `/^category\/\d+\/?/` and `/^topic\/\d+\/?/`: the prefix, then a digit. */
  predicate IsIdPage(prefix: string, fragment: string) {
    prefix <= fragment && DigitPrefix(fragment[|prefix|..]) != []
  }

  /** The id `/category\/(\d+)/` (or the topic pattern) captures: the whole run of digits after the prefix. */
  function PageId(prefix: string, fragment: string): (id: string)
    requires IsIdPage(prefix, fragment)
    ensures id != [] && AllDigits(id) && prefix + id <= fragment
    ensures |prefix| + |id| == |fragment| || !IsDigit(fragment[|prefix| + |id|])
  {
    DigitPrefix(fragment[|prefix|..])
  }

  /** `/^user\/[^\/]+/`: the prefix, then a character other than `/`. */
  predicate IsUserPage(fragment: string) {
    UserPrefix <= fragment && |fragment| > |UserPrefix| && fragment[|UserPrefix|] != '/'
  }

  /** `[^\/]+` taken greedily. */
  function NonSlashPrefix(s: string): (r: string)
    ensures r <= s && '/' !in r
    ensures |r| < |s| ==> s[|r|] == '/'
  {
    if s == [] || s[0] == '/' then [] else [s[0]] + NonSlashPrefix(s[1..])
  }

  /** `[\w]+` taken greedily (possibly empty here). */
  function WordPrefix(s: string): (r: string)
    ensures r <= s && forall i :: 0 <= i < |r| ==> IsWordChar(r[i])
    ensures |r| < |s| ==> !IsWordChar(s[|r|])
  {
    if s == [] || !IsWordChar(s[0]) then [] else [s[0]] + WordPrefix(s[1..])
  }

  /** The slug `/user\/([^\/]+)\/?([\w]+)?/` captures first. */
  function UserSlug(fragment: string): (slug: string)
    requires IsUserPage(fragment)
    ensures slug != [] && '/' !in slug && UserPrefix + slug <= fragment
  {
    NonSlashPrefix(fragment[|UserPrefix|..])
  }

  /** The subpage it captures second: word characters after the slug and an optional `/`. */
  function UserSubpage(fragment: string): (sub: Option<string>)
    requires IsUserPage(fragment)
    ensures sub.Some? ==> sub.value != []
  {
    var rest := fragment[|UserPrefix| + |UserSlug(fragment)|..];
    var afterSlash := if rest != [] && rest[0] == '/' then rest[1..] else rest;
    var word := WordPrefix(afterSlash);
    if word == [] then None else Some(word)
  }

  /** `title.parseFragment`: the title for a fragment, `None` when it has none. */
  function ParseFragment(fragment: string, env: TitleEnv): (title: Option<string>)
    ensures fragment in TranslatedPages ==> title.Some?
    ensures title.Some? ==>
      fragment in TranslatedPages || IsIdPage(CategoryPrefix, fragment) ||
      IsIdPage(TopicPrefix, fragment) || IsUserPage(fragment)
  {
    if fragment in TranslatedPages then
      var page := if fragment == "" then "home" else fragment;
      Some(env.translate("[[pages:" + page + "]]"))
    else if IsIdPage(CategoryPrefix, fragment) then
      env.categoryName(PageId(CategoryPrefix, fragment))
    else if IsIdPage(TopicPrefix, fragment) then
      env.topicTitle(PageId(TopicPrefix, fragment))
    else if IsUserPage(fragment) then
      var username := env.usernameBySlug(UserSlug(fragment));
      match UserSubpage(fragment)
      case Some(subpage) => Some(env.translate("[[pages:user." + subpage + ", " + Text(username) + "]]"))
      case None => username
    else None
  }

  /** `browserTitle || 'NodeBB'`. */
  function SiteTitle(browserTitle: Option<string>): (site: string)
    ensures site != []
  {
    if browserTitle.Some? && browserTitle.value != "" then browserTitle.value else DefaultSiteTitle
  }

  /** `title.build` of an already decoded fragment. */
  function Build(fragment: string, browserTitle: Option<string>, env: TitleEnv): string {
    var title := ParseFragment(fragment, env);
    (if title.Some? && title.value != "" then title.value + " | " else "") + SiteTitle(browserTitle)
  }

  /**
   * The built title is the page title, ` | ` and the site title when the
   * page has a non-empty title, and the site title alone otherwise.
   */
  lemma BuildShape(fragment: string, browserTitle: Option<string>, env: TitleEnv)
    ensures var t := ParseFragment(fragment, env);
      var site := SiteTitle(browserTitle);
      var r := Build(fragment, browserTitle, env);
      && (t.Some? && t.value != "" ==> r == t.value + " | " + site && |r| > |site| + 3)
      && (t.None? || t.value == "" ==> r == site)
  {
  }

  /** The site title ends every built title; without a browser title it is NodeBB. */
  lemma BuildEndsWithSiteTitle(fragment: string, browserTitle: Option<string>, env: TitleEnv)
    ensures var r := Build(fragment, browserTitle, env);
      var site := SiteTitle(browserTitle);
      |r| >= |site| && r[|r| - |site|..] == site
    ensures browserTitle.None? ==> SiteTitle(browserTitle) == "NodeBB"
  {
    var r := Build(fragment, browserTitle, env);
    var site := SiteTitle(browserTitle);
    var t := ParseFragment(fragment, env);
    var head := if t.Some? && t.value != "" then t.value + " | " else "";
    assert r == head + site;
    assert r[|head|..] == site;
  }

  /** The empty fragment is the home page, the other listed pages translate their own key. */
  lemma TranslatedPageTitles(env: TitleEnv)
    ensures ParseFragment("", env) == Some(env.translate("[[pages:home]]"))
    ensures ParseFragment("recent", env) == Some(env.translate("[[pages:recent]]"))
    ensures ParseFragment("notifications", env) == Some(env.translate("[[pages:notifications]]"))
  {
    assert TranslatedPages[0] == "" && TranslatedPages[1] == "recent" && TranslatedPages[4] == "notifications";
    assert "[[pages:" + "home" + "]]" == "[[pages:home]]";
    assert "[[pages:" + "recent" + "]]" == "[[pages:recent]]";
    assert "[[pages:" + "notifications" + "]]" == "[[pages:notifications]]";
  }

  lemma IdPageOf(prefix: string, digits: string, rest: string)
    requires digits != [] && AllDigits(digits) && (rest == [] || !IsDigit(rest[0]))
    ensures IsIdPage(prefix, prefix + digits + rest)
    ensures PageId(prefix, prefix + digits + rest) == digits
  {
    var f := prefix + digits + rest;
    assert f[|prefix|..] == digits + rest;
    DigitPrefixOfRun(digits, rest);
  }

  /** `category/<digits>…` looks up the category named by exactly those digits. */
  lemma CategoryTitle(digits: string, rest: string, env: TitleEnv)
    requires digits != [] && AllDigits(digits) && (rest == [] || !IsDigit(rest[0]))
    ensures ParseFragment(CategoryPrefix + digits + rest, env) == env.categoryName(digits)
  {
    var f := CategoryPrefix + digits + rest;
    IdPageOf(CategoryPrefix, digits, rest);
    assert f[0] == 'c' && |f| > 9;
    assert f !in TranslatedPages;
  }

  /** `topic/<digits>…` looks up the topic with exactly those digits. */
  lemma TopicTitle(digits: string, rest: string, env: TitleEnv)
    requires digits != [] && AllDigits(digits) && (rest == [] || !IsDigit(rest[0]))
    ensures ParseFragment(TopicPrefix + digits + rest, env) == env.topicTitle(digits)
  {
    var f := TopicPrefix + digits + rest;
    IdPageOf(TopicPrefix, digits, rest);
    assert f[0] == 't' && |f| > 6;
    assert f !in TranslatedPages;
    assert !(CategoryPrefix <= f) by { assert f[0] != CategoryPrefix[0]; }
  }

  lemma NotIdOrListed(f: string)
    requires UserPrefix <= f && |f| > |UserPrefix|
    ensures f !in TranslatedPages
    ensures !IsIdPage(CategoryPrefix, f) && !IsIdPage(TopicPrefix, f)
  {
    assert f[0] == 'u' && f[1] == 's' && f[4] == '/';
    assert !(CategoryPrefix <= f) by { assert f[0] != CategoryPrefix[0]; }
    assert !(TopicPrefix <= f) by { assert f[0] != TopicPrefix[0]; }
    assert f != "" && f != "recent" && f != "notifications" by { assert f[0] != "recent"[0] && f[0] != "notifications"[0]; }
    assert f != "unread" by { assert f[1] != "unread"[1]; }
    assert f != "users" by { assert |f| > 5; }
  }

  /** `user/<slug>` is titled with the user's name. */
  lemma UserTitle(slug: string, env: TitleEnv)
    requires slug != [] && '/' !in slug
    ensures ParseFragment(UserPrefix + slug, env) == env.usernameBySlug(slug)
  {
    var f := UserPrefix + slug;
    NotIdOrListed(f);
    assert f[|UserPrefix|..] == slug;
    assert NonSlashPrefix(slug) == slug;
    assert f[|UserPrefix| + |slug|..] == [];
  }

  /** The slug captured from `user/<slug>` followed by nothing or by `/…`, and what follows it. */
  lemma UserSlugCapture(slug: string, tail: string)
    requires slug != [] && '/' !in slug
    requires tail == [] || tail[0] == '/'
    ensures var f := UserPrefix + (slug + tail);
      IsUserPage(f) && UserSlug(f) == slug && f[|UserPrefix| + |slug|..] == tail
  {
    var f := UserPrefix + (slug + tail);
    assert f[|UserPrefix|..] == slug + tail;
    assert f[|UserPrefix|] == slug[0];
    NonSlashRun(slug, tail);
  }

  /** The slug and subpage captured from `user/<slug>/<subpage>…`. */
  lemma UserCaptures(slug: string, subpage: string, rest: string)
    requires slug != [] && '/' !in slug
    requires subpage != [] && forall i :: 0 <= i < |subpage| ==> IsWordChar(subpage[i])
    requires rest == [] || !IsWordChar(rest[0])
    ensures var f := UserPrefix + slug + "/" + subpage + rest;
      IsUserPage(f) && UserSlug(f) == slug && UserSubpage(f) == Some(subpage)
  {
    var tail := "/" + subpage + rest;
    AppendAssociates(UserPrefix + slug, "/", subpage);
    AppendAssociates(UserPrefix + slug, "/" + subpage, rest);
    AppendAssociates(UserPrefix, slug, tail);
    var f := UserPrefix + (slug + tail);
    UserSlugCapture(slug, tail);
    AppendAssociates("/", subpage, rest);
    assert tail[1..] == subpage + rest;
    WordRun(subpage, rest);
  }

  /** `user/<slug>/<subpage>` is titled with the translated subpage key and the user's name. */
  lemma UserSubpageTitle(slug: string, subpage: string, rest: string, env: TitleEnv)
    requires slug != [] && '/' !in slug
    requires subpage != [] && forall i :: 0 <= i < |subpage| ==> IsWordChar(subpage[i])
    requires rest == [] || !IsWordChar(rest[0])
    ensures ParseFragment(UserPrefix + slug + "/" + subpage + rest, env) ==
      Some(env.translate("[[pages:user." + subpage + ", " + Text(env.usernameBySlug(slug)) + "]]"))
  {
    var f := UserPrefix + slug + "/" + subpage + rest;
    NotIdOrListed(f);
    UserCaptures(slug, subpage, rest);
  }

  lemma {:induction false} NonSlashRun(run: string, rest: string)
    requires '/' !in run && (rest == [] || rest[0] == '/')
    ensures NonSlashPrefix(run + rest) == run
  {
    if run != [] {
      assert (run + rest)[1..] == run[1..] + rest;
      NonSlashRun(run[1..], rest);
    } else {
      assert run + rest == rest;
    }
  }

  lemma {:induction false} WordRun(run: string, rest: string)
    requires forall i :: 0 <= i < |run| ==> IsWordChar(run[i])
    requires rest == [] || !IsWordChar(rest[0])
    ensures WordPrefix(run + rest) == run
  {
    if run != [] {
      assert (run + rest)[1..] == run[1..] + rest;
      WordRun(run[1..], rest);
    } else {
      assert run + rest == rest;
    }
  }
}
