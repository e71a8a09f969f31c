# NodeBB core pieces, modelled in Dafny

This project models four parts of the NodeBB forum server and proves
properties of the model:

- **Admin privileges** (`src/privileges/admin.js`): the privilege lists, the
  table that maps an admin page route to the privilege it needs (exact routes
  first, then the regular-expression routes in their key order), the socket
  method table, `get` (the privilege object of a user, with the
  administrator override and `superadmin`), `can`, `list` and `give` /
  `rescind`.
- **Category filter** (`src/socket.io/categories/filter.js`):
  - `loadCids` walks the category tree from the root page of found categories;
  - `findMatchedCids` collects the search hits, their ancestors and their children;
  - `loadCategoryFilter` builds the dropdown entries, cuts them to the page
    window and marks `selected` and `match`.
- **PostgreSQL transaction wrapper** (`src/database/postgres/transaction.js`):
  - inside a transaction, it takes a savepoint;
  - on a fresh connection, it runs BEGIN / COMMIT;
  - on a failure, it rolls back and rethrows.

  The model logs the statements issued. A small server semantics replays
  that log. It shows that a top-level transaction is all or nothing: it
  commits the work's statements exactly when the call returns and the
  server accepted every one of them. It also shows that a nested call
  keeps the outer work.
- **Meta** (`src/meta.js`):
  - the `config` hash: `init`, `list`, `get`, `getFields`, `set`, `setOnEmpty`, `remove`;
  - `settings:<hash>` objects;
  - the sound mapping with its defaults;
  - page titles built from URL fragments;
  - the concatenation of client scripts.

Files and modules:

| file | module | contents |
|---|---|---|
| `lists.dfy` | `Lists` | `Option`, `NoDup`, and the lodash / `Array` helpers the code uses (`filter`, `slice(0, end)`, `_.flatten`, `_.uniq`) |
| `decimal.dfy` | `Decimal` | the regex classes `\d` and `\w`, `String(n)` for integers, and `parseInt(s, 10)` |
| `admin_privileges.dfy` | `AdminPrivileges` | the admin privilege module |
| `category_forest.dfy` | `CategoryForest` | child sets and category records, acyclicity by ranks, reachability |
| `category_filter.dfy` | `CategoryFilter` | the category filter socket handler |
| `pg_transaction.dfy` | `PgTransaction` | the transaction wrapper, a `Client` class, and a replay semantics |
| `meta_store.dfy` | `MetaStore` | the key-value store, the `MetaState` class holding `db`, `Meta.config` and `Meta.js.cache` |
| `meta_title.dfy` | `MetaTitle` | `Meta.title` |
| `meta_js.dfy` | `MetaJs` | the fold of `Meta.js.concatenate` |

Inputs the model cannot see are parameters:
- the database contents (a `Store` of child sets and category records, or a `Db` map);
- the privilege evaluator (`granted`, `canFind`);
- the search, the visibility builder, the translator and the lookups;
- plugin filter hooks (functions from value to value);
- the failure of those database calls whose error path the model follows (an `Option` error): `configs.list`, the config and settings writes, the reads of the set-on-empty operations, the sound mapping read, the connection and every statement of the transaction wrapper. The reads listed under "## Left out" are modelled without a failure path.

Several parts of the code change state step by step, and those are imperative here:
- the admin event log is a class with its own methods;
- the transaction's client is a class whose statement log grows;
- `Meta` is a class whose `db`, `config` and `jsCache` fields the operations reassign;
- the marking loop of `loadCategoryFilter` works in place on an array;
- `resolve`, `getCidsRecursive`, `addParentsToRoot` and `findMatchedCids` are loops.

Each of these methods is proved against a specification function, and the
properties are lemmas about those functions.

Acyclicity of the category tree is an explicit hypothesis, because the
code's recursion only ends on an acyclic tree. It is stated with ghost rank
functions: a child ranks below its parent, and a parent's level is below
its child's.

Two behaviours of the category filter are easy to misread, and the model keeps them as the code has them:
- `loadCids` recurses into **all** found children of a category, not only
  into the `subCategoriesPerPage` it pushed (`filter.js:84-85`);
- the page window is `slice(0, 0 + 200 - 1)`, so at most **199** entries are
  returned (`filter.js:31-34`).

The server side of the transaction wrapper follows PostgreSQL's transaction
blocks: a statement the server rejects inside a transaction aborts it; an
aborted transaction refuses everything except ROLLBACK, ROLLBACK TO
SAVEPOINT (which clears the abort) and COMMIT (which rolls back).

## Model

| member | source | states |
|---|---|---|
| `Lists.Filter` | src/socket.io/categories/filter.js:83 | the kept elements are exactly the elements of the input that pass the predicate; no duplicates are introduced |
| `Lists.SliceTo` | src/socket.io/categories/filter.js:84 | `slice(0, end)` is a prefix: an undefined end keeps all, a negative end counts back from the length, a large end is clamped |
| `Lists.Flatten` | src/socket.io/categories/filter.js:66-67 | an element is in the flattened list exactly when it is in one of the inner lists |
| `Lists.Uniq` | src/socket.io/categories/filter.js:66-70 | `_.uniq` keeps exactly the distinct elements of its input, each once |
| `Lists.UniqOfNoDup` | src/socket.io/categories/filter.js:66-70 | `_.uniq` of a list without duplicates is that list |
| `Decimal.ParseInt` | src/socket.io/categories/filter.js:36 | `parseInt(s, 10)` yields a number exactly when, after leading white space and an optional sign, at least one digit follows |
| `Decimal.ParseIntRoundTrip` | src/socket.io/categories/filter.js:36 | `parseInt(String(n), 10) == n` for every integer `n` |
| `Decimal.DigitsValueOfDecimal` | src/socket.io/categories/filter.js:36 | the decimal text of a natural number reads back as that number |
| `AdminPrivileges.PrefixAll` | src/privileges/admin.js:27 | the group list is the user list with `groups:` before every entry, in order |
| `AdminPrivileges.GroupPrivilegesInLockStep` | src/privileges/admin.js:15-27 | the labels, user privileges and group privileges have the same length, each group privilege is `groups:` plus the user privilege at the same index, and no group privilege is a user privilege |
| `AdminPrivileges.SocketMapPrivilegesListed` | src/privileges/admin.js:46-63 | every privilege a socket method demands is one of the listed user privileges |
| `AdminPrivileges.FirstMatchIsFirst` | src/privileges/admin.js:72-79 | the regexp scan answers nothing exactly when no pattern matches, and otherwise answers the privilege of the first matching pattern |
| `AdminPrivileges.Resolution` | src/privileges/admin.js:65-82 | the value `resolve` returns; its properties are stated by `Resolve`, which computes it, and by `FirstMatchIsFirst` and `ResolvedPrivilegeIsListed` |
| `AdminPrivileges.Resolve` | src/privileges/admin.js:65-82 | an exact route wins; `''` gives `manage:dashboard`; otherwise the result is the privilege of the first matching pattern, or undefined exactly when none matches |
| `AdminPrivileges.ResolveExamples` | src/privileges/admin.js:30-42 | `dashboard`, `''`, `manage/categories/42` and `settings/general` resolve to the privileges the tables give them |
| `AdminPrivileges.ResolveMisses` | src/privileges/admin.js:37-42 | a settings path with a second `/` and an unknown path resolve to undefined |
| `AdminPrivileges.ResolvedPrivilegeIsListed` | src/privileges/admin.js:30-82 | any privilege a non-empty route resolves to is a listed user privilege; the empty route's `manage:dashboard` is not |
| `AdminPrivileges.ZipObject` | src/privileges/admin.js:108 | `_.zipObject` has exactly the given keys, and with distinct keys maps each key to the value at its index |
| `AdminPrivileges.AllowedPerPrivilege` | src/privileges/admin.js:103 | one answer per privilege, in order: the evaluator's answer for that privilege at the given cid (`get` asks about cid 0) |
| `AdminPrivileges.AllowedPerCid` | src/privileges/admin.js:115 | one answer per cid, in order: the evaluator's answer for the privilege at that cid |
| `AdminPrivileges.Get` | src/privileges/admin.js:101-112 | the `filter:privileges.admin.get` hook applied to the object whose shape `PrivDataShape` and `AdministratorAndNobody` state |
| `AdminPrivileges.Can` | src/privileges/admin.js:114-117 | `can` is the evaluator's answer for the privilege at cid 0, with no administrator override |
| `AdminPrivileges.PrivDataShape` | src/privileges/admin.js:101-112 | before the hook, the object has exactly the listed privileges plus `superadmin`; each privilege is granted-or-administrator; `superadmin` is the administrator flag |
| `AdminPrivileges.AdministratorAndNobody` | src/privileges/admin.js:107-110 | an administrator gets every key true; a non-administrator with no grants gets every key false |
| `AdminPrivileges.GetAgreesWithCan` | src/privileges/admin.js:101-117 | for a listed privilege, `get` reports `can` or administrator |
| `AdminPrivileges.List` | src/privileges/admin.js:84-99 | `columnCount` is the number of user labels plus two |
| `AdminPrivileges.ListColumnsWithoutPlugins` | src/privileges/admin.js:15-19 | with identity hooks, the column count is the number of user privileges plus two, which is 5 |
| `AdminPrivileges.GroupNames` | src/privileges/admin.js:127 | the `groupNames` of the hook payload; `GroupNamesNormalised` states the wrapping of a single name and the pass-through of a list |
| `AdminPrivileges.GroupNamesNormalised` | src/privileges/admin.js:127 | one group name becomes a one-element list, a list is kept, and normalising twice changes nothing |
| `AdminPrivileges.AdminPrivilegeEvents.Give` | src/privileges/admin.js:123-129 | the helper joins the groups under the `admin` set; only when it succeeds is the give hook fired, with the normalised group names; its error is passed on |
| `AdminPrivileges.AdminPrivilegeEvents.Rescind` | src/privileges/admin.js:131-137 | as `Give`, with leave and the rescind hook |
| `CategoryForest.ReachLowersRank` | src/socket.io/categories/filter.js:77-88 | every descendant ranks below its ancestor, so the walk down ends |
| `CategoryForest.ReachLastStep` | src/socket.io/categories/filter.js:77-88 | a descendant hangs directly off the category itself or off one of its descendants |
| `CategoryForest.ChildNotBelowSibling` | src/socket.io/categories/filter.js:77-88 | in a forest, no child of a category lies below a sibling |
| `CategoryForest.SiblingsDisjoint` | src/socket.io/categories/filter.js:77-88 | in a forest, two distinct children have no common descendant |
| `CategoryFilter.PushedStep` | src/socket.io/categories/filter.js:80-87 | visiting one more cid appends exactly what its callback pushes |
| `CategoryFilter.GetCidsRecursive` | src/socket.io/categories/filter.js:77-88 | the result list grows by exactly what the callbacks for the given cids push, in order |
| `CategoryFilter.VisitCid` | src/socket.io/categories/filter.js:80-86 | a cid with children pushes the first `subCategoriesPerPage` of its found children, then what recursion into all found children pushes; a leaf pushes nothing |
| `CategoryFilter.LoadCids` | src/socket.io/categories/filter.js:75-96 | the result is the root page (found top-level categories cut to `categoriesPerPage`) followed by everything pushed below it |
| `CategoryFilter.VisitFound` | src/socket.io/categories/filter.js:80-86 | everything a visit pushes passed the `find` filter and lies below the visited cid |
| `CategoryFilter.PushedFound` | src/socket.io/categories/filter.js:77-88 | everything pushed passed the `find` filter and lies below one of the starting cids |
| `CategoryFilter.LoadCidsAllFound` | src/socket.io/categories/filter.js:75-96 | every id `loadCids` returns passed the `find` filter |
| `CategoryFilter.PushedAvoidsSibling` | src/socket.io/categories/filter.js:77-88 | what is pushed for some children of a category is never below another child of it |
| `CategoryFilter.PushedBelowChildren` | src/socket.io/categories/filter.js:80-86 | the recursion below a category never pushes one of that category's own children again |
| `CategoryFilter.VisitNoDup` | src/socket.io/categories/filter.js:80-86 | in a forest, one visit pushes no id twice |
| `CategoryFilter.PushedNoDup` | src/socket.io/categories/filter.js:77-88 | in a forest, visiting distinct siblings pushes no id twice |
| `CategoryFilter.LoadCidsNoDuplicates` | src/socket.io/categories/filter.js:75-96 | in a forest, `loadCids` returns no id twice |
| `CategoryFilter.VisitChildOf` | src/socket.io/categories/filter.js:84 | a child of `q` that a visit pushes is among the first `subCategoriesPerPage` found children of `q` |
| `CategoryFilter.PushedChildOf` | src/socket.io/categories/filter.js:84 | the same for a whole recursive call |
| `CategoryFilter.SubCategoriesPerPageBound` | src/socket.io/categories/filter.js:84 | for a non-root category with `subCategoriesPerPage` n, at most n of its children appear in the result |
| `CategoryFilter.PushedCovers` | src/socket.io/categories/filter.js:80 | everything the callback of one of the cids pushes is in the recursive call's output |
| `CategoryFilter.FoundPathListed` | src/socket.io/categories/filter.js:83-85 | the page of every category reached through found children is pushed |
| `CategoryFilter.LoadCidsRecursesIntoAllFound` | src/socket.io/categories/filter.js:83-94 | from the root page, the page of every category reachable through found children, truncated or not, is in the result |
| `CategoryFilter.AddParentsToRoot` | src/socket.io/categories/filter.js:52-63 | the loop returns the chain of ancestors up to the root, by following `parentCid` |
| `CategoryFilter.AncestorsToRoot` | src/socket.io/categories/filter.js:52-63 | the chain holds no 0 and no repeats, starts at the parent, links each entry to the next by `parentCid`, and ends where there is no parent or the parent is 0 |
| `CategoryFilter.MatchedCandidatesMembers` | src/socket.io/categories/filter.js:65-72 | the candidates have no duplicates and are exactly the hits, their ancestors and their children |
| `CategoryFilter.FindMatchedCids` | src/socket.io/categories/filter.js:47-73 | the method returns the candidate list: `_.uniq` of ancestors, then children, then hits |
| `CategoryFilter.PrivilegeOf` | src/socket.io/categories/filter.js:14 | the privilege is never empty: the given one when it is non-empty, else the default |
| `CategoryFilter.CoerceCid` | src/socket.io/categories/filter.js:36 | a numeric selected id survives `parseInt(String(n), 10)` unchanged |
| `CategoryFilter.Selection` | src/socket.io/categories/filter.js:35-37 | the ids are coerced one for one when the request has them, and absent otherwise |
| `CategoryFilter.Marked` | src/socket.io/categories/filter.js:38-43 | marking changes only `selected` and `match`; `selected` is always set; `match` becomes true for a hit and is never cleared |
| `CategoryFilter.MarkCategories` | src/socket.io/categories/filter.js:38-43 | each entry in place: `selected` is whether a coerced id equals its cid; `match` is set to true for a hit and kept otherwise |
| `CategoryFilter.LoadCategoryFilter` | src/socket.io/categories/filter.js:11-45 | the result is the first `min(n, 199)` built entries, each marked for selection and match |
| `CategoryFilter.SelectedExactlyWhenListed` | src/socket.io/categories/filter.js:35-39 | an entry is selected exactly when some selected id coerces to its cid |
| `CategoryFilter.NumberAndTextSelectAlike` | src/socket.io/categories/filter.js:36-39 | a number and its decimal text select the same entries |
| `CategoryFilter.NoQueryNoMatch` | src/socket.io/categories/filter.js:13-19 | without a query, no entry gets a new `match` flag |
| `CategoryFilter.SelectedAndMatchedExample` | src/socket.io/categories/filter.js:35-43 | a text id `"5"` selects cid 5, and a hit marks it as a match |
| `CategoryFilter.RequestDefaults` | src/socket.io/categories/filter.js:14-23 | a missing or empty privilege defaults to `topics:read`; missing states default to watching, notwatching and ignoring; given states are kept |
| `CategoryFilter.CandidatesNoDuplicates` | src/socket.io/categories/filter.js:15-19 | in a forest, the candidate ids handed to the visibility builder have no duplicates, with or without a query |
| `PgTransaction.Nested` | src/database/postgres/transaction.js:7-18 | starts with SAVEPOINT; a failing SAVEPOINT throws its own error with nothing else issued; a thrown work is followed by ROLLBACK TO and rethrown, unless ROLLBACK TO fails and throws its own error; a returned work is followed by RELEASE and its result returned, unless RELEASE fails and throws its own error; RELEASE is issued exactly when SAVEPOINT went through and the work returned |
| `PgTransaction.TopLevel` | src/database/postgres/transaction.js:20-35 | starts with BEGIN; it returns the work's result exactly when BEGIN, the work and COMMIT succeed, and then ends with COMMIT; otherwise it ends with ROLLBACK and throws the error of BEGIN, of the work or of COMMIT, whichever failed first, or ROLLBACK's own error when ROLLBACK fails; a failing BEGIN is followed by ROLLBACK alone |
| `PgTransaction.Client.Query` | src/database/postgres/transaction.js:9 | the statement is appended to the client's log; the server's error for it is returned |
| `PgTransaction.Client.Perform` | src/database/postgres/transaction.js:11 | the work's statements are appended to the log, and its outcome is returned |
| `PgTransaction.Transaction` | src/database/postgres/transaction.js:4-36 | with a client, it issues the nested log on that client; without one, a failed connect issues nothing and throws; otherwise a fresh client receives the top-level log; the outcome is the path's outcome |
| `PgTransaction.ReplayAppend` | src/database/postgres/transaction.js:4-36 | replaying two logs one after the other is replaying their concatenation |
| `PgTransaction.ReplayPlainWork` | src/database/postgres/transaction.js:11 | inside a transaction, the work's statements land in the innermost savepoint frame and nowhere else |
| `PgTransaction.ReplaySqlInFrame` | src/database/postgres/transaction.js:11 | inside a transaction, the work's SQL, accepted or rejected, changes only the innermost savepoint frame and commits nothing |
| `PgTransaction.NestedThrewFrames` | src/database/postgres/transaction.js:10-15 | a unit of work that threw, even one whose own SQL the server rejected, is undone back to its savepoint, which stays open, empty and usable |
| `PgTransaction.NestedKeepsOuterWork` | src/database/postgres/transaction.js:7-18 | a nested call commits nothing and keeps the outer transaction open; it aborts the outer transaction exactly when SAVEPOINT, or RELEASE after returned work, fails; otherwise the outer pending work gains exactly the work's statements when the work returned and nothing when it threw, and the call settles as the work did |
| `PgTransaction.NestedFailureDoomsOuter` | src/database/postgres/transaction.js:9-16 | after a nested call whose SAVEPOINT or RELEASE failed, the outer transaction's COMMIT rolls back all of its work |
| `PgTransaction.ReplaySqlAborts` | src/database/postgres/transaction.js:11 | inside a transaction, once the server rejects one of the work's statements, the transaction stays aborted through the rest of the work |
| `PgTransaction.TopLevelAllOrNothing` | src/database/postgres/transaction.js:20-35 | from an idle connection, a top-level call over any SQL work leaves it idle. It commits exactly the work's statements when the call returned and the server accepted all of them. It commits nothing otherwise: when the call threw, including when COMMIT itself failed, and when the call returned after the server rejected some of its SQL |
| `PgTransaction.TopLevelSwallowedRejection` | src/database/postgres/transaction.js:24-35 | work that returns after the server rejected some of its SQL still makes the call return the work's result, yet the connection ends as it began and nothing is committed |
| `MetaStore.GetObject` | src/meta.js:35 | an object is read only when its key holds a non-empty hash |
| `MetaStore.SetFields` | src/meta.js:56 | the given fields are written and every other field and key is kept |
| `MetaStore.DeleteField` | src/meta.js:85 | exactly the field is removed from the key and nothing else changes |
| `MetaStore.ListConfig` | src/meta.js:34-44 | the stored config (or an empty one) plus `status: ok` |
| `MetaStore.SettingsKey` | src/meta.js:370-388 | `settings:` followed by the hash name |
| `MetaStore.SettingsKeysApart` | src/meta.js:370-388 | distinct hash names give distinct keys, and none is the `config` key |
| `MetaStore.SetOnEmptyKeepsTruthy` | src/meta.js:71-83 | `setOnEmpty` keeps a truthy value, writes a falsy or missing one, and leaves other keys alone |
| `MetaStore.SetOnEmptyIdempotent` | src/meta.js:71-83 | a second `setOnEmpty` with the same arguments changes nothing |
| `MetaStore.GetSoundMapping` | src/meta.js:351-366 | the stored `settings:sounds` object, or the defaults on an error or when it is missing |
| `MetaStore.DefaultSoundNames` | src/meta.js:355-359 | the defaults map the three sound events to their files, and an empty store yields them |
| `MetaStore.MetaState.ConfigGet` | src/meta.js:45-47 | the field is read exactly when the config hash holds it |
| `MetaStore.MetaState.ConfigGetFields` | src/meta.js:48-50 | one answer per field, in order, each present exactly when the config hash holds that field |
| `MetaStore.MetaState.ConfigList` | src/meta.js:34-44 | an error passes through; otherwise the config with `status: ok` |
| `MetaStore.MetaState.ConfigInit` | src/meta.js:21-33 | `Meta.config` is deleted; on success it becomes the listed config, and on an error it stays deleted and the error is passed on |
| `MetaStore.MetaState.ConfigSet` | src/meta.js:51-70 | an empty field is refused without a write; otherwise the field is written, `Meta.config` follows only when there is a callback and no error, and the callback gets the error |
| `MetaStore.MetaState.ConfigSetOnEmpty` | src/meta.js:71-83 | a read error is passed on; a truthy value is kept and the callback gets no error; a falsy or missing value is set as by `set`, including `set`'s refusal of an empty field and its update of the cached config; a failed write leaves the data unchanged |
| `MetaStore.MetaState.ConfigRemove` | src/meta.js:84-86 | the field is deleted from `config` in the store, and nothing else changes |
| `MetaStore.MetaState.SettingsGet` | src/meta.js:370-373 | the object under `settings:<hash>`, absent when missing or empty |
| `MetaStore.MetaState.SettingsGetOne` | src/meta.js:375-378 | one field of `settings:<hash>`, present exactly when stored |
| `MetaStore.MetaState.SettingsSet` | src/meta.js:380-383 | the values are merged into `settings:<hash>` unless the write fails |
| `MetaStore.MetaState.SettingsSetOne` | src/meta.js:385-388 | one field is written into `settings:<hash>` unless the write fails |
| `MetaStore.MetaState.SettingsSetOnEmpty` | src/meta.js:390-402 | a read error is passed on; a truthy value is kept and the callback gets no error; otherwise the field is written and the callback gets the write's error; a missing callback crashes where the code calls it; a failed write leaves the data unchanged |
| `MetaStore.MetaState.ConcatenateScripts` | src/meta.js:307-325 | the cache becomes the concatenation of the script contents, and nothing else changes |
| `MetaJs.Concatenate` | src/meta.js:320-322 | the reduce itself; `ConcatenateEmpty`, `DropLeadingEmptyIsSuffix`, `ConcatenateIsJoin` and `ConcatenateExamples` state what it yields |
| `MetaJs.ConcatenateEmpty` | src/meta.js:320-322 | the concatenation is empty exactly when every source is empty |
| `MetaJs.DropLeadingEmptyIsSuffix` | src/meta.js:320-322 | only a run of empty sources at the front is skipped |
| `MetaJs.ConcatenateIsJoin` | src/meta.js:320-322 | the fold is the `;\n` join of the sources from the first non-empty one on: later empty sources still add a separator |
| `MetaJs.ConcatenateExamples` | src/meta.js:320-322 | `a`,`b` gives `a;\nb`; `''`,`a`,`''`,`b` gives `a;\n;\nb`; two empty sources give `''` |
| `MetaTitle.PageId` | src/meta.js:199 | the captured id is the whole non-empty run of digits right after the prefix: the next character, if any, is not a digit |
| `MetaTitle.UserSlug` | src/meta.js:211-212 | the captured slug is non-empty, has no `/`, and directly follows `user/` |
| `MetaTitle.SiteTitle` | src/meta.js:180-182 | the site title is never empty: the browser title, or NodeBB |
| `MetaTitle.ParseFragment` | src/meta.js:188-227 | a translated page always has a title, and a fragment of none of the four kinds has none; the per-kind titles are stated by `TranslatedPageTitles`, `CategoryTitle`, `TopicTitle`, `UserTitle` and `UserSubpageTitle` |
| `MetaTitle.Build` | src/meta.js:175-187 | the built title; `BuildShape` and `BuildEndsWithSiteTitle` state its form |
| `MetaTitle.BuildShape` | src/meta.js:175-187 | `title \| site` when the page has a non-empty title, else the site title alone |
| `MetaTitle.BuildEndsWithSiteTitle` | src/meta.js:180-182 | every built title ends with the site title, which is NodeBB when no browser title is set |
| `MetaTitle.TranslatedPageTitles` | src/meta.js:189-197 | `''` is the home page, and `recent` and `notifications` translate their own page key |
| `MetaTitle.CategoryTitle` | src/meta.js:198-203 | `category/<digits>…` is titled with the name of the category with exactly those digits |
| `MetaTitle.TopicTitle` | src/meta.js:204-209 | `topic/<digits>…` is titled with the title of the topic with exactly those digits |
| `MetaTitle.UserTitle` | src/meta.js:210-222 | `user/<slug>` is titled with the user's name |
| `MetaTitle.UserCaptures` | src/meta.js:211-213 | from `user/<slug>/<word>…`, the slug and the subpage are captured exactly |
| `MetaTitle.UserSubpageTitle` | src/meta.js:210-219 | `user/<slug>/<subpage>` is the translated `pages:user.<subpage>, <name>` key |

## Left out

- JavaScript object prototype keys in `routeMap` (e.g. `constructor`): the route map is a plain Dafny map, so only its own keys resolve.
- `Promise.all` concurrency in `loadCids` and `findMatchedCids`: the model visits in list order, depth first. The source's push order across concurrent callbacks depends on database timing.
- `GetCidsRecursive`: the closure variable `resultCids` is passed in and handed back as a value rather than mutated in place. The source aliases it to `pageCids`; this aliasing does not change what is visited, because `cids.map` fixes its length before any push.
- The category data, the `find` privilege filter, `categories.search`, `getChildrenCids`, `getVisibleCategories`, `buildForSelectCategories`, the translator and the category, topic and user lookups are parameters, not models.
- `categories.watchStates` numeric codes: states are passed on by name.
- `decodeURIComponent` in `title.build` (and the URIError it can throw): the model takes the already decoded fragment.
- The error branch of `title.build` is never taken, since `parseFragment` never reports an error; the model has no such branch.
- `getUsernameByUserslug` returning nothing is rendered as the text `null` in the translated key, and the lookup's own error is ignored, as in the source.
- `Meta.themes`, `Meta.js.get`, `Meta.js.minify`, `Meta.sounds.getLocal`, `Meta.restart`, `Meta.css`, and the `translator.loadServer` side effect of setting `defaultLang`.
- Logging (`winston`, `console.log`), and `process.exit` when a script cannot be read in `concatenate`.
- The pool connection is never released in the source; the model does not model the pool either.
- `String(n)` for non-integers and for magnitudes of 1e21 and above: selected ids are integers or text.
- `Decimal.ParseInt` reads a digit run exactly, whereas `parseInt` rounds values above 2^53 to the nearest double: category ids stay far below that bound.
- A `selectedCids` that is not an array; and the handler's overwrite of `data.selectedCids` with the coerced ids, which is kept as a local value.
- Config and settings values that are not strings: every stored value is a string, and falsy means missing or empty.
- A database write that fails is assumed to leave the data unchanged.
- Plugin hooks are pure functions; `fireHook` of an `action:` hook is recorded as an event.
- `MetaStore.Call`: a missing callback on a path that calls it is recorded as a crash, not as the TypeError itself.
- `CategoryFilter.LoadCids`, `CategoryFilter.FindMatchedCids`, `CategoryFilter.LoadCategoryFilter`, `AdminPrivileges.Get`, `AdminPrivileges.Can`, `AdminPrivileges.List`, `MetaStore.MetaState.ConfigGet`, `MetaStore.MetaState.ConfigGetFields`, `MetaStore.MetaState.SettingsGet` and `MetaStore.MetaState.SettingsGetOne` have no failure outcome. The source calls reads at filter.js:24, 48, 57, 67, 78, 81, 83, 90 and 91, admin.js:93-94, 103-104 and 115, and meta.js:46, 49, 372 and 377. When one of them rejects, the whole call rejects with that error and yields no partial result. These members describe only the path on which every such read succeeds.
- `PgTransaction.Replay`: the fault map says which statements the server rejects, and it is not derived from the session. The lemmas follow an abort only with ROLLBACK, with ROLLBACK TO SAVEPOINT, or with COMMIT, which an aborted server turns into a rollback, so no statement that an aborted server would refuse is counted as accepted. They also assume that ROLLBACK and ROLLBACK TO SAVEPOINT themselves go through. A statement rejected outside a transaction changes nothing.
- `MetaStore.GetObject`: a hash without fields reads as missing, as the Redis adapter reports it. An adapter that returned `{}` for such a hash would make `sounds.getMapping` return `{}` instead of the defaults; that reading is not modelled.
