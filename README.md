# Calypso client decision logic, modelled in Dafny

This project models the parts of the Calypso web client that make decisions,
rather than only render:

- **Support-chat selectors** (`HappychatSelectors`):
  - `getGroups` routes a chat to the platform group (WPCOM) or the partner group (JPOP).
  - `canUserSendMessages` says whether the user may write.
  - `hasUnreadMessages` compares the last message's time with the moment the chat lost focus.
- **Selected-revision lookup** (`RevisionSelection`): `posts.revisions.selection.revisionId`, with a default of `0`.
- **Boot navigation middleware** (`BootCommon`, using `PageRouter` and `ReduxStore`):
  - the per-navigation context enrichment;
  - the `/wp-login.php` escape;
  - the logged-out section filter;
  - the fixed order in which `setupMiddlewares` registers handlers;
  - the start-up locale switch.

  A navigation runs the registered handlers in order. Each handler either calls `next` or halts the chain. `Run` gives that semantics, and `StepOf` gives each handler's decision.
- **Trash button of the post editor** (`EditorDeletePost`): a class whose `isTrashing` field guards against a double submission. Its invariant `Valid()` says that at most one trash request succeeds.
- **Revisions list item** (`EditorRevisionsListItem`): which change labels appear ("+n", "-n", "minor"), when the author's name is shown, and what a click dispatches.

Collaborators whose code is not part of this model become inputs:
- feature flags, as a set of enabled flag names;
- the site's AT and Jetpack status, and the section name;
- the URL and query-string parser results;
- the user's `delete_post` capability and the confirmation dialog's answer;
- the decisions of the OAuth token check, the section routes, the notices clearer and the unsaved-form check.

The state container is reduced to its ordered log of dispatched intents (`ReduxStore.Store`).

## Model

| member | source | states |
|---|---|---|
| `HappychatSelectors.GetGroups` | client/state/happychat/selectors.js:35-56 | exactly one group; `[JPOP]` iff (flag on and section `jetpackConnect`) or (site not AT and Jetpack); `[WPCOM]` in every other case |
| `HappychatSelectors.JetpackConnectIgnoresSite` | client/state/happychat/selectors.js:40-43 | with the `jetpack/happychat` flag on in `jetpackConnect`, the result is `[JPOP]` whatever the site is |
| `HappychatSelectors.AutomatedTransferWins` | client/state/happychat/selectors.js:47-49 | outside that case an AT-enabled site goes to `[WPCOM]` even when it is also a Jetpack site |
| `HappychatSelectors.CanUserSendMessages` | client/state/happychat/selectors.js:65-76 | false whenever the client is disconnected; true iff connected and the status is none of blocked, default, pending, missed, abandoned |
| `HappychatSelectors.LastMessageTimestamp` | client/state/happychat/selectors.js:80 | the `timestamp` of the timeline's last message; absent for an empty timeline |
| `HappychatSelectors.HasUnreadMessages` | client/state/happychat/selectors.js:79-89 | false for an empty timeline or a non-number lost-focus time; true iff the last message's timestamp in seconds, times 1000, is at least the lost-focus time in ms |
| `HappychatSelectors.OnlyLastMessageCounts` | client/state/happychat/selectors.js:80 | replacing every message before the last one never changes the answer |
| `HappychatSelectors.EarlierLostFocusKeepsUnread` | client/state/happychat/selectors.js:88 | the answer is monotone in the lost-focus time: an earlier time keeps "unread" true |
| `HappychatSelectors.ArrivalAfterLostFocus` | client/state/happychat/selectors.js:80-88 | appending a message with timestamp `sec` makes the chat unread iff `sec * 1000 >= lostFocusAt` |
| `RevisionSelection.GetPostRevisionsSelectedRevisionId` | client/state/selectors/get-post-revisions-selected-revision-id.js:8 | returns the stored value when the whole path is present; `0` when any level or the id is absent; result is `0` iff nothing is stored or a `0` is stored |
| `RevisionSelection.StoredNullIsReturned` | client/state/selectors/get-post-revisions-selected-revision-id.js:8 | a stored `null` is returned unchanged, not replaced by the default |
| `RevisionSelection.MissingLevelGivesDefault` | client/state/selectors/get-post-revisions-selected-revision-id.js:8 | a missing `posts`, `revisions` or `selection` level yields `0` |
| `BootCommon.ContextStep` | client/boot/common.js:59-65 | the context handler continues iff the pathname is not `/wp-login.php`; otherwise it does a full page load of `context.path` |
| `BootCommon.PrevPathOf` | client/boot/common.js:41 | `prevPath` is `false` iff the parsed path equals `context.path`, and is the parsed path otherwise |
| `BootCommon.HashStringOf` | client/boot/common.js:44 | `hashstring` is `''` iff there is no fragment or the fragment is only `#`; otherwise the fragment is its first character followed by `hashstring` |
| `BootCommon.NavContext.EnrichContext` | client/boot/common.js:38-66 | sets `prevPath`, `query`, `hashstring` and `store`; `hash` is `{}` when `hashstring` is empty or its parse throws, the parsed mapping otherwise; the handler then continues or leaves as `ContextStep` says |
| `BootCommon.NavContext.SetRouteHandler` | client/boot/common.js:112-118 | dispatches `setRoute(pathname, query)` through `context.store` and continues; with no store set it throws |
| `BootCommon.SetRouteStep` | client/boot/common.js:112-118 | the set-route handler continues iff `context.store` is set; otherwise it throws |
| `BootCommon.StepOf` | client/boot/common.js:38-118 | what each registered handler does with `next`: only set-route with no store throws; only the context handler at `/wp-login.php` does a full page load; only a home redirect redirects, to its target; the logged-out filter continues iff some valid path is a prefix of the path, and stops otherwise |
| `BootCommon.Run` | client/boot/common.js:38-118 | the handlers registered with `page( '*', … )` run in registration order, each passing on only by calling `next`; no more handlers run than are registered; a halted run ran a handler; a fault happens only with the store unset, before any context handler, and the handler that throws is set-route |
| `BootCommon.HaltedChainIgnoresLaterRoutes` | client/boot/common.js:60-63 | when a chain halts, appending routes after it changes nothing: later handlers never run |
| `BootCommon.CompletedChainRunsLaterRoutes` | client/boot/common.js:65 | when every handler of a chain continues, the appended routes run next, seeing the store as the chain left it |
| `BootCommon.IsValidSection` | client/boot/common.js:95-96 | true iff some valid path is a prefix of the given path |
| `BootCommon.CollectLoggedOutPaths` | client/boot/common.js:92-94 | the `reduce` keeps its accumulator as a prefix of its result |
| `BootCommon.ValidSections` | client/boot/common.js:92-94 | `validSections` equals the section-by-section list of the paths of sections with `enableLoggedOut` |
| `BootCommon.CollectAppendsLoggedOutPaths` | client/boot/common.js:92-94 | the `reduce`/`concat` appends, section by section, exactly the paths of sections with `enableLoggedOut` |
| `BootCommon.ValidSectionsMembership` | client/boot/common.js:92-94 | a path is in `validSections` iff some section with `enableLoggedOut` lists it; other sections contribute nothing |
| `BootCommon.LoggedOutFilterAdmits` | client/boot/common.js:92-101 | the filter admits a path iff it starts with a path of a section that allows logged-out users |
| `BootCommon.LoggedOutFilterGatesTheChain` | client/boot/common.js:98-102 | logged out, away from `/wp-login.php` and not at a `/` that has a home redirect registered, with the token check and section routes continuing: set-route runs iff the filter admits the path |
| `BootCommon.LoggedOutHomeRedirects` | client/boot/common.js:77-89 | logged out at `/` in a desktop build, the chain ends in a redirect to `/authorize` with OAuth and `/log-in` without; in a devdocs-redirect build, to `/devdocs/start`; set-route never runs |
| `BootCommon.EarlyHandlersContinue` | client/boot/common.js:190-192 | away from `/wp-login.php`, with the token check and section routes continuing, the handlers registered before the logged-out middleware all call `next`; the context handler runs and set-route does not |
| `BootCommon.PreludeContinues` | client/boot/common.js:190-193 | the same holds through the home redirect when the path is not a `/` that has one registered |
| `BootCommon.WpLoginLeavesTheApplication` | client/boot/common.js:59-63 | for `/wp-login.php` only the context handler runs and the run ends in a full page load, whatever else is registered |
| `BootCommon.SetRouteNeverFaults` | client/boot/common.js:57 | in the registered chain the context handler sets the store before set-route can use it, so no navigation faults |
| `BootCommon.OAuthCheckRegisteredIffEnabled` | client/boot/common.js:105-110 | the OAuth token check is registered iff `oauth` is enabled |
| `BootCommon.LoggedInChainHasNoFilter` | client/boot/common.js:73-75 | for a logged-in user the chain is context, optional OAuth check, section routes, set-route, clear-notices: no redirect and no filter |
| `BootCommon.SetupContextMiddleware` | client/boot/common.js:37-67 | appends the context handler on `*` |
| `BootCommon.OAuthTokenMiddleware` | client/boot/common.js:105-110 | appends the token check on `*` only when `oauth` is enabled |
| `BootCommon.LoadSectionsMiddleware` | client/boot/common.js:70 | appends the section routes |
| `BootCommon.LoggedOutMiddleware` | client/boot/common.js:72-103 | appends nothing for a logged-in user; otherwise appends the desktop or devdocs `/` redirect (if configured), then the filter over `validSections` |
| `BootCommon.SetRouteMiddleware` | client/boot/common.js:112-118 | appends the set-route handler on `*` |
| `BootCommon.ClearNoticesMiddleware` | client/boot/common.js:120-123 | appends the notices clearer on `*` |
| `BootCommon.UnsavedFormsMiddleware` | client/boot/common.js:125-128 | appends the unsaved-form check to the exit handlers |
| `BootCommon.SetupMiddlewares` | client/boot/common.js:187-197 | appends, in order: context, OAuth check (if enabled), section routes, logged-out routes, set-route, clear-notices; and the exit check |
| `BootCommon.SwitchUserLocale` | client/boot/common.js:29-35 | dispatches `setLocale(slug)` iff the user's slug is truthy |
| `BootCommon.Locales` | client/boot/common.js:130-144 | dispatches the raw locale data when present, then switches locale only without user bootstrap and from the default locale |
| `BootCommon.LocaleSetOnlyWhenAllowed` | client/boot/common.js:141-143 | `setLocale(s)` is dispatched iff `s` is the user's non-empty slug, `wpcom-user-bootstrap` is off and the current locale is the default |
| `PageRouter.Router.Page` | client/boot/common.js:38 | `page(pattern, handler)` appends one route and leaves the exit list alone |
| `PageRouter.Router.Exit` | client/boot/common.js:127 | `page.exit(pattern, handler)` appends one exit route and leaves the routes alone |
| `EditorDeletePost.ConfirmationFor` | client/post-editor/editor-delete-post/index.jsx:59-63 | the question is the page variant iff `post.type === 'page'`, the post variant otherwise |
| `EditorDeletePost.DeletePostButton.SendToTrash` | client/post-editor/editor-delete-post/index.jsx:34-51 | sets `isTrashing`; issues the trash request only if the user can `delete_post`, else `isTrashing` stays set with nothing in flight; keeps `Valid()` |
| `EditorDeletePost.DeletePostButton.HandleTrashingPost` | client/post-editor/editor-delete-post/index.jsx:37-45 | a truthy error clears `isTrashing`; a missing or falsy one (success) leaves it set; `onTrashingPost`, when given, receives the error in both cases; keeps `Valid()` |
| `EditorDeletePost.DeletePostButton.OnSendToTrash` | client/post-editor/editor-delete-post/index.jsx:53-75 | changes nothing while `isTrashing`; otherwise asks the right question and sends to the trash iff the user accepts; while a request is in flight or after a success it adds no request; keeps `Valid()` |
| `EditorDeletePost.DeletePostButton.BusyButtonIgnoresClicks` | client/post-editor/editor-delete-post/index.jsx:55-57 | under `Valid()`, a request in flight or a successful completion implies `isTrashing`, so the guard ignores the click |
| `EditorDeletePost.DeletePostButton.Render` | client/post-editor/editor-delete-post/index.jsx:77-88 | nothing for a missing post, a post without `ID` or a trashed post; label "Trashing..." iff `isTrashing`, "Move to trash" otherwise |
| `EditorDeletePost.ClickTwiceBeforeCompletion` | client/post-editor/editor-delete-post/index.jsx:55-57 | two accepted clicks before the first completion issue one trash request |
| `EditorDeletePost.RetryAfterCompletion` | client/post-editor/editor-delete-post/index.jsx:37-40 | a second click after a completion with a truthy error issues a second request, after a successful one none; the label then reads "Trashing..." |
| `EditorRevisionsListItem.RenderItem` | client/post-editor/editor-revisions-list/item.jsx:25-66 | additions iff `added > 0`; deletions iff `removed > 0`; "minor" iff both are 0; the author name iff it is truthy and the site is multi-user |
| `EditorRevisionsListItem.MinorExcludesCounts` | client/post-editor/editor-revisions-list/item.jsx:42-64 | the "minor" label never appears beside an additions or deletions count |
| `EditorRevisionsListItem.SomeChangeLabelShown` | client/post-editor/editor-revisions-list/item.jsx:42-64 | with non-negative counts at least one change label appears |
| `EditorRevisionsListItem.SingleUserSiteHidesAuthor` | client/post-editor/editor-revisions-list/item.jsx:38-39 | on a single-user site the first author span never appears |
| `EditorRevisionsListItem.IsMultiUserSite` | client/post-editor/editor-revisions-list/item.jsx:99 | `isMultiUserSite` is the negation of the single-user-site answer |
| `EditorRevisionsListItem.SelectRevision` | client/post-editor/editor-revisions-list/item.jsx:21-23 | a click dispatches `selectPostRevision` with exactly this revision's `id` |

## Left out

- URL and query-string parsing (client/boot/common.js:40, 48): their results are inputs. `ParsedUrl` gives path, query and fragment; `HashParse` gives the fragment's mapping or "throws". The debug message on a parse failure is not modelled.
- Router internals:
  - A pattern matches by exact pathname or wildcard. Strict and trailing-slash matching are not modelled.
  - `page.redirect` and the full page load are halting steps; the navigation they start is not modelled.
  - Exit handlers are registered, but leaving a route is not run.
- The routes that `sections.load()` registers stand as one route whose decision is an input. The same holds for `checkToken`, `clearNoticesOnNavigation` and `checkFormHandler`: their code is not part of this model.
- `window.location.href`, `debug`, `utils` (touch classes, `accessibleFocus`, dev modules) and `configureReduxStore` (user subscriptions, network-connection loading): these are DOM, logging or asynchronous wiring.
- `Locales`: `JSON.parse` of the bootstrapped locale strings is not modelled. The raw string stands for the parsed object, and a parse failure is not modelled.
- `SwitchUserLocale`: reading `localeSlug` for a logged-out user is modelled as "no slug". Whether `currentUser.get()` then returns `false` or `null` (which would throw) depends on the user library, which is not part of this model.
- `isATEnabled`, `isJetpackSite`, `getSite`, `getSectionName`, `isSingleUserSite`, `config.isEnabled` and `isDefaultLocale` are inputs; their code is not part of this model.
- `HasUnreadMessages`: the `createSelector` memoisation is not modelled. Timestamps are integers, so floating point and `NaN` are left out.
- `CanUserSendMessages`: the values of the chat-status constants are not part of this model. The five excluded statuses are named, and `Other` stands for every other status.
- `GetPostRevisionsSelectedRevisionId`: the second `return` (line 9) can never run and has no counterpart. A level that holds a non-object value is treated like a missing level, as the path lookup does.
- `EditorDeletePost.DeletePostButton`:
  - `setState` is treated as immediate.
  - `userCan`, `accept` and `actions.trash` are inputs.
  - The confirmation is answered synchronously.
  - The completion callback is taken to run once for each issued request.
- Translation, class names other than `is-trashing`, dates (`PostTime`) and analytics are left out.
- `RenderItem`: the second author span (client/post-editor/editor-revisions-list/item.jsx:68-75) is left out. It calls `isObject`, which the file never imports, so its behaviour is undefined by the code shown.
- Store reducers (such as the one that records the selected revision) are not part of this model. So no lemma connects `SelectRevision` to `GetPostRevisionsSelectedRevisionId`.
