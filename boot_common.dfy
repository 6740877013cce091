/**
 * The boot-time navigation middleware of the client: the per-navigation context
 * enrichment, the logged-out section filter, the fixed order in which the
 * handlers are registered, and the start-up locale switch.
 *
 * A navigation runs the registered handlers in order; each one either calls
 * `next` (the chain continues) or does not (the chain halts). `Run` gives that
 * semantics over the handlers' decisions, which `StepOf` states per handler.
 */
module BootCommon {
  import opened Js
  import opened ReduxStore
  import opened PageRouter

  // ---------------------------------------------------------------------------
  // Configuration and collaborators
  // ---------------------------------------------------------------------------

  const OAuthFlag := "oauth"
  const DesktopFlag := "desktop"
  const DevdocsRedirectFlag := "devdocs/redirect-loggedout-homepage"
  const UserBootstrapFlag := "wpcom-user-bootstrap"

  /** The pathname that must leave the single-page application. */
  const WpLoginPath := "/wp-login.php"

  /** `currentUser.get()`: either no user or the bootstrapped user's data. */
  datatype CurrentUser = LoggedOut | LoggedIn(id: int, localeSlug: string)

  /** A section of the application, as `sections.get()` lists it. */
  datatype Section = Section(name: string, paths: seq<string>, enableLoggedOut: bool)

  /**
   * The decisions of handlers whose code is not part of this model: the OAuth
   * token check, the routes registered by the sections loader, the notices
   * clearer and the unsaved-form check run on exit.
   */
  datatype External = External(
    tokenCheckContinues: bool,
    sectionRoutesContinue: bool,
    clearNoticesContinues: bool,
    formCheckContinues: bool)

  /** One navigation: the context's `path` and `pathname`, and the external decisions. */
  datatype Nav = Nav(path: string, pathname: string, ext: External)

  // ---------------------------------------------------------------------------
  // Handlers and their decisions
  // ---------------------------------------------------------------------------

  /** The handlers that boot registers. */
  datatype Handler =
    | Context                            // context enrichment
    | CheckToken                         // OAuth token check
    | SectionRoutes                      // the routes registered by the sections loader
    | RedirectHome(target: string)       // logged-out home-page redirect
    | LoggedOutFilter(validPaths: seq<string>)
    | SetRoute
    | ClearNotices
    | CheckForm                          // unsaved-form check, registered on exit

  /**
   * What a handler does with the chain: `Next` calls `next`; every other step
   * returns without calling it. `Fault` is a handler that throws.
   */
  datatype Step = Next | FullLoad(url: string) | Redirect(target: string) | Stop | Fault

  /** The context handler: a full page load for the logout URL, otherwise `next`. */
  function ContextStep(pathname: string, path: string): (s: Step)
    ensures s == Next <==> pathname != WpLoginPath
    ensures s != Next ==> s == FullLoad(path)
  {
    if pathname == WpLoginPath then FullLoad(path) else Next
  }

  /** The set-route handler dispatches through `context.store`, which throws when it is unset. */
  function SetRouteStep(storeSet: bool): (s: Step)
    ensures s == Next <==> storeSet
    ensures s != Next ==> s == Fault
  {
    if storeSet then Next else Fault
  }

  function Continue(b: bool): Step
  {
    if b then Next else Stop
  }

  /** What handler `h` does on navigation `nav`; `storeSet` says whether `context.store` is set. */
  function StepOf(h: Handler, nav: Nav, storeSet: bool): (s: Step)
    ensures s == Fault <==> h == SetRoute && !storeSet
    ensures s.FullLoad? <==> h == Context && nav.pathname == WpLoginPath
    ensures s.Redirect? <==> h.RedirectHome?
    ensures h.RedirectHome? ==> s == Redirect(h.target)
    ensures h.LoggedOutFilter? ==> (s == Next || s == Stop)
    ensures h.LoggedOutFilter? ==>
              (s == Next <==> exists i :: 0 <= i < |h.validPaths| && h.validPaths[i] <= nav.path)
  {
    match h
    case Context => ContextStep(nav.pathname, nav.path)
    case CheckToken => Continue(nav.ext.tokenCheckContinues)
    case SectionRoutes => Continue(nav.ext.sectionRoutesContinue)
    case RedirectHome(target) => Redirect(target)
    case LoggedOutFilter(validPaths) => Continue(IsValidSection(nav.path, validPaths))
    case SetRoute => SetRouteStep(storeSet)
    case ClearNotices => Continue(nav.ext.clearNoticesContinues)
    case CheckForm => Continue(nav.ext.formCheckContinues)
  }

  /** The handlers that ran, in order, and the step of the last one (`Next` when the chain ran out). */
  datatype Trace = Trace(ran: seq<Handler>, last: Step)

  /**
   * One navigation through the registered routes: the matching handlers run in
   * registration order until one does not call `next`. A context handler that
   * continues has set `context.store`.
   */
  function Run(routes: seq<Route<Handler>>, nav: Nav, storeSet: bool): (t: Trace)
    ensures |t.ran| <= |routes|
    ensures t.last != Next ==> t.ran != []
    ensures t.last == Fault ==> !storeSet && SetRoute in t.ran && Context !in t.ran
    ensures t.last == Fault ==> t.ran[|t.ran| - 1] == SetRoute
    decreases |routes|
  {
    if routes == [] then Trace([], Next)
    else if !Matches(routes[0].pattern, nav.pathname) then Run(routes[1..], nav, storeSet)
    else
      var h := routes[0].handler;
      var step := StepOf(h, nav, storeSet);
      if step != Next then Trace([h], step)
      else
        var rest := Run(routes[1..], nav, StoreAfter(storeSet, [h]));
        Trace([h] + rest.ran, rest.last)
  }

  /** Whether `context.store` is set after the handlers `ran` all continued. */
  predicate StoreAfter(storeSet: bool, ran: seq<Handler>)
  {
    storeSet || Context in ran
  }

  /**
   * A handler that does not call `next` ends the navigation: routes registered
   * after it never run.
   */
  lemma {:induction false} HaltedChainIgnoresLaterRoutes(a: seq<Route<Handler>>, b: seq<Route<Handler>>, nav: Nav, storeSet: bool)
    requires Run(a, nav, storeSet).last != Next
    ensures Run(a + b, nav, storeSet) == Run(a, nav, storeSet)
  {
    assert a != [];
    assert (a + b)[1..] == a[1..] + b;
    if Matches(a[0].pattern, nav.pathname) && StepOf(a[0].handler, nav, storeSet) == Next {
      HaltedChainIgnoresLaterRoutes(a[1..], b, nav, StoreAfter(storeSet, [a[0].handler]));
    } else if !Matches(a[0].pattern, nav.pathname) {
      HaltedChainIgnoresLaterRoutes(a[1..], b, nav, storeSet);
    }
  }

  /**
   * When every handler of `a` continues, the routes of `b` run next, seeing the
   * store as `a` left it.
   */
  lemma {:induction false} CompletedChainRunsLaterRoutes(a: seq<Route<Handler>>, b: seq<Route<Handler>>, nav: Nav, storeSet: bool)
    requires Run(a, nav, storeSet).last == Next
    ensures var ta := Run(a, nav, storeSet);
            var tb := Run(b, nav, StoreAfter(storeSet, ta.ran));
            Run(a + b, nav, storeSet) == Trace(ta.ran + tb.ran, tb.last)
  {
    if a == [] {
      assert a + b == b;
    } else {
      assert (a + b)[1..] == a[1..] + b;
      if !Matches(a[0].pattern, nav.pathname) {
        CompletedChainRunsLaterRoutes(a[1..], b, nav, storeSet);
      } else {
        var h := a[0].handler;
        CompletedChainRunsLaterRoutes(a[1..], b, nav, StoreAfter(storeSet, [h]));
        var ta' := Run(a[1..], nav, StoreAfter(storeSet, [h]));
        assert StoreAfter(StoreAfter(storeSet, [h]), ta'.ran) == StoreAfter(storeSet, [h] + ta'.ran);
        assert [h] + (ta'.ran + Run(b, nav, StoreAfter(storeSet, [h] + ta'.ran)).ran)
            == ([h] + ta'.ran) + Run(b, nav, StoreAfter(storeSet, [h] + ta'.ran)).ran;
      }
    }
  }

  // ---------------------------------------------------------------------------
  // The logged-out section filter
  // ---------------------------------------------------------------------------

  /**
   * `validSections`: the `reduce` that concatenates, left to right, the paths
   * of the sections that allow logged-out users.
   */
  function CollectLoggedOutPaths(sections: seq<Section>, acc: seq<string>): (r: seq<string>)
    ensures |acc| <= |r| && r[..|acc|] == acc
    decreases |sections|
  {
    if sections == [] then acc
    else CollectLoggedOutPaths(sections[1..],
           if sections[0].enableLoggedOut then acc + sections[0].paths else acc)
  }

  /** The fold from an empty accumulator yields exactly the reference paths. */
  function ValidSections(sections: seq<Section>): (r: seq<string>)
    ensures r == LoggedOutPaths(sections)
  {
    CollectAppendsLoggedOutPaths(sections, []);
    assert [] + LoggedOutPaths(sections) == LoggedOutPaths(sections);
    CollectLoggedOutPaths(sections, [])
  }

  /** Reference definition: the logged-out paths, section by section. */
  function LoggedOutPaths(sections: seq<Section>): seq<string>
    decreases |sections|
  {
    if sections == [] then []
    else (if sections[0].enableLoggedOut then sections[0].paths else []) + LoggedOutPaths(sections[1..])
  }

  /** The left fold appends exactly the reference paths to its accumulator. */
  lemma {:induction false} CollectAppendsLoggedOutPaths(sections: seq<Section>, acc: seq<string>)
    ensures CollectLoggedOutPaths(sections, acc) == acc + LoggedOutPaths(sections)
    decreases |sections|
  {
    if sections != [] {
      var s := sections[0];
      var acc' := if s.enableLoggedOut then acc + s.paths else acc;
      CollectAppendsLoggedOutPaths(sections[1..], acc');
      assert acc' + LoggedOutPaths(sections[1..]) ==
             acc + ((if s.enableLoggedOut then s.paths else []) + LoggedOutPaths(sections[1..]));
    }
  }

  /** The reference paths are those of the sections that enable logged-out use, and no others. */
  lemma {:induction false} LoggedOutPathsMembership(sections: seq<Section>, p: string)
    ensures p in LoggedOutPaths(sections) <==>
            exists i :: 0 <= i < |sections| && sections[i].enableLoggedOut && p in sections[i].paths
    decreases |sections|
  {
    if sections != [] {
      LoggedOutPathsMembership(sections[1..], p);
      if p in LoggedOutPaths(sections[1..]) {
        var i :| 0 <= i < |sections[1..]| && sections[1..][i].enableLoggedOut && p in sections[1..][i].paths;
        assert sections[i + 1] == sections[1..][i];
      }
      if exists i :: 0 <= i < |sections| && sections[i].enableLoggedOut && p in sections[i].paths {
        var i :| 0 <= i < |sections| && sections[i].enableLoggedOut && p in sections[i].paths;
        if i > 0 {
          assert sections[1..][i - 1] == sections[i];
        }
      }
    }
  }

  /** `validSections` holds a path iff some logged-out section lists it. */
  lemma ValidSectionsMembership(sections: seq<Section>, p: string)
    ensures p in ValidSections(sections) <==>
            exists i :: 0 <= i < |sections| && sections[i].enableLoggedOut && p in sections[i].paths
  {
    LoggedOutPathsMembership(sections, p);
  }

  /** `isValidSection`: `some` valid path is a prefix (`startsWith`) of the path. */
  function IsValidSection(sectionPath: string, validPaths: seq<string>): (r: bool)
    ensures r <==> exists i :: 0 <= i < |validPaths| && validPaths[i] <= sectionPath
    decreases |validPaths|
  {
    if validPaths == [] then false
    else if validPaths[0] <= sectionPath then true
    else
      var r := IsValidSection(sectionPath, validPaths[1..]);
      assert forall i :: 1 <= i < |validPaths| ==> validPaths[i] == validPaths[1..][i - 1];
      r
  }

  /**
   * The filter the logged-out middleware installs lets a path through iff a
   * section that allows logged-out users has a path that prefixes it.
   */
  lemma LoggedOutFilterAdmits(sections: seq<Section>, path: string)
    ensures IsValidSection(path, ValidSections(sections)) <==>
            exists i, p :: 0 <= i < |sections| && sections[i].enableLoggedOut && p in sections[i].paths && p <= path
  {
    var valid := ValidSections(sections);
    if IsValidSection(path, valid) {
      var k :| 0 <= k < |valid| && valid[k] <= path;
      ValidSectionsMembership(sections, valid[k]);
    }
    if exists i, p :: 0 <= i < |sections| && sections[i].enableLoggedOut && p in sections[i].paths && p <= path {
      var i, p :| 0 <= i < |sections| && sections[i].enableLoggedOut && p in sections[i].paths && p <= path;
      ValidSectionsMembership(sections, p);
      var k :| 0 <= k < |valid| && valid[k] == p;
    }
  }

  // ---------------------------------------------------------------------------
  // The navigation context and the handlers that change it
  // ---------------------------------------------------------------------------

  /** `context.prevPath`: `false`, or the path the URL parser produced. */
  datatype PrevPath = NoPrevPath | PrevPath(path: string)

  /** What the URL parser yields for `context.canonicalPath` (parsing itself is not modelled). */
  datatype ParsedUrl = ParsedUrl(path: string, query: map<string, string>, hash: Option<string>)

  /** What the query-string parser does with the fragment: a mapping, or an exception. */
  datatype HashParse = Parsed(fields: map<string, string>) | Throws

  function PrevPathOf(parsedPath: string, contextPath: string): (r: PrevPath)
    ensures r == NoPrevPath <==> parsedPath == contextPath
    ensures r != NoPrevPath ==> r.path == parsedPath
  {
    if parsedPath == contextPath then NoPrevPath else PrevPath(parsedPath)
  }

  /** `context.hashstring`: the fragment without its leading `#`, or `''` when there is none. */
  function HashStringOf(hash: Option<string>): (r: string)
    ensures r == "" <==> hash.None? || |hash.value| <= 1
    ensures r != "" ==> hash.value == [hash.value[0]] + r
  {
    if hash.Some? && hash.value != "" then hash.value[1..] else ""
  }

  class NavContext {
    const path: string
    const pathname: string
    var prevPath: Option<PrevPath>
    var query: Option<map<string, string>>
    var hashstring: Option<string>
    var hash: Option<map<string, string>>
    var store: Store?

    /** A fresh context as the router creates it for one navigation. */
    constructor (path: string, pathname: string)
      ensures this.path == path && this.pathname == pathname
      ensures prevPath == None && query == None && hashstring == None && hash == None && store == null
    {
      this.path := path;
      this.pathname := pathname;
      prevPath := None;
      query := None;
      hashstring := None;
      hash := None;
      store := null;
    }

    /**
     * The context handler: fills in `prevPath`, `query`, `hashstring`, `hash`
     * and `store`, then either continues or, for the logout URL, leaves the
     * application with a full page load. A fragment that is empty or that the
     * parser rejects gives an empty `hash`, and the handler carries on.
     */
    method EnrichContext(parsed: ParsedUrl, hashParse: HashParse, reduxStore: Store) returns (step: Step)
      modifies this
      ensures prevPath == Some(PrevPathOf(parsed.path, path))
      ensures query == Some(parsed.query)
      ensures hashstring == Some(HashStringOf(parsed.hash))
      ensures hash == Some(if HashStringOf(parsed.hash) != "" && hashParse.Parsed? then hashParse.fields else map[])
      ensures store == reduxStore
      ensures step == ContextStep(pathname, path)
    {
      prevPath := Some(PrevPathOf(parsed.path, path));
      query := Some(parsed.query);
      var hs := HashStringOf(parsed.hash);
      hashstring := Some(hs);
      if hs != "" {
        match hashParse {
          case Parsed(fields) =>
            hash := Some(fields);
          case Throws =>
            hash := Some(map[]);
        }
      } else {
        hash := Some(map[]);
      }
      store := reduxStore;
      if pathname == WpLoginPath {
        step := FullLoad(path);
        return;
      }
      step := Next;
    }

    /** The set-route handler: records the route in the store, then continues. */
    method SetRouteHandler() returns (step: Step)
      modifies store
      ensures step == SetRouteStep(store != null)
      ensures store != null ==> store.actions == old(store.actions) + [SetRouteAction(pathname, query)]
    {
      if store == null {
        step := Fault;
        return;
      }
      store.Dispatch(SetRouteAction(pathname, query));
      step := Next;
    }
  }

  // ---------------------------------------------------------------------------
  // Registration
  // ---------------------------------------------------------------------------

  /** The logged-out home-page redirect, if the configuration asks for one. */
  function HomeRedirectRoutes(features: set<string>): seq<Route<Handler>>
  {
    if DesktopFlag in features then
      [Route(Exact("/"), RedirectHome(if OAuthFlag in features then "/authorize" else "/log-in"))]
    else if DevdocsRedirectFlag in features then
      [Route(Exact("/"), RedirectHome("/devdocs/start"))]
    else []
  }

  /** What the logged-out middleware registers. */
  function LoggedOutRoutes(user: CurrentUser, features: set<string>, sections: seq<Section>): seq<Route<Handler>>
  {
    if user.LoggedIn? then []
    else HomeRedirectRoutes(features) + [Route(Any, LoggedOutFilter(ValidSections(sections)))]
  }

  function OAuthRoutes(features: set<string>): seq<Route<Handler>>
  {
    if OAuthFlag in features then [Route(Any, CheckToken)] else []
  }

  /** The routes registered before the logged-out middleware. */
  function EarlyRoutes(features: set<string>): seq<Route<Handler>>
  {
    [Route(Any, Context)] + OAuthRoutes(features) + [Route(Any, SectionRoutes)]
  }

  /** The navigation routes, in the order `setupMiddlewares` registers them. */
  function MiddlewareRoutes(user: CurrentUser, features: set<string>, sections: seq<Section>): seq<Route<Handler>>
  {
    EarlyRoutes(features)
    + LoggedOutRoutes(user, features, sections)
    + [Route(Any, SetRoute), Route(Any, ClearNotices)]
  }

  method SetupContextMiddleware(page: Router<Handler>)
    modifies page
    ensures page.routes == old(page.routes) + [Route(Any, Context)] && page.exits == old(page.exits)
  {
    page.Page(Any, Context);
  }

  method OAuthTokenMiddleware(page: Router<Handler>, features: set<string>)
    modifies page
    ensures page.routes == old(page.routes) + OAuthRoutes(features) && page.exits == old(page.exits)
  {
    if OAuthFlag in features {
      page.Page(Any, CheckToken);
    }
  }

  /** The sections loader registers its own routes; they stand here as one route. */
  method LoadSectionsMiddleware(page: Router<Handler>)
    modifies page
    ensures page.routes == old(page.routes) + [Route(Any, SectionRoutes)] && page.exits == old(page.exits)
  {
    page.Page(Any, SectionRoutes);
  }

  /** A logged-in user gets no handler; a logged-out one the optional redirect and the filter. */
  method LoggedOutMiddleware(page: Router<Handler>, user: CurrentUser, features: set<string>, sections: seq<Section>)
    modifies page
    ensures page.routes == old(page.routes) + LoggedOutRoutes(user, features, sections)
    ensures page.exits == old(page.exits)
  {
    if user.LoggedIn? {
      return;
    }
    if DesktopFlag in features {
      page.Page(Exact("/"), RedirectHome(if OAuthFlag in features then "/authorize" else "/log-in"));
    } else if DevdocsRedirectFlag in features {
      page.Page(Exact("/"), RedirectHome("/devdocs/start"));
    }
    var validSections := ValidSections(sections);
    page.Page(Any, LoggedOutFilter(validSections));
  }

  method SetRouteMiddleware(page: Router<Handler>)
    modifies page
    ensures page.routes == old(page.routes) + [Route(Any, SetRoute)] && page.exits == old(page.exits)
  {
    page.Page(Any, SetRoute);
  }

  method ClearNoticesMiddleware(page: Router<Handler>)
    modifies page
    ensures page.routes == old(page.routes) + [Route(Any, ClearNotices)] && page.exits == old(page.exits)
  {
    page.Page(Any, ClearNotices);
  }

  method UnsavedFormsMiddleware(page: Router<Handler>)
    modifies page
    ensures page.exits == old(page.exits) + [Route(Any, CheckForm)] && page.routes == old(page.routes)
  {
    page.Exit(Any, CheckForm);
  }

  /** `setupMiddlewares`: every middleware, in its fixed order. */
  method SetupMiddlewares(page: Router<Handler>, user: CurrentUser, features: set<string>, sections: seq<Section>)
    modifies page
    ensures page.routes == old(page.routes) + MiddlewareRoutes(user, features, sections)
    ensures page.exits == old(page.exits) + [Route(Any, CheckForm)]
  {
    SetupContextMiddleware(page);
    OAuthTokenMiddleware(page, features);
    LoadSectionsMiddleware(page);
    LoggedOutMiddleware(page, user, features, sections);
    SetRouteMiddleware(page);
    ClearNoticesMiddleware(page);
    UnsavedFormsMiddleware(page);
  }

  // ---------------------------------------------------------------------------
  // What the registered chain does
  // ---------------------------------------------------------------------------

  /** The OAuth check is registered exactly when `oauth` is enabled. */
  lemma OAuthCheckRegisteredIffEnabled(user: CurrentUser, features: set<string>, sections: seq<Section>)
    ensures Route(Any, CheckToken) in MiddlewareRoutes(user, features, sections) <==> OAuthFlag in features
  {
  }

  /** A logged-in user's chain has no logged-out filter and no home-page redirect. */
  lemma LoggedInChainHasNoFilter(user: CurrentUser, features: set<string>, sections: seq<Section>)
    requires user.LoggedIn?
    ensures MiddlewareRoutes(user, features, sections) ==
            [Route(Any, Context)] + OAuthRoutes(features) + [Route(Any, SectionRoutes), Route(Any, SetRoute), Route(Any, ClearNotices)]
  {
  }

  /** The logout URL: only the context handler runs, and it leaves with a full page load. */
  lemma WpLoginLeavesTheApplication(user: CurrentUser, features: set<string>, sections: seq<Section>, nav: Nav)
    requires nav.pathname == WpLoginPath
    ensures Run(MiddlewareRoutes(user, features, sections), nav, false) == Trace([Context], FullLoad(nav.path))
  {
  }

  /** The context handler always runs first, so set-route never meets an unset store. */
  lemma SetRouteNeverFaults(user: CurrentUser, features: set<string>, sections: seq<Section>, nav: Nav)
    ensures Run(MiddlewareRoutes(user, features, sections), nav, false).last != Fault
  {
  }

  /**
   * Logged out, with the unseen handlers before it continuing and no home-page
   * redirect taking the navigation, the route is set iff the logged-out filter
   * admits the path.
   */
  lemma LoggedOutFilterGatesTheChain(features: set<string>, sections: seq<Section>, nav: Nav)
    requires nav.pathname != WpLoginPath
    requires nav.pathname != "/" || HomeRedirectRoutes(features) == []
    requires nav.ext.tokenCheckContinues && nav.ext.sectionRoutesContinue
    ensures var t := Run(MiddlewareRoutes(LoggedOut, features, sections), nav, false);
            SetRoute in t.ran <==> IsValidSection(nav.path, ValidSections(sections))
  {
    var filter := [Route(Any, LoggedOutFilter(ValidSections(sections)))];
    var pre := EarlyRoutes(features) + HomeRedirectRoutes(features);
    var post := [Route(Any, SetRoute), Route(Any, ClearNotices)];
    assert MiddlewareRoutes(LoggedOut, features, sections) == pre + (filter + post);
    var tPre := PreludeContinues(features, nav);
    CompletedChainRunsLaterRoutes(pre, filter + post, nav, false);
    var s := StoreAfter(false, tPre.ran);
    if IsValidSection(nav.path, ValidSections(sections)) {
      assert Run(filter, nav, s) == Trace([LoggedOutFilter(ValidSections(sections))], Next);
      CompletedChainRunsLaterRoutes(filter, post, nav, s);
      assert Run(post, nav, true).ran[0] == SetRoute;
    } else {
      assert Run(filter, nav, s) == Trace([LoggedOutFilter(ValidSections(sections))], Stop);
      HaltedChainIgnoresLaterRoutes(filter, post, nav, s);
    }
  }

  /**
   * Logged out on the home page of a desktop or devdocs build, the chain ends
   * in the configured redirect and the route is never set.
   */
  lemma LoggedOutHomeRedirects(features: set<string>, sections: seq<Section>, nav: Nav)
    requires nav.pathname == "/" && (DesktopFlag in features || DevdocsRedirectFlag in features)
    requires nav.ext.tokenCheckContinues && nav.ext.sectionRoutesContinue
    ensures var t := Run(MiddlewareRoutes(LoggedOut, features, sections), nav, false);
            && t.last == Redirect(if DesktopFlag in features
                                  then (if OAuthFlag in features then "/authorize" else "/log-in")
                                  else "/devdocs/start")
            && SetRoute !in t.ran
  {
    var early := EarlyRoutes(features);
    var rest := HomeRedirectRoutes(features) + [Route(Any, LoggedOutFilter(ValidSections(sections)))]
                + [Route(Any, SetRoute), Route(Any, ClearNotices)];
    assert MiddlewareRoutes(LoggedOut, features, sections) == early + rest;
    var tEarly := EarlyHandlersContinue(features, nav);
    CompletedChainRunsLaterRoutes(early, rest, nav, false);
    var redirect := HomeRedirectRoutes(features);
    assert |redirect| == 1 && redirect[0].pattern == Exact("/");
    assert rest == redirect + rest[1..];
    var tr := Run(redirect, nav, true);
    assert tr == Trace([redirect[0].handler], Redirect(redirect[0].handler.target));
    HaltedChainIgnoresLaterRoutes(redirect, rest[1..], nav, true);
  }

  /** Away from the logout URL, the handlers before the logged-out middleware all continue. */
  lemma EarlyHandlersContinue(features: set<string>, nav: Nav) returns (t: Trace)
    requires nav.pathname != WpLoginPath
    requires nav.ext.tokenCheckContinues && nav.ext.sectionRoutesContinue
    ensures t == Run(EarlyRoutes(features), nav, false)
    ensures t.last == Next && Context in t.ran && SetRoute !in t.ran
  {
    var ctx := [Route(Any, Context)];
    var a := ctx + OAuthRoutes(features);
    assert Run(ctx, nav, false) == Trace([Context], Next);
    CompletedChainRunsLaterRoutes(ctx, OAuthRoutes(features), nav, false);
    var ta := Run(a, nav, false);
    assert ta.last == Next && Context in ta.ran && SetRoute !in ta.ran;
    CompletedChainRunsLaterRoutes(a, [Route(Any, SectionRoutes)], nav, false);
    t := Run(EarlyRoutes(features), nav, false);
    assert t.ran == ta.ran + [SectionRoutes];
  }

  /** The handlers before the filter all continue, run the context handler and never set the route. */
  lemma PreludeContinues(features: set<string>, nav: Nav) returns (t: Trace)
    requires nav.pathname != WpLoginPath
    requires nav.pathname != "/" || HomeRedirectRoutes(features) == []
    requires nav.ext.tokenCheckContinues && nav.ext.sectionRoutesContinue
    ensures t == Run(EarlyRoutes(features) + HomeRedirectRoutes(features), nav, false)
    ensures t.last == Next && Context in t.ran && SetRoute !in t.ran
  {
    var tb := EarlyHandlersContinue(features, nav);
    CompletedChainRunsLaterRoutes(EarlyRoutes(features), HomeRedirectRoutes(features), nav, false);
    assert Run(HomeRedirectRoutes(features), nav, true) == Trace([], Next);
    t := Run(EarlyRoutes(features) + HomeRedirectRoutes(features), nav, false);
    assert t.ran == tb.ran + [];
  }

  // ---------------------------------------------------------------------------
  // Locales
  // ---------------------------------------------------------------------------

  /** The user's `localeSlug`; a logged-out user contributes none. */
  function UserLocaleSlug(user: CurrentUser): string
  {
    if user.LoggedIn? then user.localeSlug else ""
  }

  /** `switchUserLocale`: `setLocale` is dispatched only for a truthy slug. */
  method SwitchUserLocale(user: CurrentUser, reduxStore: Store)
    modifies reduxStore
    ensures reduxStore.actions == old(reduxStore.actions) +
              (if TruthyString(UserLocaleSlug(user)) then [SetLocale(UserLocaleSlug(user))] else [])
  {
    var localeSlug := UserLocaleSlug(user);
    if localeSlug != "" {
      reduxStore.Dispatch(SetLocale(localeSlug));
    }
  }

  /** The intents `locales` dispatches, in order. */
  function LocaleActions(user: CurrentUser, features: set<string>, i18nLocaleStrings: Option<string>,
                         currentLocaleIsDefault: bool): seq<Action>
  {
    (if TruthyOption(i18nLocaleStrings) then [SetLocaleRawData(i18nLocaleStrings.value)] else [])
    + (if UserBootstrapFlag !in features && currentLocaleIsDefault && TruthyString(UserLocaleSlug(user))
       then [SetLocale(UserLocaleSlug(user))] else [])
  }

  /**
   * `locales`: installs the bootstrapped locale strings, then switches to the
   * user's locale when users are not bootstrapped and the current locale is the
   * default one. `currentLocaleIsDefault` is what the locale helpers report for
   * the store's current locale.
   */
  method Locales(user: CurrentUser, reduxStore: Store, features: set<string>, i18nLocaleStrings: Option<string>,
                 currentLocaleIsDefault: bool)
    modifies reduxStore
    ensures reduxStore.actions == old(reduxStore.actions) + LocaleActions(user, features, i18nLocaleStrings, currentLocaleIsDefault)
  {
    if i18nLocaleStrings.Some? && i18nLocaleStrings.value != "" {
      reduxStore.Dispatch(SetLocaleRawData(i18nLocaleStrings.value));
    }
    if UserBootstrapFlag !in features && currentLocaleIsDefault {
      SwitchUserLocale(user, reduxStore);
    }
  }

  /** A locale is set exactly for a truthy user slug, without user bootstrap, from the default locale. */
  lemma LocaleSetOnlyWhenAllowed(user: CurrentUser, features: set<string>, i18nLocaleStrings: Option<string>,
                                 currentLocaleIsDefault: bool, slug: string)
    ensures SetLocale(slug) in LocaleActions(user, features, i18nLocaleStrings, currentLocaleIsDefault) <==>
            slug == UserLocaleSlug(user) && slug != "" && UserBootstrapFlag !in features && currentLocaleIsDefault
  {
  }
}
