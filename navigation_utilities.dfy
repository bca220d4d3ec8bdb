/** Navigation helpers: the active route of a (nested) navigation state, the
    decision whether persisted state is restored, the persistence bookkeeping,
    and the readiness-guarded back, navigate and reset actions. The navigator
    itself is reduced to the facts the helpers query. */
module NavigationUtilities {
  import opened Js

  /** A state's `routes`, which a partial state may lack. */
  datatype RouteList = MissingRoutes | Routes(routes: seq<Route>)

  /** A route; `state` is the nested navigator's state, if any. */
  datatype Route = Route(name: string, state: Option<NavigationState>)

  datatype NavigationState = NavigationState(routes: RouteList, index: Option<int>)

  const NoRoutesFound := "Invalid navigation state: no routes found"
  const RouteNotFound := "Invalid navigation state: route not found at index"

  /** `getActiveRouteName`: follow the active route (`index ?? 0`) down through
      nested states to a route with no state of its own. A thrown `Error` is
      a `Failure` carrying its message. */
  function GetActiveRouteName(state: NavigationState): (r: Result<string>)
    ensures (state.routes.MissingRoutes? || |state.routes.routes| == 0) ==> r == Failure(NoRoutesFound)
    ensures r.Failure? ==> r.message == NoRoutesFound || r.message == RouteNotFound
  {
    if state.routes.MissingRoutes? || |state.routes.routes| == 0 then
      Failure(NoRoutesFound)
    else
      var i := if state.index.Some? then state.index.value else 0;
      if !(0 <= i < |state.routes.routes|) then
        Failure(RouteNotFound)
      else
        var route := state.routes.routes[i];
        if route.state.None? then Success(route.name)
        else GetActiveRouteName(route.state.value)
  }

  /** A missing index means index 0. */
  lemma IndexDefaultsToZero(state: NavigationState)
    ensures GetActiveRouteName(state.(index := None)) == GetActiveRouteName(state.(index := Some(0)))
  {
  }

  /** An index with no route behind it fails, however the rest looks. */
  lemma IndexOutOfRangeFails(routes: seq<Route>, i: int)
    requires |routes| > 0 && !(0 <= i < |routes|)
    ensures GetActiveRouteName(NavigationState(Routes(routes), Some(i))) == Failure(RouteNotFound)
  {
  }

  /** One navigator in a chain: its active route `name`, with `before` routes
      ahead of it and `after` routes behind it. */
  datatype Level = Level(before: seq<Route>, name: string, after: seq<Route>)

  /** The chain of navigators described by `levels`, outermost first. Each
      navigator's index points at its active route, which holds the next
      navigator's state, and the last active route has no state of its own. */
  function Nested(levels: seq<Level>): NavigationState
    requires |levels| > 0
    decreases |levels|
  {
    var l := levels[0];
    var child := if |levels| == 1 then None else Some(Nested(levels[1..]));
    NavigationState(Routes(l.before + [Route(l.name, child)] + l.after), Some(|l.before|))
  }

  /** Whatever the indices and the sibling routes, the active route name of a
      chain of nested navigators is the innermost active name. */
  lemma {:induction false} ActiveRouteOfNested(levels: seq<Level>)
    requires |levels| > 0
    ensures GetActiveRouteName(Nested(levels)) == Success(levels[|levels| - 1].name)
    decreases |levels|
  {
    var l := levels[0];
    var child := if |levels| == 1 then None else Some(Nested(levels[1..]));
    assert (l.before + [Route(l.name, child)] + l.after)[|l.before|] == Route(l.name, child);
    if |levels| > 1 {
      ActiveRouteOfNested(levels[1..]);
    }
  }

  /** The navigation-persistence setting. */
  datatype PersistNavigation = Always | Dev | Prod | Never

  /** `navigationRestoredDefaultState`: `false` (restore from storage) for
      `always`, for `dev` in a development build and for `prod` in a release
      build; `true` (nothing to restore) in every other case. */
  function NavigationRestoredDefaultState(persist: PersistNavigation, isDev: bool): (r: bool)
    ensures !r <==> persist == Always || (persist == Dev && isDev) || (persist == Prod && !isDev)
  {
    if persist == Always then false
    else if persist == Dev && isDev then false
    else if persist == Prod && !isDev then false
    else true
  }

  /** What `Linking.getInitialURL()` settles to: no URL (`null`), a URL, or a rejection. */
  datatype InitialUrl = NoUrl | Url(url: string) | LookupFailed

  /** `!initialUrl`: `null` and the empty string are falsy. */
  predicate NotFromDeepLink(u: InitialUrl)
    ensures u.NoUrl? ==> NotFromDeepLink(u)
    ensures u.Url? && |u.url| > 0 ==> !NotFromDeepLink(u)
    ensures u.LookupFailed? ==> !NotFromDeepLink(u)
  {
    u.NoUrl? || (u.Url? && u.url == "")
  }

  /** The navigation-persistence hook. Storage is reduced to the one slot kept
      under the hook's persistence key. */
  class NavigationPersistence {
    var initialNavigationState: Option<NavigationState>
    var isRestored: bool
    /** `routeNameRef.current`. */
    var routeName: Option<string>
    /** The state saved under the persistence key, if any. */
    var stored: Option<NavigationState>

    constructor(persist: PersistNavigation, isDev: bool, stored: Option<NavigationState>)
      ensures isRestored == NavigationRestoredDefaultState(persist, isDev)
      ensures initialNavigationState.None? && routeName.None? && this.stored == stored
    {
      initialNavigationState := None;
      isRestored := NavigationRestoredDefaultState(persist, isDev);
      routeName := None;
      this.stored := stored;
    }

    /** `onNavigationStateChange`. `None` is `undefined` and changes nothing; a
        state whose active route cannot be found throws before anything is
        written, and the error is swallowed. */
    method OnNavigationStateChange(state: Option<NavigationState>)
      modifies this
      ensures initialNavigationState == old(initialNavigationState) && isRestored == old(isRestored)
      ensures state.Some? && GetActiveRouteName(state.value).Success? ==>
                routeName == Some(GetActiveRouteName(state.value).value) && stored == state
      ensures !(state.Some? && GetActiveRouteName(state.value).Success?) ==>
                routeName == old(routeName) && stored == old(stored)
    {
      if state.Some? {
        var current := GetActiveRouteName(state.value);
        if current.Success? {
          routeName := Some(current.value);
          stored := state;
        }
      }
    }

    /** `restoreState`. The stored state is taken only when the app was not
        opened from a deep link; the flag is set only if still mounted. */
    method RestoreState(initialUrl: InitialUrl, isMounted: bool)
      modifies this
      ensures routeName == old(routeName) && stored == old(stored)
      ensures initialNavigationState
           == if NotFromDeepLink(initialUrl) && stored.Some? then stored else old(initialNavigationState)
      ensures isRestored == (isMounted || old(isRestored))
    {
      if !initialUrl.LookupFailed? && NotFromDeepLink(initialUrl) {
        var state := stored;
        if state.Some? {
          initialNavigationState := state;
        }
      }
      if isMounted {
        isRestored := true;
      }
    }

    /** The mount effect: restore only when the default said there is something to restore. */
    method OnMount(initialUrl: InitialUrl, isMounted: bool)
      modifies this
      ensures old(isRestored) ==> initialNavigationState == old(initialNavigationState) && isRestored
      ensures !old(isRestored) ==>
                initialNavigationState
                == (if NotFromDeepLink(initialUrl) && stored.Some? then stored else old(initialNavigationState))
                && isRestored == isMounted
      ensures routeName == old(routeName) && stored == old(stored)
    {
      if !isRestored {
        RestoreState(initialUrl, isMounted);
      }
    }
  }

  /** A state saved on a navigation change is the one restored on the next
      launch that does not start from a deep link. */
  method SaveThenRestore(p: NavigationPersistence, state: NavigationState, initialUrl: InitialUrl)
    requires GetActiveRouteName(state).Success? && NotFromDeepLink(initialUrl)
    modifies p
    ensures p.initialNavigationState == Some(state) && p.isRestored
    ensures p.routeName == Some(GetActiveRouteName(state).value)
  {
    p.OnNavigationStateChange(Some(state));
    p.RestoreState(initialUrl, true);
  }

  /** What the helpers can observe of the root navigator. */
  datatype Navigator = Navigator(isReady: bool, canGoBack: bool, rootState: NavigationState)

  /** The params an app route takes, kept as named values. */
  type RouteParams = map<string, string>

  /** The navigator commands the helpers issue; `NavigateTo` carries the
      optional params along with the route name. */
  datatype Command =
    | NoCommand
    | ExitApp
    | GoBack
    | NavigateTo(name: string, params: Option<RouteParams>)
    | ResetRootTo(state: NavigationState)

  /** The back-button handler: the boolean it returns (whether the press was
      handled) and the command it issues. */
  function OnBackPress(nav: Navigator, canExit: string -> bool): (r: (bool, Command))
    ensures !nav.isReady ==> r == (false, NoCommand)
    ensures r.0 <==> r.1 != NoCommand
    ensures r.1 == ExitApp <==>
              nav.isReady && GetActiveRouteName(nav.rootState).Success? && canExit(GetActiveRouteName(nav.rootState).value)
    ensures r.1 == GoBack <==>
              nav.isReady && GetActiveRouteName(nav.rootState).Success?
              && !canExit(GetActiveRouteName(nav.rootState).value) && nav.canGoBack
  {
    if !nav.isReady then (false, NoCommand)
    else
      match GetActiveRouteName(nav.rootState)
      case Failure(_) => (false, NoCommand)
      case Success(routeName) =>
        if canExit(routeName) then (true, ExitApp)
        else if nav.canGoBack then (true, GoBack)
        else (false, NoCommand)
  }

  /** `goBack`: handled, and a back command issued, exactly when the navigator
      is ready and can go back. */
  function GoBackAction(nav: Navigator): (r: (bool, Command))
    ensures r.0 <==> nav.isReady && nav.canGoBack
    ensures r.1 == (if r.0 then GoBack else NoCommand)
  {
    if nav.isReady && nav.canGoBack then (true, GoBack) else (false, NoCommand)
  }

  const NotReady := "Navigation is not ready. Make sure to call this after navigation is initialized."

  /** `navigate(name, params)`: the params, given or not, are passed on unchanged. */
  function NavigateAction(nav: Navigator, name: string, params: Option<RouteParams>): (r: Result<Command>)
    ensures r.Failure? <==> !nav.isReady
    ensures r.Failure? ==> r.message == NotReady
    ensures r.Success? ==> r.value == NavigateTo(name, params)
  {
    if !nav.isReady then Failure(NotReady) else Success(NavigateTo(name, params))
  }

  /** The state `resetRoot` resets to when none is given. */
  const EmptyRoot := NavigationState(Routes([]), Some(0))

  function ResetRootAction(nav: Navigator, state: Option<NavigationState>): (r: Result<Command>)
    ensures r.Failure? <==> !nav.isReady
    ensures r.Failure? ==> r.message == NotReady
    ensures r.Success? ==> r.value == ResetRootTo(if state.Some? then state.value else EmptyRoot)
  {
    if !nav.isReady then Failure(NotReady)
    else Success(ResetRootTo(if state.Some? then state.value else EmptyRoot))
  }

  /** The back button and `goBack` agree whenever the current route may not
      exit the app. */
  lemma BackPressAgreesWithGoBack(nav: Navigator, canExit: string -> bool)
    requires GetActiveRouteName(nav.rootState).Success? && !canExit(GetActiveRouteName(nav.rootState).value)
    ensures OnBackPress(nav, canExit) == GoBackAction(nav)
  {
  }
}
