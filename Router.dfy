/**
 * The single-page router and controller (js/app.js): where a visitor is sent,
 * how a path becomes a URL and a view, how sign-in and sign-out are handled, the
 * one-time realtime subscription of the upload page and how realtime results are
 * shown. The signed-in user, their onboarding status, role and client id come from
 * the authentication layer and are inputs.
 */
module Router {
  import opened JsText
  import opened Browser
  import opened Realtime
  import Submission

  /** The keys of the route table. */
  const Routes: set<string> := {"/login", "/signup", "/onboarding", "/upload", "/dashboard"}

  /** The routes open without a signed-in user. */
  const PublicRoutes: set<string> := {"/login", "/signup"}

  /** A call `navigate(path, pushState)`. */
  datatype Go = Go(path: string, pushState: bool)

  /** `await auth.getUserRole() || 'fox'`. */
  function EffectiveRole(role: Option<string>): (r: string)
    ensures r != ""
    ensures NonEmpty(role) ==> r == role.value
    ensures !NonEmpty(role) ==> r == "fox"
  {
    if NonEmpty(role) then role.value else "fox"
  }

  /**
   * `checkAndRoute`: a known hash is honoured first when it is public or someone
   * is signed in; otherwise a visitor goes to /login, a new user to /onboarding,
   * a fox to /upload and every other role to /dashboard.
   */
  function CheckAndRoute(hash: string, signedIn: bool, onboarded: bool, role: Option<string>): (g: Go)
    ensures hash in Routes && (hash in PublicRoutes || signedIn) ==> g == Go(hash, false)
    ensures !(hash in Routes && (hash in PublicRoutes || signedIn)) ==> g.pushState && g.path in Routes - PublicRoutes + {"/login"}
    ensures !(hash in Routes && (hash in PublicRoutes || signedIn)) ==>
              (g.path == "/login" <==> !signedIn)
              && (g.path == "/onboarding" <==> signedIn && !onboarded)
              && (g.path == "/upload" <==> signedIn && onboarded && EffectiveRole(role) == "fox")
              && (g.path == "/dashboard" <==> signedIn && onboarded && EffectiveRole(role) != "fox")
  {
    if hash != "" && hash in Routes && (hash in PublicRoutes || signedIn) then Go(hash, false)
    else if !signedIn then Go("/login", true)
    else if !onboarded then Go("/onboarding", true)
    else if EffectiveRole(role) == "fox" then Go("/upload", true)
    else Go("/dashboard", true)
  }

  /** Without a user, the only places `checkAndRoute` can lead are the two public pages. */
  lemma SignedOutStaysPublic(hash: string, onboarded: bool, role: Option<string>)
    ensures CheckAndRoute(hash, false, onboarded, role).path in PublicRoutes
  {
  }

  /** `path.startsWith('/') ? path : '/' + path`. */
  function LeadingSlash(path: string): (r: string)
    ensures StartsWith(r, "/")
    ensures StartsWith(path, "/") ==> r == path
    ensures !StartsWith(path, "/") ==> r == "/" + path
  {
    if StartsWith(path, "/") then path else "/" + path
  }

  /** Adding the slash twice is adding it once. */
  lemma LeadingSlashIdempotent(path: string)
    ensures LeadingSlash(LeadingSlash(path)) == LeadingSlash(path)
  {
  }

  /** How `navigate` changes the address bar. */
  datatype UrlChange = SetHash(hash: string) | PushPath(path: string)

  /**
   * Hash routing on file: pages and local servers; elsewhere the history entry,
   * unless the caller asked for none or pushing it throws.
   */
  function UrlChangeFor(loc: Location, path: string, pushState: bool, pushThrows: bool): (c: UrlChange)
    ensures c.SetHash? ==> c.hash == LeadingSlash(path)
    ensures c.PushPath? <==> loc.protocol != "file:" && !IsLocalHostname(loc) && pushState && !pushThrows
    ensures c.PushPath? ==> c.path == path
  {
    if loc.protocol == "file:" || IsLocalHostname(loc) then SetHash(LeadingSlash(path))
    else if pushState && !pushThrows then PushPath(path)
    else SetHash(LeadingSlash(path))
  }

  /** `this.routes[path] || this.routes['/upload']`: an unknown path shows the upload page. */
  function HandlerFor(path: string): (h: string)
    ensures h in Routes
    ensures path in Routes ==> h == path
    ensures path !in Routes ==> h == "/upload"
  {
    if path in Routes then path else "/upload"
  }

  /** Sign-in re-routes only from the login/signup pages or no route at all. */
  predicate ReroutesOnSignIn(hash: string, pathname: string) {
    (hash == "" || hash == "/login" || hash == "/signup") && (pathname == "/" || pathname == "/login" || pathname == "/signup")
  }

  /** What the upload page does about the realtime subscription. */
  datatype UploadVisit = UploadVisit(subscribes: bool, flagAfter: bool)

  /** The upload page subscribes for a signed-in user only while the flag is down, and raises it. */
  function VisitUpload(flag: bool, signedIn: bool): (v: UploadVisit)
    ensures v.subscribes <==> signedIn && !flag
    ensures v.flagAfter == (flag || signedIn)
  {
    if signedIn && !flag then UploadVisit(true, true) else UploadVisit(false, flag)
  }

  datatype AppEvent = ShowUploadPage(signedIn: bool) | SignedOut

  /** The realtime subscriptions the upload page makes along a sequence of events. */
  function SubscriptionsMade(flag: bool, events: seq<AppEvent>): nat
    decreases |events|
  {
    if events == [] then 0
    else match events[0]
      case SignedOut => SubscriptionsMade(false, events[1..])
      case ShowUploadPage(signedIn) =>
        var v := VisitUpload(flag, signedIn);
        (if v.subscribes then 1 else 0) + SubscriptionsMade(v.flagAfter, events[1..])
  }

  /** The flag after a sequence of events. */
  function FlagAfter(flag: bool, events: seq<AppEvent>): bool
    decreases |events|
  {
    if events == [] then flag
    else match events[0]
      case SignedOut => FlagAfter(false, events[1..])
      case ShowUploadPage(signedIn) => FlagAfter(VisitUpload(flag, signedIn).flagAfter, events[1..])
  }

  /**
   * Between two sign-outs the upload page subscribes at most once, and not at all
   * once the flag is up; only a sign-out lowers the flag.
   */
  lemma {:induction false} AtMostOneSubscriptionPerSession(flag: bool, events: seq<AppEvent>)
    requires forall i :: 0 <= i < |events| ==> events[i] != SignedOut
    ensures SubscriptionsMade(flag, events) <= (if flag then 0 else 1)
    ensures flag || SubscriptionsMade(flag, events) == 1 ==> FlagAfter(flag, events)
    decreases |events|
  {
    if events != [] {
      var v := VisitUpload(flag, events[0].signedIn);
      AtMostOneSubscriptionPerSession(v.flagAfter, events[1..]);
    }
  }

  /** The two ways a realtime result is shown on the upload page. */
  datatype RealtimeView = PassedView | FailedView

  /** Only a pass is shown as passed; review_needed and anything else read as failed. */
  function RealtimeViewFor(row: QualityCheck): (v: RealtimeView)
    ensures v == PassedView <==> row.overallStatus == Some("pass")
  {
    if row.overallStatus == Some("pass") then PassedView else FailedView
  }

  /**
   * A reply the submit handler shows as "review needed" is shown as failed when the
   * same status arrives over the realtime feed.
   */
  lemma ReviewNeededShownDifferently(row: QualityCheck)
    requires row.overallStatus == Some("review_needed")
    ensures RealtimeViewFor(row) == FailedView
    ensures Submission.VerdictOf(JsString(row.overallStatus.value)) == Some(Submission.ReviewNeeded)
  {
  }

  /** A client with a known id is shown only its own results; without one, every result. */
  function ClientShouldShow(clientId: Option<string>, row: QualityCheck): (show: bool)
    ensures NonEmpty(clientId) ==> (show <==> row.clientId == clientId)
    ensures !NonEmpty(clientId) ==> show
  {
    (NonEmpty(clientId) && row.clientId == clientId) || !NonEmpty(clientId)
  }

  /** The client banner's status line. */
  function ClientBannerStatus(row: QualityCheck): (s: string)
    ensures row.overallStatus == Some("pass") ==> s == "All photos clean!"
    ensures row.overallStatus != Some("pass") ==> s == CountText(row.totalIssues) + " issues found"
  {
    if row.overallStatus == Some("pass") then "All photos clean!" else CountText(row.totalIssues) + " issues found"
  }

  class App {
    /** `currentRoute`: None before the first navigation. */
    var currentRoute: Option<string>
    /** The route whose handler ran last. */
    var shownView: Option<string>
    /** The address bar: the hash (without '#') and the path. */
    var hash: string
    var pathname: string
    var uploadSubscribed: bool
    const notifications: Notifications

    ghost predicate Valid()
      reads this, notifications
    {
      notifications.Valid()
    }

    constructor(feed: Notifications, hash0: string, pathname0: string)
      requires feed.Valid()
      ensures Valid() && notifications == feed
      ensures currentRoute == None && shownView == None && !uploadSubscribed
      ensures hash == hash0 && pathname == pathname0
    {
      notifications := feed;
      currentRoute := None;
      shownView := None;
      hash := hash0;
      pathname := pathname0;
      uploadSubscribed := false;
    }

    /**
     * `navigate`: updates the address bar, records `path` as the current route even
     * when it is unknown, and runs that route's handler or the upload page's.
     */
    method Navigate(loc: Location, path: string, pushState: bool, pushThrows: bool)
      modifies this
      ensures currentRoute == Some(path) && shownView == Some(HandlerFor(path))
      ensures UrlChangeFor(loc, path, pushState, pushThrows).SetHash? ==>
                hash == LeadingSlash(path) && pathname == old(pathname)
      ensures UrlChangeFor(loc, path, pushState, pushThrows).PushPath? ==>
                pathname == path && hash == ""
      ensures uploadSubscribed == old(uploadSubscribed)
    {
      match UrlChangeFor(loc, path, pushState, pushThrows) {
        case SetHash(h) => hash := h;
        case PushPath(p) =>
          // the pushed URL carries no fragment, so the hash is cleared
          pathname := p;
          hash := "";
      }
      currentRoute := Some(path);
      shownView := Some(HandlerFor(path));
    }

    /** A hash change to a known route shows it at once, with no sign-in check. */
    method HashChanged(newHash: string)
      modifies this
      ensures hash == newHash
      ensures newHash in Routes ==> currentRoute == Some(newHash) && shownView == Some(newHash)
      ensures newHash !in Routes ==> currentRoute == old(currentRoute) && shownView == old(shownView)
      ensures pathname == old(pathname) && uploadSubscribed == old(uploadSubscribed)
    {
      hash := newHash;
      if newHash != "" && newHash in Routes {
        currentRoute := Some(newHash);
        shownView := Some(newHash);
      }
    }

    /** The upload page's subscription: once per signed-in session, as `VisitUpload` decides. */
    method ShowUpload(user: Option<string>, role: Option<string>, hasBackend: bool)
      requires Valid()
      modifies this, notifications
      ensures Valid()
      ensures uploadSubscribed == VisitUpload(old(uploadSubscribed), user.Some?).flagAfter
      ensures VisitUpload(old(uploadSubscribed), user.Some?).subscribes && hasBackend ==>
                notifications.channel == Some(Channel(ConfigFor(FilterFor(EffectiveRole(role), user.value, None)), EffectiveRole(role), true))
      ensures !VisitUpload(old(uploadSubscribed), user.Some?).subscribes ==> notifications.channel == old(notifications.channel)
      ensures currentRoute == old(currentRoute) && shownView == old(shownView)
      ensures hash == old(hash) && pathname == old(pathname)
    {
      if user.Some? && !uploadSubscribed {
        uploadSubscribed := true;
        notifications.Subscribe(user.value, true, EffectiveRole(role), None, hasBackend);
      }
    }

    /** The client dashboard's subscription, for the client's own id; nothing without a user. */
    method SetupClientNotifications(user: Option<string>, clientId: Option<string>, hasBackend: bool)
      requires Valid()
      modifies notifications
      ensures Valid()
      ensures user.Some? && hasBackend ==>
                notifications.channel == Some(Channel(ConfigFor(FilterFor("client", user.value, clientId)), "client", true))
      ensures user.None? ==> notifications.channel == old(notifications.channel)
    {
      if user.None? {
        return;
      }
      notifications.Subscribe(user.value, true, "client", clientId, hasBackend);
    }

    /**
     * Sign-out lowers the subscription flag, drops the channel and goes to /login;
     * sign-in with a user asks for re-routing (the result) only from the entry pages.
     */
    method HandleAuthChange(event: string, user: Option<string>, loc: Location, hasBackend: bool, pushThrows: bool)
      returns (reroute: bool)
      requires Valid()
      modifies this, notifications
      ensures Valid()
      ensures event == "SIGNED_OUT" ==>
                !uploadSubscribed && currentRoute == Some("/login") && shownView == Some("/login") && !reroute
                && (old(notifications.channel).Some? && hasBackend ==> notifications.channel == None)
      ensures event == "SIGNED_OUT" && UrlChangeFor(loc, "/login", true, pushThrows).SetHash? ==>
                hash == "/login" && pathname == old(pathname)
      ensures event == "SIGNED_OUT" && UrlChangeFor(loc, "/login", true, pushThrows).PushPath? ==>
                pathname == "/login" && hash == ""
      ensures event != "SIGNED_OUT" ==>
                reroute == (event == "SIGNED_IN" && user.Some? && ReroutesOnSignIn(old(hash), old(pathname)))
                && currentRoute == old(currentRoute) && uploadSubscribed == old(uploadSubscribed)
                && notifications.channel == old(notifications.channel)
                && shownView == old(shownView) && hash == old(hash) && pathname == old(pathname)
    {
      reroute := false;
      if event == "SIGNED_OUT" {
        uploadSubscribed := false;
        notifications.Unsubscribe(hasBackend);
        Navigate(loc, "/login", true, pushThrows);
      } else if event == "SIGNED_IN" && user.Some? {
        reroute := ReroutesOnSignIn(hash, pathname);
      }
    }
  }
}
