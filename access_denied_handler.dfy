/**
 * The ajax-aware access-denied handler: the callback a security filter chain
 * invokes when an authorization check rejects a request. It re-saves the
 * request for a remember-me user, then answers with nothing (response already
 * committed), a plain 403, or a redirect to the normal or the ajax error page.
 *
 * The servlet request, the response, the session and the security context
 * are not objects here: the handler receives their answers as values, and
 * `Handle` returns the session write and the response call it makes as a list
 * of actions, in order.
 */
module AccessDenied {
  import opened Wrappers
  import opened Decimal
  import opened RedirectUrl

  /** `HttpServletResponse.SC_FORBIDDEN`. */
  const Forbidden: int := 403

  /** The session attribute under which the saved request is stored. */
  const SavedRequestKey: string := "SPRING_SECURITY_SAVED_REQUEST_KEY"

  /** The header that marks an ajax request unless configured otherwise. */
  const DefaultAjaxHeader: string := "X-Requested-With"

  /** What the handler reads from the servlet request. */
  datatype Request = Request(
    scheme: string,
    serverName: string,
    serverPort: Int32,
    contextPath: string,
    requestUri: string,
    headers: map<string, string>)

  /** The denial signal; its message may itself be null. */
  datatype AccessDeniedError = AccessDeniedError(message: Option<string>)

  /** An authentication token; only the trust resolver interprets it. */
  datatype Authentication = Authentication(principal: string, authorities: set<string>)

  /** Computes the effective server port of a request (behind proxies it may differ from the container's). */
  datatype PortResolver = PortResolver(serverPort: Request -> Int32)

  /** Classifies an authentication as anonymous, remember-me, or neither. */
  datatype TrustResolver = TrustResolver(
    isAnonymous: Authentication -> bool,
    isRememberMe: Authentication -> bool)

  /** What the handler reads from the servlet response. */
  datatype Response = Response(committed: bool, encodeRedirectUrl: string -> string)

  /** A snapshot of the request as the login flow will replay it. */
  datatype SavedRequest = SavedRequest(request: Request, serverPort: Int32)

  /** The session write and the response calls the handler makes. */
  datatype Action =
    | SaveRequest(key: string, saved: SavedRequest)
    | SendError(status: int, message: Option<string>)
    | SendRedirect(location: string)

  /** An exception that escapes `Handle`. */
  datatype Failure = NullPointer

  /** The handler's configuration once it has passed its startup check. */
  datatype Settings = Settings(
    errorPage: Option<string>,
    ajaxErrorPage: Option<string>,
    ajaxHeader: string,
    portResolver: PortResolver,
    trustResolver: TrustResolver)

  /** A configured page is either absent or an application-relative path. */
  predicate IsPagePath(page: Option<string>) {
    page.None? || "/" <= page.value
  }

  /** There is a current authentication and it is not anonymous. */
  predicate IsLoggedIn(auth: Option<Authentication>, trust: TrustResolver) {
    match auth
    case None => false
    case Some(a) => !trust.isAnonymous(a)
  }

  /** A remember-me user was denied: the original request has to be saved again. */
  predicate RememberMeDenial(s: Settings, e: Option<AccessDeniedError>, auth: Option<Authentication>) {
    e.Some? && IsLoggedIn(auth, s.trustResolver) && s.trustResolver.isRememberMe(auth.value)
  }

  /** The session write that precedes any response, if there is one. */
  function SaveStep(s: Settings, request: Request, e: Option<AccessDeniedError>, auth: Option<Authentication>): seq<Action> {
    if RememberMeDenial(s, e, auth) then
      [SaveRequest(SavedRequestKey, SavedRequest(request, s.portResolver.serverPort(request)))]
    else
      []
  }

  /** The request is treated as ajax: an ajax page is configured and the ajax header is present. */
  predicate IsAjax(s: Settings, request: Request) {
    match s.ajaxErrorPage
    case None => false
    case Some(_) => s.ajaxHeader in request.headers
  }

  /** The page a denial is redirected to; none means a plain 403. */
  function ErrorTarget(s: Settings, request: Request): Option<string> {
    if IsAjax(s, request) then s.ajaxErrorPage else s.errorPage
  }

  /** Everything one denial does, in order, or the exception it ends in. */
  function Respond(
    s: Settings, request: Request, response: Response,
    e: Option<AccessDeniedError>, auth: Option<Authentication>): (r: Result<seq<Action>, Failure>)
    // the only exception: a null denial dereferenced on the plain-403 path
    ensures r.Err? <==> !response.committed && ErrorTarget(s, request).None? && e.None?
    // the session write, if any, comes first, and at most one response call follows it
    ensures r.Ok? ==> SaveStep(s, request, e, auth) <= r.value
                      && |r.value| <= |SaveStep(s, request, e, auth)| + 1
    // a response call is made exactly when the response is not yet committed
    ensures r.Ok? ==> (|r.value| == |SaveStep(s, request, e, auth)| <==> response.committed)
  {
    var saved := SaveStep(s, request, e, auth);
    if response.committed then
      Ok(saved)
    else
      match ErrorTarget(s, request)
      case None =>
        if e.None? then Err(NullPointer) else Ok(saved + [SendError(Forbidden, e.value.message)])
      case Some(page) =>
        var port := s.portResolver.serverPort(request);
        var url := BuildRedirectUrl(request.scheme, request.serverName, port, request.contextPath, page);
        Ok(saved + [SendRedirect(response.encodeRedirectUrl(url))])
  }

  class AjaxAwareAccessDeniedHandler {
    var errorPage: Option<string>
    var ajaxErrorPage: Option<string>
    var ajaxHeader: Option<string>
    var portResolver: Option<PortResolver>
    var trustResolver: Option<TrustResolver>

    /** The pages the setters admit. */
    ghost predicate Valid()
      reads this
    {
      IsPagePath(errorPage) && IsPagePath(ajaxErrorPage)
    }

    /** The collaborators the startup check demands are all present. */
    predicate Ready()
      reads this
    {
      ajaxHeader.Some? && portResolver.Some? && trustResolver.Some?
    }

    function Configured(): Settings
      reads this
      requires Ready()
    {
      Settings(errorPage, ajaxErrorPage, ajaxHeader.value, portResolver.value, trustResolver.value)
    }

    constructor ()
      ensures Valid() && !Ready()
      ensures errorPage == None && ajaxErrorPage == None && ajaxHeader == Some(DefaultAjaxHeader)
      ensures portResolver == None && trustResolver == None
    {
      errorPage := None;
      ajaxErrorPage := None;
      ajaxHeader := Some(DefaultAjaxHeader);
      portResolver := None;
      trustResolver := None;
    }

    /** Accepts null or a path starting with `/`; anything else is refused and changes nothing. */
    method SetErrorPage(page: Option<string>) returns (accepted: bool)
      requires Valid()
      modifies this`errorPage
      ensures Valid()
      ensures accepted <==> page.None? || (|page.value| > 0 && page.value[0] == '/')
      ensures errorPage == if accepted then page else old(errorPage)
    {
      accepted := IsPagePath(page);
      if accepted {
        errorPage := page;
      }
    }

    /** The same check for the ajax error page. */
    method SetAjaxErrorPage(page: Option<string>) returns (accepted: bool)
      requires Valid()
      modifies this`ajaxErrorPage
      ensures Valid()
      ensures accepted <==> page.None? || (|page.value| > 0 && page.value[0] == '/')
      ensures ajaxErrorPage == if accepted then page else old(ajaxErrorPage)
    {
      accepted := IsPagePath(page);
      if accepted {
        ajaxErrorPage := page;
      }
    }

    method SetAjaxHeader(header: Option<string>)
      requires Valid()
      modifies this`ajaxHeader
      ensures Valid()
      ensures ajaxHeader == header
    {
      ajaxHeader := header;
    }

    method SetPortResolver(resolver: Option<PortResolver>)
      requires Valid()
      modifies this`portResolver
      ensures Valid()
      ensures portResolver == resolver
    {
      portResolver := resolver;
    }

    method SetTrustResolver(resolver: Option<TrustResolver>)
      requires Valid()
      modifies this`trustResolver
      ensures Valid()
      ensures trustResolver == resolver
    {
      trustResolver := resolver;
    }

    /** The startup check: fails on the first missing collaborator, in declaration order. */
    method AfterPropertiesSet() returns (result: Outcome<string>)
      ensures result.Pass? <==> Ready()
      ensures ajaxHeader.None? ==> result == Fail("ajaxHeader is required")
      ensures ajaxHeader.Some? && portResolver.None? ==> result == Fail("portResolver is required")
      ensures ajaxHeader.Some? && portResolver.Some? && trustResolver.None?
              ==> result == Fail("authenticationTrustResolver is required")
    {
      if ajaxHeader.None? {
        return Fail("ajaxHeader is required");
      }
      if portResolver.None? {
        return Fail("portResolver is required");
      }
      if trustResolver.None? {
        return Fail("authenticationTrustResolver is required");
      }
      return Pass;
    }

    /** Handles one denial; the result lists the session write and the response call, in order. */
    method Handle(request: Request, response: Response, e: Option<AccessDeniedError>, auth: Option<Authentication>)
      returns (outcome: Result<seq<Action>, Failure>)
      requires Valid() && Ready()
      ensures outcome == Respond(Configured(), request, response, e, auth)
    {
      var actions: seq<Action> := [];
      var trust := trustResolver.value;
      if e.Some? && IsLoggedIn(auth, trust) && trust.isRememberMe(auth.value) {
        var saved := SavedRequest(request, portResolver.value.serverPort(request));
        actions := actions + [SaveRequest(SavedRequestKey, saved)];
      }
      assert actions == SaveStep(Configured(), request, e, auth);

      if response.committed {
        return Ok(actions);
      }

      var ajaxError := ajaxErrorPage.Some? && ajaxHeader.value in request.headers;
      if errorPage.None? && !ajaxError {
        if e.None? {
          return Err(NullPointer);
        }
        return Ok(actions + [SendError(Forbidden, e.value.message)]);
      }

      var includePort := true;
      var scheme := request.scheme;
      var serverName := request.serverName;
      var serverPort := portResolver.value.serverPort(request);
      var contextPath := request.contextPath;
      var inHttp := Lower(scheme) == "http";
      var inHttps := Lower(scheme) == "https";

      if inHttp && serverPort == 80 {
        includePort := false;
      } else if inHttps && serverPort == 443 {
        includePort := false;
      }

      var redirectUrl := scheme + "://" + serverName + (if includePort then ":" + IntToString(serverPort) else "") + contextPath;
      if ajaxError {
        redirectUrl := redirectUrl + ajaxErrorPage.value;
      } else if errorPage.Some? {
        redirectUrl := redirectUrl + errorPage.value;
      }
      return Ok(actions + [SendRedirect(response.encodeRedirectUrl(redirectUrl))]);
    }
  }

  /**
   * The saved request is written exactly for a remember-me user denied with
   * a non-null exception, before anything else and whether or not the
   * response is committed; no other action writes the session.
   */
  lemma RememberMeSaveIff(s: Settings, request: Request, response: Response, e: Option<AccessDeniedError>, auth: Option<Authentication>)
    ensures var outcome := Respond(s, request, response, e, auth);
            (outcome.Ok? && |outcome.value| > 0 && outcome.value[0].SaveRequest?)
            <==> (e.Some? && auth.Some? && !s.trustResolver.isAnonymous(auth.value)
                  && s.trustResolver.isRememberMe(auth.value))
    ensures var outcome := Respond(s, request, response, e, auth);
            outcome.Ok? ==> forall i :: 0 < i < |outcome.value| ==> !outcome.value[i].SaveRequest?
    ensures var outcome := Respond(s, request, response, e, auth);
            outcome.Ok? && |outcome.value| > 0 && outcome.value[0].SaveRequest? ==>
              outcome.value[0] == SaveRequest(SavedRequestKey, SavedRequest(request, s.portResolver.serverPort(request)))
  {
  }

  /** A committed response gets neither an error nor a redirect, and nothing is thrown. */
  lemma CommittedSendsNothing(s: Settings, request: Request, response: Response, e: Option<AccessDeniedError>, auth: Option<Authentication>)
    requires response.committed
    ensures var outcome := Respond(s, request, response, e, auth);
            outcome.Ok? && forall i :: 0 <= i < |outcome.value| ==> outcome.value[i].SaveRequest?
  {
  }

  /**
   * With no error page and a request that is not ajax, the only response is
   * a 403 carrying the exception's message; a null exception is dereferenced
   * on this path and escapes as a null-pointer failure.
   */
  lemma ForbiddenWithoutPage(s: Settings, request: Request, response: Response, e: Option<AccessDeniedError>, auth: Option<Authentication>)
    requires !response.committed && s.errorPage.None?
    requires s.ajaxErrorPage.None? || s.ajaxHeader !in request.headers
    ensures e.None? ==> Respond(s, request, response, e, auth) == Err(NullPointer)
    ensures e.Some? ==> Respond(s, request, response, e, auth)
                        == Ok(SaveStep(s, request, e, auth) + [SendError(Forbidden, e.value.message)])
  {
  }

  /** With neither page configured, every uncommitted denial ends in a 403, whatever headers the request carries. */
  lemma AlwaysForbiddenWithoutPages(s: Settings, request: Request, response: Response, e: AccessDeniedError, auth: Option<Authentication>)
    requires s.errorPage.None? && s.ajaxErrorPage.None? && !response.committed
    ensures var outcome := Respond(s, request, response, Some(e), auth);
            outcome.Ok? && |outcome.value| > 0
            && outcome.value[|outcome.value| - 1] == SendError(Forbidden, e.message)
            && forall i :: 0 <= i < |outcome.value| ==> !outcome.value[i].SendRedirect?
  {
  }

  /** An ajax request (ajax page set, header present) is redirected to the ajax page, never the error page. */
  lemma AjaxRequestRedirect(s: Settings, request: Request, response: Response, e: Option<AccessDeniedError>, auth: Option<Authentication>)
    requires !response.committed && s.ajaxErrorPage.Some? && s.ajaxHeader in request.headers
    ensures Respond(s, request, response, e, auth)
            == Ok(SaveStep(s, request, e, auth) + [SendRedirect(response.encodeRedirectUrl(
                 BuildRedirectUrl(request.scheme, request.serverName, s.portResolver.serverPort(request),
                                  request.contextPath, s.ajaxErrorPage.value)))])
  {
  }

  /** Any other request, with an error page set, is redirected to the error page. */
  lemma ErrorPageRedirect(s: Settings, request: Request, response: Response, e: Option<AccessDeniedError>, auth: Option<Authentication>)
    requires !response.committed && s.errorPage.Some?
    requires s.ajaxErrorPage.None? || s.ajaxHeader !in request.headers
    ensures Respond(s, request, response, e, auth)
            == Ok(SaveStep(s, request, e, auth) + [SendRedirect(response.encodeRedirectUrl(
                 BuildRedirectUrl(request.scheme, request.serverName, s.portResolver.serverPort(request),
                                  request.contextPath, s.errorPage.value)))])
  {
  }

  /**
   * Without a current authentication, or with an anonymous one, nothing is
   * saved, and the outcome does not depend on what the remember-me test
   * would answer: the login test decides first.
   */
  lemma NoSaveUnlessLoggedIn(
    s: Settings, request: Request, response: Response, e: Option<AccessDeniedError>,
    auth: Option<Authentication>, rememberMe: Authentication -> bool)
    requires auth.None? || s.trustResolver.isAnonymous(auth.value)
    ensures var outcome := Respond(s, request, response, e, auth);
            outcome.Ok? ==> forall i :: 0 <= i < |outcome.value| ==> !outcome.value[i].SaveRequest?
    ensures var other := s.(trustResolver := TrustResolver(s.trustResolver.isAnonymous, rememberMe));
            Respond(s, request, response, e, auth) == Respond(other, request, response, e, auth)
  {
  }

  /**
   * Ajax treatment needs both an ajax page and the header: without an ajax
   * page the header's name is irrelevant, and without the header the ajax
   * page is irrelevant.
   */
  lemma AjaxNeedsPageAndHeader(
    s: Settings, request: Request, response: Response, e: Option<AccessDeniedError>,
    auth: Option<Authentication>, otherHeader: string)
    ensures s.ajaxErrorPage.None? ==>
              Respond(s, request, response, e, auth)
              == Respond(s.(ajaxHeader := otherHeader), request, response, e, auth)
    ensures s.ajaxHeader !in request.headers ==>
              Respond(s, request, response, e, auth)
              == Respond(s.(ajaxErrorPage := None), request, response, e, auth)
  {
  }

  /**
   * With the pages the setters admit, the page appended after the context
   * path on the redirect path always begins with `/`.
   */
  lemma RedirectPageIsPath(s: Settings, request: Request)
    requires IsPagePath(s.errorPage) && IsPagePath(s.ajaxErrorPage)
    ensures ErrorTarget(s, request).Some? ==>
              |ErrorTarget(s, request).value| > 0 && ErrorTarget(s, request).value[0] == '/'
  {
  }
}
