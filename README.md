# Ajax-aware access-denied handler, modelled in Dafny

This project models `AjaxAwareAccessDeniedHandler`, the access-denied callback
of the Grails Spring Security plugin. When an authorization check rejects a
request, the handler runs a fixed, ordered decision:

1. If the denial exception is non-null and the current authentication is
   present, not anonymous, and remember-me, it stores a saved request in the
   session under the saved-request key. This happens before anything else.
2. If the response is already committed, it stops.
3. A request is *ajax* when an ajax error page is configured and the
   configured ajax header is present.
4. With no error page and a non-ajax request, it sends `403` with the
   exception's message.
5. Otherwise it redirects to `scheme://serverName[:port]contextPath` followed
   by the ajax page (ajax request) or the error page. The port is left out for
   `http` on 80 and `https` on 443, comparing the scheme case-insensitively.

The setters validate the pages (null or starting with `/`), and
`afterPropertiesSet` requires the ajax header, the port resolver and the trust
resolver.

Files:

- `wrappers.dfy`: `Option` (a nullable reference), `Result` (normal completion
  or an escaped exception) and `Outcome` (a validation that passed or failed).
- `decimal.dfy`: Java's `String.valueOf(int)` as `IntToString`, with the
  decimal parser `ParseInt` as its inverse.
- `redirect_url.dfy`: the port-omission rule and the concatenation of the
  redirect URL, with a lemma that splits the URL back into its pieces.
- `access_denied_handler.dfy`: the handler class (configuration fields,
  setters, startup check, `Handle`). `Handle` is written imperatively: early
  returns, and locals `includePort` and `redirectUrl` updated step by step.
  It is proved equal to the pure function `Respond`, and the lemmas state the
  handler's promises about `Respond`. `isLoggedIn` is the predicate
  `IsLoggedIn`; what it decides is stated by `NoSaveUnlessLoggedIn`.

`Handle` does not write to a session or a response. It returns the actions it
performs, in order: `SaveRequest(key, savedRequest)`, `SendError(403, message)`,
`SendRedirect(encodedUrl)`. An exception that escapes is an `Err`.

On the plain-403 path the code calls `e.getMessage()` (line 67), so a null
exception there is modelled as a null-pointer failure (`Err(NullPointer)`),
not as a 403.

## Model

| member | source | states |
|---|---|---|
| Decimal.NatToDecimal | src/java/org/codehaus/groovy/grails/plugins/springsecurity/AjaxAwareAccessDeniedHandler.java:86 | the decimal text of a port is non-empty, made of digits, without a leading zero, and is "0" exactly for zero |
| Decimal.IntToString | src/java/org/codehaus/groovy/grails/plugins/springsecurity/AjaxAwareAccessDeniedHandler.java:86 | `":" + serverPort` writes a minus sign exactly for negative ports, followed by canonical digits |
| Decimal.ParseIntToString | src/java/org/codehaus/groovy/grails/plugins/springsecurity/AjaxAwareAccessDeniedHandler.java:86 | parsing the port text gives back the port, for every int |
| Decimal.IntToStringOfParse | src/java/org/codehaus/groovy/grails/plugins/springsecurity/AjaxAwareAccessDeniedHandler.java:86 | every canonical decimal text is the text of the number it denotes (the converse round trip) |
| RedirectUrl.BuildRedirectUrl | src/java/org/codehaus/groovy/grails/plugins/springsecurity/AjaxAwareAccessDeniedHandler.java:86-92 | the URL starts with the scheme in its original case followed by "://", and ends with the appended page |
| RedirectUrl.PortOmittedIff | src/java/org/codehaus/groovy/grails/plugins/springsecurity/AjaxAwareAccessDeniedHandler.java:71-84 | the port segment is empty iff the lower-cased scheme is http and the port 80, or https and 443 |
| RedirectUrl.PortSegmentReadsBack | src/java/org/codehaus/groovy/grails/plugins/springsecurity/AjaxAwareAccessDeniedHandler.java:79-86 | the port segment is empty iff the port is the scheme's default, and otherwise is ":" followed by text that reads back as the port |
| RedirectUrl.RedirectUrlParts | src/java/org/codehaus/groovy/grails/plugins/springsecurity/AjaxAwareAccessDeniedHandler.java:72-86 | the URL splits back, in order, into the scheme, "://", the server name, the port segment, the context path and the page |
| RedirectUrl.RedirectUrlPort | src/java/org/codehaus/groovy/grails/plugins/springsecurity/AjaxAwareAccessDeniedHandler.java:71-86 | inside the URL, the text between server name and context path is empty iff the port is omitted, and otherwise names the resolved port verbatim |
| RedirectUrl.ExampleHttpsDefaultPort | src/java/org/codehaus/groovy/grails/plugins/springsecurity/AjaxAwareAccessDeniedHandler.java:79-86 | https on 443 with an empty context path gives `https://example.com/login/deniedAjax` |
| RedirectUrl.ExampleHttpOtherPort | src/java/org/codehaus/groovy/grails/plugins/springsecurity/AjaxAwareAccessDeniedHandler.java:79-86 | http on 8080 under `/app` gives `http://host:8080/app/denied` |
| RedirectUrl.ExampleUpperCaseScheme | src/java/org/codehaus/groovy/grails/plugins/springsecurity/AjaxAwareAccessDeniedHandler.java:76-86 | scheme `HTTP` on 80 omits the port yet keeps its upper case in the URL |
| AccessDenied.AjaxAwareAccessDeniedHandler.constructor | src/java/org/codehaus/groovy/grails/plugins/springsecurity/AjaxAwareAccessDeniedHandler.java:38-42 | a new handler has no pages, the default ajax header `X-Requested-With` and no resolvers, so it is not ready |
| AccessDenied.AjaxAwareAccessDeniedHandler.SetErrorPage | src/java/org/codehaus/groovy/grails/plugins/springsecurity/AjaxAwareAccessDeniedHandler.java:113-116 | accepts exactly null or a page starting with `/`; a refused page leaves the field unchanged; the page invariant is kept |
| AccessDenied.AjaxAwareAccessDeniedHandler.SetAjaxErrorPage | src/java/org/codehaus/groovy/grails/plugins/springsecurity/AjaxAwareAccessDeniedHandler.java:122-125 | the same rule for the ajax error page |
| AccessDenied.AjaxAwareAccessDeniedHandler.SetAjaxHeader | src/java/org/codehaus/groovy/grails/plugins/springsecurity/AjaxAwareAccessDeniedHandler.java:131-133 | sets the header name, null included, and nothing else |
| AccessDenied.AjaxAwareAccessDeniedHandler.SetPortResolver | src/java/org/codehaus/groovy/grails/plugins/springsecurity/AjaxAwareAccessDeniedHandler.java:139-141 | sets the port resolver and nothing else |
| AccessDenied.AjaxAwareAccessDeniedHandler.SetTrustResolver | src/java/org/codehaus/groovy/grails/plugins/springsecurity/AjaxAwareAccessDeniedHandler.java:147-149 | sets the trust resolver and nothing else |
| AccessDenied.AjaxAwareAccessDeniedHandler.AfterPropertiesSet | src/java/org/codehaus/groovy/grails/plugins/springsecurity/AjaxAwareAccessDeniedHandler.java:155-159 | passes iff ajax header, port resolver and trust resolver are all set; otherwise fails naming the first missing one |
| AccessDenied.AjaxAwareAccessDeniedHandler.Handle | src/java/org/codehaus/groovy/grails/plugins/springsecurity/AjaxAwareAccessDeniedHandler.java:50-94 | the step-by-step handler performs exactly the actions, or throws exactly the failure, that the decision `Respond` prescribes |
| AccessDenied.NoSaveUnlessLoggedIn | src/java/org/codehaus/groovy/grails/plugins/springsecurity/AjaxAwareAccessDeniedHandler.java:101-107 | with no authentication or an anonymous one nothing is saved, and the outcome is the same whatever the remember-me test would answer |
| AccessDenied.AjaxNeedsPageAndHeader | src/java/org/codehaus/groovy/grails/plugins/springsecurity/AjaxAwareAccessDeniedHandler.java:65 | ajax treatment needs both parts of the test: with no ajax page the header name changes nothing, and with the header absent the outcome is as if no ajax page were configured |
| AccessDenied.RedirectPageIsPath | src/java/org/codehaus/groovy/grails/plugins/springsecurity/AjaxAwareAccessDeniedHandler.java:113-125 | with pages the setters accept, the page appended after the context path on the redirect path begins with `/` |
| AccessDenied.Respond | src/java/org/codehaus/groovy/grails/plugins/springsecurity/AjaxAwareAccessDeniedHandler.java:50-94 | the only exception is a null denial on the uncommitted plain-403 path; the session write, if any, comes first; a response call (403 or redirect) follows exactly when the response is not committed, and there is at most one |
| AccessDenied.RememberMeSaveIff | src/java/org/codehaus/groovy/grails/plugins/springsecurity/AjaxAwareAccessDeniedHandler.java:53-59 | the saved request is written iff the exception is non-null and the authentication is present, not anonymous and remember-me; it comes first, is stored under the saved-request key with the resolved port, and no other action writes the session |
| AccessDenied.CommittedSendsNothing | src/java/org/codehaus/groovy/grails/plugins/springsecurity/AjaxAwareAccessDeniedHandler.java:61-63 | on a committed response nothing is thrown and the only possible action is the session write |
| AccessDenied.ForbiddenWithoutPage | src/java/org/codehaus/groovy/grails/plugins/springsecurity/AjaxAwareAccessDeniedHandler.java:65-69 | with no error page and a non-ajax request the response is a single 403 with the exception's message; a null exception escapes as a null-pointer failure |
| AccessDenied.AlwaysForbiddenWithoutPages | src/java/org/codehaus/groovy/grails/plugins/springsecurity/AjaxAwareAccessDeniedHandler.java:65-69 | with both pages null, every uncommitted denial ends in a 403 and never redirects, whatever headers are present |
| AccessDenied.AjaxRequestRedirect | src/java/org/codehaus/groovy/grails/plugins/springsecurity/AjaxAwareAccessDeniedHandler.java:87-89 | an ajax request (ajax page set, header present) is redirected to the encoded URL ending in the ajax page, even when an error page is set |
| AccessDenied.ErrorPageRedirect | src/java/org/codehaus/groovy/grails/plugins/springsecurity/AjaxAwareAccessDeniedHandler.java:90-92 | a non-ajax request with an error page set is redirected to the encoded URL ending in the error page |

## Left out

- Servlet I/O: how `sendError`, `sendRedirect` and `encodeRedirectURL` write to the wire is not modelled. The sends are recorded actions. `encodeRedirectURL` is a function value supplied with the response.
- The session store and `DefaultSavedRequest` internals are library code. The saved request is a value holding the request and its resolved port. Its key is the named constant `SavedRequestKey`, spelled as in Spring Security 3.0.
- The thread-local security-context lookup (lines 96-99) is not modelled. The current authentication, or its absence, is a parameter of `Handle`; a null context counts as absence.
- `PortResolver` and `AuthenticationTrustResolver` are foreign interfaces. They are uninterpreted function values; only what the handler does with their answers is modelled.
- `AjaxAwareAuthenticationEntryPoint.AJAX_HEADER` is not part of this model. The default header is the constant `X-Requested-With`, as the setter's documentation states.
- The exception types and messages of Spring's `Assert` are not modelled. A refused page is the setter's `false` result, and a failed startup check is `Fail(message)`.
- AccessDenied.AjaxAwareAccessDeniedHandler.Handle: requires that the startup check has passed (ajax header, port resolver and trust resolver set), and the page invariant that the constructor establishes and every setter keeps. Without that, the null-pointer failures on those fields are not modelled.
- Scheme lower-casing (`RedirectUrl.Lower`) covers ASCII letters only. Java's locale-dependent `toLowerCase` can also change other characters. No such change can make a scheme equal to `http` or `https`.
- Header lookup uses the exact header name. Servlet containers usually match header names case-insensitively.
- The source's last fallback on the redirect path (error page null, so nothing appended) cannot be reached. Earlier checks route that case to the 403 path. `Handle` keeps the branch; `Respond` does not need it.
