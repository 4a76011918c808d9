/**
 * The absolute redirect URL that the access-denied handler builds:
 * `scheme://serverName[:port]contextPath` followed by an error page, where
 * the port is left out when it is the scheme's default one.
 */
module RedirectUrl {
  import opened Wrappers
  import opened Decimal

  /** `Character.toLowerCase` restricted to ASCII letters. */
  function LowerChar(c: char): char {
    if 'A' <= c <= 'Z' then (c as int - 'A' as int + 'a' as int) as char else c
  }

  /** `String.toLowerCase`, character by character. */
  function Lower(s: string): string {
    seq(|s|, i requires 0 <= i < |s| => LowerChar(s[i]))
  }

  /** The port a browser assumes for a lower-case scheme, if the scheme has one here. */
  function DefaultPort(lowerScheme: string): Option<int> {
    if lowerScheme == "http" then Some(80)
    else if lowerScheme == "https" then Some(443)
    else None
  }

  /** The port is omitted exactly when it is the default one of the scheme, compared case-insensitively. */
  predicate OmitsPort(scheme: string, port: Int32) {
    DefaultPort(Lower(scheme)) == Some(port)
  }

  /** The text between the server name and the context path. */
  function PortSegment(scheme: string, port: Int32): string {
    if OmitsPort(scheme, port) then "" else ":" + IntToString(port)
  }

  /** The redirect target for `page`; the scheme keeps the case the request gave it. */
  function BuildRedirectUrl(scheme: string, serverName: string, port: Int32, contextPath: string, page: string): (url: string)
    ensures |url| >= |scheme| + 3 + |serverName| + |contextPath| + |page|
    ensures url[..|scheme|] == scheme && url[|scheme|..|scheme| + 3] == "://"
    ensures url[|url| - |page|..] == page
  {
    scheme + "://" + serverName + PortSegment(scheme, port) + contextPath + page
  }

  /** Reads back the port from the segment between the server name and the context path. */
  function ExplicitPort(segment: string): Option<int> {
    if |segment| > 0 && segment[0] == ':' then ParseInt(segment[1..]) else None
  }

  /** The `:port` segment is absent exactly for http on 80 and https on 443, whatever the scheme's case. */
  lemma PortOmittedIff(scheme: string, port: Int32)
    ensures PortSegment(scheme, port) == ""
        <==> (Lower(scheme) == "http" && port == 80) || (Lower(scheme) == "https" && port == 443)
  {
  }

  /** The port segment is empty for a default port and otherwise reads back as the port. */
  lemma PortSegmentReadsBack(scheme: string, port: Int32)
    ensures PortSegment(scheme, port) == "" <==> OmitsPort(scheme, port)
    ensures !OmitsPort(scheme, port) ==> ExplicitPort(PortSegment(scheme, port)) == Some(port as int)
  {
    if !OmitsPort(scheme, port) {
      var segment := PortSegment(scheme, port);
      ParseIntToString(port);
      assert segment[1..] == IntToString(port);
    }
  }

  /** The URL splits back into the pieces it was built from, in order. */
  lemma RedirectUrlParts(scheme: string, serverName: string, port: Int32, contextPath: string, page: string)
    ensures var url := BuildRedirectUrl(scheme, serverName, port, contextPath, page);
            var start := |scheme| + 3 + |serverName|;
            var end := |url| - |page| - |contextPath|;
            && start <= end
            && url[..|scheme|] == scheme
            && url[|scheme|..|scheme| + 3] == "://"
            && url[|scheme| + 3..start] == serverName
            && url[start..end] == PortSegment(scheme, port)
            && url[end..|url| - |page|] == contextPath
            && url[|url| - |page|..] == page
  {
    var url := BuildRedirectUrl(scheme, serverName, port, contextPath, page);
    var head := scheme + "://";
    ConcatSlices(head, serverName, PortSegment(scheme, port), contextPath, page);
    assert url[..|scheme|] == scheme by {
      assert url[..|head|] == head;
      assert url[..|scheme|] == head[..|scheme|];
    }
    assert url[|scheme|..|scheme| + 3] == "://" by {
      assert url[..|head|] == head;
      assert url[|scheme|..|scheme| + 3] == head[|scheme|..];
    }
  }

  /**
   * The segment between the server name and the context path is empty
   * exactly for a default port, and otherwise reads back as the resolved
   * port verbatim.
   */
  lemma RedirectUrlPort(scheme: string, serverName: string, port: Int32, contextPath: string, page: string)
    ensures var url := BuildRedirectUrl(scheme, serverName, port, contextPath, page);
            var start := |scheme| + 3 + |serverName|;
            var end := |url| - |page| - |contextPath|;
            && start <= end
            && (url[start..end] == "" <==> OmitsPort(scheme, port))
            && (!OmitsPort(scheme, port) ==> ExplicitPort(url[start..end]) == Some(port as int))
  {
    RedirectUrlParts(scheme, serverName, port, contextPath, page);
    PortSegmentReadsBack(scheme, port);
  }

  /** Where each of five concatenated pieces sits in the whole. */
  lemma ConcatSlices(a: string, b: string, c: string, d: string, e: string)
    ensures var s := a + b + c + d + e;
            var i, j, k, l := |a|, |a| + |b|, |a| + |b| + |c|, |a| + |b| + |c| + |d|;
            && |s| == l + |e|
            && s[..i] == a && s[i..j] == b && s[j..k] == c && s[k..l] == d && s[l..] == e
  {
    var s := a + b + c + d + e;
    var i, j, k, l := |a|, |a| + |b|, |a| + |b| + |c|, |a| + |b| + |c| + |d|;
    assert s == (((a + b) + c) + d) + e;
    assert s[..l] == ((a + b) + c) + d;
    assert s[..k] == (a + b) + c;
    assert s[..j] == a + b;
    assert s[i..j] == s[..j][i..];
    assert s[j..k] == s[..k][j..];
    assert s[k..l] == s[..l][k..];
  }

  /** Example: https on its default port, empty context path. */
  lemma ExampleHttpsDefaultPort()
    ensures BuildRedirectUrl("https", "example.com", 443, "", "/login/deniedAjax")
         == "https://example.com/login/deniedAjax"
  {
    assert Lower("https") == "https";
  }

  /** Example: http on a non-default port keeps `:8080`. */
  lemma ExampleHttpOtherPort()
    ensures BuildRedirectUrl("http", "host", 8080, "/app", "/denied") == "http://host:8080/app/denied"
  {
    assert Lower("http") == "http";
    assert NatToDecimal(8) == "8";
    assert 80 / 10 == 8 && 80 % 10 == 0 && DigitChar(0) == '0';
    assert NatToDecimal(80) == "80";
    assert 808 / 10 == 80 && 808 % 10 == 8;
    assert NatToDecimal(808) == "808";
    assert 8080 / 10 == 808 && 8080 % 10 == 0;
    assert NatToDecimal(8080) == "8080";
    assert IntToString(8080) == "8080";
    assert !OmitsPort("http", 8080);
    assert PortSegment("http", 8080) == ":8080";
    assert "http" + "://" + "host" + ":8080" + "/app" + "/denied" == "http://host:8080/app/denied";
  }

  /** Example: the comparison ignores case, the URL keeps it. */
  lemma ExampleUpperCaseScheme()
    ensures BuildRedirectUrl("HTTP", "host", 80, "", "/denied") == "HTTP://host/denied"
  {
    assert Lower("HTTP") == "http";
  }
}
