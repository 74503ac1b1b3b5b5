/** The pure string building of the web server: the HTTP to HTTPS redirect and template URLs. */
module Web {
  import opened Bot

  /** The host the redirect points at: the redirect base when one is configured, else the HTTPS address. */
  function RedirectHost(cfg: Config): (host: string)
    ensures cfg.httpRedirectBase != "" ==> host == cfg.httpRedirectBase
    ensures cfg.httpRedirectBase == "" ==> host == cfg.httpsAddr
  {
    if cfg.httpRedirectBase != "" then cfg.httpRedirectBase else cfg.httpsAddr
  }

  /** `redirectHandler`'s target for a request with this URL path and raw query. */
  function RedirectTarget(cfg: Config, path: string, rawQuery: string): (t: string)
    ensures var prefix := "https://" + RedirectHost(cfg);
      |prefix| + |path| <= |t| && t[..|prefix|] == prefix && t[|prefix|..|prefix| + |path|] == path
    ensures |t| > |"https://" + RedirectHost(cfg)| + |path| <==> |rawQuery| > 0
  {
    "https://" + RedirectHost(cfg) + path + (if |rawQuery| > 0 then "?" + rawQuery else "")
  }

  /** Position of the first `c` in `s`, or `|s|`. */
  function IndexOfChar(s: string, c: char): (k: nat)
    ensures k <= |s| && (k < |s| ==> s[k] == c)
    ensures forall i :: 0 <= i < k ==> s[i] != c
  {
    if s == [] || s[0] == c then 0 else 1 + IndexOfChar(s[1..], c)
  }

  /** A URL's path-and-query part split at its first "?" into path and raw query. */
  function SplitQuery(s: string): (string, string) {
    var k := IndexOfChar(s, '?');
    if k < |s| then (s[..k], s[k + 1..]) else (s, "")
  }

  /**
   * The target is "https://", the redirect host, then the request's path and query; the
   * query travels after a "?" exactly when it is non-empty, so splitting the target's tail
   * at its first "?" gives back the path and the raw query.
   */
  lemma RedirectTargetSplits(cfg: Config, path: string, rawQuery: string)
    requires forall i :: 0 <= i < |path| ==> path[i] != '?'
    ensures var prefix := "https://" + RedirectHost(cfg);
      var t := RedirectTarget(cfg, path, rawQuery);
      |prefix| <= |t| && t[..|prefix|] == prefix && SplitQuery(t[|prefix|..]) == (path, rawQuery)
  {
    var prefix := "https://" + RedirectHost(cfg);
    var t := RedirectTarget(cfg, path, rawQuery);
    var tail := t[|prefix|..];
    if |rawQuery| > 0 {
      assert tail == path + "?" + rawQuery;
      assert IndexOfChar(tail, '?') == |path| by {
        assert tail[|path|] == '?';
        assert forall i :: 0 <= i < |path| ==> tail[i] == path[i];
      }
      assert tail[..|path|] == path;
      assert tail[|path| + 1..] == rawQuery;
    } else {
      assert tail == path;
    }
  }

  /** The redirect web_test.go checks: "/test?foo" goes to the same path and query on the HTTPS address. */
  lemma RedirectOfTestRequest(cfg: Config)
    requires cfg.httpRedirectBase == ""
    ensures RedirectTarget(cfg, "/test", "foo") == "https://" + cfg.httpsAddr + "/test?foo"
  {
  }

  /**
   * `urlFunc` as written: the absolute URL of `uri` on the HTTPS address, but with the
   * "http" scheme (see `UrlNamesTlsAddressOverHttp`).
   */
  function Url(cfg: Config, uri: string): (u: string)
    ensures |u| == 8 + |cfg.httpsAddr| + |uri|
    ensures u[..7] == "http://" && u[7..7 + |cfg.httpsAddr|] == cfg.httpsAddr
    ensures u[7 + |cfg.httpsAddr|..] == "/" + uri
  {
    "http://" + cfg.httpsAddr + "/" + uri
  }

  /**
   * The URL `urlFunc` evidently means: the same address and path under the "https" scheme,
   * the only scheme the TLS listener on the HTTPS address understands, and the form the
   * OAuth redirect URL already uses (auth.go:90).
   */
  function SecureUrl(cfg: Config, uri: string): (u: string)
    ensures |u| == 9 + |cfg.httpsAddr| + |uri|
    ensures u[..8] == "https://" && u[8..8 + |cfg.httpsAddr|] == cfg.httpsAddr
    ensures u[8 + |cfg.httpsAddr|..] == "/" + uri
  {
    "https://" + cfg.httpsAddr + "/" + uri
  }

  /**
   * As written, a template URL names the TLS listener's address under the plain "http"
   * scheme: it differs from the secure URL of the same address and path, and only in the
   * scheme.
   */
  lemma UrlNamesTlsAddressOverHttp(cfg: Config, uri: string)
    ensures var url := Url(cfg, uri);
      url != SecureUrl(cfg, uri) && "https://" + url[|"http://"|..] == SecureUrl(cfg, uri)
  {
    var url := Url(cfg, uri);
    assert url[4] == ':' && SecureUrl(cfg, uri)[4] == 's';
    assert url[7..] == cfg.httpsAddr + "/" + uri;
  }

  /**
   * The corrected URL is exactly where the redirector sends a plain request for the same
   * path when no redirect base is configured, so both name one resource over HTTPS.
   */
  lemma SecureUrlIsRedirectTarget(cfg: Config, uri: string)
    ensures SecureUrl(cfg, uri) == RedirectTarget(cfg.(httpRedirectBase := ""), "/" + uri, "")
  {
    assert RedirectHost(cfg.(httpRedirectBase := "")) == cfg.httpsAddr;
  }
}
