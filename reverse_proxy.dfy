/** The reverse proxy's own logic (backend/src/proxy/reverseProxy.js): the path rewrite and
    the response record it hands to the metrics state. */
module ReverseProxy {
  import opened Common
  import opened JsStrings
  import MetricsState

  /** `rewritten || '/'`. */
  function OrRoot(rewritten: string): string
  {
    if rewritten == "" then "/" else rewritten
  }

  /** `pathRewrite(path, req)`: `originalUrl` and `gatewayPrefix` are the request's
      `originalUrl` and `_gatewayPathPrefix`, `stripPrefix` the proxy's own setting. */
  function PathRewrite(path: string, originalUrl: Option<string>, gatewayPrefix: Option<string>, stripPrefix: string)
    : (r: string)
  {
    var prefix := OrString(gatewayPrefix, stripPrefix);
    var url := OrString(originalUrl, "");
    if prefix != "" && url != "" && StartsWith(url, prefix) then OrRoot(ReplaceFirst(url, prefix, ""))
    else if stripPrefix != "" && StartsWith(path, stripPrefix) then OrRoot(ReplaceFirst(path, stripPrefix, ""))
    else path
  }

  /** The rewrite, case by case:
      when the original URL starts with the prefix in use (the request's own prefix, or the
      proxy's when the request has none), the result is the rest of that URL;
      otherwise, when the path starts with the proxy's prefix, the result is the rest of the
      path;
      otherwise the path is unchanged.
      A rest that is empty becomes "/"; a rest that is not, put back behind its prefix, gives
      the string it came from. */
  lemma PathRewriteCases(path: string, originalUrl: Option<string>, gatewayPrefix: Option<string>, stripPrefix: string)
    ensures var prefix := OrString(gatewayPrefix, stripPrefix);
            var url := OrString(originalUrl, "");
            var r := PathRewrite(path, originalUrl, gatewayPrefix, stripPrefix);
            && (prefix != "" && StartsWith(url, prefix) ==>
                  r == OrRoot(url[|prefix|..]) && (r == "/" || prefix + r == url))
            && (!(prefix != "" && StartsWith(url, prefix)) && stripPrefix != "" && StartsWith(path, stripPrefix) ==>
                  r == OrRoot(path[|stripPrefix|..]) && (r == "/" || stripPrefix + r == path))
            && (!(prefix != "" && StartsWith(url, prefix)) && !(stripPrefix != "" && StartsWith(path, stripPrefix)) ==>
                  r == path)
  {
    var prefix := OrString(gatewayPrefix, stripPrefix);
    var url := OrString(originalUrl, "");
    if prefix != "" && StartsWith(url, prefix) {
      ReplaceLeading(url, prefix);
      assert url == prefix + url[|prefix|..];
    } else if stripPrefix != "" && StartsWith(path, stripPrefix) {
      ReplaceLeading(path, stripPrefix);
      assert path == stripPrefix + path[|stripPrefix|..];
    }
  }

  /** With no prefix anywhere the path passes through; a request under "/gw/shop" is sent
      upstream without that prefix. */
  lemma PathRewriteExamples(path: string)
    ensures PathRewrite(path, Some("/x"), None, "") == path
    ensures PathRewrite("/", Some("/gw/shop/cart"), Some("/gw/shop"), "") == "/cart"
    ensures PathRewrite("/", Some("/gw/shop"), Some("/gw/shop"), "") == "/"
  {
    PathRewriteCases("/", Some("/gw/shop/cart"), Some("/gw/shop"), "");
    assert "/gw/shop/cart"[..8] == "/gw/shop";
    assert "/gw/shop/cart"[8..] == "/cart";
    PathRewriteCases("/", Some("/gw/shop"), Some("/gw/shop"), "");
  }

  /** The response record `onProxyRes` builds at `now`: `startedAt` is the request's
      `_gatewayStart`, `contentLength` and `statusCode` the upstream response's (absent as
      `None`). */
  function ResponseRecord(startedAt: Option<int>, contentLength: Option<int>, statusCode: Option<int>, now: int)
    : (r: MetricsState.ResponseMeta)
  {
    MetricsState.ResponseMeta(
      Some(now - OrInt(startedAt, now)),
      Some(OrInt(contentLength, 0)),
      OrInt(statusCode, 200),
      Some(now))
  }

  /** A response without a status is recorded as 200, and so counted as a success; one
      without a length carries 0 bytes out; a request without a start time has latency 0. */
  lemma ResponseDefaults(startedAt: Option<int>, contentLength: Option<int>, statusCode: Option<int>, now: int,
                         counts: MetricsState.StatusCounts)
    ensures var r := ResponseRecord(startedAt, contentLength, statusCode, now);
            && (statusCode.None? || statusCode == Some(0) ==>
                  r.statusCode == 200 && counts.Record(r.statusCode) == counts.(success := counts.success + 1))
            && (statusCode.Some? && statusCode.value != 0 ==> r.statusCode == statusCode.value)
            && (contentLength.None? ==> r.bytesOut == Some(0))
            && (startedAt.None? ==> r.latencyMs == Some(0))
            && (startedAt.Some? && startedAt.value != 0 ==> r.latencyMs == Some(now - startedAt.value))
            && r.timestamp == Some(now)
  {
  }
}
