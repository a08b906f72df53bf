/** Request feature extraction (backend/src/features/extractor.js): the header fingerprint,
    the protocol and the path and byte count of a request. */
module Extractor {
  import opened Common
  import opened JsStrings
  import MetricsState

  /** A header as Node delivers it: absent, one string, or a list of strings. */
  datatype HeaderValue = Missing | Text(s: string) | List(items: seq<string>)

  const MaxHeaderLength: nat := 64
  const Unknown := "unknown"

  /** `normalizeHeaderValue(value)`. */
  function NormalizeHeaderValue(v: HeaderValue): (r: string)
  {
    match v
    case Missing => Unknown
    case Text(s) => if s == "" then Unknown else s[..MinInt(|s|, MaxHeaderLength)]
    case List(items) => Join(items, ",")
  }

  /** A missing or empty header reads "unknown"; a string is cut to its first 64 characters;
      a list is joined with commas and not cut. */
  lemma NormalizeHeaderCases(v: HeaderValue)
    ensures var r := NormalizeHeaderValue(v);
            && (v.Missing? || v == Text("") ==> r == Unknown)
            && (v.Text? && v.s != "" ==> |r| <= MaxHeaderLength && r == v.s[..|r|]
                                         && (|v.s| <= MaxHeaderLength ==> r == v.s)
                                         && (|v.s| > MaxHeaderLength ==> |r| == MaxHeaderLength))
            && (v.List? ==> r == Join(v.items, ","))
  {
  }

  /** A list header is kept whole: two items come out with one comma between them, however
      long they are. */
  lemma ListNotTruncated(a: string, b: string)
    ensures NormalizeHeaderValue(List([a, b])) == a + "," + b
    ensures |NormalizeHeaderValue(List([a, b]))| == |a| + |b| + 1
  {
    assert [a, b][1..] == [b];
    assert Join([b], ",") == b;
    assert Join([a, b], ",") == a + "," + b;
  }

  /** The headers the extractor reads; `contentLength` is `None` when absent. */
  datatype Headers = Headers(
    userAgent: HeaderValue, acceptLanguage: HeaderValue, acceptEncoding: HeaderValue,
    upgrade: Option<string>, contentLength: Option<int>)

  /** `fingerprintHeaders(headers)`. */
  function FingerprintHeaders(h: Headers): (r: string)
  {
    Join([NormalizeHeaderValue(h.userAgent), NormalizeHeaderValue(h.acceptLanguage),
          NormalizeHeaderValue(h.acceptEncoding)], "|")
  }

  /** `[a, b, c].join(sep)`. */
  lemma JoinThree(a: string, b: string, c: string, sep: string)
    ensures Join([a, b, c], sep) == a + sep + b + sep + c
  {
    assert [a, b, c][1..] == [b, c] && [b, c][1..] == [c];
    assert Join([c], sep) == c;
  }

  /** The three fields of a fingerprint, read back at its first two "|" separators. */
  function SplitFingerprint(fp: string): (string, string, string)
  {
    var a := BeforeFirst(fp, '|');
    if |a| == |fp| then (a, "", "")
    else
      var rest := fp[|a| + 1..];
      var b := BeforeFirst(rest, '|');
      if |b| == |rest| then (a, b, "") else (a, b, rest[|b| + 1..])
  }

  /** Splitting `a|b|c` gives back `a`, `b` and `c` when neither `a` nor `b` holds a "|". */
  lemma SplitJoined(a: string, b: string, c: string)
    requires '|' !in a && '|' !in b
    ensures SplitFingerprint(a + "|" + b + "|" + c) == (a, b, c)
  {
    var fp := a + "|" + b + "|" + c;
    var tail := b + "|" + c;
    assert fp == a + ['|'] + tail;
    BeforeSeparator(a, '|', tail);
    assert fp[|a| + 1..] == tail;
    assert tail == b + ['|'] + c;
    BeforeSeparator(b, '|', c);
    assert tail[|b| + 1..] == c;
  }

  /** The fingerprint is the user agent, the language and the encoding, in that order, with
      "|" between them; when the first two hold no "|", splitting the fingerprint gives the
      three parts back. */
  lemma FingerprintParts(h: Headers)
    ensures var ua := NormalizeHeaderValue(h.userAgent);
            var al := NormalizeHeaderValue(h.acceptLanguage);
            var ae := NormalizeHeaderValue(h.acceptEncoding);
            && FingerprintHeaders(h) == ua + "|" + al + "|" + ae
            && ('|' !in ua && '|' !in al ==> SplitFingerprint(FingerprintHeaders(h)) == (ua, al, ae))
  {
    var ua := NormalizeHeaderValue(h.userAgent);
    var al := NormalizeHeaderValue(h.acceptLanguage);
    var ae := NormalizeHeaderValue(h.acceptEncoding);
    JoinThree(ua, al, ae, "|");
    if '|' !in ua && '|' !in al {
      SplitJoined(ua, al, ae);
    }
  }

  /** Headers with nothing set fingerprint as "unknown|unknown|unknown". */
  lemma EmptyFingerprint()
    ensures FingerprintHeaders(Headers(Missing, Missing, Missing, None, None)) == "unknown|unknown|unknown"
  {
  }

  /** The protocol of a request, from its `upgrade` header and `httpVersion`. */
  function ProtocolOf(upgrade: Option<string>, httpVersion: Option<string>): (r: string)
  {
    if ToLower(OrString(upgrade, "")) == "websocket" then "websocket"
    else if StartsWith(OrString(httpVersion, "1.1"), "2") then "http2"
    else "http1"
  }

  /** The protocol is "websocket" exactly for an upgrade to WebSocket in any letter case,
      otherwise "http2" exactly for a version starting with "2", otherwise "http1"; a missing
      version counts as "1.1". */
  lemma ProtocolCases(upgrade: Option<string>, httpVersion: Option<string>)
    ensures var r := ProtocolOf(upgrade, httpVersion);
            && r in {"http1", "http2", "websocket"}
            && (r == "websocket" <==> ToLower(OrString(upgrade, "")) == "websocket")
            && (r == "http2" <==> ToLower(OrString(upgrade, "")) != "websocket"
                                  && StartsWith(OrString(httpVersion, "1.1"), "2"))
            && (ToLower(OrString(upgrade, "")) != "websocket" && httpVersion.None? ==> r == "http1")
  {
    if ToLower(OrString(upgrade, "")) != "websocket" && httpVersion.None? {
      assert "1.1"[..1][0] == '1';
    }
  }

  /** `extractRequestMetadata(req)` for the headers, `req.httpVersion` and `req.path`. */
  function ExtractRequestMetadata(h: Headers, httpVersion: Option<string>, path: Option<string>)
    : (r: MetricsState.RequestMeta)
  {
    MetricsState.RequestMeta(
      OrString(path, "/"),
      FingerprintHeaders(h),
      OrInt(h.contentLength, 0),
      ProtocolOf(h.upgrade, httpVersion))
  }

  /** The path defaults to "/", the byte count to 0, and every extracted protocol is one the
      metrics state counts. */
  lemma ExtractedCounted(h: Headers, httpVersion: Option<string>, path: Option<string>, p: MetricsState.ProtocolCounts)
    ensures var m := ExtractRequestMetadata(h, httpVersion, path);
            && (path.None? || path == Some("") ==> m.path == "/")
            && (path.Some? && path.value != "" ==> m.path == path.value)
            && (h.contentLength.None? ==> m.bytes == 0)
            && m.headerFingerprint == FingerprintHeaders(h)
            && p.Record(m.protocol).Total() == p.Total() + 1
  {
    ProtocolCases(h.upgrade, httpVersion);
  }
}
