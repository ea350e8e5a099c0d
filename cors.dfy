// Origin selection for the endpoint's CORS response headers: the
// `Access-Control-Allow-Origin` header of the CORS protocol (section 3.2.3
// of the WHATWG Fetch Standard) echoes the caller's origin only when it is
// on a fixed list or is a preview deployment; otherwise it names the
// production site.

module Cors {

  datatype Option<T> = None | Some(value: T)

  const AllowedOrigins: seq<string> := [
    "https://agenticailab.in",
    "https://www.agenticailab.in",
    "https://agenticailab.com",
    "https://www.agenticailab.com",
    "http://localhost:8080",
    "http://localhost:5173",
    "http://localhost:3000"
  ]

  const DefaultOrigin: string := "https://agenticailab.in"

  const AllowHeaders: string := "authorization, x-client-info, apikey, content-type, x-supabase-client-platform, x-supabase-client-platform-version, x-supabase-client-runtime, x-supabase-client-runtime-version"

  const AllowMethods: string := "POST, OPTIONS"

  const PreviewScheme: string := "https://"
  const PreviewHost: string := ".lovable.app"

  // ---------------------------------------------------------------------
  // The preview-domain pattern ^https://[a-z0-9-]+--[a-z0-9-]+\.lovable\.app$

  predicate LabelChar(c: char)
  {
    'a' <= c <= 'z' || '0' <= c <= '9' || c == '-'
  }

  /** `[a-z0-9-]+` */
  predicate LabelRun(s: string)
  {
    |s| > 0 && forall i :: 0 <= i < |s| ==> LabelChar(s[i])
  }

  /** The pattern matched with the `--` at position `i`. */
  predicate PreviewSplit(s: string, i: int)
  {
    |PreviewScheme| < i && i + 2 < |s| - |PreviewHost|
    && s[..|PreviewScheme|] == PreviewScheme
    && s[|s| - |PreviewHost|..] == PreviewHost
    && LabelRun(s[|PreviewScheme|..i])
    && s[i] == '-' && s[i + 1] == '-'
    && LabelRun(s[i + 2..|s| - |PreviewHost|])
  }

  /** `LOVABLE_PREVIEW_PATTERN.test(s)`; the first run may itself hold
      dashes, so any `--` may be the separator. */
  predicate IsPreviewOrigin(s: string)
  {
    exists i | 0 <= i < |s| :: PreviewSplit(s, i)
  }

  /** A preview origin is an https origin under `.lovable.app`, made only of
      lower-case letters, digits and dashes between the two. */
  lemma PreviewOriginShape(s: string)
    requires IsPreviewOrigin(s)
    ensures |s| >= |PreviewScheme| + 4 + |PreviewHost|
    ensures s[..|PreviewScheme|] == PreviewScheme && s[|s| - |PreviewHost|..] == PreviewHost
    ensures forall j :: |PreviewScheme| <= j < |s| - |PreviewHost| ==> LabelChar(s[j])
  {
    var i :| 0 <= i < |s| && PreviewSplit(s, i);
    assert PreviewSplit(s, i);
    forall j | 8 <= j < |s| - 12 ensures LabelChar(s[j]) {
      if j < i {
        assert s[j] == s[8..i][j - 8];
      } else if j >= i + 2 {
        assert s[j] == s[i + 2..|s| - 12][j - i - 2];
      }
    }
  }

  /** A typical preview deployment matches. */
  lemma PreviewExample()
    ensures IsPreviewOrigin("https://app--x1.lovable.app")
  {
    var s := "https://app--x1.lovable.app";
    assert s[..8] == PreviewScheme;
    assert s[|s| - 12..] == PreviewHost;
    assert LabelRun(s[8..11]) by {
      forall j | 0 <= j < 3 ensures LabelChar(s[8..11][j]) {
        assert s[8..11][j] == s[8 + j];
      }
    }
    assert LabelRun(s[13..15]) by {
      forall j | 0 <= j < 2 ensures LabelChar(s[13..15][j]) {
        assert s[13..15][j] == s[13 + j];
      }
    }
    assert PreviewSplit(s, 11);
  }

  /** Neither a plain lovable.app host (no `--`) nor an upper-case one
      matches. */
  lemma PreviewCounterExamples()
    ensures !IsPreviewOrigin("https://abc.lovable.app")
    ensures !IsPreviewOrigin("https://A--b.lovable.app")
  {
    var s := "https://abc.lovable.app";
    if IsPreviewOrigin(s) {
      PreviewOriginShape(s);
      assert false;
    }
    var t := "https://A--b.lovable.app";
    assert !LabelChar(t[8]);
    if IsPreviewOrigin(t) {
      PreviewOriginShape(t);
      assert false;
    }
  }

  // ---------------------------------------------------------------------
  // getCorsHeaders

  datatype CorsHeaders = CorsHeaders(allowOrigin: string, allowHeaders: string, allowMethods: string)

  /** `origin && (ALLOWED_ORIGINS.includes(origin) || pattern.test(origin))`;
      an absent or empty origin is falsy. */
  predicate OriginAccepted(origin: Option<string>)
  {
    origin.Some? && origin.value != [] && (origin.value in AllowedOrigins || IsPreviewOrigin(origin.value))
  }

  function GetCorsHeaders(origin: Option<string>): (h: CorsHeaders)
    ensures h.allowMethods == "POST, OPTIONS"
    ensures h.allowOrigin in AllowedOrigins || IsPreviewOrigin(h.allowOrigin)
  {
    var allowedOrigin := if OriginAccepted(origin) then origin.value else AllowedOrigins[0];
    CorsHeaders(allowedOrigin, AllowHeaders, AllowMethods)
  }

  /** An accepted origin is echoed and every other caller gets the
      production site; so a sent origin comes back exactly when it is on the
      list or is a preview origin. */
  lemma AllowOriginEchoIff(origin: Option<string>)
    ensures OriginAccepted(origin) ==> GetCorsHeaders(origin).allowOrigin == origin.value
    ensures !OriginAccepted(origin) ==> GetCorsHeaders(origin).allowOrigin == DefaultOrigin
    ensures origin.Some? ==>
      (GetCorsHeaders(origin).allowOrigin == origin.value <==> origin.value in AllowedOrigins || IsPreviewOrigin(origin.value))
  {
    if origin.Some? && origin.value == [] {
      assert origin.value != DefaultOrigin;
      assert origin.value !in AllowedOrigins;
      if IsPreviewOrigin(origin.value) {
        PreviewOriginShape(origin.value);
      }
    }
  }

  /** A site that is neither listed nor a preview is not echoed. */
  lemma ForeignOriginNotEchoed()
    ensures GetCorsHeaders(Some("https://evil.example")).allowOrigin == DefaultOrigin
  {
    var s := "https://evil.example";
    if IsPreviewOrigin(s) {
      PreviewOriginShape(s);
      assert false;
    }
    assert s != AllowedOrigins[0] by { assert s[8] != AllowedOrigins[0][8]; }
    assert s != AllowedOrigins[1] by { assert s[8] != AllowedOrigins[1][8]; }
    assert s != AllowedOrigins[2] by { assert s[8] != AllowedOrigins[2][8]; }
    assert s != AllowedOrigins[3] by { assert s[8] != AllowedOrigins[3][8]; }
    assert s != AllowedOrigins[4] by { assert s[4] != AllowedOrigins[4][4]; }
    assert s != AllowedOrigins[5] by { assert s[4] != AllowedOrigins[5][4]; }
    assert s != AllowedOrigins[6] by { assert s[4] != AllowedOrigins[6][4]; }
  }
}
