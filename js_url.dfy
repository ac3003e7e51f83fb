/** The WHATWG `URL` constructor, reduced to the two parts the validators read. */
module JsUrl {
  import opened Wrappers
  import opened JsText

  /** `url.protocol` keeps its trailing ':' (`"https:"`); `url.hostname` is the host
      without port. */
  datatype Url = Url(protocol: string, hostname: string)

  /** `new URL(s)`: None where the constructor throws. The parsing algorithm belongs to
      the host, so every operation that needs it takes it as a parameter. */
  type UrlParser = string -> Option<Url>

  /** The protocol as zod's `protocol` option sees it: with the trailing ':' removed. */
  function Scheme(u: Url): (s: string)
    ensures EndsWith(u.protocol, ":") ==> s + ":" == u.protocol
    ensures !EndsWith(u.protocol, ":") ==> s == u.protocol
  {
    if EndsWith(u.protocol, ":") then u.protocol[..|u.protocol| - 1] else u.protocol
  }

  /** The pattern `/^https?$/`. */
  predicate IsHttpScheme(scheme: string) {
    scheme == "http" || scheme == "https"
  }

  lemma {:induction false} HttpSchemes()
    ensures IsHttpScheme(Scheme(Url("https:", "")))
    ensures IsHttpScheme(Scheme(Url("http:", "")))
    ensures !IsHttpScheme(Scheme(Url("ftp:", "")))
    ensures !IsHttpScheme(Scheme(Url("httpss:", "")))
  {
    assert EndsWith("https:", ":") && "https:"[..5] == "https";
    assert EndsWith("http:", ":") && "http:"[..4] == "http";
    assert EndsWith("ftp:", ":") && "ftp:"[..3] == "ftp";
    assert EndsWith("httpss:", ":") && "httpss:"[..6] == "httpss";
  }
}
