/** Links as a parsed HTML page yields them, and the two ways the scrapers turn a relative
    `href` into an absolute URL. */
module Links {
  /** An `<a href>` element: its text (not yet stripped) and its `href`. */
  datatype Link = Link(text: string, href: string)

  /** The base prepended to an `href` that starts with '/'; any other `href` kept as it is. */
  function PrefixRelative(base: string, href: string): (url: string)
    ensures |href| <= |url| && url[|url| - |href|..] == href
    ensures "/" <= href ==> url == base + href
    ensures !("/" <= href) ==> url == href
  {
    if "/" <= href then base + href else href
  }

  /** The base prepended to a URL that does not start with "http"; an absolute URL kept as it is. */
  function PrefixUnlessHttp(base: string, url: string): (r: string)
    ensures |url| <= |r| && r[|r| - |url|..] == url
    ensures "http" <= url ==> r == url
    ensures !("http" <= url) ==> r == base + url
  {
    if "http" <= url then url else base + url
  }

  /** Prefixing against an absolute base yields an absolute URL, and doing it twice
      changes nothing. */
  lemma PrefixUnlessHttpAbsolute(base: string, url: string)
    requires "http" <= base
    ensures "http" <= PrefixUnlessHttp(base, url)
    ensures PrefixUnlessHttp(base, PrefixUnlessHttp(base, url)) == PrefixUnlessHttp(base, url)
  {
    if !("http" <= url) {
      assert (base + url)[..4] == base[..4];
    }
  }

  lemma PrefixRelativeIdempotent(base: string, href: string)
    requires base != [] && base[0] != '/'
    ensures PrefixRelative(base, PrefixRelative(base, href)) == PrefixRelative(base, href)
  {
    if "/" <= href {
      assert (base + href)[0] == base[0];
    }
  }
}
