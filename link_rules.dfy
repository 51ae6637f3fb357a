/**
 * The link-checking rules of the crawler: how an HTTP status is classified,
 * when a link lies outside the crawl's domain, and how a raw href is turned
 * into the canonical URL that is fetched and used as the dedup key.
 * All of them are total functions over strings and integers.
 */
module LinkRules {

  /** Classification of one fetched link. */
  datatype LinkStatus = OK | Warning | Critical

  /** The outcome record for one fetched link. */
  datatype Result = Result(linkStatus: LinkStatus, httpStatus: int, link: string)

  const StatusOK: int := 200
  const StatusInternalServerError: int := 500

  const SecureScheme: string := "https://"
  const PlainScheme: string := "http://"

  /** `strings.HasPrefix`: `prefix` is an initial segment of `s`. */
  predicate HasPrefix(s: string, prefix: string) {
    prefix <= s
  }

  /** `s` ends with `suffix`. */
  predicate EndsWith(s: string, suffix: string) {
    |suffix| <= |s| && s[|s| - |suffix|..] == suffix
  }

  /** A prefix test succeeds exactly when some rest completes the prefix to the whole string. */
  lemma HasPrefixIff(s: string, prefix: string)
    ensures HasPrefix(s, prefix) <==> exists rest :: s == prefix + rest
  {
    if HasPrefix(s, prefix) {
      assert s == prefix + s[|prefix|..];
    }
  }

  /**
   * Exactly 200 is OK and exactly 500 is a Warning; every other integer,
   * 201 and 404 included, is Critical.
   */
  function MapHTTPToLink(httpStatus: int): (status: LinkStatus)
    ensures status == OK <==> httpStatus == StatusOK
    ensures status == Warning <==> httpStatus == StatusInternalServerError
    ensures status == Critical <==> httpStatus != StatusOK && httpStatus != StatusInternalServerError
  {
    if httpStatus == StatusOK then OK
    else if httpStatus == StatusInternalServerError then Warning
    else Critical
  }

  lemma MapHTTPToLinkExamples()
    ensures MapHTTPToLink(200) == OK
    ensures MapHTTPToLink(404) == Critical
    ensures MapHTTPToLink(500) == Warning
    ensures MapHTTPToLink(201) == Critical && MapHTTPToLink(0) == Critical
  {
  }

  /**
   * A link is internal exactly when it is the secure or the plain scheme
   * followed by the domain, followed by anything at all. This is a test on
   * the beginning of the whole string, not a parse of its host.
   */
  function IsExternal(domain: string, link: string): (external: bool)
    ensures !external <==>
      (exists rest :: link == SecureScheme + domain + rest) ||
      (exists rest :: link == PlainScheme + domain + rest)
  {
    HasPrefixIff(link, SecureScheme + domain);
    HasPrefixIff(link, PlainScheme + domain);
    !HasPrefix(link, PlainScheme + domain) && !HasPrefix(link, SecureScheme + domain)
  }

  /** Every link that starts with a scheme and the domain is internal, whatever follows. */
  lemma DomainPrefixedIsInternal(domain: string, rest: string)
    ensures !IsExternal(domain, SecureScheme + domain + rest)
    ensures !IsExternal(domain, PlainScheme + domain + rest)
  {
  }

  /** Links that merely mention the domain later on are external. */
  lemma IsExternalExamples()
    ensures IsExternal("example.com", "https://bogus1.com/foo.html")
    ensures IsExternal("example.com", "https://bogus2.com/")
    ensures IsExternal("example.com", "https://bogus.com/search?query=example.com")
    ensures IsExternal("example.com", "http://bogus.com/search?query=example.com")
  {
    assert "https://bogus1.com/foo.html"[8] != "https://example.com"[8];
    assert "https://bogus1.com/foo.html"[4] != "http://example.com"[4];
    assert "https://bogus2.com/"[8] != "https://example.com"[8];
    assert "https://bogus2.com/"[4] != "http://example.com"[4];
    assert "https://bogus.com/search?query=example.com"[8] != "https://example.com"[8];
    assert "https://bogus.com/search?query=example.com"[4] != "http://example.com"[4];
    assert "http://bogus.com/search?query=example.com"[4] != "https://example.com"[4];
    assert "http://bogus.com/search?query=example.com"[7] != "http://example.com"[7];
  }

  lemma IsExternalBarExample()
    ensures IsExternal("example.com", "https://bogus3.com/bar.html")
  {
    assert "https://bogus3.com/bar.html"[8] != "https://example.com"[8];
    assert "https://bogus3.com/bar.html"[4] != "http://example.com"[4];
  }

  lemma IsInternalBarExample()
    ensures !IsExternal("example.com", "https://example.com/bar.html")
  {
    assert HasPrefix("https://example.com/bar.html", "https://example.com");
  }

  lemma IsInternalExamples()
    ensures !IsExternal("example.com", "https://example.com/foo.html")
    ensures !IsExternal("example.com", "https://example.com/")
    ensures !IsExternal("example.com", "http://example.com")
  {
    assert HasPrefix("https://example.com/foo.html", "https://example.com");
    assert HasPrefix("https://example.com/", "https://example.com");
    assert HasPrefix("http://example.com", "http://example.com");
  }

  /**
   * A host that only begins with the domain passes the prefix test: with
   * domain `example.com`, `https://example.com.evil.com/x` counts as internal.
   */
  lemma LookalikeHostIsInternal()
    ensures !IsExternal("example.com", "https://example.com.evil.com/x")
  {
    assert HasPrefix("https://example.com.evil.com/x", "https://example.com");
  }

  /**
   * The canonical form of `link`: the secure scheme is put in front unless
   * the link already starts with it, and `domain + "/"` is put in front
   * unless the link starts with the bare domain or with the secure scheme
   * and the domain. Nothing is removed, so `link` survives as a suffix.
   */
  function CanonicaliseLink(domain: string, link: string): (canonical: string)
    ensures EndsWith(canonical, link)
    // the scheme rule
    ensures HasPrefix(link, SecureScheme) ==>
      canonical in {link, domain + "/" + link}
    ensures !HasPrefix(link, SecureScheme) ==>
      canonical in {SecureScheme + link, SecureScheme + domain + "/" + link}
    // the host rule
    ensures HasPrefix(link, domain) || HasPrefix(link, SecureScheme + domain) ==>
      canonical in {link, SecureScheme + link}
    ensures !HasPrefix(link, domain) && !HasPrefix(link, SecureScheme + domain) ==>
      canonical in {domain + "/" + link, SecureScheme + domain + "/" + link}
    // nothing is put in front beyond what the two rules add
    ensures |canonical| == |link| + (if !HasPrefix(link, SecureScheme) then |SecureScheme| else 0) +
      (if !HasPrefix(link, domain) && !HasPrefix(link, SecureScheme + domain) then |domain| + 1 else 0)
  {
    var scheme := if !HasPrefix(link, SecureScheme) then SecureScheme else "";
    var host := if !HasPrefix(link, domain) && !HasPrefix(link, SecureScheme + domain) then domain + "/" else "";
    assert SecureScheme + (domain + "/") == SecureScheme + domain + "/";
    assert "" + (domain + "/") == domain + "/" && SecureScheme + "" == SecureScheme && "" + "" == "";
    assert (scheme + host + link)[|scheme + host|..] == link;
    scheme + host + link
  }

  /** A string starts with every prefix of each of its prefixes. */
  lemma PrefixOfConcat(a: string, b: string, s: string)
    requires HasPrefix(s, a + b)
    ensures HasPrefix(s, a)
  {
    assert (a + b)[..|a|] == a;
  }

  /** A link is its own canonical form exactly when neither rule has anything to add. */
  lemma CanonicaliseUnchangedIff(domain: string, link: string)
    ensures CanonicaliseLink(domain, link) == link <==>
      HasPrefix(link, SecureScheme) && (HasPrefix(link, domain) || HasPrefix(link, SecureScheme + domain))
  {
    var canonical := CanonicaliseLink(domain, link);
    if !HasPrefix(link, SecureScheme) {
      assert |canonical| > |link|;
    } else if !HasPrefix(link, domain) && !HasPrefix(link, SecureScheme + domain) {
      assert |canonical| > |link|;
    }
  }

  /** A link that already starts with the secure scheme and the domain is left as it is. */
  lemma CanonicaliseFixedPoint(domain: string, link: string)
    requires HasPrefix(link, SecureScheme + domain)
    ensures CanonicaliseLink(domain, link) == link
  {
    PrefixOfConcat(SecureScheme, domain, link);
    CanonicaliseUnchangedIff(domain, link);
  }

  /**
   * A link without the secure scheme always ends up internal: its canonical
   * form starts with the secure scheme and the domain.
   */
  lemma {:induction false} CanonicalisedSchemelessIsInternal(domain: string, link: string)
    requires !HasPrefix(link, SecureScheme)
    ensures HasPrefix(CanonicaliseLink(domain, link), SecureScheme + domain)
    ensures !IsExternal(domain, CanonicaliseLink(domain, link))
  {
    var canonical := CanonicaliseLink(domain, link);
    if HasPrefix(link, domain) {
      assert canonical == SecureScheme + link;
      assert canonical == SecureScheme + domain + link[|domain|..];
      DomainPrefixedIsInternal(domain, link[|domain|..]);
    } else {
      assert canonical == SecureScheme + domain + ("/" + link);
      DomainPrefixedIsInternal(domain, "/" + link);
    }
  }

  /**
   * An absolute secure link to another host gets the domain put in front of
   * its scheme; one more round gives a fixed point.
   */
  lemma {:induction false} CanonicaliseForeignSecureSettles(domain: string, link: string)
    requires HasPrefix(link, SecureScheme)
    requires !HasPrefix(link, domain) && !HasPrefix(link, SecureScheme + domain)
    ensures var twice := CanonicaliseLink(domain, CanonicaliseLink(domain, link));
      CanonicaliseLink(domain, twice) == twice
  {
    var once := CanonicaliseLink(domain, link);
    assert once == domain + "/" + link;
    assert once == domain + ("/" + link);
    assert HasPrefix(once, domain);
    if HasPrefix(once, SecureScheme) {
      CanonicaliseUnchangedIff(domain, once);
    } else {
      var twice := CanonicaliseLink(domain, once);
      CanonicalisedSchemelessIsInternal(domain, once);
      CanonicaliseFixedPoint(domain, twice);
    }
  }

  /**
   * Canonicalisation is not idempotent, but it settles after two rounds:
   * whatever the link, canonicalising it twice gives a fixed point.
   */
  lemma {:induction false} CanonicaliseSettles(domain: string, link: string)
    ensures var twice := CanonicaliseLink(domain, CanonicaliseLink(domain, link));
      CanonicaliseLink(domain, twice) == twice
  {
    var once := CanonicaliseLink(domain, link);
    if !HasPrefix(link, SecureScheme) {
      CanonicalisedSchemelessIsInternal(domain, link);
      CanonicaliseFixedPoint(domain, once);
    } else if HasPrefix(link, domain) || HasPrefix(link, SecureScheme + domain) {
      CanonicaliseUnchangedIff(domain, link);
    } else {
      CanonicaliseForeignSecureSettles(domain, link);
    }
  }

  /** With domain `example.com`, a relative link gets the scheme and the host. */
  lemma CanonicaliseRelativeExample()
    ensures CanonicaliseLink("example.com", "foo.html") == "https://example.com/foo.html"
  {
    assert "foo.html"[0] != "https://"[0];
    assert "foo.html"[0] != "example.com"[0];
    assert !HasPrefix("foo.html", "https://example.com");
    assert SecureScheme + ("example.com" + "/") + "foo.html" == "https://example.com/foo.html";
  }

  /** With domain `example.com`, a bare-domain link gets only the scheme. */
  lemma CanonicaliseBareDomainExample()
    ensures CanonicaliseLink("example.com", "example.com/foo.html") == "https://example.com/foo.html"
  {
    assert "example.com/foo.html"[0] != "https://"[0];
    assert HasPrefix("example.com/foo.html", "example.com");
    assert SecureScheme + "" + "example.com/foo.html" == "https://example.com/foo.html";
  }

  /** With domain `example.com`, a full link to the domain is left as it is. */
  lemma CanonicaliseFullLinkExample()
    ensures CanonicaliseLink("example.com", "https://example.com/foo.html") == "https://example.com/foo.html"
  {
    assert HasPrefix("https://example.com/foo.html", "https://example.com");
    CanonicaliseFixedPoint("example.com", "https://example.com/foo.html");
  }

  /** With an empty domain an absolute secure link is left as it is. */
  lemma CanonicaliseEmptyDomainExample()
    ensures CanonicaliseLink("", "https://bogus.com/") == "https://bogus.com/"
  {
    assert HasPrefix("https://bogus.com/", "https://");
  }

  /** A plain-scheme link to the domain gets a second scheme and host in front. */
  lemma CanonicalisePlainSchemeExample()
    ensures CanonicaliseLink("example.com", "http://example.com/x") == "https://example.com/http://example.com/x"
  {
    assert "http://example.com/x"[4] != "https://"[4];
    assert "http://example.com/x"[0] != "example.com"[0];
    assert "http://example.com/x"[4] != "https://example.com"[4];
    assert SecureScheme + ("example.com" + "/") + "http://example.com/x" == "https://example.com/http://example.com/x";
  }

  /** An absolute link to another host gets the domain in front of its own scheme. */
  lemma CanonicaliseForeignSecureExample()
    ensures CanonicaliseLink("example.com", "https://bogus.com/") == "example.com/https://bogus.com/"
  {
    assert HasPrefix("https://bogus.com/", "https://");
    assert "https://bogus.com/"[0] != "example.com"[0];
    assert "https://bogus.com/"[8] != "https://example.com"[8];
    assert "" + ("example.com" + "/") + "https://bogus.com/" == "example.com/https://bogus.com/";
  }

  /** Canonicalising that result again gives something else still: no idempotence. */
  lemma CanonicaliseNotIdempotentExample()
    ensures CanonicaliseLink("example.com", "example.com/https://bogus.com/") == "https://example.com/https://bogus.com/"
    ensures CanonicaliseLink("example.com", CanonicaliseLink("example.com", "https://bogus.com/")) != CanonicaliseLink("example.com", "https://bogus.com/")
  {
    assert "example.com/https://bogus.com/"[0] != "https://"[0];
    assert HasPrefix("example.com/https://bogus.com/", "example.com");
    assert SecureScheme + "" + "example.com/https://bogus.com/" == "https://example.com/https://bogus.com/";
    CanonicaliseForeignSecureExample();
  }
}
