/** `frontend/src/components/seo/SEOHelpers.jsx`: the redirect from an SEO-friendly country
    slug and the hreflang alternate links, which the effect adds on mount and its cleanup
    removes again. */
module SeoHelpers {
  import opened Wrappers
  import opened Site
  import opened Head

  /** A `navigate(path, { replace: true })` call. */
  datatype Navigation = Navigation(path: string, replace: bool)

  /** `CountrySlugRedirect`: a known slug goes to its country's page, any other slug to the
      list of countries; both replace the history entry. */
  function Redirect(slug: string): (r: Navigation)
    ensures r.replace
    ensures slug in CountrySlugs ==> r.path == "/country/" + CountrySlugs[slug]
    ensures slug !in CountrySlugs ==> r.path == "/countries"
  {
    if slug in CountrySlugs && CountrySlugs[slug] != "" then Navigation("/country/" + CountrySlugs[slug], true)
    else Navigation("/countries", true)
  }

  /** Concatenation with a common prefix cancels it. */
  lemma PrefixCancel(p: string, a: string, b: string)
    requires p + a == p + b
    ensures a == b
  {
    assert a == (p + a)[|p|..];
    assert b == (p + b)[|p|..];
  }

  /** Two known slugs lead to the same page only if they are the same slug. */
  lemma RedirectInjective(s1: string, s2: string)
    requires s1 in CountrySlugs && s2 in CountrySlugs
    ensures Redirect(s1) == Redirect(s2) <==> s1 == s2
  {
    if Redirect(s1) == Redirect(s2) {
      PrefixCancel("/country/", CountrySlugs[s1], CountrySlugs[s2]);
    }
  }

  /** What `link[hreflang]` selects. */
  predicate IsHreflang(e: Element) { e.Link? && e.hreflang.Some? }

  /** The head after every hreflang link has been removed. */
  function WithoutHreflang(h: seq<Element>): (r: seq<Element>)
    ensures |r| <= |h| && forall i :: 0 <= i < |r| ==> !IsHreflang(r[i])
  {
    if h == [] then []
    else
      var last := h[|h| - 1];
      WithoutHreflang(h[..|h| - 1]) + (if IsHreflang(last) then [] else [last])
  }

  /** Removing the hreflang links keeps every other element. */
  lemma {:induction false} WithoutHreflangKeeps(h: seq<Element>, e: Element)
    requires e in h && !IsHreflang(e)
    ensures e in WithoutHreflang(h)
  {
    if h[|h| - 1] != e {
      assert e in h[..|h| - 1] by {
        var i :| 0 <= i < |h| && h[i] == e;
        assert h[..|h| - 1][i] == e;
      }
      WithoutHreflangKeeps(h[..|h| - 1], e);
    }
  }

  /** The hreflang links of a head, in order. */
  function HreflangLinks(h: seq<Element>): (r: seq<Element>)
    ensures |r| <= |h| && forall i :: 0 <= i < |r| ==> IsHreflang(r[i])
  {
    if h == [] then []
    else
      var last := h[|h| - 1];
      HreflangLinks(h[..|h| - 1]) + (if IsHreflang(last) then [last] else [])
  }

  lemma {:induction false} WithoutHreflangAppend(a: seq<Element>, b: seq<Element>)
    ensures WithoutHreflang(a + b) == WithoutHreflang(a) + WithoutHreflang(b)
  {
    if b == [] {
      assert a + b == a;
    } else {
      WithoutHreflangAppend(a, b[..|b| - 1]);
      assert (a + b)[..|a + b| - 1] == a + b[..|b| - 1];
    }
  }

  lemma {:induction false} HreflangLinksAppend(a: seq<Element>, b: seq<Element>)
    ensures HreflangLinks(a + b) == HreflangLinks(a) + HreflangLinks(b)
  {
    if b == [] {
      assert a + b == a;
    } else {
      HreflangLinksAppend(a, b[..|b| - 1]);
      assert (a + b)[..|a + b| - 1] == a + b[..|b| - 1];
    }
  }

  /** The two alternate links for the current page: `x-default` and `en`, both pointing at the
      site URL followed by the pathname. */
  function AlternateLinks(pathname: string): (r: seq<Element>)
    ensures |r| == 2 && forall i :: 0 <= i < 2 ==> r[i].Link? && r[i].href == Some(SiteUrl + pathname)
    ensures r[0].Link? && r[0].hreflang == Some("x-default") && r[1].Link? && r[1].hreflang == Some("en")
  {
    [ Link("alternate", Some(SiteUrl + pathname), Some("x-default")),
      Link("alternate", Some(SiteUrl + pathname), Some("en")) ]
  }

  /** After the effect the head's hreflang links are exactly the two alternates, and its other
      elements are those it had, in the same order; the cleanup then restores those other
      elements with no hreflang link left. */
  lemma EffectThenCleanup(h: seq<Element>, pathname: string)
    ensures HreflangLinks(WithoutHreflang(h) + AlternateLinks(pathname)) == AlternateLinks(pathname)
    ensures WithoutHreflang(WithoutHreflang(h) + AlternateLinks(pathname)) == WithoutHreflang(h)
    ensures HreflangLinks(WithoutHreflang(h)) == []
  {
    var kept, links := WithoutHreflang(h), AlternateLinks(pathname);
    HreflangLinksAppend(kept, links);
    WithoutHreflangAppend(kept, links);
    NoHreflangLeft(kept);
    assert links[..1] == [links[0]];
    assert HreflangLinks(links[..1]) == [links[0]];
    assert WithoutHreflang(links[..1]) == [];
  }

  /** A head without hreflang links keeps all of its elements when they are removed. */
  lemma {:induction false} NoHreflangLeft(h: seq<Element>)
    requires forall i :: 0 <= i < |h| ==> !IsHreflang(h[i])
    ensures HreflangLinks(h) == [] && WithoutHreflang(h) == h
  {
    if h != [] {
      NoHreflangLeft(h[..|h| - 1]);
      assert h[..|h| - 1] + [h[|h| - 1]] == h;
    }
  }

  /** Running the effect again (a re-mount without cleanup) leaves the head as it was. */
  lemma EffectIdempotent(h: seq<Element>, pathname: string)
    ensures var once := WithoutHreflang(h) + AlternateLinks(pathname);
      WithoutHreflang(once) + AlternateLinks(pathname) == once
  {
    EffectThenCleanup(h, pathname);
  }

  /** `document.querySelectorAll('link[hreflang]').forEach(el => el.remove())`. */
  method RemoveHreflang(d: DocumentHead)
    modifies d
    ensures d.elements == WithoutHreflang(old(d.elements)) && d.title == old(d.title)
  {
    var kept := [];
    var i := 0;
    while i < |d.elements|
      invariant 0 <= i <= |d.elements|
      invariant kept == WithoutHreflang(d.elements[..i])
    {
      assert d.elements[..i + 1][..i] == d.elements[..i];
      if !IsHreflang(d.elements[i]) {
        kept := kept + [d.elements[i]];
      }
      i := i + 1;
    }
    assert d.elements[..|d.elements|] == d.elements;
    d.elements := kept;
  }

  /** The effect of `HreflangTags`: remove the existing hreflang links, then append the
      `x-default` and `en` alternates for `pathname`. */
  method AddHreflangTags(d: DocumentHead, pathname: string)
    modifies d
    ensures d.elements == WithoutHreflang(old(d.elements)) + AlternateLinks(pathname)
    ensures d.title == old(d.title)
  {
    RemoveHreflang(d);
    var fullUrl := SiteUrl + pathname;
    d.elements := d.elements + [Link("alternate", Some(fullUrl), Some("x-default"))];
    d.elements := d.elements + [Link("alternate", Some(fullUrl), Some("en"))];
  }
}
