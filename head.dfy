/** The document head as `frontend/src/hooks/useSEO.js` (and the `useSEO` and `HreflangTags`
    helpers elsewhere in the front end) manipulate it: a title and a sequence of `meta` and
    `link` elements. `document.querySelector` finds the first element with a given key; an
    update either sets that element's value or appends a new element. */
module Head {
  import opened Wrappers
  import opened Site

  /** A `meta` element identified by its `name` or `property` attribute, or a `link` element
      identified by `rel` (an hreflang link also carries `hreflang`). */
  datatype Element =
    | Meta(attr: string, key: string, content: Option<string>)
    | Link(rel: string, href: Option<string>, hreflang: Option<string>)

  /** What a selector such as `meta[property="og:title"]` or `link[rel="canonical"]` matches. */
  datatype Key = MetaKey(attr: string, key: string) | LinkKey(rel: string)

  function KeyOf(e: Element): Key
  {
    match e
    case Meta(attr, key, _) => MetaKey(attr, key)
    case Link(rel, _, _) => LinkKey(rel)
  }

  /** The attribute an update sets: `content` of a meta, `href` of a link. */
  function ValueOf(e: Element): Option<string>
  {
    match e
    case Meta(_, _, content) => content
    case Link(_, href, _) => href
  }

  /** A call `updateMeta(name, content, isProperty)` or `updateLink(rel, href)`; a call the
      source makes only under a condition is disabled when the condition is false. */
  datatype Update = Update(enabled: bool, target: Key, value: string)

  /** `document.querySelector`: the index of the first element with key `k`. */
  function FirstMatch(h: seq<Element>, k: Key): (r: Option<nat>)
    ensures r.Some? ==> r.value < |h| && KeyOf(h[r.value]) == k
    ensures r.Some? ==> forall j :: 0 <= j < r.value ==> KeyOf(h[j]) != k
    ensures r.None? ==> forall j :: 0 <= j < |h| ==> KeyOf(h[j]) != k
  {
    if h == [] then None
    else if KeyOf(h[0]) == k then Some(0)
    else
      var rest := FirstMatch(h[1..], k);
      if rest.Some? then Some(rest.value + 1) else None
  }

  /** The value of the element a selector finds, if any. */
  function Current(h: seq<Element>, k: Key): Option<string>
  {
    var i := FirstMatch(h, k);
    if i.Some? then ValueOf(h[i.value]) else None
  }

  /** `setAttribute` of the updated value on an existing element. */
  function SetValue(e: Element, v: string): (r: Element)
    ensures KeyOf(r) == KeyOf(e) && ValueOf(r) == Some(v)
    ensures ValueOf(e) == Some(v) ==> r == e
  {
    match e
    case Meta(attr, key, _) => Meta(attr, key, Some(v))
    case Link(rel, _, hreflang) => Link(rel, Some(v), hreflang)
  }

  /** The element `createElement` + `setAttribute` + `appendChild` adds. */
  function Created(u: Update): (r: Element)
    ensures KeyOf(r) == u.target && ValueOf(r) == Some(u.value)
  {
    match u.target
    case MetaKey(attr, key) => Meta(attr, key, Some(u.value))
    case LinkKey(rel) => Link(rel, Some(u.value), None)
  }

  /** One update: set the first element with the key, or append a new one. */
  function Step(h: seq<Element>, u: Update): seq<Element>
  {
    var i := FirstMatch(h, u.target);
    if !u.enabled then h
    else if i.Some? then h[i.value := SetValue(h[i.value], u.value)]
    else h + [Created(u)]
  }

  /** No two elements share key `k`. */
  predicate AtMostOne(h: seq<Element>, k: Key)
  {
    forall i, j :: 0 <= i < |h| && 0 <= j < |h| && KeyOf(h[i]) == k && KeyOf(h[j]) == k ==> i == j
  }

  /** An update keeps every existing element with its key (it never removes one), sets its own
      key's value when enabled, leaves every other key's value alone, changes nothing when
      disabled or when its value is already there, and never creates a second element with
      any key. */
  lemma StepFacts(h: seq<Element>, u: Update)
    ensures |Step(h, u)| >= |h|
    ensures forall j :: 0 <= j < |h| ==> KeyOf(Step(h, u)[j]) == KeyOf(h[j])
    ensures u.enabled ==> Current(Step(h, u), u.target) == Some(u.value)
    ensures forall k :: k != u.target ==> Current(Step(h, u), k) == Current(h, k)
    ensures !u.enabled || Current(h, u.target) == Some(u.value) ==> Step(h, u) == h
    ensures forall k :: AtMostOne(h, k) ==> AtMostOne(Step(h, u), k)
  {
    var r := Step(h, u);
    var i := FirstMatch(h, u.target);
    if u.enabled {
      if i.Some? {
        assert r[i.value] == SetValue(h[i.value], u.value);
        SameKeysSameMatch(h, r, u.target);
      } else {
        assert r[|h|] == Created(u);
        PrefixMatchAppended(h, Created(u));
      }
      forall k | k != u.target
        ensures Current(r, k) == Current(h, k)
      {
        if i.Some? {
          SameKeysSameMatch(h, r, k);
        } else {
          PrefixMatch(h, r, k);
        }
      }
    }
  }

  /** Appending an element finds it when nothing before it has its key. */
  lemma PrefixMatchAppended(h: seq<Element>, e: Element)
    requires FirstMatch(h, KeyOf(e)).None?
    ensures FirstMatch(h + [e], KeyOf(e)) == Some(|h|)
  {
    var g := h + [e];
    assert forall j :: 0 <= j < |h| ==> g[j] == h[j];
    assert KeyOf(g[|h|]) == KeyOf(e);
  }

  /** Two heads with the same keys position by position find the same index. */
  lemma {:induction false} SameKeysSameMatch(h: seq<Element>, g: seq<Element>, k: Key)
    requires |h| == |g| && forall j :: 0 <= j < |h| ==> KeyOf(h[j]) == KeyOf(g[j])
    ensures FirstMatch(h, k) == FirstMatch(g, k)
  {
    if h != [] {
      SameKeysSameMatch(h[1..], g[1..], k);
    }
  }

  /** Appending after a head whose first match exists, or whose appended part lacks `k`,
      finds the same index. */
  lemma {:induction false} PrefixMatch(h: seq<Element>, g: seq<Element>, k: Key)
    requires h <= g
    requires FirstMatch(h, k).None? ==> forall j :: |h| <= j < |g| ==> KeyOf(g[j]) != k
    ensures FirstMatch(g, k) == FirstMatch(h, k)
  {
    if h != [] && KeyOf(h[0]) != k {
      assert g[0] == h[0];
      PrefixMatch(h[1..], g[1..], k);
    }
  }

  /** A run of updates in order. */
  function Apply(h: seq<Element>, us: seq<Update>): seq<Element>
  {
    if us == [] then h else Step(Apply(h, us[..|us| - 1]), us[|us| - 1])
  }

  /** No two updates of a run target the same key. */
  predicate DistinctTargets(us: seq<Update>)
  {
    forall i, j :: 0 <= i < |us| && 0 <= j < |us| && us[i].target == us[j].target ==> i == j
  }

  /** A run never removes an element nor changes its key, and never duplicates a key. */
  lemma {:induction false} ApplyKeeps(h: seq<Element>, us: seq<Update>)
    ensures |Apply(h, us)| >= |h|
    ensures forall j :: 0 <= j < |h| ==> KeyOf(Apply(h, us)[j]) == KeyOf(h[j])
    ensures forall k :: AtMostOne(h, k) ==> AtMostOne(Apply(h, us), k)
  {
    if us != [] {
      ApplyKeeps(h, us[..|us| - 1]);
      StepFacts(Apply(h, us[..|us| - 1]), us[|us| - 1]);
    }
  }

  /** A key that no enabled update of the run targets keeps its value. */
  lemma {:induction false} ApplyUntouched(h: seq<Element>, us: seq<Update>, k: Key)
    requires forall i :: 0 <= i < |us| && us[i].enabled ==> us[i].target != k
    ensures Current(Apply(h, us), k) == Current(h, k)
  {
    if us != [] {
      ApplyUntouched(h, us[..|us| - 1], k);
      StepFacts(Apply(h, us[..|us| - 1]), us[|us| - 1]);
    }
  }

  /** After a run with distinct targets, every enabled update's value is in place. */
  lemma {:induction false} ApplySets(h: seq<Element>, us: seq<Update>)
    requires DistinctTargets(us)
    ensures forall i :: 0 <= i < |us| && us[i].enabled ==> Current(Apply(h, us), us[i].target) == Some(us[i].value)
  {
    if us != [] {
      var init := us[..|us| - 1];
      assert DistinctTargets(init);
      ApplySets(h, init);
      StepFacts(Apply(h, init), us[|us| - 1]);
      forall i | 0 <= i < |us| - 1
        ensures us[i].target != us[|us| - 1].target
      {
      }
    }
  }

  /** A run whose enabled values are all in place already changes nothing. */
  lemma {:induction false} ApplyInPlace(h: seq<Element>, us: seq<Update>)
    requires forall i :: 0 <= i < |us| && us[i].enabled ==> Current(h, us[i].target) == Some(us[i].value)
    ensures Apply(h, us) == h
  {
    if us != [] {
      ApplyInPlace(h, us[..|us| - 1]);
      StepFacts(h, us[|us| - 1]);
    }
  }

  /** Running the same updates twice is the same as running them once. */
  lemma ApplyIdempotent(h: seq<Element>, us: seq<Update>)
    requires DistinctTargets(us)
    ensures Apply(Apply(h, us), us) == Apply(h, us)
  {
    ApplySets(h, us);
    ApplyInPlace(Apply(h, us), us);
  }

  /** JavaScript's string conversion of a possibly undefined string. */
  function JsText(s: Option<string>): (r: string)
    ensures s.Some? ==> r == s.value
  {
    if s.Some? then s.value else "undefined"
  }

  /** A missing or empty string is falsy. */
  predicate Truthy(s: Option<string>) { s.Some? && s.value != "" }

  /** The arguments of a `useSEO` call; an absent `ogType` defaults to "website". */
  datatype SeoArgs = SeoArgs(
    title: Option<string>,
    description: Option<string>,
    keywords: Option<string>,
    canonical: Option<string>,
    ogType: Option<string>,
    ogImage: Option<string>)

  const Description: Key := MetaKey("name", "description")
  const Keywords: Key := MetaKey("name", "keywords")
  const Canonical: Key := LinkKey("canonical")
  const OgTitle: Key := MetaKey("property", "og:title")
  const OgDescription: Key := MetaKey("property", "og:description")
  const OgType: Key := MetaKey("property", "og:type")
  const OgSiteName: Key := MetaKey("property", "og:site_name")
  const OgUrl: Key := MetaKey("property", "og:url")
  const OgImage: Key := MetaKey("property", "og:image")
  const TwitterCard: Key := MetaKey("name", "twitter:card")
  const TwitterTitle: Key := MetaKey("name", "twitter:title")
  const TwitterDescription: Key := MetaKey("name", "twitter:description")
  const TwitterImage: Key := MetaKey("name", "twitter:image")

  /** The keys `useSEO` may write, in call order. */
  const HookKeys: seq<Key> := [Description, Keywords, Canonical, OgTitle, OgDescription, OgType,
    OgSiteName, OgUrl, OgImage, TwitterCard, TwitterTitle, TwitterDescription, TwitterImage]

  predicate DistinctKeys(ks: seq<Key>)
  {
    forall i, j :: 0 <= i < j < |ks| ==> ks[i] != ks[j]
  }

  lemma HookKeysDistinct()
    ensures DistinctKeys(HookKeys)
  {
  }

  /** A run whose targets are, position by position, distinct keys has distinct targets. */
  lemma DistinctFromKeys(us: seq<Update>, ks: seq<Key>)
    requires DistinctKeys(ks) && |us| == |ks| && forall i :: 0 <= i < |us| ==> us[i].target == ks[i]
    ensures DistinctTargets(us)
  {
  }

  /** In a run whose targets are distinct keys, a disabled update's key keeps its value. */
  lemma KeyUntouched(h: seq<Element>, us: seq<Update>, ks: seq<Key>, i: nat)
    requires DistinctKeys(ks) && |us| == |ks| && forall j :: 0 <= j < |us| ==> us[j].target == ks[j]
    requires i < |us| && !us[i].enabled
    ensures Current(Apply(h, us), ks[i]) == Current(h, ks[i])
  {
    forall j | 0 <= j < |us| && us[j].enabled
      ensures us[j].target != ks[i]
    {
      if j < i {
        assert ks[j] != ks[i];
      } else {
        assert ks[i] != ks[j];
      }
    }
    ApplyUntouched(h, us, ks[i]);
  }

  /** The calls of `useSEO` in `hooks/useSEO.js`, in order, each enabled by its guard. */
  function HookUpdates(a: SeoArgs): (r: seq<Update>)
    ensures |r| == |HookKeys| && forall i :: 0 <= i < |r| ==> r[i].target == HookKeys[i]
  {
    var description, canonical, image := a.description.GetOr(""), a.canonical.GetOr(""), a.ogImage.GetOr("");
    [ Update(Truthy(a.description), Description, description),
      Update(Truthy(a.keywords), Keywords, a.keywords.GetOr("")),
      Update(Truthy(a.canonical), Canonical, canonical),
      Update(true, OgTitle, JsText(a.title)),
      Update(Truthy(a.description), OgDescription, description),
      Update(true, OgType, a.ogType.GetOr("website")),
      Update(true, OgSiteName, SiteName),
      Update(Truthy(a.canonical), OgUrl, canonical),
      Update(Truthy(a.ogImage), OgImage, image),
      Update(true, TwitterCard, "summary_large_image"),
      Update(true, TwitterTitle, JsText(a.title)),
      Update(Truthy(a.description), TwitterDescription, description),
      Update(Truthy(a.ogImage), TwitterImage, image) ]
  }

  /** Every key the hook writes, each once. */
  lemma HookTargetsDistinct(a: SeoArgs)
    ensures DistinctTargets(HookUpdates(a))
  {
    HookKeysDistinct();
    DistinctFromKeys(HookUpdates(a), HookKeys);
  }

  /** After the hook, the tags it writes unconditionally carry the title (the text
      "undefined" when it is missing), the page type ("website" by default), the site name and
      the large-image card. */
  lemma HookAlwaysWrites(h: seq<Element>, a: SeoArgs)
    ensures var r := Apply(h, HookUpdates(a));
      && Current(r, OgTitle) == Some(JsText(a.title))
      && Current(r, OgType) == Some(a.ogType.GetOr("website"))
      && Current(r, OgSiteName) == Some(SiteName)
      && Current(r, TwitterCard) == Some("summary_large_image")
      && Current(r, TwitterTitle) == Some(JsText(a.title))
  {
    var us := HookUpdates(a);
    HookTargetsDistinct(a);
    ApplySets(h, us);
    assert us[3] == Update(true, OgTitle, JsText(a.title));
    assert us[5] == Update(true, OgType, a.ogType.GetOr("website"));
    assert us[6] == Update(true, OgSiteName, SiteName);
    assert us[9] == Update(true, TwitterCard, "summary_large_image");
    assert us[10] == Update(true, TwitterTitle, JsText(a.title));
  }

  /** A truthy description, canonical URL or image is written to every tag that carries it. */
  lemma HookGuardedWrites(h: seq<Element>, a: SeoArgs)
    ensures var r := Apply(h, HookUpdates(a));
      && (Truthy(a.description) ==>
            && Current(r, Description) == Some(a.description.value)
            && Current(r, OgDescription) == Some(a.description.value)
            && Current(r, TwitterDescription) == Some(a.description.value))
      && (Truthy(a.keywords) ==> Current(r, Keywords) == Some(a.keywords.value))
      && (Truthy(a.canonical) ==>
            && Current(r, Canonical) == Some(a.canonical.value)
            && Current(r, OgUrl) == Some(a.canonical.value))
      && (Truthy(a.ogImage) ==>
            && Current(r, OgImage) == Some(a.ogImage.value)
            && Current(r, TwitterImage) == Some(a.ogImage.value))
  {
    var us := HookUpdates(a);
    HookTargetsDistinct(a);
    ApplySets(h, us);
    assert us[0].enabled == us[4].enabled == us[11].enabled == Truthy(a.description);
    assert us[2].enabled == us[7].enabled == Truthy(a.canonical);
    assert us[8].enabled == us[12].enabled == Truthy(a.ogImage);
    assert us[1].enabled == Truthy(a.keywords);
  }

  /** A falsy description, keywords, canonical URL or image leaves the tags it would write as
      they were. */
  lemma HookFalsyKeeps(h: seq<Element>, a: SeoArgs)
    ensures var r := Apply(h, HookUpdates(a));
      && (!Truthy(a.description) ==>
            && Current(r, Description) == Current(h, Description)
            && Current(r, OgDescription) == Current(h, OgDescription)
            && Current(r, TwitterDescription) == Current(h, TwitterDescription))
      && (!Truthy(a.keywords) ==> Current(r, Keywords) == Current(h, Keywords))
      && (!Truthy(a.canonical) ==>
            && Current(r, Canonical) == Current(h, Canonical)
            && Current(r, OgUrl) == Current(h, OgUrl))
      && (!Truthy(a.ogImage) ==>
            && Current(r, OgImage) == Current(h, OgImage)
            && Current(r, TwitterImage) == Current(h, TwitterImage))
  {
    var us := HookUpdates(a);
    HookKeysDistinct();
    if !Truthy(a.description) {
      KeyUntouched(h, us, HookKeys, 0);
      KeyUntouched(h, us, HookKeys, 4);
      KeyUntouched(h, us, HookKeys, 11);
    }
    if !Truthy(a.keywords) {
      KeyUntouched(h, us, HookKeys, 1);
    }
    if !Truthy(a.canonical) {
      KeyUntouched(h, us, HookKeys, 2);
      KeyUntouched(h, us, HookKeys, 7);
    }
    if !Truthy(a.ogImage) {
      KeyUntouched(h, us, HookKeys, 8);
      KeyUntouched(h, us, HookKeys, 12);
    }
  }

  /** Running the hook again with the same arguments changes nothing. */
  lemma HookIdempotent(h: seq<Element>, a: SeoArgs)
    ensures Apply(Apply(h, HookUpdates(a)), HookUpdates(a)) == Apply(h, HookUpdates(a))
  {
    HookTargetsDistinct(a);
    ApplyIdempotent(h, HookUpdates(a));
  }

  /** `document.title` and `document.head`'s elements. */
  class DocumentHead {
    var title: string
    var elements: seq<Element>

    constructor (title: string, elements: seq<Element>)
      ensures this.title == title && this.elements == elements
    {
      this.title := title;
      this.elements := elements;
    }

    /** `updateMeta` / `updateLink`: `querySelector` scans for the first element with the key;
        it is updated in place, or a new element is appended. */
    method Upsert(u: Update)
      modifies this
      ensures elements == Step(old(elements), u) && title == old(title)
    {
      if !u.enabled {
        return;
      }
      var i := 0;
      while i < |elements| && KeyOf(elements[i]) != u.target
        invariant 0 <= i <= |elements|
        invariant forall j :: 0 <= j < i ==> KeyOf(elements[j]) != u.target
      {
        i := i + 1;
      }
      if i < |elements| {
        assert FirstMatch(elements, u.target) == Some(i);
        elements := elements[i := SetValue(elements[i], u.value)];
      } else {
        elements := elements + [Created(u)];
      }
    }

    /** Performs a run of updates in order. */
    method UpsertAll(us: seq<Update>)
      modifies this
      ensures elements == Apply(old(elements), us) && title == old(title)
    {
      var n := 0;
      while n < |us|
        invariant 0 <= n <= |us|
        invariant elements == Apply(old(elements), us[..n]) && title == old(title)
      {
        assert us[..n + 1][..n] == us[..n];
        Upsert(us[n]);
        n := n + 1;
      }
      assert us[..|us|] == us;
    }

    /** `useSEO` of `hooks/useSEO.js`: the title is always assigned, then the meta and link
        updates run. */
    method UseSeo(a: SeoArgs)
      modifies this
      ensures title == JsText(a.title)
      ensures elements == Apply(old(elements), HookUpdates(a))
    {
      title := JsText(a.title);
      UpsertAll(HookUpdates(a));
    }
  }
}
