/** `frontend/src/components/seo/Breadcrumb.jsx`: the BreadcrumbList schema and the rendered
    trail, a home link followed by one entry per item. */
module Breadcrumb {
  import opened Wrappers
  import opened Site

  /** A trail item; a missing or empty `url` is falsy. */
  datatype Crumb = Crumb(name: string, url: Option<string>)

  predicate HasUrl(c: Crumb) { c.url.Some? && c.url.value != "" }

  /** One `ListItem`: position, name, and `item` (absent, i.e. `undefined`, without a url). */
  datatype ListItem = ListItem(position: nat, name: string, item: Option<string>)

  function ListItems(items: seq<Crumb>): (r: seq<ListItem>)
    ensures |r| == |items|
    ensures forall i :: 0 <= i < |r| ==> r[i].position == i + 1 && r[i].name == items[i].name
    ensures forall i :: 0 <= i < |r| ==> (r[i].item.Some? <==> HasUrl(items[i]))
    ensures forall i :: 0 <= i < |r| && HasUrl(items[i]) ==> r[i].item == Some(SiteUrl + items[i].url.value)
  {
    if items == [] then []
    else
      var i := |items| - 1;
      ListItems(items[..i]) + [ListItem(i + 1, items[i].name, if HasUrl(items[i]) then Some(SiteUrl + items[i].url.value) else None)]
  }

  /** A rendered entry of the trail. */
  datatype Entry = HomeLink | LinkTo(to: string, text: string) | PlainText(text: string)

  function Trail(items: seq<Crumb>): (r: seq<Entry>)
    ensures |r| == |items| + 1 && r[0] == HomeLink
    ensures forall j :: 1 <= j < |r| ==> (r[j].LinkTo? <==> HasUrl(items[j - 1]))
    ensures forall j :: 1 <= j < |r| ==> !r[j].HomeLink? && r[j].text == items[j - 1].name
    ensures forall j :: 1 <= j < |r| && HasUrl(items[j - 1]) ==> r[j] == LinkTo(items[j - 1].url.value, items[j - 1].name)
  {
    if items == [] then [HomeLink]
    else
      var i := |items| - 1;
      Trail(items[..i]) + [if HasUrl(items[i]) then LinkTo(items[i].url.value, items[i].name) else PlainText(items[i].name)]
  }

  /** The schema and the trail agree: an item is a link exactly when its schema entry has a URL. */
  lemma SchemaMatchesTrail(items: seq<Crumb>, i: nat)
    requires i < |items|
    ensures ListItems(items)[i].item.Some? <==> Trail(items)[i + 1].LinkTo?
  {
  }
}
