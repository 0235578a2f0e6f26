/**
 * The records the digest passes between its stages: a digest item (the
 * dictionary built for each emitted entry) and a topic section (one entry of
 * the insertion-ordered `sections` dictionary).
 */
module DigestItems {
  import opened Wrappers

  /**
   * One emitted digest item.  `publishedLocal` is a local time in seconds;
   * `publishedLocalStr` is its `HH:MM` rendering, or "" when there is none.
   */
  datatype Item = Item(
    topic: string,
    title: string,
    url: string,
    summary: string,
    publishedLocal: Option<int>,
    publishedLocalStr: string,
    isBreaking: bool)

  /** One key of `sections` with its list of items. */
  datatype Section = Section(topic: string, items: seq<Item>)

  /** All items of all sections, section by section, in order. */
  function Flatten(sections: seq<Section>): seq<Item>
  {
    if sections == [] then []
    else Flatten(sections[..|sections| - 1]) + sections[|sections| - 1].items
  }

  lemma FlattenAppend(sections: seq<Section>, s: Section)
    ensures Flatten(sections + [s]) == Flatten(sections) + s.items
  {
    assert (sections + [s])[..|sections|] == sections;
  }

  /** The URLs of a list of items. */
  function UrlSet(items: seq<Item>): set<string>
  {
    if items == [] then {} else {items[0].url} + UrlSet(items[1..])
  }

  /** The URL of every item is in the set. */
  lemma {:induction false} UrlSetHas(items: seq<Item>, k: nat)
    requires k < |items|
    ensures items[k].url in UrlSet(items)
  {
    if k > 0 {
      UrlSetHas(items[1..], k - 1);
    }
  }

  /** Every URL in the set is that of some item. */
  lemma {:induction false} UrlSetOnly(items: seq<Item>, u: string)
    requires u in UrlSet(items)
    ensures exists k :: 0 <= k < |items| && items[k].url == u
  {
    if u != items[0].url {
      UrlSetOnly(items[1..], u);
      var k :| 0 <= k < |items[1..]| && items[1..][k].url == u;
      assert items[k + 1].url == u;
    }
  }

  lemma {:induction false} UrlSetAppend(a: seq<Item>, b: seq<Item>)
    ensures UrlSet(a + b) == UrlSet(a) + UrlSet(b)
  {
    if a != [] {
      assert (a + b)[0] == a[0] && (a + b)[1..] == a[1..] + b;
      UrlSetAppend(a[1..], b);
    } else {
      assert a + b == b;
    }
  }

  lemma UrlSetSingle(it: Item)
    ensures UrlSet([it]) == {it.url}
  {
    assert [it][1..] == [];
  }

  /** No two items share a URL. */
  predicate UrlsDistinct(items: seq<Item>)
  {
    forall i, j :: 0 <= i < j < |items| ==> items[i].url != items[j].url
  }
}
