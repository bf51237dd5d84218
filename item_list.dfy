/**
 * The orchestrator that turns a page into its ItemList JSON-LD document: the
 * gate on the view and the record count, the position loop that also counts
 * skipped records, and the list assembly.
 */
module ItemList {
  import opened Wrappers
  import opened JsonValue
  import opened Php
  import opened Collector
  import opened ItemSpec
  import opened ItemBuilder

  /** One entry of itemListElement. */
  function ListItem(position: int, item: Fields): Json {
    JObject([("@type", JString("ListItem")), ("position", JInt(position)), ("item", JObject(item))])
  }

  /** A record is emitted only when its title is not empty(); an absent title reads as ''. */
  predicate Emitted(a: Attrs) {
    !Empty(a, "title")
  }

  /**
   * The list elements the loop produces for the collected records, each
   * record's object made by build: a record's position is its 1-based index.
   */
  function ElementsBuiltBy(records: seq<Attrs>, build: Attrs -> Fields): seq<Json>
    decreases |records|
  {
    if records == [] then []
    else
      var n := |records| - 1;
      ElementsBuiltBy(records[..n], build)
      + (if Emitted(records[n]) then [ListItem(n + 1, build(records[n]))] else [])
  }

  /** The list elements of the document. */
  function ListElements(records: seq<Attrs>): seq<Json> {
    ElementsBuiltBy(records, Item)
  }

  /** The indices of the records that are emitted, in increasing order. */
  function Survivors(records: seq<Attrs>): (s: seq<nat>)
    ensures forall j :: 0 <= j < |s| ==> s[j] < |records| && Emitted(records[s[j]])
    ensures forall j, l :: 0 <= j < l < |s| ==> s[j] < s[l]
    ensures forall i :: 0 <= i < |records| && Emitted(records[i]) ==> i in s
    decreases |records|
  {
    if records == [] then []
    else
      var n := |records| - 1;
      var front := Survivors(records[..n]);
      assert forall i :: 0 <= i < n ==> records[..n][i] == records[i];
      if Emitted(records[n]) then front + [n] else front
  }

  /** The ItemList document, or None when nothing is echoed. */
  function Document(records: seq<Attrs>): Option<Json> {
    if |records| < 2 then None
    else
      var elements := ListElements(records);
      if elements == [] then None
      else Some(JObject([
        ("@context", JString("https://schema.org")),
        ("@type", JString("ItemList")),
        ("numberOfItems", JInt(|elements|)),
        ("itemListOrder", JString("Descending")),
        ("itemListElement", JArray(elements))]))
  }

  /**
   * wcg_ranked_list_item_output_schema. The view's singularity and the post's
   * parsed blocks are inputs (None when there is no post or it has no blocks);
   * the result is the document that would be echoed, None when nothing is.
   */
  method OutputSchema(singular: bool, post: Option<seq<Block>>) returns (doc: Option<Json>)
    ensures doc == if singular && post.Some? then Document(RankedAttrs(PreOrder(post.value))) else None
  {
    if !singular {
      return None;
    }
    if post.None? {
      return None;
    }
    var items := CollectBlocks(post.value);
    if |items| < 2 {
      return None;
    }
    var listElements: seq<Json> := [];
    var position := 0;
    for i := 0 to |items|
      invariant position == i
      invariant listElements == ListElements(items[..i])
    {
      assert items[..i + 1][..i] == items[..i];
      position := position + 1;
      var attrs := items[i];
      var title := Coalesce(attrs, "title", "");
      if Falsy(title) {
        continue;
      }
      var item := BuildItem(attrs);
      listElements := listElements + [ListItem(position, item)];
    }
    assert items[..|items|] == items;
    if listElements == [] {
      return None;
    }
    doc := Some(JObject([
      ("@context", JString("https://schema.org")),
      ("@type", JString("ItemList")),
      ("numberOfItems", JInt(|listElements|)),
      ("itemListOrder", JString("Descending")),
      ("itemListElement", JArray(listElements))]));
  }

  /** One list element per emitted record, whatever builds the items. */
  lemma {:induction false} BuiltCount(records: seq<Attrs>, build: Attrs -> Fields)
    ensures |ElementsBuiltBy(records, build)| == |Survivors(records)|
    decreases |records|
  {
    if records != [] {
      var n := |records| - 1;
      BuiltCount(records[..n], build);
    }
  }

  /**
   * The j-th list element is the j-th emitted record, at the position equal to
   * that record's 1-based index among all collected records. This holds for
   * any item builder, so in particular for Item, with which ListElements is
   * built.
   */
  lemma {:induction false} BuiltAtSurvivors(records: seq<Attrs>, build: Attrs -> Fields)
    ensures |ElementsBuiltBy(records, build)| == |Survivors(records)|
    ensures forall j :: 0 <= j < |ElementsBuiltBy(records, build)| ==>
      ElementsBuiltBy(records, build)[j] == ListItem(Survivors(records)[j] + 1, build(records[Survivors(records)[j]]))
    decreases |records|
  {
    BuiltCount(records, build);
    if records != [] {
      var n := |records| - 1;
      var front := records[..n];
      BuiltAtSurvivors(front, build);
      var le, sv := ElementsBuiltBy(front, build), Survivors(front);
      var all, s := ElementsBuiltBy(records, build), Survivors(records);
      SurvivorsSnoc(records);
      var last := if Emitted(records[n]) then [ListItem(n + 1, build(records[n]))] else [];
      assert all == le + last;
      forall j | 0 <= j < |all|
        ensures all[j] == ListItem(s[j] + 1, build(records[s[j]]))
      {
        if j < |le| {
          assert all[j] == le[j] && s[j] == sv[j] && front[sv[j]] == records[sv[j]];
        } else {
          assert all[j] == ListItem(n + 1, build(records[n])) && s[j] == n;
        }
      }
    }
  }

  lemma SurvivorsSnoc(records: seq<Attrs>)
    requires records != []
    ensures Survivors(records) == Survivors(records[..|records| - 1]) + (if Emitted(records[|records| - 1]) then [|records| - 1] else [])
  {
  }

  /** Every emitted item is named by its record's non-empty title. */
  lemma EmittedItemsNamed(records: seq<Attrs>)
    ensures forall j :: 0 <= j < |Survivors(records)| ==>
      var a := records[Survivors(records)[j]];
      "title" in a && !Falsy(a["title"]) && Item(a)[1] == ("name", JString(a["title"]))
  {
    forall j | 0 <= j < |Survivors(records)|
      ensures var a := records[Survivors(records)[j]];
        "title" in a && !Falsy(a["title"]) && Item(a)[1] == ("name", JString(a["title"]))
    {
      ItemCommonFields(records[Survivors(records)[j]]);
    }
  }

  /**
   * A document is produced exactly when at least two records were collected
   * (counting empty-title ones) and at least one of them has a title.
   */
  lemma DocumentGate(records: seq<Attrs>)
    ensures Document(records).Some? <==>
      |records| >= 2 && exists i :: 0 <= i < |records| && Emitted(records[i])
  {
    BuiltNonEmpty(records, Item);
  }

  /** The loop produces some element exactly when some record has a title. */
  lemma BuiltNonEmpty(records: seq<Attrs>, build: Attrs -> Fields)
    ensures ElementsBuiltBy(records, build) != [] <==> exists i :: 0 <= i < |records| && Emitted(records[i])
  {
    BuiltAtSurvivors(records, build);
    var s := Survivors(records);
    if exists i :: 0 <= i < |records| && Emitted(records[i]) {
      var i :| 0 <= i < |records| && Emitted(records[i]);
      assert i in s;
    }
    if |s| > 0 {
      assert Emitted(records[s[0]]);
    }
  }

  /** numberOfItems is the number of records with a title, and equals the length of itemListElement. */
  lemma DocumentCount(records: seq<Attrs>)
    requires Document(records).Some?
    ensures Document(records).value.JObject?
    ensures var f := Document(records).value.fields;
      |f| == 5 && f[2] == ("numberOfItems", JInt(|Survivors(records)|))
      && f[4].1.JArray? && |f[4].1.elems| == |Survivors(records)|
      && f[4].1.elems == ListElements(records)
  {
    BuiltCount(records, Item);
  }
}
