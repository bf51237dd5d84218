/**
 * The frontend side of the plugin: the global position counter that numbers the
 * rendered blocks, its reset at the start of every content render, and the
 * gating at the top of the block's render callback. The HTML the callback
 * builds is not modelled; a rendered block is reduced to what the gating
 * decides (whether anything is printed, at which position, with which title,
 * and whether the title link and the link button appear, with which label).
 */
module Frontend {
  import opened Wrappers
  import opened JsonValue
  import opened Php
  import opened ItemList

  /** The value a counter slot reads as: an unset counter counts as 0. */
  function CounterValue(counter: Option<int>): int {
    if counter.Some? then counter.value else 0
  }

  /** The global $GLOBALS['wcg_ranked_list_item_position_counter']. */
  class PositionCounter {
    /** None while the global is unset. */
    var counter: Option<int>

    /** Before the first reset the global is unset. */
    constructor ()
      ensures counter == None
    {
      counter := None;
    }

    /** wcg_ranked_list_item_reset_position_counter. */
    method Reset()
      modifies this
      ensures counter == Some(0)
    {
      counter := Some(0);
    }

    /**
     * wcg_ranked_list_item_get_position: an unset counter is first set to 0;
     * the counter then goes up by exactly one and its new value is returned.
     */
    method GetPosition() returns (position: int)
      modifies this
      ensures position == CounterValue(old(counter)) + 1
      ensures counter == Some(position)
    {
      if counter.None? {
        counter := Some(0);
      }
      counter := Some(counter.value + 1);
      position := counter.value;
    }
  }

  /** wcg_ranked_list_item_reset_position_for_content: a the_content filter that resets the counter and passes the content through. */
  method ResetForContent(c: PositionCounter, content: string) returns (r: string)
    modifies c
    ensures r == content
    ensures c.counter == Some(0)
  {
    c.Reset();
    r := content;
  }

  const DefaultButtonText := "View site"

  /** The link button's label: urlButtonText when it is not empty(), else the default label. */
  function ButtonText(a: Attrs): (text: string)
    ensures !Falsy(text)
    ensures "urlButtonText" in a && !Falsy(a["urlButtonText"]) ==> text == a["urlButtonText"]
    ensures Empty(a, "urlButtonText") ==> text == DefaultButtonText
  {
    if !Empty(a, "urlButtonText") then a["urlButtonText"] else DefaultButtonText
  }

  /**
   * The link of an item: the title link and the link button are printed only
   * when url is set, and the button then carries ButtonText; None when neither
   * is printed.
   */
  function LinkButton(a: Attrs): (button: Option<string>)
    ensures button.Some? <==> !Falsy(Coalesce(a, "url", ""))
    ensures button.Some? ==> button.value == ButtonText(a) && !Falsy(button.value)
  {
    if Falsy(Coalesce(a, "url", "")) then None else Some(ButtonText(a))
  }

  /** What the render callback returns: '' or the markup of one item. */
  datatype Rendered =
    | Skipped
    | Markup(position: int, title: string, button: Option<string>)

  /**
   * The render callback's outcome for a block with attributes a that was given
   * the position p: nothing when the title is empty(), else the item's markup.
   */
  function RenderOf(a: Attrs, p: int): (r: Rendered)
    ensures r.Skipped? <==> !Emitted(a)
    ensures r.Markup? ==> r.position == p && "title" in a && r.title == a["title"] && !Falsy(r.title)
    ensures r.Markup? ==> (r.button.Some? <==> "url" in a && !Falsy(a["url"]))
    ensures r.Markup? && r.button.Some? ==> r.button.value == ButtonText(a)
  {
    var title := Coalesce(a, "title", "");
    if Falsy(title) then Skipped else Markup(p, title, LinkButton(a))
  }

  /**
   * wcg_ranked_list_item_render_callback, up to the markup: the position is
   * taken from the counter before the title is looked at, so a block without
   * a title uses up a position and prints nothing.
   */
  method RenderCallback(c: PositionCounter, attributes: Attrs) returns (out: Rendered)
    modifies c
    ensures c.counter == Some(CounterValue(old(c.counter)) + 1)
    ensures out == RenderOf(attributes, c.counter.value)
  {
    var position := c.GetPosition();
    var title := Coalesce(attributes, "title", "");
    var url := Coalesce(attributes, "url", "");
    var buttonText := if !Empty(attributes, "urlButtonText") then attributes["urlButtonText"] else DefaultButtonText;
    if Falsy(title) {
      return Skipped;
    }
    if Falsy(url) {
      out := Markup(position, title, None);
    } else {
      out := Markup(position, title, Some(buttonText));
    }
  }

  /**
   * One content render as the host performs it: the the_content filter resets
   * the counter, then each ranked block of the content is rendered in document
   * order. The n-th block gets position n whatever its title.
   */
  method RenderContent(c: PositionCounter, content: string, blocks: seq<Attrs>) returns (r: string, outs: seq<Rendered>)
    modifies c
    ensures r == content
    ensures |outs| == |blocks|
    ensures forall i :: 0 <= i < |blocks| ==> outs[i] == RenderOf(blocks[i], i + 1)
    ensures c.counter == Some(|blocks|)
  {
    r := ResetForContent(c, content);
    outs := [];
    for i := 0 to |blocks|
      invariant |outs| == i
      invariant forall j :: 0 <= j < i ==> outs[j] == RenderOf(blocks[j], j + 1)
      invariant c.counter == Some(i)
    {
      var out := RenderCallback(c, blocks[i]);
      outs := outs + [out];
    }
  }

  /**
   * The page and its structured data agree: for the same ranked blocks, the
   * j-th list element belongs to a block the page prints, and its "position"
   * is the position that block shows on the page. Stated for any item
   * builder, so in particular for Item, with which ListElements is built.
   */
  lemma PageMatchesSchema(records: seq<Attrs>, build: Attrs -> Fields)
    ensures |ElementsBuiltBy(records, build)| == |Survivors(records)|
    ensures forall j :: 0 <= j < |ElementsBuiltBy(records, build)| ==>
      RenderOf(records[Survivors(records)[j]], Survivors(records)[j] + 1).Markup?
      && ElementsBuiltBy(records, build)[j].JObject? && |ElementsBuiltBy(records, build)[j].fields| == 3
      && ElementsBuiltBy(records, build)[j].fields[1] ==
        ("position", JInt(RenderOf(records[Survivors(records)[j]], Survivors(records)[j] + 1).position))
  {
    BuiltAtSurvivors(records, build);
  }

  /** A block prints markup exactly when it is among the emitted records. */
  lemma RenderedAreSurvivors(records: seq<Attrs>)
    ensures forall i :: 0 <= i < |records| ==> (RenderOf(records[i], i + 1).Markup? <==> i in Survivors(records))
  {
    var s := Survivors(records);
    forall i | 0 <= i < |records|
      ensures RenderOf(records[i], i + 1).Markup? <==> i in s
    {
      if i in s {
        var j :| 0 <= j < |s| && s[j] == i;
      }
    }
  }
}
