/**
 * A profile summary card: a title, an optional Edit action and one line per
 * entry, where each value is shown as "Not set" when it is falsy, as its
 * elements joined by ", " when it is an array, and as `String(value)`
 * otherwise.
 */
module SectionCard {
  import opened JsValues
  import opened ProfileTypes

  /** One labelled value of a card. */
  datatype Entry = Entry(caption: string, value: Json)

  /** What a card line shows: the "Not set" badge, or a text. */
  datatype Shown = NotSet | Shown(text: string)

  /**
   * The display rule. Undefined, null, false, 0 and "" show "Not set"; an
   * array, even an empty one, shows its elements joined by ", "; any other
   * value shows as `String(value)`.
   */
  function Display(v: Json): (d: Shown)
    ensures d.NotSet? <==> (v == Undefined || v == Null || v == Bool(false) || v == Num(0) || v == Str(""))
    ensures v.Arr? ==> d == Shown(JoinItems(v.items, ", "))
    ensures v.Str? && v.s != "" ==> d == Shown(v.s)
    ensures v.Num? && v.n != 0 ==> d == Shown(IntToDecimal(v.n))
    ensures v.Obj? ==> d == Shown("[object Object]")
    ensures Truthy(v) && !v.Arr? ==> d == Shown(ToText(v))
    ensures v == Bool(true) ==> d == Shown("true")
  {
    if !Truthy(v) then NotSet
    else if v.Arr? then Shown(JoinItems(v.items, ", "))
    else Shown(ToText(v))
  }

  /** An empty array is truthy, so it shows an empty text rather than "Not set". */
  lemma EmptyArrayShowsEmptyText()
    ensures Display(Arr([])) == Shown("")
  {
  }

  /** A stored list of strings shows as those strings joined by ", ". */
  lemma TagsDisplay(tags: seq<string>)
    ensures Display(TagsToJson(tags)) == Shown(JoinWith(tags, ", "))
  {
    var v := TagsToJson(tags);
    var shown := seq(|v.items|, i requires 0 <= i < |v.items| => ElementText(v.items[i]));
    forall i | 0 <= i < |tags| ensures shown[i] == tags[i] {
      assert v.items[i] == Str(tags[i]);
    }
    assert shown == tags;
  }

  /** The rendered card: its title, its lines in entry order, and whether it offers Edit. */
  datatype Card = Card(title: string, lines: seq<(string, Shown)>, editable: bool)

  function RenderCard(title: string, entries: seq<Entry>, onEdit: bool): (c: Card)
    ensures c.title == title && c.editable == onEdit
    ensures |c.lines| == |entries|
    ensures forall i :: 0 <= i < |entries| ==> c.lines[i] == (entries[i].caption, Display(entries[i].value))
  {
    Card(title, seq(|entries|, i requires 0 <= i < |entries| => (entries[i].caption, Display(entries[i].value))), onEdit)
  }
}
