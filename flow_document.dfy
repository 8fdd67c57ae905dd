/**
 * The authoring state of the flow builder (src/components/flows/flow-builder.tsx):
 * screens holding content items, and the new value of `screens` that each
 * editor operation computes with `map`, `filter` and spreads. The class in
 * flow_builder.dfy assigns these values to its fields.
 */
module FlowDocument {
  import opened Wrappers
  import opened Strings

  /**
   * One content item of a screen (`ContentItem`): `kind` is its `type`,
   * which is any string; `options` is absent for items created with a
   * non-choice type.
   */
  datatype Item = Item(
    id: string,
    kind: string,
    title: string,
    content: string,
    options: Option<seq<string>>,
    required: bool)

  datatype Screen = Screen(id: string, title: string, content: seq<Item>)

  /** The item types that are created with an option list. */
  predicate IsChoiceKind(kind: string) {
    kind == "single-choice" || kind == "multiple-choice" || kind == "dropdown"
  }

  /** Index of the first screen with the given id, or `|screens|` when there is none. */
  function FirstIndex(screens: seq<Screen>, id: string): (k: nat)
    ensures k <= |screens|
    ensures k < |screens| ==> screens[k].id == id
    ensures forall j :: 0 <= j < k ==> screens[j].id != id
  {
    if screens == [] || screens[0].id == id then 0 else 1 + FirstIndex(screens[1..], id)
  }

  /** `screens.find((screen) => screen.id === id)`: the first screen with that id. */
  function Find(screens: seq<Screen>, id: string): (r: Option<Screen>)
    ensures r.None? <==> forall i :: 0 <= i < |screens| ==> screens[i].id != id
    ensures r.Some? ==> r.value.id == id && r.value in screens
    ensures r.Some? ==> exists k :: 0 <= k < |screens| && screens[k] == r.value
                                    && forall j :: 0 <= j < k ==> screens[j].id != id
  {
    var k := FirstIndex(screens, id);
    if k < |screens| then Some(screens[k]) else None
  }

  // ---------------------------------------------------------------------------
  // Screen titles and new items
  // ---------------------------------------------------------------------------

  /** `updateScreenTitle`: every screen with the id gets the new title. */
  function Retitled(screens: seq<Screen>, screenId: string, newTitle: string): (r: seq<Screen>)
    ensures |r| == |screens|
    ensures forall i :: 0 <= i < |r| ==> r[i].id == screens[i].id && r[i].content == screens[i].content
    ensures forall i :: 0 <= i < |r| ==>
      r[i].title == if screens[i].id == screenId then newTitle else screens[i].title
  {
    seq(|screens|, i requires 0 <= i < |screens| =>
      if screens[i].id == screenId then screens[i].(title := newTitle) else screens[i])
  }

  /**
   * What `addContent` appends: id `content_<count+1>` where `count` is the
   * number of items on the selected screen, empty title and content, not
   * required, and the option list `["Option 1"]` exactly for choice types.
   */
  predicate IsNewItem(c: Item, count: nat, kind: string) {
    && c.id == "content_" + NatToString(count + 1)
    && c.kind == kind
    && c.title == ""
    && c.content == ""
    && !c.required
    && (c.options.Some? <==> IsChoiceKind(kind))
    && (c.options.Some? ==> c.options.value == ["Option 1"])
  }

  function NewItem(count: nat, kind: string): Item {
    Item("content_" + NatToString(count + 1), kind, "", "",
         if IsChoiceKind(kind) then Some(["Option 1"]) else None, false)
  }

  /**
   * `addContent(kind)`: nothing when no screen has the selected id; otherwise
   * one new item at the end of every screen with that id, numbered after the
   * item count of the first such screen.
   */
  function ContentAdded(screens: seq<Screen>, selected: string, kind: string): (r: seq<Screen>)
    ensures |r| == |screens|
    ensures Find(screens, selected).None? ==> r == screens
    ensures forall i :: 0 <= i < |r| ==> r[i].id == screens[i].id && r[i].title == screens[i].title
    ensures forall i :: 0 <= i < |r| && screens[i].id != selected ==> r[i] == screens[i]
    ensures Find(screens, selected).Some? ==>
      forall i :: 0 <= i < |r| && screens[i].id == selected ==>
        && |r[i].content| == |screens[i].content| + 1
        && r[i].content[..|screens[i].content|] == screens[i].content
        && IsNewItem(r[i].content[|screens[i].content|], |Find(screens, selected).value.content|, kind)
  {
    match Find(screens, selected)
    case None => screens
    case Some(current) =>
      var item := NewItem(|current.content|, kind);
      seq(|screens|, i requires 0 <= i < |screens| =>
        if screens[i].id == current.id then screens[i].(content := screens[i].content + [item])
        else screens[i])
  }

  // ---------------------------------------------------------------------------
  // Edits of one item's fields and options
  // ---------------------------------------------------------------------------

  /** The six single-item edits, one per mutator that maps over the items. */
  datatype ItemEdit =
    | SetTitle(newTitle: string)                  // updateContentTitle
    | SetContent(newContent: string)              // updateContent
    | SetRequired(newRequired: bool)              // updateContentRequired
    | SetOption(index: nat, newOption: string)    // updateContentOption
    | AppendOption                                // addContentOption
    | RemoveOption(removeIndex: int)              // deleteContentOption

  /** `content.options ? [...content.options] : []`. */
  function OptionsOrEmpty(c: Item): seq<string> {
    if c.options.Some? then c.options.value else []
  }

  /**
   * `newOptions[optionIndex] = newOption` stays a dense array only when the
   * index is at most the length; a larger index would leave holes.
   */
  predicate EditFits(c: Item, e: ItemEdit) {
    e.SetOption? ==> e.index <= |OptionsOrEmpty(c)|
  }

  /** `s.filter((_, index) => index !== i)`, where `from` is the index of `s[0]`. */
  function FilterOutIndex(s: seq<string>, i: int, from: int): seq<string>
  {
    if s == [] then [] else (if from == i then [] else [s[0]]) + FilterOutIndex(s[1..], i, from + 1)
  }

  /** Filtering by index removes exactly that index, or nothing when it is out of range. */
  lemma {:induction false} FilterOutIndexRemovesAt(s: seq<string>, i: int, from: int)
    ensures FilterOutIndex(s, i, from) ==
      if from <= i < from + |s| then s[..i - from] + s[i - from + 1..] else s
  {
    if s != [] {
      FilterOutIndexRemovesAt(s[1..], i, from + 1);
      if from < i < from + |s| {
        assert s[1..][..i - from - 1] == s[1..i - from];
        assert [s[0]] + s[1..i - from] == s[..i - from];
        assert s[1..][i - from..] == s[i - from + 1..];
      } else if from == i {
        assert s[i - from + 1..] == s[1..];
      } else {
        assert [s[0]] + s[1..] == s;
      }
    }
  }

  /** The item after one edit; the id and type never change. */
  function ApplyEdit(c: Item, e: ItemEdit): (r: Item)
    requires EditFits(c, e)
    ensures r.id == c.id && r.kind == c.kind
    ensures !e.SetTitle? ==> r.title == c.title
    ensures !e.SetContent? ==> r.content == c.content
    ensures !e.SetRequired? ==> r.required == c.required
    ensures (e.SetTitle? || e.SetContent? || e.SetRequired?) ==> r.options == c.options
    ensures e.SetTitle? ==> r.title == e.newTitle
    ensures e.SetContent? ==> r.content == e.newContent
    ensures e.SetRequired? ==> r.required == e.newRequired
    // updateContentOption: in range, only that option changes; at the end, it is appended
    ensures e.SetOption? ==> r.options.Some?
    ensures e.SetOption? && e.index < |OptionsOrEmpty(c)| ==>
      && |r.options.value| == |OptionsOrEmpty(c)|
      && r.options.value[e.index] == e.newOption
      && forall k :: 0 <= k < |OptionsOrEmpty(c)| && k != e.index ==> r.options.value[k] == OptionsOrEmpty(c)[k]
    ensures e.SetOption? && e.index == |OptionsOrEmpty(c)| ==>
      r.options.value == OptionsOrEmpty(c) + [e.newOption]
    // addContentOption: `Option <k+1>` when options exist, an empty list otherwise
    ensures e.AppendOption? && c.options.Some? ==>
      r.options == Some(c.options.value + ["Option " + NatToString(|c.options.value| + 1)])
    ensures e.AppendOption? && c.options.None? ==> r.options == Some([])
    // deleteContentOption: exactly that index goes, the rest keep their order
    ensures e.RemoveOption? ==> r.options.Some?
    ensures e.RemoveOption? && 0 <= e.removeIndex < |OptionsOrEmpty(c)| ==>
      r.options.value == OptionsOrEmpty(c)[..e.removeIndex] + OptionsOrEmpty(c)[e.removeIndex + 1..]
    ensures e.RemoveOption? && !(0 <= e.removeIndex < |OptionsOrEmpty(c)|) ==>
      r.options.value == OptionsOrEmpty(c)
  {
    match e
    case SetTitle(t) => c.(title := t)
    case SetContent(v) => c.(content := v)
    case SetRequired(b) => c.(required := b)
    case SetOption(i, o) =>
      var opts := OptionsOrEmpty(c);
      c.(options := Some(if i < |opts| then opts[i := o] else opts + [o]))
    case AppendOption =>
      c.(options := if c.options.Some?
                    then Some(c.options.value + ["Option " + NatToString(|c.options.value| + 1)])
                    else Some([]))
    case RemoveOption(i) =>
      FilterOutIndexRemovesAt(OptionsOrEmpty(c), i, 0);
      c.(options := Some(if c.options.Some? then FilterOutIndex(c.options.value, i, 0) else []))
  }

  /** The edit fits every item it will be applied to. */
  predicate EditFitsItems(items: seq<Item>, contentId: string, e: ItemEdit) {
    forall j :: 0 <= j < |items| && items[j].id == contentId ==> EditFits(items[j], e)
  }

  predicate EditFitsScreens(screens: seq<Screen>, selected: string, contentId: string, e: ItemEdit) {
    forall i :: 0 <= i < |screens| && screens[i].id == selected ==>
      EditFitsItems(screens[i].content, contentId, e)
  }

  /** `content.map(content => content.id === contentId ? <edited> : content)`. */
  function EditItems(items: seq<Item>, contentId: string, e: ItemEdit): (r: seq<Item>)
    requires EditFitsItems(items, contentId, e)
  {
    seq(|items|, j requires 0 <= j < |items| =>
      if items[j].id == contentId then ApplyEdit(items[j], e) else items[j])
  }

  /**
   * The six item mutators: nothing when no screen has the selected id;
   * otherwise the edit is applied to the items with the given id on the
   * screens with the selected id, and every other screen and item is kept.
   */
  function ItemEdited(screens: seq<Screen>, selected: string, contentId: string, e: ItemEdit): (r: seq<Screen>)
    requires EditFitsScreens(screens, selected, contentId, e)
    ensures |r| == |screens|
    ensures Find(screens, selected).None? ==> r == screens
    ensures forall i :: 0 <= i < |r| ==> r[i].id == screens[i].id && r[i].title == screens[i].title
    ensures forall i :: 0 <= i < |r| && screens[i].id != selected ==> r[i] == screens[i]
    ensures Find(screens, selected).Some? ==>
      forall i :: 0 <= i < |r| && screens[i].id == selected ==>
        && |r[i].content| == |screens[i].content|
        && forall j :: 0 <= j < |r[i].content| ==>
             r[i].content[j] == if screens[i].content[j].id == contentId
                                then ApplyEdit(screens[i].content[j], e)
                                else screens[i].content[j]
  {
    match Find(screens, selected)
    case None => screens
    case Some(current) =>
      seq(|screens|, i requires 0 <= i < |screens| =>
        if screens[i].id == current.id then screens[i].(content := EditItems(screens[i].content, contentId, e))
        else screens[i])
  }

  // ---------------------------------------------------------------------------
  // Deleting items
  // ---------------------------------------------------------------------------

  /** `content.filter((content) => content.id !== contentId)`. */
  function WithoutId(items: seq<Item>, contentId: string): (r: seq<Item>)
    ensures |r| <= |items|
    ensures forall c :: c in r <==> c in items && c.id != contentId
    ensures (forall j :: 0 <= j < |items| ==> items[j].id != contentId) ==> r == items
  {
    if items == [] then []
    else (if items[0].id == contentId then [] else [items[0]]) + WithoutId(items[1..], contentId)
  }

  /** Filtering a concatenation filters each part, so the kept items stay in order. */
  lemma {:induction false} WithoutIdConcat(a: seq<Item>, b: seq<Item>, contentId: string)
    ensures WithoutId(a + b, contentId) == WithoutId(a, contentId) + WithoutId(b, contentId)
  {
    if a == [] {
      assert a + b == b;
    } else {
      assert (a + b)[1..] == a[1..] + b;
      WithoutIdConcat(a[1..], b, contentId);
    }
  }

  /**
   * `deleteContent(contentId)`: nothing when no screen has the selected id;
   * otherwise every item with that id leaves the screens with the selected
   * id. No screen is ever removed.
   */
  function ContentDeleted(screens: seq<Screen>, selected: string, contentId: string): (r: seq<Screen>)
    ensures |r| == |screens|
    ensures Find(screens, selected).None? ==> r == screens
    ensures forall i :: 0 <= i < |r| ==> r[i].id == screens[i].id && r[i].title == screens[i].title
    ensures forall i :: 0 <= i < |r| && screens[i].id != selected ==> r[i] == screens[i]
    ensures Find(screens, selected).Some? ==>
      forall i :: 0 <= i < |r| && screens[i].id == selected ==>
        r[i].content == WithoutId(screens[i].content, contentId)
  {
    match Find(screens, selected)
    case None => screens
    case Some(current) =>
      seq(|screens|, i requires 0 <= i < |screens| =>
        if screens[i].id == current.id then screens[i].(content := WithoutId(screens[i].content, contentId))
        else screens[i])
  }

  /**
   * Item ids are not unique: on a screen holding `content_1` and `content_2`,
   * deleting `content_1` and adding an item gives a second `content_2`.
   */
  lemma AddAfterDeleteRepeatsId(screens: seq<Screen>, selected: string, x: Item, y: Item, kind: string)
    requires |screens| == 1 && screens[0].id == selected && screens[0].content == [x, y]
    requires x.id == "content_1" && y.id == "content_2"
    ensures var r := ContentAdded(ContentDeleted(screens, selected, x.id), selected, kind);
            |r[0].content| == 2 && r[0].content[0] == y && r[0].content[1].id == y.id
  {
    assert Find(screens, selected).Some?;
    var d := ContentDeleted(screens, selected, x.id);
    assert [x, y][1..] == [y] && [y][1..] == [];
    assert WithoutId([x, y], x.id) == [y];
    assert d[0].content == [y];
    assert Find(d, selected) == Some(d[0]);
    assert NatToString(2) == "2";
  }

  // ---------------------------------------------------------------------------
  // New screens
  // ---------------------------------------------------------------------------

  /**
   * The id `addScreen` gives a new screen, from the text of
   * `Math.random().toString(36)`: `screen_` and the first five letters of it.
   * It is a valid provider screen name: letters and underscores only.
   */
  function NewScreenId(randomText: string): (id: string)
    ensures StartsWith(id, "screen_") && 7 <= |id| <= 12
    ensures forall i :: 0 <= i < |id| ==> IsLetterOrUnderscore(id[i])
    ensures StartsWith(Keep(randomText, IsLetter), id[7..])
    ensures |id| - 7 == if |Keep(randomText, IsLetter)| < 5 then |Keep(randomText, IsLetter)| else 5
  {
    var letters := Keep(randomText, IsLetter);
    var tail := Prefix(letters, 5);
    assert forall i :: 0 <= i < |tail| ==> tail[i] == letters[i];
    "screen_" + tail
  }
}
