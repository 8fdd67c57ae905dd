/**
 * `constructJsonStructure` of src/components/flows/flow-builder.tsx: the
 * flow JSON (version "6.0") built from the builder's screens. Each output
 * screen holds one form whose children are the mapped content items
 * followed by a footer; every footer but the last navigates to the next
 * screen and forwards that screen's answers, and the last one completes the
 * flow with every answer of every screen.
 */
module FlowSerializer {
  import opened Wrappers
  import opened Strings
  import opened FlowDocument

  // ---------------------------------------------------------------------------
  // The output schema
  // ---------------------------------------------------------------------------

  datatype DataSourceEntry = DataSourceEntry(id: string, title: string)

  /** The `next` object of a navigate action; its `type` is always "screen". */
  datatype NextScreen = NextScreen(name: string, kind: string)

  /**
   * An `on-click-action`; the constructor stands for its `name` field
   * ("navigate" or "complete"), and its payload maps keys to value references.
   */
  datatype Action =
    | Navigate(next: NextScreen, payload: map<string, string>)
    | Complete(payload: map<string, string>)

  /** The form children; the constructor stands for the `type` field. */
  datatype Component =
    | TextHeading(text: string)
    | TextSubheading(text: string)
    | TextBody(text: string)
    | TextCaption(text: string)
    | Image(src: string, alt: string)
    | TextInput(labelText: string, name: string, required: bool)
    | TextArea(labelText: string, name: string, required: bool)
    | DatePicker(labelText: string, name: string, required: bool)
    | RadioButtonsGroup(labelText: string, name: string, dataSource: Option<seq<DataSourceEntry>>, required: bool)
    | CheckboxGroup(labelText: string, name: string, dataSource: Option<seq<DataSourceEntry>>, required: bool)
    | Dropdown(labelText: string, name: string, dataSource: Option<seq<DataSourceEntry>>, required: bool)
    | OptIn(labelText: string, name: string, required: bool)
    | Footer(labelText: string, onClickAction: Action)
  {
    predicate IsText() { TextHeading? || TextSubheading? || TextBody? || TextCaption? }
    predicate IsChoice() { RadioButtonsGroup? || CheckboxGroup? || Dropdown? }
    predicate IsInput() { TextInput? || TextArea? || DatePicker? || IsChoice() || OptIn? }
  }

  datatype Form = Form(kind: string, name: string, children: seq<Component>)

  datatype Layout = Layout(kind: string, children: seq<Form>)

  /** An output screen; `terminal` false stands for the absent field. */
  datatype ScreenJson = ScreenJson(id: string, title: string, layout: Layout, terminal: bool)

  datatype FlowJson = FlowJson(version: string, screens: seq<ScreenJson>)

  // ---------------------------------------------------------------------------
  // Content items to components
  // ---------------------------------------------------------------------------

  /** The item types the `switch` maps; any other type maps to `null`. */
  predicate IsKnownKind(kind: string) {
    kind in {"large-heading", "small-heading", "body", "caption", "image", "short-answer",
             "paragraph", "date-picker", "single-choice", "multiple-choice", "dropdown", "opt-in"}
  }

  /**
   * The data-source id of the option at index k: the index, an underscore,
   * and the option with every character outside `[a-zA-Z_]` removed.
   */
  function OptionId(k: nat, option: string): string {
    NatToString(k) + "_" + Keep(option, IsLetterOrUnderscore)
  }

  /** `options.map((option, index) => ({id: OptionId(index, option), title: option}))`. */
  function DataSource(options: seq<string>): (r: seq<DataSourceEntry>)
    ensures |r| == |options|
    ensures forall k :: 0 <= k < |r| ==> r[k].title == options[k]
    ensures forall k :: 0 <= k < |r| ==> r[k].id == NatToString(k) + "_" + Keep(options[k], IsLetterOrUnderscore)
    ensures forall k :: 0 <= k < |r| ==>
      && StartsWith(r[k].id, NatToString(k) + "_")
      && forall i :: |NatToString(k)| < i < |r[k].id| ==> IsLetterOrUnderscore(r[k].id[i])
  {
    seq(|options|, k requires 0 <= k < |options| => DataSourceEntry(OptionId(k, options[k]), options[k]))
  }

  /** The options "A" and "B" get the ids "0_A" and "1_B". */
  lemma DataSourceExample()
    ensures DataSource(["A", "B"]) == [DataSourceEntry("0_A", "A"), DataSourceEntry("1_B", "B")]
  {
    assert NatToString(0) == "0" && NatToString(1) == "1";
    assert Keep("A", IsLetterOrUnderscore) == "A" by { assert "A"[1..] == []; }
    assert Keep("B", IsLetterOrUnderscore) == "B" by { assert "B"[1..] == []; }
    assert OptionId(0, "A") == "0_A" && OptionId(1, "B") == "1_B";
    var r := DataSource(["A", "B"]);
    assert |r| == 2 && r[0] == DataSourceEntry("0_A", "A") && r[1] == DataSourceEntry("1_B", "B");
  }

  /** Characters outside `[a-zA-Z_]` leave the id: "a b!" at index 2 gets "2_ab". */
  lemma OptionIdExample()
    ensures OptionId(2, "a b!") == "2_ab"
  {
    assert NatToString(2) == "2";
    assert "a b!"[1..] == " b!" && " b!"[1..] == "b!" && "b!"[1..] == "!" && "!"[1..] == [];
  }

  /** Option ids are unique within a data source, even when option texts repeat. */
  lemma OptionIdsDistinct(options: seq<string>)
    ensures forall k1, k2 :: 0 <= k1 < k2 < |DataSource(options)| ==>
      DataSource(options)[k1].id != DataSource(options)[k2].id
  {
    var r := DataSource(options);
    forall k1, k2 | 0 <= k1 < k2 < |r| ensures r[k1].id != r[k2].id {
      if r[k1].id == r[k2].id {
        var a, b := NatToString(k1), NatToString(k2);
        SplitAtSeparator(a, Keep(options[k1], IsLetterOrUnderscore), b, Keep(options[k2], IsLetterOrUnderscore), '_');
        NatToStringInjective(k1, k2);
      }
    }
  }

  /**
   * The `switch` over an item's type: text components show the title, the
   * image shows the content as its source, inputs are named by the item id
   * and carry its title and `required` flag, and choice inputs list the
   * options; an unknown type gives nothing.
   */
  function MapItem(c: Item): (r: Option<Component>)
    ensures r.Some? <==> IsKnownKind(c.kind)
    ensures r.Some? ==> !r.value.Footer?
    ensures r.Some? && r.value.IsText() ==> r.value.text == c.title
    ensures r.Some? && r.value.Image? ==> r.value.src == c.content && r.value.alt == c.title
    ensures r.Some? && r.value.IsInput() ==>
      r.value.labelText == c.title && r.value.name == c.id && r.value.required == c.required
    ensures r.Some? && r.value.IsChoice() ==>
      r.value.dataSource == if c.options.Some? then Some(DataSource(c.options.value)) else None
    ensures r.Some? && r.value.IsChoice() <==> IsChoiceKind(c.kind)
    ensures c.kind == "large-heading" ==> r == Some(TextHeading(c.title))
    ensures c.kind == "small-heading" ==> r == Some(TextSubheading(c.title))
    ensures c.kind == "body" ==> r == Some(TextBody(c.title))
    ensures c.kind == "caption" ==> r == Some(TextCaption(c.title))
    ensures c.kind == "image" ==> r == Some(Image(c.content, c.title))
    ensures c.kind == "short-answer" ==> r == Some(TextInput(c.title, c.id, c.required))
    ensures c.kind == "paragraph" ==> r == Some(TextArea(c.title, c.id, c.required))
    ensures c.kind == "date-picker" ==> r == Some(DatePicker(c.title, c.id, c.required))
    ensures c.kind == "single-choice" ==>
      r == Some(RadioButtonsGroup(c.title, c.id, if c.options.Some? then Some(DataSource(c.options.value)) else None, c.required))
    ensures c.kind == "multiple-choice" ==>
      r == Some(CheckboxGroup(c.title, c.id, if c.options.Some? then Some(DataSource(c.options.value)) else None, c.required))
    ensures c.kind == "dropdown" ==>
      r == Some(Dropdown(c.title, c.id, if c.options.Some? then Some(DataSource(c.options.value)) else None, c.required))
    ensures c.kind == "opt-in" ==> r == Some(OptIn(c.title, c.id, c.required))
  {
    var source := if c.options.Some? then Some(DataSource(c.options.value)) else None;
    match c.kind
    case "large-heading" => Some(TextHeading(c.title))
    case "small-heading" => Some(TextSubheading(c.title))
    case "body" => Some(TextBody(c.title))
    case "caption" => Some(TextCaption(c.title))
    case "image" => Some(Image(c.content, c.title))
    case "short-answer" => Some(TextInput(c.title, c.id, c.required))
    case "paragraph" => Some(TextArea(c.title, c.id, c.required))
    case "date-picker" => Some(DatePicker(c.title, c.id, c.required))
    case "single-choice" => Some(RadioButtonsGroup(c.title, c.id, source, c.required))
    case "multiple-choice" => Some(CheckboxGroup(c.title, c.id, source, c.required))
    case "dropdown" => Some(Dropdown(c.title, c.id, source, c.required))
    case "opt-in" => Some(OptIn(c.title, c.id, c.required))
    case _ => None
  }

  /** The component of an item as a list: one component, or none for an unknown type. */
  function MappedItem(c: Item): seq<Component> {
    match MapItem(c) case Some(x) => [x] case None => []
  }

  /** `content.map(<switch>).filter(Boolean)`: the mapped items in order, unknown types dropped. */
  function Components(items: seq<Item>): (r: seq<Component>)
    ensures |r| <= |items|
    ensures forall k :: 0 <= k < |r| ==> !r[k].Footer?
    ensures (forall j :: 0 <= j < |items| ==> IsKnownKind(items[j].kind)) ==>
      |r| == |items| && forall j :: 0 <= j < |items| ==> MapItem(items[j]) == Some(r[j])
    ensures (forall j :: 0 <= j < |items| ==> !IsKnownKind(items[j].kind)) ==> r == []
  {
    if items == [] then []
    else
      MappedItem(items[0]) + Components(items[1..])
  }

  /** Mapping a concatenation maps each part, so components keep the items' order. */
  lemma {:induction false} ComponentsConcat(a: seq<Item>, b: seq<Item>)
    ensures Components(a + b) == Components(a) + Components(b)
  {
    if a == [] {
      assert a + b == b;
    } else {
      assert (a + b)[1..] == a[1..] + b;
      ComponentsConcat(a[1..], b);
    }
  }

  // ---------------------------------------------------------------------------
  // Footer payloads
  // ---------------------------------------------------------------------------

  /** The payload key of an item: `screen_<index>_<id>`. */
  function Key(screenIndex: nat, id: string): string {
    "screen_" + NatToString(screenIndex) + "_" + id
  }

  /** A reference to the live form field: `${form.<id>}`. */
  function FormRef(id: string): string {
    "${form." + id + "}"
  }

  /** A reference to the value forwarded from an earlier screen: `${data.screen_<index>_<id>}`. */
  function DataRef(screenIndex: nat, id: string): string {
    "${data." + Key(screenIndex, id) + "}"
  }

  /** The value the completing screen `current` gives the key of an item of screen `s`. */
  function CompleteValue(s: nat, current: nat, id: string): string {
    if s == current then FormRef(id) else DataRef(s, id)
  }

  /** A key names its screen and item: the index has no underscore. */
  lemma KeyInjective(s1: nat, id1: string, s2: nat, id2: string)
    requires Key(s1, id1) == Key(s2, id2)
    ensures s1 == s2 && id1 == id2
  {
    var a, b := NatToString(s1), NatToString(s2);
    assert Key(s1, id1) == "screen_" + (a + "_" + id1);
    assert Key(s2, id2) == "screen_" + (b + "_" + id2);
    CancelPrefix("screen_", a + "_" + id1, b + "_" + id2);
    SplitAtSeparator(a, id1, b, id2, '_');
    NatToStringInjective(s1, s2);
  }

  /** The keys of the items of screen s. */
  ghost function ScreenKeys(s: nat, items: seq<Item>): set<string> {
    set c | c in items :: Key(s, c.id)
  }

  /** The keys of the items of the first n screens. */
  ghost function KeysUpTo(screens: seq<Screen>, n: nat): set<string>
    requires n <= |screens|
  {
    set s, c | 0 <= s < n && c in screens[s].content :: Key(s, c.id)
  }

  lemma KeysUpToNext(screens: seq<Screen>, n: nat)
    requires n < |screens|
    ensures KeysUpTo(screens, n + 1) == KeysUpTo(screens, n) + ScreenKeys(n, screens[n].content)
  {
  }

  lemma ScreenKeysAppend(s: nat, items: seq<Item>, c: Item)
    ensures ScreenKeys(s, items + [c]) == ScreenKeys(s, items) + {Key(s, c.id)}
  {
  }

  /** The payload of a navigating footer: one key per item of the screen, each a form reference. */
  ghost predicate IsNavigatePayload(index: nat, items: seq<Item>, p: map<string, string>) {
    && p.Keys == ScreenKeys(index, items)
    && forall c :: c in items ==> Key(index, c.id) in p && p[Key(index, c.id)] == FormRef(c.id)
  }

  /**
   * The keys and values a completing footer of screen `current` has for the
   * items of the first `n` screens.
   */
  ghost predicate IsCompletePayloadUpTo(screens: seq<Screen>, n: nat, current: nat, p: map<string, string>)
    requires n <= |screens|
  {
    && p.Keys == KeysUpTo(screens, n)
    && forall s, c :: 0 <= s < n && c in screens[s].content ==>
         Key(s, c.id) in p && p[Key(s, c.id)] == CompleteValue(s, current, c.id)
  }

  /** The payload of a completing footer: a key for every item of every screen. */
  ghost predicate IsCompletePayload(screens: seq<Screen>, current: nat, p: map<string, string>) {
    IsCompletePayloadUpTo(screens, |screens|, current, p)
  }

  /** `screen.content.reduce((acc, content) => { acc[key] = form reference; ... }, {})`. */
  method NavigatePayload(index: nat, items: seq<Item>) returns (acc: map<string, string>)
    ensures IsNavigatePayload(index, items, acc)
  {
    acc := map[];
    for j := 0 to |items|
      invariant acc.Keys == ScreenKeys(index, items[..j])
      invariant forall c :: c in items[..j] ==> Key(index, c.id) in acc && acc[Key(index, c.id)] == FormRef(c.id)
    {
      var c := items[j];
      forall d | d in items[..j] && Key(index, d.id) == Key(index, c.id) ensures d.id == c.id {
        KeyInjective(index, d.id, index, c.id);
      }
      assert items[..j + 1] == items[..j] + [c];
      ScreenKeysAppend(index, items[..j], c);
      acc := acc[Key(index, c.id) := FormRef(c.id)];
    }
    assert items[..|items|] == items;
  }

  /**
   * The entries of a completing payload after the first j items of screen
   * s have been added to those of the screens before s.
   */
  ghost predicate IsForwardedUpTo(screens: seq<Screen>, s: nat, j: nat, current: nat, p: map<string, string>)
    requires s < |screens| && j <= |screens[s].content|
  {
    && p.Keys == KeysUpTo(screens, s) + ScreenKeys(s, screens[s].content[..j])
    && (forall s', c :: 0 <= s' < s && c in screens[s'].content ==>
          Key(s', c.id) in p && p[Key(s', c.id)] == CompleteValue(s', current, c.id))
    && forall c :: c in screens[s].content[..j] ==>
         Key(s, c.id) in p && p[Key(s, c.id)] == CompleteValue(s, current, c.id)
  }

  /** The first j + 1 items are the first j followed by item j. */
  lemma TakeNext(items: seq<Item>, j: nat)
    requires j < |items|
    ensures items[..j + 1] == items[..j] + [items[j]]
  {
  }

  /** One step of the forEach: the key of item j is new or names the same item id. */
  lemma ForwardStep(screens: seq<Screen>, s: nat, j: nat, current: nat, p: map<string, string>)
    requires s < |screens| && j < |screens[s].content|
    requires IsForwardedUpTo(screens, s, j, current, p)
    ensures IsForwardedUpTo(screens, s, j + 1, current,
      p[Key(s, screens[s].content[j].id) := CompleteValue(s, current, screens[s].content[j].id)])
  {
    var items := screens[s].content;
    var c := items[j];
    var q := p[Key(s, c.id) := CompleteValue(s, current, c.id)];
    TakeNext(items, j);
    ForwardStepKeys(KeysUpTo(screens, s), s, items[..j], c, current, p, q);
    ForwardStepEarlier(screens, s, c.id, current, p, q);
    ForwardStepCurrent(s, items[..j], c, current, p, q);
  }

  /** Adding the entry of item c of screen s adds its key. */
  lemma ForwardStepKeys(earlier: set<string>, s: nat, before: seq<Item>, c: Item, current: nat,
                        p: map<string, string>, q: map<string, string>)
    requires p.Keys == earlier + ScreenKeys(s, before)
    requires q == p[Key(s, c.id) := CompleteValue(s, current, c.id)]
    ensures q.Keys == earlier + ScreenKeys(s, before + [c])
  {
    ScreenKeysAppend(s, before, c);
  }

  /** Adding the entry of item `id` of screen s keeps the entries of the earlier screens. */
  lemma ForwardStepEarlier(screens: seq<Screen>, s: nat, id: string, current: nat, p: map<string, string>,
                           q: map<string, string>)
    requires s <= |screens|
    requires forall s', c :: 0 <= s' < s && c in screens[s'].content ==>
      Key(s', c.id) in p && p[Key(s', c.id)] == CompleteValue(s', current, c.id)
    requires q == p[Key(s, id) := CompleteValue(s, current, id)]
    ensures forall s', c :: 0 <= s' < s && c in screens[s'].content ==>
      Key(s', c.id) in q && q[Key(s', c.id)] == CompleteValue(s', current, c.id)
  {
    forall s', d | 0 <= s' < s && d in screens[s'].content
      ensures Key(s', d.id) != Key(s, id)
    {
      if Key(s', d.id) == Key(s, id) {
        KeyInjective(s', d.id, s, id);
      }
    }
  }

  /** Adding the entry of item c of screen s keeps the entries of the items before it. */
  lemma ForwardStepCurrent(s: nat, before: seq<Item>, c: Item, current: nat, p: map<string, string>,
                           q: map<string, string>)
    requires forall d :: d in before ==> Key(s, d.id) in p && p[Key(s, d.id)] == CompleteValue(s, current, d.id)
    requires q == p[Key(s, c.id) := CompleteValue(s, current, c.id)]
    ensures forall d :: d in before + [c] ==> Key(s, d.id) in q && q[Key(s, d.id)] == CompleteValue(s, current, d.id)
  {
    forall d | d in before + [c] && Key(s, d.id) == Key(s, c.id) ensures d.id == c.id {
      KeyInjective(s, d.id, s, c.id);
    }
  }

  /**
   * `s.content.forEach(...)` for screen s inside the reduce of the completing
   * footer: adds the entries of screen s to those of the screens before it.
   */
  method ForwardScreen(acc0: map<string, string>, screens: seq<Screen>, s: nat, current: nat)
    returns (acc: map<string, string>)
    requires s < |screens|
    requires IsCompletePayloadUpTo(screens, s, current, acc0)
    ensures IsCompletePayloadUpTo(screens, s + 1, current, acc)
  {
    acc := acc0;
    var items := screens[s].content;
    assert items[..0] == [];
    for j := 0 to |items|
      invariant IsForwardedUpTo(screens, s, j, current, acc)
    {
      ForwardStep(screens, s, j, current, acc);
      acc := acc[Key(s, items[j].id) := CompleteValue(s, current, items[j].id)];
    }
    assert items[..|items|] == items;
    KeysUpToNext(screens, s);
  }

  /**
   * `screens.reduce((acc, s, sIndex) => { s.content.forEach(...); ... }, {})`
   * for the completing screen `current`.
   */
  method CompletePayload(screens: seq<Screen>, current: nat) returns (acc: map<string, string>)
    ensures IsCompletePayload(screens, current, acc)
  {
    acc := map[];
    for s := 0 to |screens|
      invariant IsCompletePayloadUpTo(screens, s, current, acc)
    {
      acc := ForwardScreen(acc, screens, s, current);
    }
  }

  // ---------------------------------------------------------------------------
  // Screens
  // ---------------------------------------------------------------------------

  /**
   * The footer of screen `index`: "Continue" navigating to the next screen
   * with that screen's own answers, or, on the last screen, "Done"
   * completing the flow with every answer.
   */
  ghost predicate IsFooter(screens: seq<Screen>, index: nat, f: Component)
    requires index < |screens|
  {
    && f.Footer?
    && if index < |screens| - 1 then
         && f.labelText == "Continue"
         && f.onClickAction.Navigate?
         && f.onClickAction.next == NextScreen(screens[index + 1].id, "screen")
         && IsNavigatePayload(index, screens[index].content, f.onClickAction.payload)
       else
         && f.labelText == "Done"
         && f.onClickAction.Complete?
         && IsCompletePayload(screens, index, f.onClickAction.payload)
  }

  /** Output screen `index`: same id and title, one form of components and a footer. */
  ghost predicate IsScreenJson(screens: seq<Screen>, index: nat, o: ScreenJson)
    requires index < |screens|
  {
    && o.id == screens[index].id
    && o.title == screens[index].title
    && o.terminal == (index == |screens| - 1)
    && o.layout.kind == "SingleColumnLayout"
    && |o.layout.children| == 1
    && o.layout.children[0].kind == "Form"
    && o.layout.children[0].name == "flow_path"
    && var children := o.layout.children[0].children;
       && |children| == |Components(screens[index].content)| + 1
       && children[..|children| - 1] == Components(screens[index].content)
       && IsFooter(screens, index, children[|children| - 1])
  }

  /** One element of `screens.map((screen, index) => ...)`. */
  method BuildScreen(screens: seq<Screen>, index: nat) returns (o: ScreenJson)
    requires index < |screens|
    ensures IsScreenJson(screens, index, o)
  {
    var screen := screens[index];
    var footer: Component;
    if index < |screens| - 1 {
      var payload := NavigatePayload(index, screen.content);
      footer := Footer("Continue", Navigate(NextScreen(screens[index + 1].id, "screen"), payload));
    } else {
      var payload := CompletePayload(screens, index);
      footer := Footer("Done", Complete(payload));
    }
    var children := Components(screen.content) + [footer];
    assert children[..|children| - 1] == Components(screen.content);
    o := ScreenJson(screen.id, screen.title,
                    Layout("SingleColumnLayout", [Form("Form", "flow_path", children)]),
                    index == |screens| - 1);
  }

  /**
   * `constructJsonStructure`: version "6.0" and one output screen per
   * screen, in order; only the last one is terminal.
   */
  method ConstructJsonStructure(screens: seq<Screen>) returns (r: FlowJson)
    ensures r.version == "6.0"
    ensures |r.screens| == |screens|
    ensures forall i :: 0 <= i < |screens| ==> IsScreenJson(screens, i, r.screens[i])
    ensures forall i :: 0 <= i < |r.screens| ==> (r.screens[i].terminal <==> i == |screens| - 1)
  {
    var out: seq<ScreenJson> := [];
    for i := 0 to |screens|
      invariant |out| == i
      invariant forall k :: 0 <= k < i ==> IsScreenJson(screens, k, out[k])
    {
      var o := BuildScreen(screens, i);
      out := out + [o];
    }
    r := FlowJson("6.0", out);
  }
}
