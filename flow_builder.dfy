/**
 * The `FlowBuilder` component of src/components/flows/flow-builder.tsx as a
 * state machine: its two pieces of state, `screens` and `selectedScreen`,
 * are fields, and each event handler replaces them with the value the
 * transition functions of FlowDocument compute.
 */
module FlowEditor {
  import opened Wrappers
  import opened Strings
  import opened FlowDocument

  class FlowBuilder {
    var screens: seq<Screen>
    var selectedScreen: string

    /**
     * There is always a screen, and the selected id names one of them: no
     * operation removes a screen or changes a screen id, and only new or
     * existing screens are ever selected.
     */
    ghost predicate Valid()
      reads this
    {
      |screens| > 0 && exists i :: 0 <= i < |screens| && screens[i].id == selectedScreen
    }

    /** The initial state: one empty screen `First_Screen`, selected. */
    constructor ()
      ensures Valid()
      ensures screens == [Screen("First_Screen", "First Screen", [])]
      ensures selectedScreen == "First_Screen"
    {
      screens := [Screen("First_Screen", "First Screen", [])];
      selectedScreen := "First_Screen";
      new;
      assert screens[0].id == selectedScreen;
    }

    /** Clicking the i-th entry of the screen list selects that screen. */
    method SelectScreen(i: nat)
      requires Valid() && i < |screens|
      modifies this
      ensures Valid()
      ensures screens == old(screens) && selectedScreen == old(screens)[i].id
    {
      selectedScreen := screens[i].id;
    }

    method UpdateScreenTitle(screenId: string, newTitle: string)
      requires Valid()
      modifies this
      ensures Valid()
      ensures selectedScreen == old(selectedScreen)
      ensures screens == Retitled(old(screens), screenId, newTitle)
    {
      ghost var k :| 0 <= k < |screens| && screens[k].id == selectedScreen;
      screens := Retitled(screens, screenId, newTitle);
      assert screens[k].id == selectedScreen;
    }

    method AddContent(kind: string)
      requires Valid()
      modifies this
      ensures Valid()
      ensures selectedScreen == old(selectedScreen)
      ensures screens == ContentAdded(old(screens), old(selectedScreen), kind)
      ensures exists i :: 0 <= i < |screens| && screens[i].id == selectedScreen
                          && |screens[i].content| == |old(screens)[i].content| + 1
    {
      ghost var k :| 0 <= k < |screens| && screens[k].id == selectedScreen;
      screens := ContentAdded(screens, selectedScreen, kind);
      assert screens[k].id == selectedScreen;
    }

    /** The one transition shared by the six item mutators below. */
    method Edit(contentId: string, e: ItemEdit)
      requires Valid()
      requires EditFitsScreens(screens, selectedScreen, contentId, e)
      modifies this
      ensures Valid()
      ensures selectedScreen == old(selectedScreen)
      ensures screens == ItemEdited(old(screens), old(selectedScreen), contentId, e)
    {
      ghost var k :| 0 <= k < |screens| && screens[k].id == selectedScreen;
      screens := ItemEdited(screens, selectedScreen, contentId, e);
      assert screens[k].id == selectedScreen;
    }

    method UpdateContentOption(contentId: string, optionIndex: nat, newOption: string)
      requires Valid()
      requires EditFitsScreens(screens, selectedScreen, contentId, SetOption(optionIndex, newOption))
      modifies this
      ensures Valid()
      ensures selectedScreen == old(selectedScreen)
      ensures screens == ItemEdited(old(screens), old(selectedScreen), contentId, SetOption(optionIndex, newOption))
    {
      Edit(contentId, SetOption(optionIndex, newOption));
    }

    method AddContentOption(contentId: string)
      requires Valid()
      modifies this
      ensures Valid()
      ensures selectedScreen == old(selectedScreen)
      ensures screens == ItemEdited(old(screens), old(selectedScreen), contentId, AppendOption)
    {
      Edit(contentId, AppendOption);
    }

    method DeleteContentOption(contentId: string, optionIndex: int)
      requires Valid()
      modifies this
      ensures Valid()
      ensures selectedScreen == old(selectedScreen)
      ensures screens == ItemEdited(old(screens), old(selectedScreen), contentId, RemoveOption(optionIndex))
    {
      Edit(contentId, RemoveOption(optionIndex));
    }

    method UpdateContent(contentId: string, newContent: string)
      requires Valid()
      modifies this
      ensures Valid()
      ensures selectedScreen == old(selectedScreen)
      ensures screens == ItemEdited(old(screens), old(selectedScreen), contentId, SetContent(newContent))
    {
      Edit(contentId, SetContent(newContent));
    }

    method UpdateContentTitle(contentId: string, newTitle: string)
      requires Valid()
      modifies this
      ensures Valid()
      ensures selectedScreen == old(selectedScreen)
      ensures screens == ItemEdited(old(screens), old(selectedScreen), contentId, SetTitle(newTitle))
    {
      Edit(contentId, SetTitle(newTitle));
    }

    method UpdateContentRequired(contentId: string, required: bool)
      requires Valid()
      modifies this
      ensures Valid()
      ensures selectedScreen == old(selectedScreen)
      ensures screens == ItemEdited(old(screens), old(selectedScreen), contentId, SetRequired(required))
    {
      Edit(contentId, SetRequired(required));
    }

    method DeleteContent(contentId: string)
      requires Valid()
      modifies this
      ensures Valid()
      ensures selectedScreen == old(selectedScreen)
      ensures screens == ContentDeleted(old(screens), old(selectedScreen), contentId)
    {
      ghost var k :| 0 <= k < |screens| && screens[k].id == selectedScreen;
      screens := ContentDeleted(screens, selectedScreen, contentId);
      assert screens[k].id == selectedScreen;
    }

    /**
     * The X button beside a screen in the screen list: it deletes the items
     * of the selected screen whose id is that screen's id, so the screens
     * themselves, their ids and titles all stay.
     */
    method ScreenCloseClicked(screenId: string)
      requires Valid()
      modifies this
      ensures Valid()
      ensures selectedScreen == old(selectedScreen)
      ensures screens == ContentDeleted(old(screens), old(selectedScreen), screenId)
      ensures |screens| == |old(screens)|
      ensures forall i :: 0 <= i < |screens| ==>
        screens[i].id == old(screens)[i].id && screens[i].title == old(screens)[i].title
    {
      DeleteContent(screenId);
    }

    /**
     * `addScreen`: a new empty screen titled `Screen <n+1>` at the end,
     * which becomes the selected screen; `randomText` stands for the text
     * of `Math.random().toString(36)`.
     */
    method AddScreen(randomText: string)
      requires Valid()
      modifies this
      ensures Valid()
      ensures selectedScreen == NewScreenId(randomText)
      ensures screens == old(screens) + [Screen(NewScreenId(randomText), "Screen " + NatToString(|old(screens)| + 1), [])]
    {
      var newScreen := Screen(NewScreenId(randomText), "Screen " + NatToString(|screens| + 1), []);
      screens := screens + [newScreen];
      selectedScreen := newScreen.id;
      assert screens[|screens| - 1].id == selectedScreen;
    }
  }
}
