# DrivenByMoss: the sends grid element and the base mode

This project models two parts of the DrivenByMoss controller extensions for Bitwig Studio.

- **The sends cluster of the Push 2 display grid** (`SendsGridElement`). The element takes a
  snapshot of four sends: name, value text, value, modulated value, and edited flag. It draws
  that snapshot into the slider area below the menu. Each send before the first unnamed one
  gets a label and a fader row, whatever isExMode is. Each non-empty value text gets a box,
  whatever the names are. An element that is off draws only the header.
  - Drawing is modelled as a trace. A `GraphicsOutput` records one `Command` for every call made
    on it.
  - `SendsGridElement.Draw` is proved to append exactly `DrawCommands(View(), ...)`. That is a
    closed-form description of the drawing.
  - The lemmas in `SendsGridProperties` read the drawing back from `DrawCommands`. They cover
    which labels and value texts appear and in what order, and how many edit markers appear. They give every label's
    and every value text's position and size in closed form, and the slot each value text
    belongs to. They also cover how the background and each fader are shaped.
- **The base class of all controller modes** (`AbstractMode`). This covers its construction
  defaults and its do-nothing hooks. It also covers item navigation through the mode's bank.
  - A bank records the calls made on it.
  - The navigation methods are proved to append exactly the calls that `Calls(request, hasBank,
    shiftPressed)` describes.
  - The lemmas about `Calls` state the shift redirection, the page-only effect of a shifted step,
    and the no-op without a bank.

Files:
- `wrappers.dfy`: `Option`, which stands for a Java reference that may be null.
- `sends_grid.dfy`: module `SendsGrid`. It holds the command datatype, the layout, the
  closed-form drawing, the graphics output and the element class.
- `sends_grid_properties.dfy`: module `SendsGridProperties`. It holds what a drawing shows.
- `abstract_mode.dfy`: module `Modes`. It holds the bank, the control surface, the mode class,
  and the navigation calls.

Layout constants, and the parameter maximum that `getMaxValue()` returns, are a `Layout` value
passed to `Draw`. The layout constants are `MENU_HEIGHT`, `UNIT`, `INSET`, `SEPARATOR_SIZE` and
`TRACK_ROW_HEIGHT`.

The draw code compares a modulated value with 16383 to decide whether the send is modulated. The
constructor's documentation says "-1 if not modulated". The model follows the code.
`DocumentedSentinelIgnored` shows that a -1 is drawn as a fill of negative width.

## Model

| member | source | states |
|---|---|---|
| SendsGrid.CopyPrefix | src/main/java/de/mossgrabers/push/controller/display/model/grid/SendsGridElement.java:78-85 | the copy loop gives a fresh array whose contents are exactly the first n entries of the argument |
| SendsGrid.SendsGridElement.constructor | src/main/java/de/mossgrabers/push/controller/display/model/grid/SendsGridElement.java:75-88 | each of the five arrays is fresh and equals the first four entries of its argument (each argument has at least four); the header fields and isExMode are stored as given |
| SendsGrid.Measure | src/main/java/de/mossgrabers/push/controller/display/model/grid/SendsGridElement.java:102-157 | the slider area starts one below the menu and is cut into eight rows of equal height; a slider is the row height less two separators; the value box is half the slider and ends at the slider's right edge |
| SendsGrid.Min | src/main/java/de/mossgrabers/push/controller/display/model/grid/SendsGridElement.java:148 | the result is one of the two arguments and not above either |
| SendsGrid.RowCount | src/main/java/de/mossgrabers/push/controller/display/model/grid/SendsGridElement.java:125-128 | the number of rows drawn is the index of the first empty send name, or the number of slots; every name before it is non-empty |
| SendsGrid.SlotTopIsLinear | src/main/java/de/mossgrabers/push/controller/display/model/grid/SendsGridElement.java:117-152 | advancing topy by two row heights per slot puts slot i at the menu height plus 2 * i row heights |
| SendsGrid.SendsGridElement.DrawHeader | src/main/java/de/mossgrabers/push/controller/display/model/grid/SendsGridElement.java:95 | the superclass drawing appends one header command carrying the element's header fields |
| SendsGrid.SendsGridElement.DrawSliderBackground | src/main/java/de/mossgrabers/push/controller/display/model/grid/SendsGridElement.java:111-115 | appends exactly the colour, rectangle and fill of the slider background |
| SendsGrid.SendsGridElement.DrawSlider | src/main/java/de/mossgrabers/push/controller/display/model/grid/SendsGridElement.java:132-141 | appends the slider frame and the fader fill, whose width follows the modulated value unless it is 16383 |
| SendsGrid.SendsGridElement.DrawEditMarker | src/main/java/de/mossgrabers/push/controller/display/model/grid/SendsGridElement.java:143-150 | appends the edit colour and the marker rectangle next to the send value |
| SendsGrid.SendsGridElement.DrawSendRow | src/main/java/de/mossgrabers/push/controller/display/model/grid/SendsGridElement.java:130-150 | appends the name label, the slider and, for an edited send, the marker; topy moves down by one row height |
| SendsGrid.SendsGridElement.DrawSendRows | src/main/java/de/mossgrabers/push/controller/display/model/grid/SendsGridElement.java:117-153 | the row loop appends the name font and then rows 0 .. RowCount-1, each at its own row top |
| SendsGrid.SendsGridElement.DrawValueBox | src/main/java/de/mossgrabers/push/controller/display/model/grid/SendsGridElement.java:165-174 | appends a filled box, its stroked border and the centred value text |
| SendsGrid.SendsGridElement.DrawValueBoxes | src/main/java/de/mossgrabers/push/controller/display/model/grid/SendsGridElement.java:155-178 | the text loop appends the value font and then a box for every one of the four slots whose text is not empty |
| SendsGrid.SendsGridElement.Draw | src/main/java/de/mossgrabers/push/controller/display/model/grid/SendsGridElement.java:93-179 | draw appends exactly DrawCommands of the element's snapshot |
| SendsGridProperties.SliderHidden | src/main/java/de/mossgrabers/push/controller/display/model/grid/SendsGridElement.java:132-141 | the slider of a row holds no label, value text or edit colour |
| SendsGridProperties.MarkerSeen | src/main/java/de/mossgrabers/push/controller/display/model/grid/SendsGridElement.java:143-150 | a row selects the edit colour exactly when its send is edited |
| SendsGridProperties.RowContents | src/main/java/de/mossgrabers/push/controller/display/model/grid/SendsGridElement.java:130-150 | a row shows exactly one name label, no value text, and the edit colour only for an edited send |
| SendsGridProperties.BoxContents | src/main/java/de/mossgrabers/push/controller/display/model/grid/SendsGridElement.java:165-174 | a slot's box shows its text, centred, exactly when the text is not empty, and nothing else that is observed |
| SendsGridProperties.RowsLabels | src/main/java/de/mossgrabers/push/controller/display/model/grid/SendsGridElement.java:125-153 | the first n rows show exactly n labels, the j-th being send j's name at row j's top |
| SendsGridProperties.RowsEditColors | src/main/java/de/mossgrabers/push/controller/display/model/grid/SendsGridElement.java:143-153 | the first n rows select the edit colour once per edited send among them |
| SendsGridProperties.RowsNoValueText | src/main/java/de/mossgrabers/push/controller/display/model/grid/SendsGridElement.java:125-153 | the rows show no value text |
| SendsGridProperties.NonEmptySlotsSound | src/main/java/de/mossgrabers/push/controller/display/model/grid/SendsGridElement.java:161-165 | every slot listed by NonEmptySlots is a slot of the element and carries that slot's text, which is not empty |
| SendsGridProperties.NonEmptySlotsIncreasing | src/main/java/de/mossgrabers/push/controller/display/model/grid/SendsGridElement.java:161-165 | NonEmptySlots lists slots in strictly increasing index order, so none twice |
| SendsGridProperties.NonEmptySlotsComplete | src/main/java/de/mossgrabers/push/controller/display/model/grid/SendsGridElement.java:161-165 | every slot whose text passes the box loop's non-empty test is listed by NonEmptySlots |
| SendsGridProperties.BoxesStep | src/main/java/de/mossgrabers/push/controller/display/model/grid/SendsGridElement.java:163-177 | one pass of the box loop adds slot i's text, placed in slot i's box, exactly when that text is not empty, and no other value text |
| SendsGridProperties.BoxesValueTexts | src/main/java/de/mossgrabers/push/controller/display/model/grid/SendsGridElement.java:161-178 | the first n boxes show exactly the texts of the non-empty slots among 0 .. n-1, in slot order, each placed in its own slot's box |
| SendsGridProperties.PlacedTextsAt | src/main/java/de/mossgrabers/push/controller/display/model/grid/SendsGridElement.java:156-178 | the text placed for slot i starts at boxLeft, is boxWidth wide and one unit high, centred, with its top at the menu height plus 2 * i + 1 row heights, one slider height and 1, plus a separator unless the element is an extension |
| SendsGridProperties.DrawnSlotTexts | src/main/java/de/mossgrabers/push/controller/display/model/grid/SendsGridElement.java:97-178 | the value texts of a drawing are exactly those of the non-empty slots, in slot order and each placed in its own slot's box; there are none when the element is off |
| SendsGridProperties.BoxesOnlyValueTexts | src/main/java/de/mossgrabers/push/controller/display/model/grid/SendsGridElement.java:161-178 | the boxes hold no name label and no edit colour |
| SendsGridProperties.OnlyOfDraw | src/main/java/de/mossgrabers/push/controller/display/model/grid/SendsGridElement.java:93-179 | what is observed in a drawing comes from the send rows followed by the value boxes, and is nothing for an element that is off |
| SendsGridProperties.OffDrawsOnlyHeader | src/main/java/de/mossgrabers/push/controller/display/model/grid/SendsGridElement.java:95-100 | a drawing starts with the header and is nothing more exactly when the name is missing or empty and the element is not an extension |
| SendsGridProperties.DrawnLabels | src/main/java/de/mossgrabers/push/controller/display/model/grid/SendsGridElement.java:125-153 | the labels of a drawing are those of its send rows, and there are none when the element is off |
| SendsGridProperties.SendRowsDrawn | src/main/java/de/mossgrabers/push/controller/display/model/grid/SendsGridElement.java:117-152 | a drawing holds one label per send up to the first empty name, whatever isExMode is, and none when the element is off; label j shows send j's name left-aligned at faderLeft, sliderWidth wide and one row high, with its top at the menu height plus 2 * j row heights and one separator, plus another separator unless the element is an extension |
| SendsGridProperties.LabelSpacing | src/main/java/de/mossgrabers/push/controller/display/model/grid/SendsGridElement.java:117-152 | the first label sits at the menu height plus one separator (two when not an extension); each next label is exactly two row heights lower |
| SendsGridProperties.EditMarkersDrawn | src/main/java/de/mossgrabers/push/controller/display/model/grid/SendsGridElement.java:143-150 | a drawing selects the edit colour once per edited send among the rows drawn, and never when the element is off |
| SendsGridProperties.ValueTextsDrawn | src/main/java/de/mossgrabers/push/controller/display/model/grid/SendsGridElement.java:155-178 | a drawing shows one value text for each slot whose text is not empty and no other, in slot order, whatever the names are, and none when the element is off; the j-th text is the text of the j-th such slot i, centred at boxLeft, boxWidth wide and one unit high, with its top at the menu height plus 2 * i + 1 row heights, one slider height and 1, plus a separator unless the element is an extension; its right edge is the slider's |
| SendsGridProperties.BackgroundShape | src/main/java/de/mossgrabers/push/controller/display/model/grid/SendsGridElement.java:111-115 | the background is lighter if and only if the element is selected or an extension; an extension starts one separator further left with the same right edge and is 2 shorter |
| SendsGridProperties.ValueWidthBounds | src/main/java/de/mossgrabers/push/controller/display/model/grid/SendsGridElement.java:135 | a value between 0 and the maximum covers between 0 and the slider width |
| SendsGridProperties.FillFollowsModulation | src/main/java/de/mossgrabers/push/controller/display/model/grid/SendsGridElement.java:135-140 | the fill has the modulated width exactly when the modulated value is not 16383, and then the send value does not matter; otherwise it has the send value's width |
| SendsGridProperties.FaderWithinSlider | src/main/java/de/mossgrabers/push/controller/display/model/grid/SendsGridElement.java:132-141 | with the shown value in range, the fill lies inside the slider frame |
| SendsGridProperties.DocumentedSentinelIgnored | src/main/java/de/mossgrabers/push/controller/display/model/grid/SendsGridElement.java:136 | a modulated value of -1, the documented "not modulated", is drawn as a fill of width below -1 |
| SendsGridProperties.MarkerInsideSlider | src/main/java/de/mossgrabers/push/controller/display/model/grid/SendsGridElement.java:143-149 | the marker exists exactly for an edited send; it is 3 wide with a value text and 1 without; it starts at the smaller of one past the value and the slider's right edge less its width and one, so it ends at most one before that edge and starts no further right than one past the value; it stays right of the fill's start when there is room |
| Modes.AbstractMode.constructor | src/main/java/de/mossgrabers/framework/mode/AbstractMode.java:50-53 | the 3-argument constructor makes an absolute, temporary mode without a bank that keeps its name, surface and model |
| Modes.AbstractMode.WithValueChange | src/main/java/de/mossgrabers/framework/mode/AbstractMode.java:65-73 | the 4-argument constructor stores isAbsolute as given; the mode is temporary and keeps its name, surface and model |
| Modes.AbstractMode.WithBank | src/main/java/de/mossgrabers/framework/mode/AbstractMode.java:286-289 | a mode whose getBank override returns the given bank; the other defaults are as in the 4-argument constructor |
| Modes.AbstractMode.GetName | src/main/java/de/mossgrabers/framework/mode/AbstractMode.java:78-81 | returns the name given at construction |
| Modes.AbstractMode.IsAbsolute | src/main/java/de/mossgrabers/framework/mode/AbstractMode.java:113-116 | returns the isAbsolute field |
| Modes.AbstractMode.IsTemporary | src/main/java/de/mossgrabers/framework/mode/AbstractMode.java:161-164 | returns the isTemporary field |
| Modes.AbstractMode.GetKnobValue | src/main/java/de/mossgrabers/framework/mode/AbstractMode.java:129-132 | every knob reports -1 |
| Modes.AbstractMode.GetSelectedItemName | src/main/java/de/mossgrabers/framework/mode/AbstractMode.java:187-190 | there is no selected item name (null) |
| Modes.AbstractMode.GetBank | src/main/java/de/mossgrabers/framework/mode/AbstractMode.java:286-289 | returns the mode's bank, which is absent for the base class |
| Modes.AbstractMode.HasPreviousItem | src/main/java/de/mossgrabers/framework/mode/AbstractMode.java:247-251 | false without a bank; otherwise the bank's canScrollBackwards |
| Modes.AbstractMode.HasNextItem | src/main/java/de/mossgrabers/framework/mode/AbstractMode.java:256-260 | false without a bank; otherwise the bank's canScrollForwards |
| Modes.AbstractMode.HasPreviousItemPage | src/main/java/de/mossgrabers/framework/mode/AbstractMode.java:265-269 | false without a bank; otherwise the bank's canScrollPageBackwards |
| Modes.AbstractMode.HasNextItemPage | src/main/java/de/mossgrabers/framework/mode/AbstractMode.java:274-278 | false without a bank; otherwise the bank's canScrollPageForwards |
| Modes.AbstractMode.OnActivate | src/main/java/de/mossgrabers/framework/mode/AbstractMode.java:86-89 | changes nothing in the mode, its surface or its bank |
| Modes.AbstractMode.OnDeactivate | src/main/java/de/mossgrabers/framework/mode/AbstractMode.java:94-97 | changes nothing in the mode, its surface or its bank |
| Modes.AbstractMode.UpdateDisplay | src/main/java/de/mossgrabers/framework/mode/AbstractMode.java:102-105 | changes nothing in the mode, its surface or its bank |
| Modes.AbstractMode.OnKnobValue | src/main/java/de/mossgrabers/framework/mode/AbstractMode.java:121-124 | changes nothing in the mode, its surface or its bank |
| Modes.AbstractMode.OnKnobTouch | src/main/java/de/mossgrabers/framework/mode/AbstractMode.java:137-140 | changes nothing in the mode, its surface or its bank |
| Modes.AbstractMode.UpdateFirstRow | src/main/java/de/mossgrabers/framework/mode/AbstractMode.java:145-148 | changes nothing in the mode, its surface or its bank |
| Modes.AbstractMode.UpdateSecondRow | src/main/java/de/mossgrabers/framework/mode/AbstractMode.java:153-156 | changes nothing in the mode, its surface or its bank |
| Modes.AbstractMode.OnButton | src/main/java/de/mossgrabers/framework/mode/AbstractMode.java:169-172 | changes nothing in the mode, its surface or its bank |
| Modes.AbstractMode.SelectItemAt | src/main/java/de/mossgrabers/framework/mode/AbstractMode.java:177-182 | with a bank, makes exactly the calls Calls gives for selecting that index; without one, changes nothing |
| Modes.AbstractMode.SelectPreviousItem | src/main/java/de/mossgrabers/framework/mode/AbstractMode.java:195-206 | with a bank, makes exactly the calls Calls gives for a step back under the surface's shift state; without one, changes nothing |
| Modes.AbstractMode.SelectNextItem | src/main/java/de/mossgrabers/framework/mode/AbstractMode.java:211-222 | with a bank, makes exactly the calls Calls gives for a step forward under the surface's shift state; without one, changes nothing |
| Modes.AbstractMode.SelectPreviousItemPage | src/main/java/de/mossgrabers/framework/mode/AbstractMode.java:227-232 | with a bank, makes exactly the calls Calls gives for a page back; without one, changes nothing |
| Modes.AbstractMode.SelectNextItemPage | src/main/java/de/mossgrabers/framework/mode/AbstractMode.java:237-242 | with a bank, makes exactly the calls Calls gives for a page forward; without one, changes nothing |
| Modes.Calls | src/main/java/de/mossgrabers/framework/mode/AbstractMode.java:177-242 | a request makes at most one bank call, and none without a bank |
| Modes.ShiftRedirectsToPages | src/main/java/de/mossgrabers/framework/mode/AbstractMode.java:195-222 | with shift held, an item step makes exactly the calls of the page step in the same direction |
| Modes.ShiftedStepsArePageCalls | src/main/java/de/mossgrabers/framework/mode/AbstractMode.java:197-201 | with shift held, an item step makes at most one call, and that call is a page call |
| Modes.UnshiftedItemSteps | src/main/java/de/mossgrabers/framework/mode/AbstractMode.java:203-205 | without shift and with a bank, an item step is exactly one call of the bank's item method in that direction |
| Modes.ShiftIgnoredOutsideItemSteps | src/main/java/de/mossgrabers/framework/mode/AbstractMode.java:177-242 | page steps and item selection do not depend on the shift modifier |
| Modes.SelectItemSelectsIndex | src/main/java/de/mossgrabers/framework/mode/AbstractMode.java:177-182 | with a bank, selecting index i selects exactly the bank item at i |

## Left out

- The superclass drawing (`super.draw`) and `drawTextInBounds` are outside the model. Each
  appears in the trace as one opaque command. Text clipping, fonts, rasterisation and the colour
  values are not modelled. Colours are named by the configuration role they come from.
- Coordinates are exact reals, so IEEE-754 rounding of the `double` arithmetic is not captured.
  `getMaxValue()` is a parameter required to be positive. Its value, and what a division by zero
  would draw, are not modelled.
- The header arguments `color` and `type` of the element constructor are not modelled. They are
  only passed to the superclass. Of the header fields, draw itself reads two: the name, to decide
  whether the element is off, and isSelected, for the background colour.
- Send names and texts are non-null strings in the model, so the Java exceptions for null
  entries are not modelled. A null send name throws at SendsGridElement.java:127 only when the
  row loop reaches its slot, that is, when every earlier name is non-empty. A null value text
  throws at SendsGridElement.java:165. Neither line runs when the element is off
  (SendsGridElement.java:99-100).
- Argument arrays shorter than four entries make the Java constructor throw. The model requires
  at least four entries instead.
- The modulation sentinel: the model follows the code's 16383, not the documented -1.
- The bank's implementation (IBank, the items it holds and how they react to selection) is not
  part of this model. The bank only records the calls it receives and exposes its four
  canScroll* flags. So the navigation methods promise the calls made, not what they do to the
  selection.
- The Java class `AbstractMode<S, C>` has two type parameters. S, the control surface type,
  became the `ControlSurface` class, which is reduced to its shift state. C, the configuration
  type, is dropped, because no modelled operation reads the configuration. The Java `model` field
  is an `IModel`. Here its type is the class's one type parameter `M`; it is carried but never
  consulted.
- The button colour identifier constants of AbstractMode are not modelled. They are strings that
  no modelled operation uses.
- BitmapImpl, ShiftCommand, the MCU extender extension definition and GridChangeListener are not
  part of this model. They hold no logic beyond calls into code that is not shown.
