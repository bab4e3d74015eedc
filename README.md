# Verified model of the LUI interactive widgets

This project models the interactive widgets of `Builtin/Elements.py` in Dafny:
- the observer list every widget inherits from `UICallback`;
- the checkbox;
- the radio group and its radioboxes;
- the slider, with the width budget of the labelled slider;
- the progress bar;
- the text input field;
- the selectbox and its drop-down;
- the nine-slice corner layout.

The scene graph is reduced to plain numeric fields: sprite sizes, lefts, tops, visibility flags and texture names. Each widget is a Dafny `class` whose methods change its fields step by step, as the Python methods do. Loops stay loops:
- the callback trigger;
- the radio group's walk over its members;
- the option search;
- the row layout of the drop-down;
- the texture loading of the corner layout.

Pure functions beside the classes specify what the methods compute, and lemmas prove properties of those functions.

Observers are opaque ids (`Callbacks.ObserverId`). Calling the observers (`_trigger_callback`) is modelled as appending one `Notification(observer, sender, payload)` per registered observer, in list order, to a `NotificationLog` that the caller passes in. Every statement of the form "notifies once" or "notifies nobody" is an equation on that log. A method without a log parameter cannot notify anyone.

Modules and files:
- `lists.dfy`: `Options` (an `Option` datatype) and `Lists` (append-if-absent, remove-first).
- `callbacks.dfy`: `Callbacks`, covering the observer registry, `Broadcast` and the notification log.
- `checkbox.dfy`: `Checkboxes`.
- `radiobox.dfy`: `Radioboxes`.
- `slider.dfy`: `Sliders`.
- `sliderlabel.dfy`: `SliderLabels`, covering `str(int(x))`, the label width budget and the labelled slider's constructor.
- `progressbar.dfy`: `Progressbars`.
- `inputfield.dfy`: `InputFields`, covering the edit functions on a `Buffer(text, cursor)` and the `InputField` class.
- `cornerlayout.dfy`: `CornerLayouts`.
- `selectbox.dfy`: `Selectboxes`, covering `Selectdrop` and `Selectbox`.

Inputs the model takes as parameters because their answers come from outside the widget code:
- the intrinsic size of a texture (`sizeOf: string -> Size`);
- the sizes of the knob and the caps;
- the renderer's text metrics (`TextMetrics`: the x of a character index, and the cursor's position relative to the field);
- the character index under the mouse;
- event mouse positions.

The model follows the code in these less obvious behaviours:
- `set_active` is not atomic. Each box notifies its observers inside the loop (Builtin/Elements.py:122-128), so an observer can see a group with only some boxes updated. The notification log records this order exactly.
- `get_active_value` is `None` when nothing is selected. It is also `None` when the selected box's own value is `None`, which is the default value of `UILabeledRadiobox`. `RadioGroup.ActiveValue` states both cases.
- A full progress bar (`set_value(100)`) of whole-pixel width shows the finishing cap only when the bar is wider than its two caps together (`FullBarShowsFinish`). Otherwise the middle part is hidden, and the finishing cap with it.
- The text field is not restored by a single delete after an insertion. Undoing the insertion of `s` takes `|s|` backspaces (`BackspacesUndoInsert`).

## Model

| member | source | states |
|---|---|---|
| Lists.AppendNew | Builtin/Elements.py:12-14 | `add_change_callback`'s list update: the callback is in the result; the old list is kept as a prefix; at most the callback is added; a duplicate-free list stays duplicate-free |
| Lists.AppendNewIdempotent | Builtin/Elements.py:12-14 | adding the same callback twice leaves the list as adding it once |
| Lists.FirstIndex | Builtin/Elements.py:16-18 | the position `list.remove` deletes at: it holds the callback, and no earlier position does |
| Lists.RemoveFirst | Builtin/Elements.py:16-18 | `remove_change_callback`'s list update: removing an absent callback changes nothing; removing a present one shortens the list by one and keeps every other element; in a duplicate-free list the removed callback is gone entirely |
| Lists.RemoveFirstKeepsOrder | Builtin/Elements.py:16-18 | removing a present callback cuts out exactly its first occurrence: the callbacks before it and after it keep their order |
| Callbacks.Broadcast | Builtin/Elements.py:20-22 | one notification per registered observer |
| Callbacks.BroadcastElements | Builtin/Elements.py:20-22 | the `i`-th notification goes to the `i`-th registered observer and carries the same sender and payload as every other |
| Callbacks.BroadcastSnoc | Builtin/Elements.py:20-22 | one more observer at the end of the list means one more notification at the end of the broadcast |
| Callbacks.CallbackRegistry.constructor | Builtin/Elements.py:9-10 | a new widget's registry starts with no observers |
| Callbacks.CallbackRegistry.Add | Builtin/Elements.py:12-14 | the registry becomes `AppendNew` of the old list and stays duplicate-free |
| Callbacks.CallbackRegistry.Remove | Builtin/Elements.py:16-18 | the registry becomes `RemoveFirst` of the old list and stays duplicate-free |
| Callbacks.CallbackRegistry.Trigger | Builtin/Elements.py:20-22 | the loop over the observers appends exactly `Broadcast(callbacks, sender, payload)` to the log and changes nothing else |
| Checkboxes.CheckboxSprite | Builtin/Elements.py:56-58 | the texture is `Checkbox_Checked` exactly when checked and `Checkbox_Default` exactly when not |
| Checkboxes.Checkbox.constructor | Builtin/Elements.py:26-33 | starts with the given state, its matching sprite and no observers |
| Checkboxes.Checkbox.OnClick | Builtin/Elements.py:38-41 | `checked` flips; every observer is notified exactly once with the new value; the sprite matches the new state |
| Checkboxes.Checkbox.SetChecked | Builtin/Elements.py:52-54 | `checked` takes the given value and the sprite follows; the method has no log, so nobody is notified |
| Checkboxes.Checkbox.UpdateSprite | Builtin/Elements.py:56-58 | afterwards the sprite shows the current state |
| Radioboxes.RadioSprite | Builtin/Elements.py:180-183 | the texture is `Radiobox_Active` exactly when active |
| Radioboxes.RadioGroup.constructor | Builtin/Elements.py:114-116 | a new group starts with no members and nothing selected |
| Radioboxes.RadioGroup.RegisterBox | Builtin/Elements.py:118-120 | a box is appended only if absent, so registering twice is registering once and the member list stays duplicate-free |
| Radioboxes.RadioGroup.SetActive | Builtin/Elements.py:122-128 | after `set_active(b)`: every member other than `b` is inactive; `b` is active if it is a member and untouched if not; every member's sprite matches its state; `selected_box` is `b`; the log grows by `GroupNotifications` of the members and of their observer lists as they were before the call, i.e. each member's own notifications in registration order, carrying its new state |
| Radioboxes.GroupNotificationsPayloads | Builtin/Elements.py:122-128 | in what `set_active(b)` emits, the payload is `True` exactly for notifications sent by `b` |
| Radioboxes.GroupNotificationsCount | Builtin/Elements.py:122-128 | `set_active` emits exactly as many notifications as the members have observers in total, so each observer of each member hears once |
| Radioboxes.GroupNotificationsSnoc | Builtin/Elements.py:122-128 | walking one more member appends exactly that member's notifications |
| Radioboxes.LogStep | Builtin/Elements.py:122-128 | after one more turn of the loop, the log holds the notifications of one more member, so the loop's log invariant is kept |
| Radioboxes.SwitchNext | Builtin/Elements.py:124-128 | one turn of the loop: member `i` becomes active exactly when it is `b`, its sprite follows, its observers hear its new state once, and the members already switched stay switched |
| Radioboxes.RadioGroup.ActiveValue | Builtin/Elements.py:133-136 | `None` exactly when nothing is selected or the selected box's value is `None`; otherwise that box's value |
| Radioboxes.Radiobox.constructor | Builtin/Elements.py:141-150 | the new box is inactive with the default sprite and is appended to its group's members |
| Radioboxes.Radiobox.SetActive | Builtin/Elements.py:155-160 | clicking a box hands the selection to its group; the log grows by the group's notifications with this box chosen; afterwards the group's active value is this box's value |
| Radioboxes.Radiobox.UpdateState | Builtin/Elements.py:168-171 | sets the state, notifies this box's observers exactly once with it, and updates the sprite to match |
| Sliders.Clamp | Builtin/Elements.py:270-271 | the result is an offset on the track; an offset on the track is kept; one below 0 (or any offset on a negative-length track) becomes 0; one past the end becomes the end |
| Sliders.PixelOffset | Builtin/Elements.py:285-287 | `set_value`'s scaling: `min_value` maps to offset 0 and `max_value` to the end of the track |
| Sliders.ValueAt | Builtin/Elements.py:292-294 | `get_value`'s scaling: offset 0 reads as `min_value` and the end of the track as `max_value` |
| Sliders.ValueAtPixelOffset | Builtin/Elements.py:284-294 | `get_value`'s affine map undoes `set_value`'s |
| Sliders.PixelOffsetValueAt | Builtin/Elements.py:284-294 | `set_value`'s affine map undoes `get_value`'s |
| Sliders.PixelOffsetOnTrack | Builtin/Elements.py:284-288 | a value inside `[min, max]` maps onto `[0, effectiveWidth]` |
| Sliders.ValueAtBetween | Builtin/Elements.py:291-294 | an offset on a track of positive length reads back inside `[min, max]` |
| Sliders.SetThenGet | Builtin/Elements.py:284-294 | for `max != min`, `effectiveWidth > 0` and `v` in range, `set_value(v)` then `get_value()` returns `v` |
| Sliders.SetPastMax | Builtin/Elements.py:270-294 | a value above `max_value` pins the knob at the end, and `get_value()` returns `max_value` |
| Sliders.SetBelowMin | Builtin/Elements.py:270-294 | a value below `min_value` pins the knob at 0, and `get_value()` returns `min_value` |
| Sliders.Slider.GetValue | Builtin/Elements.py:291-294 | on a track of positive length the reported value lies in `[min, max]` |
| Sliders.Slider.constructor | Builtin/Elements.py:208-263 | side margin `knob.width / 4` and effective width `width - 2 * margin`; not dragging; the knob at the clamped offset of the given value or of the midpoint |
| Sliders.Slider.UpdateKnob | Builtin/Elements.py:265-268 | the knob's left is `currentVal - knob.width / 2 + sideMargin`; when filled, the fill follows the knob |
| Sliders.Slider.SetCurrentVal | Builtin/Elements.py:270-274 | the offset becomes `Clamp(pixels)`, so `0 <= currentVal <= effectiveWidth` holds; every observer is notified exactly once with the new value; the knob geometry follows |
| Sliders.Slider.SetValue | Builtin/Elements.py:284-288 | the offset becomes the clamped affine image of the value and every observer is notified once; an in-range value reads back unchanged |
| Sliders.Slider.StartDrag | Builtin/Elements.py:276-282 | a new drag records the mouse position and the current offset; a drag under way is left alone |
| Sliders.Slider.UpdateDrag | Builtin/Elements.py:306-310 | when not dragging nothing changes and nobody is notified; when dragging, the offset becomes `Clamp(dragStartVal + (x - dragStartX))` and every observer is notified once |
| Sliders.Slider.StopDrag | Builtin/Elements.py:312-316 | ends the drag, forgets its start position and makes the current offset the new drag-start offset |
| Sliders.Slider.OnKeyDown | Builtin/Elements.py:296-304 | the right and left arrows set the offset to `Clamp(currentVal ± 2)` and notify once, leaving the drag state (`dragging`, its start position and start offset) as it was; escape restores `dragStartVal`, ends the drag, forgets its start position and notifies nobody; other keys change nothing |
| SliderLabels.Digits | Builtin/Elements.py:324 | `str(n)` of a natural number is a non-empty string of decimal digits with no leading zero |
| SliderLabels.ParseDigitsOfDigits | Builtin/Elements.py:324 | reading `str(n)` back as a decimal number gives `n` |
| SliderLabels.DigitsLength | Builtin/Elements.py:324 | `len(str(n))` is the number of decimal digits of `n`: `10^(len-1) <= n < 10^len` |
| SliderLabels.Pow10Monotone | Builtin/Elements.py:324 | a larger exponent never gives a smaller power of ten, so more digits hold larger numbers |
| SliderLabels.IntString | Builtin/Elements.py:324 | `str(n)` of an integer: the digits of a non-negative `n`; a minus sign before the digits of `-n` for a negative one |
| SliderLabels.IntStringLeastWidth | Builtin/Elements.py:324 | `len(str(n))` is the least width `n` fits in (a sign when negative, and enough digits for `abs(n)`): `n` fits in `w` characters exactly when `w >= len(str(n))` |
| SliderLabels.Trunc | Builtin/Elements.py:324 | Python's `int()` of a real truncates toward zero: a non-negative value keeps its whole part; a negative one rounds up toward zero |
| SliderLabels.NumberSpace | Builtin/Elements.py:324-328 | the reserved characters cover both `str(int(max))` and `str(int(min))`, and add one point and `precision` digits when `precision > 0` |
| SliderLabels.NumberSpaceLeast | Builtin/Elements.py:324-328 | without the point and the decimals, the reserved count is the least width in which the integer parts of both bounds fit: a width holds both exactly when it is at least that count |
| SliderLabels.TrackWidth | Builtin/Elements.py:331-334 | the inner slider is narrower by 7 px per reserved character and 5 px more, hence by at least 12 px, and by at least `7 * (2 + precision) + 5` px when there are decimals |
| SliderLabels.DefaultTrackWidth | Builtin/Elements.py:321-333 | the default labelled slider (width 100, range `[0, 1.0]`, two decimals) reserves four characters and gives the slider 67 px |
| SliderLabels.NegativeBoundNumberSpace | Builtin/Elements.py:324-328 | a negative bound's minus sign counts: `-12.5` with one decimal reserves five characters |
| SliderLabels.SliderWithLabel.constructor | Builtin/Elements.py:321-340 | the inner slider gets width `width - 7 * NumberSpace - 5` and the given range; its observers become the label updater, then the forwarder |
| Progressbars.ClampPercent | Builtin/Elements.py:394 | the percentage is clamped to `[0, 100]`: in range it is kept, below 0 it becomes 0, above 100 it becomes 100 |
| Progressbars.ProgressPixels | Builtin/Elements.py:393-395 | `0 <= progressPixel <= width`, and the pixel count is the whole part of the clamped fraction of the width |
| Progressbars.ProgressPixelsMonotonic | Builtin/Elements.py:393-395 | a larger percentage never fills fewer pixels |
| Progressbars.ProgressPixelsEnds | Builtin/Elements.py:393-395 | 0 % fills nothing; 100 % fills the whole width, which the model takes to be a whole number of pixels |
| Progressbars.FullBarShowsFinish | Builtin/Elements.py:393-413 | when the bar (of whole-pixel width) is wider than its caps, a full bar shows the middle and the finishing cap, with a clip width of 0 |
| Progressbars.Progressbar.constructor | Builtin/Elements.py:360-389 | the fill starts as the pixel count of the initial value, laid out by the three rules |
| Progressbars.Progressbar.SetValue | Builtin/Elements.py:393-396 | `progressPixel` becomes `ProgressPixels(val, width)` and the foreground is laid out for it |
| Progressbars.Progressbar.UpdateProgress | Builtin/Elements.py:398-413 | `fgMid` is hidden exactly when `progressPixel <= L + R`, and then `fgRight` sits at `L`; otherwise `L + M + R = progressPixel` and `fgRight.left + R = progressPixel`; `fgFinish` shows exactly when the middle shows and `progressPixel >= width - R`, clipped to `width - progressPixel`; hidden parts keep their geometry |
| InputFields.PlaceCursor | Builtin/Elements.py:467-468 | the cursor index is clamped to `[0, len(value)]`: kept when inside, 0 below, the length above |
| InputFields.Prefix | Builtin/Elements.py:479-480 | `s[:k]` is a prefix of `s` with `min(k, len(s))` characters |
| InputFields.Suffix | Builtin/Elements.py:479-480 | `s[:k] + s[k:] == s`, the tail having `len(s) - k` characters |
| InputFields.Inserted | Builtin/Elements.py:479-481 | inserting `s` at cursor `c` gives `value[:c] + s + value[c:]` with the cursor at `c + len(s)`; a cursor past the end appends and lands at the new end |
| InputFields.Backspaced | Builtin/Elements.py:506-508 | removes the character before the cursor and steps back; at index 0 nothing changes; the cursor stays within bounds |
| InputFields.Deleted | Builtin/Elements.py:511-513 | removes the character at the cursor and keeps the index; at the end nothing changes; the cursor stays within bounds |
| InputFields.MovedLeft | Builtin/Elements.py:516-518 | the text is unchanged and the cursor steps back one, stopping at 0 |
| InputFields.MovedRight | Builtin/Elements.py:519-521 | the text is unchanged and the cursor steps on one, stopping at the end |
| InputFields.BackspaceAfterInsert | Builtin/Elements.py:479-508 | one backspace after inserting `s` leaves what inserting `s` without its last character leaves |
| InputFields.BackspacesUndoInsert | Builtin/Elements.py:479-508 | inserting `s` and then `len(s)` backspaces restore the original value and cursor |
| InputFields.Scrolled | Builtin/Elements.py:555-558 | the scroll offset is either `<= 0` or unchanged; a cursor strictly inside `(0, max_left)` leaves it unchanged; a cursor at or past either edge moves it to `<= 0` |
| InputFields.SetValueBreaksCursorBound | Builtin/Elements.py:542-546 | after `set_value("")` with the cursor at the end of `"ab"`, the cursor index 2 lies past the end of the value |
| InputFields.InputField.constructor | Builtin/Elements.py:421-465 | starts with the given value, cursor 0, the cursor hidden, the placeholder shown exactly when the value is empty, and the text rendered |
| InputFields.InputField.SetCursorPos | Builtin/Elements.py:467-468 | the cursor index becomes `PlaceCursor(value, pos)` and nothing else changes |
| InputFields.InputField.RenderText | Builtin/Elements.py:548-558 | the label shows the value, the cursor sits at the character position plus 1, and the scroll offset is `Scrolled(...)`, hence `<= 0` |
| InputFields.InputField.AddText | Builtin/Elements.py:479-482 | the buffer becomes `Inserted(old buffer, s)`, re-rendered |
| InputFields.InputField.OnTextInput | Builtin/Elements.py:526-528 | the buffer becomes `Inserted(old buffer, s)` and every observer is notified exactly once with the new value |
| InputFields.InputField.OnKeyDown | Builtin/Elements.py:504-524 | backspace and delete apply `Backspaced` and `Deleted` and notify exactly once, even when nothing is removed; the arrows apply `MovedLeft` and `MovedRight` and notify nobody; other keys change nothing |
| InputFields.InputField.OnMouseDown | Builtin/Elements.py:487-490 | the cursor goes to the clamped character index under the mouse, and the value is unchanged |
| InputFields.InputField.SetValue | Builtin/Elements.py:542-546 | the value is replaced, the cursor index is not clamped, and every observer is notified exactly once with the new value |
| InputFields.InputField.OnFocus | Builtin/Elements.py:495-498 | the cursor is shown and the placeholder hidden; the buffer is unchanged |
| InputFields.InputField.OnBlur | Builtin/Elements.py:530-533 | the cursor is hidden, and the placeholder is shown again if the value is empty |
| CornerLayouts.ModeIndex | Builtin/Elements.py:727 | every part occurs in `modes`, at the returned index |
| CornerLayouts.Loaded | Builtin/Elements.py:742-743 | `set_texture(prefix + name, resize=True)` gives the part its texture's intrinsic size and keeps its position |
| CornerLayouts.Placed | Builtin/Elements.py:746-771 | every part carries `prefix + name`; the four corners keep their texture's intrinsic size |
| CornerLayouts.Layout | Builtin/Elements.py:741-771 | every part carries `prefix + name`; corners keep their intrinsic size; each row tiles the width (`TR.left + TR.width = width`, and likewise for `Right` and `BR`); each column tiles the height (`BL.top + BL.height = height`, and likewise for `Bottom` and `BR`); `Top`, `Mid` and `Bottom` start where `TL`, `Left` and `BL` end; `Left`, `Mid` and `Right` start where `TL`, `Top` and `TR` end |
| CornerLayouts.LayoutNonNegative | Builtin/Elements.py:745-753 | when the outer size leaves room for the corners, no stretched edge or middle has a negative size |
| CornerLayouts.LoadOne | Builtin/Elements.py:742-743 | one turn of the texture loop loads exactly the next part of `modes` |
| CornerLayouts.CornerLayout.constructor | Builtin/Elements.py:729-736 | nine sprites, laid out for the given prefix and size |
| CornerLayouts.CornerLayout.LoadTextures | Builtin/Elements.py:742-743 | after the loop every part has its texture's intrinsic size and its old position |
| CornerLayouts.CornerLayout.RenderLayout | Builtin/Elements.py:741-771 | the geometry becomes `Layout(sizeOf, prefix, width, height)`, which does not depend on the previous geometry, so rendering twice gives what rendering once gives |
| CornerLayouts.CornerLayout.SetPrefix | Builtin/Elements.py:773-775 | stores the prefix and lays all nine parts out again under it |
| Selectboxes.FirstMatch | Builtin/Elements.py:612-619 | the index of the first option whose id equals the key: it matches, and no earlier one does; `None` exactly when no option matches |
| Selectboxes.FirstMatchNoLater | Builtin/Elements.py:612-619 | looking up the id of option `k` finds an option at or before `k` |
| Selectboxes.FirstMatchDistinct | Builtin/Elements.py:612-619 | with distinct ids, looking up option `k`'s id finds option `k` |
| Selectboxes.VisibleRows | Builtin/Elements.py:696 | `min(4, n)`: at most 4 and at most `n`, and equal to one of them |
| Selectboxes.RowTop | Builtin/Elements.py:703-722 | the first row starts at `offsetTop = 6`, and no row starts above it |
| Selectboxes.RowsStacked | Builtin/Elements.py:703-722 | each row starts 30 px below the one before, so an earlier row ends at or above where any later row starts |
| Selectboxes.ContainerHeight | Builtin/Elements.py:699 | the container ends 1 px below the bottom of the last visible row, and is between 7 and 127 px tall |
| Selectboxes.RowShownIff | Builtin/Elements.py:696-720 | row `k` fits wholly inside the container exactly when `k < min(4, n)` |
| Selectboxes.Rows | Builtin/Elements.py:703-722 | one row per option, in order, carrying its id and text, with row `k` at y = `6 + 30 * k` |
| Selectboxes.BuildRows | Builtin/Elements.py:703-722 | the loop places exactly `Rows(options)`, one row per option in order, each 30 px below the last |
| Selectboxes.Selectdrop.constructor | Builtin/Elements.py:667-684 | the frame is a `Selectdrop_` corner layout 10 px wider than the drop-down and 100 px tall, with no rows yet; a new drop-down is visible |
| Selectboxes.Selectdrop.RenderOptions | Builtin/Elements.py:695-722 | afterwards `Shows(options)`: `layout.height = 30 * min(4, n) + 17`, `container.height = ContainerHeight(n)`, the frame laid out again at that height, and the rows exactly `Rows(options)`; the frame's width, prefix and the visibility are kept |
| Selectboxes.Selectbox.constructor | Builtin/Elements.py:590-604 | the drop-down is built and then hidden, and the selectbox closed; the options as given (none for `None`); the selection made as `_select_option` makes it, from the placeholder label `Select an option ..` |
| Selectboxes.Selectbox.SelectOption | Builtin/Elements.py:612-619 | on a match, the first matching option's text and id are shown; on no match, the id and text are unchanged and the label is dimmed |
| Selectboxes.Selectbox.OnClick | Builtin/Elements.py:629-634 | toggles `dropOpen`; an opened drop-down shows the current options; a closed one keeps its rows, container height and frame; the frame's width and prefix, the options, the selection and the dimming are kept |
| Selectboxes.Selectbox.OpenDrop | Builtin/Elements.py:644-650 | afterwards open; when already open nothing changes (idempotent); otherwise the drop-down shows the current options; the frame's width and prefix, the options, the selection and the dimming are kept |
| Selectboxes.Selectbox.CloseDrop | Builtin/Elements.py:652-656 | afterwards closed, with rows and container height kept; when already closed nothing changes (idempotent) |
| Selectboxes.Selectbox.OnOptionSelected | Builtin/Elements.py:658-660 | selects as `_select_option` does, then closes the drop-down, keeping its rows and container height |
| Selectboxes.Selectbox.OnRowClick | Builtin/Elements.py:692-713 | a click on row `k` selects the id it was rendered with; when the rows show the current options, the id is option `k`'s, and with distinct ids the label shows option `k`'s text |
| Selectboxes.Selectbox.OnBlur | Builtin/Elements.py:662-663 | the drop-down is always closed afterwards, with rows and container height kept, and the selection is unchanged |
| Selectboxes.Selectbox.SetOptions | Builtin/Elements.py:609-610 | as written: the drop-down shows the current options, never the argument; its visibility and the frame's width and prefix are kept |
| Selectboxes.Selectbox.SetOptionsCorrected | Builtin/Elements.py:609-610 | as intended: the options become the argument and the drop-down shows them; open state, selection, dimming and the frame's width and prefix are kept |
| Selectboxes.SetOptionsDropsItsArgument | Builtin/Elements.py:609-610 | after `set_options([(1, "One")])` on a selectbox built with no options, the options are still empty and no row is shown |

## Findings

| source | as written | input that shows it | evidently intended | confidence | as-written member | corrected member |
|---|---|---|---|---|---|---|
| Builtin/Elements.py:609-610 | `set_options(options)` only re-renders the current option list; its argument is never stored | a selectbox built with no options, then `set_options([(1, "One")])`: it still has no options and renders no rows | store the new options (`self.options = options`), then render them; as written, the option list can change only through the caller mutating, in place, the list it passed to the constructor, which the model does not capture | high (not executed) | Selectboxes.Selectbox.SetOptions, Selectboxes.SetOptionsDropsItsArgument | Selectboxes.Selectbox.SetOptionsCorrected |

## Left out

- Rendering and scene graph:
  - Sprite textures are kept only as the chosen name.
  - Hover and press colour tints, z-offsets, margins, `fit_to_children`, `bind` and `request_focus` are left out. They are calls into the external `panda3d.lui` library.
  - `show`/`hide` are kept as booleans.
- `UILabel` is not modelled, and neither are `UILabeledCheckbox` and `UILabeledRadiobox`, which only forward to the widgets above.
- Plain getters and forwarders are not modelled: `is_checked`, `get_active_box`, `UIRadiobox.get_value`, `UIInputField.get_value`, and `UISliderWithLabel.get_value`/`set_value`. Each returns or forwards a field the model exposes directly.
- What an observer does when called is not modelled. Observers are opaque ids, so an observer that changes a registry or a widget while being notified is outside the model. This includes the labelled slider's label updater and its forwarder to its own observers.
- Radiobox without a group (Builtin/Elements.py:161-163): the constructor dereferences `group` unconditionally (Builtin/Elements.py:147-148), so every box has a group. `Radiobox.group` is therefore a required field, and the ungrouped branch is not modelled.
- The graphical extras are not modelled. These are:
  - the slider's background geometry and vertical centring;
  - the selectbox's and the input field's background sprites;
  - the drop-down's opener sprite, dividers and row backgrounds;
  - the knob hover colours.
- Text metrics: `get_char_pos`, `get_char_index`, `get_relative_pos` and `get_abs_pos` are foreign calls. Their results are inputs (`TextMetrics` and the character index passed to `OnMouseDown`). `text.left` is taken as 0, since nothing in the widget code moves it.
- The cursor blink (`on_tick`, `_reset_cursor_tick`) reads the global frame clock. It is not modelled.
- `on_click` of the input field only requests focus. It is not modelled.
- Formatting of the label texts is not modelled: the slider label's `"{:.Nf}".format` and the progress bar's "`int(percentage)` %" label.
- Floating point: slider and input-field pixel quantities and values are exact reals; the progress bar's widths are whole pixels (next item).
  - Progressbars.Progressbar: width and cap widths are whole pixels (`nat`), while the source accepts any number. With a fractional width a full bar falls short of the width by its fractional part (at width 150.5, `int(100 / 100.0 * 150.5) == 150` and the finishing cap is clipped to 0.5), which `ProgressPixelsEnds` and `FullBarShowsFinish` do not cover.
  - `Progressbars.ProgressPixels`: does not model IEEE doubles. `int(val / 100.0 * width)` is computed on exact rationals, so at points such as `int(29 / 100.0 * 100) == 28` the model gives one pixel more.
  - `Sliders.SetThenGet`: holds exactly over the reals. The doubles of the source can be off in the last place.
- Both the slider model and the labelled slider's constructor require `max_value != min_value` and a non-zero effective width. The source raises `ZeroDivisionError` in `set_value` or `get_value` otherwise.
- The selectbox inherits `UICallback` but never calls its observers, so its registry is left out and its methods take no notification log.
- Selectboxes.Selectbox: the option list is held by reference in the source (Builtin/Elements.py:601-602); caller mutations of the list passed in are not modelled, so the model's `options` holds its value from construction on.
- `UISelectdrop._on_opt_click` is modelled on the selectbox, as `Selectbox.OnRowClick`. This avoids a back-reference from the drop-down to its selectbox.
- The row attributes kept are id, text and top. Widths and label offsets are left out.
- `Unicode`/`unicode()` conversions are not modelled: strings are sequences of characters.
