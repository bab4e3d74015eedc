/**
 * `UIInputField`: a text buffer with a cursor index, edited by key and text
 * events, and a horizontal scroller that keeps the cursor in view. Where the
 * characters land on screen is the text renderer's business; its answers are
 * the inputs `TextMetrics` carries.
 */
module InputFields {
  import opened Callbacks

  /** The value and the cursor index of an input field. */
  datatype Buffer = Buffer(text: string, cursor: nat)

  /** The cursor sits within the text (an insertion point between characters). */
  ghost predicate InBounds(b: Buffer) {
    b.cursor <= |b.text|
  }

  /** The first `k` characters of `s`, or all of `s` when it is shorter. */
  function Prefix(s: string, k: nat): (r: string)
    ensures r <= s
    ensures |r| == if k <= |s| then k else |s|
  {
    if k <= |s| then s[..k] else s
  }

  /** What follows the first `k` characters of `s`: what `Prefix` leaves. */
  function Suffix(s: string, k: nat): (r: string)
    ensures Prefix(s, k) + r == s
    ensures k <= |s| ==> |r| == |s| - k
  {
    if k <= |s| then s[k..] else []
  }

  /** `_set_cursor_pos`: the index, clamped to `[0, len(text)]`. */
  function PlaceCursor(text: string, pos: int): (c: nat)
    ensures c <= |text|
    ensures 0 <= pos <= |text| ==> c == pos
    ensures pos < 0 ==> c == 0
    ensures pos > |text| ==> c == |text|
  {
    if pos <= 0 then 0 else if pos >= |text| then |text| else pos
  }

  /** `_add_text(s)`: `s` goes in at the cursor, and the cursor moves past it. */
  function Inserted(b: Buffer, s: string): (r: Buffer)
    ensures InBounds(r)
    ensures InBounds(b) ==> r == Buffer(b.text[..b.cursor] + s + b.text[b.cursor..], b.cursor + |s|)
    ensures !InBounds(b) ==> r == Buffer(b.text + s, |b.text| + |s|)
  {
    var t := Prefix(b.text, b.cursor) + s + Suffix(b.text, b.cursor);
    Buffer(t, PlaceCursor(t, b.cursor + |s|))
  }

  /** Backspace: removes the character before the cursor; at index 0 nothing changes. */
  function Backspaced(b: Buffer): (r: Buffer)
    ensures InBounds(r)
    ensures InBounds(b) && b.cursor > 0 ==> r == Buffer(b.text[..b.cursor - 1] + b.text[b.cursor..], b.cursor - 1)
    ensures b.cursor == 0 ==> r == b
  {
    var c := b.cursor;
    var t := Prefix(b.text, if c == 0 then 0 else c - 1) + Suffix(b.text, c);
    Buffer(t, PlaceCursor(t, c - 1))
  }

  /** Delete: removes the character at the cursor; at the end of the text nothing changes. */
  function Deleted(b: Buffer): (r: Buffer)
    ensures InBounds(r)
    ensures InBounds(b) && b.cursor < |b.text| ==> r == Buffer(b.text[..b.cursor] + b.text[b.cursor + 1..], b.cursor)
    ensures b.cursor == |b.text| ==> r == b
  {
    var c := b.cursor;
    var t := Prefix(b.text, c) + Suffix(b.text, if |b.text| <= c + 1 then |b.text| else c + 1);
    Buffer(t, PlaceCursor(t, c))
  }

  /** Arrow left: one step back, stopping at 0. */
  function MovedLeft(b: Buffer): (r: Buffer)
    ensures InBounds(r) && r.text == b.text
    ensures InBounds(b) && b.cursor > 0 ==> r.cursor == b.cursor - 1
    ensures b.cursor == 0 ==> r == b
  {
    Buffer(b.text, PlaceCursor(b.text, b.cursor - 1))
  }

  /** Arrow right: one step on, stopping at the end of the text. */
  function MovedRight(b: Buffer): (r: Buffer)
    ensures InBounds(r) && r.text == b.text
    ensures b.cursor < |b.text| ==> r.cursor == b.cursor + 1
    ensures b.cursor >= |b.text| ==> r.cursor == |b.text|
  {
    Buffer(b.text, PlaceCursor(b.text, b.cursor + 1))
  }

  /** `n` backspaces in a row. */
  function Backspaces(b: Buffer, n: nat): Buffer
    decreases n
  {
    if n == 0 then b else Backspaces(Backspaced(b), n - 1)
  }

  /** One backspace takes back the last character an insertion put in. */
  lemma BackspaceAfterInsert(b: Buffer, s: string)
    requires InBounds(b) && |s| > 0
    ensures Backspaced(Inserted(b, s)) == Inserted(b, s[..|s| - 1])
  {
    var t, c := b.text, b.cursor;
    var u := t[..c] + s + t[c..];
    var k := c + |s|;
    assert u[..k - 1] == t[..c] + s[..|s| - 1];
    assert u[k..] == t[c..];
  }

  /** Inserting `s`, then as many backspaces as `s` is long, restores the value and the cursor. */
  lemma {:induction false} BackspacesUndoInsert(b: Buffer, s: string)
    requires InBounds(b)
    ensures Backspaces(Inserted(b, s), |s|) == b
  {
    if s == [] {
      assert b.text[..b.cursor] + [] + b.text[b.cursor..] == b.text;
    } else {
      BackspaceAfterInsert(b, s);
      BackspacesUndoInsert(b, s[..|s| - 1]);
    }
  }

  /**
   * `_render_text`'s scroll update: if the cursor is at or past the right
   * edge (`relX >= maxLeft`), scroll so it sits at that edge; if it is at or
   * left of the origin, scroll back; neither ever scrolls past the origin.
   */
  function Scrolled(scroll: real, cursorLeft: real, relX: real, maxLeft: real): (r: real)
    ensures r <= 0.0 || r == scroll
    ensures 0.0 < relX < maxLeft ==> r == scroll
    ensures relX <= 0.0 || relX >= maxLeft ==> r <= 0.0
  {
    var s1 := if relX >= maxLeft then Min(0.0, maxLeft - cursorLeft) else scroll;
    if relX <= 0.0 then Min(0.0, -cursorLeft - relX) else s1
  }

  /** The smaller of two offsets. */
  function Min(a: real, b: real): real {
    if a <= b then a else b
  }

  /**
   * What the text renderer answers: the x offset of a character index in a
   * string (`get_char_pos`), and the cursor's x relative to the field
   * (`get_relative_pos(cursor.get_abs_pos()).x`) for a given scroll offset
   * and cursor position.
   */
  datatype TextMetrics = TextMetrics(charPos: (string, nat) -> real, relativeX: (real, real) -> real)

  class InputField {
    const width: real
    const registry: CallbackRegistry

    var value: string
    var cursorIndex: nat
    var shownText: string
    var cursorLeft: real
    var scrollLeft: real
    var cursorVisible: bool
    var placeholderVisible: bool

    /** The label shows the value, and the text is never scrolled right of its origin. */
    ghost predicate Valid()
      reads this
    {
      shownText == value && scrollLeft <= 0.0
    }

    function Contents(): Buffer
      reads this
    {
      Buffer(value, cursorIndex)
    }

    /** After `_render_text` with `m`, starting from scroll offset `scroll`. */
    ghost predicate Rendered(m: TextMetrics, scroll: real)
      reads this
    {
      && shownText == value
      && cursorLeft == m.charPos(value, cursorIndex) + 1.0
      && scrollLeft == Scrolled(scroll, cursorLeft, m.relativeX(scroll, cursorLeft), width - 20.0)
    }

    constructor (width: real, value: string, m: TextMetrics)
      ensures Valid() && Contents() == Buffer(value, 0) && this.width == width
      ensures Rendered(m, 0.0) && !cursorVisible && placeholderVisible == (|value| == 0)
      ensures fresh(registry) && registry.Valid() && registry.callbacks == []
    {
      this.width := width;
      registry := new CallbackRegistry();
      cursorIndex := 0;
      cursorVisible := false;
      this.value := value;
      placeholderVisible := |value| == 0;
      shownText := "";
      cursorLeft := 0.0;
      scrollLeft := 0.0;
      new;
      RenderText(m);
    }

    /** `_set_cursor_pos`: moves the cursor to `pos`, kept within the value. */
    method SetCursorPos(pos: int)
      modifies this
      ensures cursorIndex == PlaceCursor(value, pos)
      ensures value == old(value) && shownText == old(shownText) && cursorLeft == old(cursorLeft)
      ensures scrollLeft == old(scrollLeft) && cursorVisible == old(cursorVisible)
      ensures placeholderVisible == old(placeholderVisible)
    {
      cursorIndex := PlaceCursor(value, pos);
    }

    /** `_render_text`: shows the value, places the cursor, and scrolls it into view. */
    method RenderText(m: TextMetrics)
      requires scrollLeft <= 0.0
      modifies this
      ensures Valid() && Rendered(m, old(scrollLeft))
      ensures Contents() == old(Contents())
      ensures cursorVisible == old(cursorVisible) && placeholderVisible == old(placeholderVisible)
    {
      shownText := value;
      cursorLeft := 0.0 + m.charPos(value, cursorIndex) + 1.0;
      var maxLeft := width - 20.0;
      var relX := m.relativeX(scrollLeft, cursorLeft);
      if relX >= maxLeft {
        scrollLeft := Min(0.0, maxLeft - cursorLeft);
      }
      if relX <= 0.0 {
        scrollLeft := Min(0.0, -cursorLeft - relX);
      }
    }

    /** `_add_text`: inserts `s` at the cursor, moves the cursor past it and redraws. */
    method AddText(s: string, m: TextMetrics)
      requires Valid()
      modifies this
      ensures Valid() && Contents() == Inserted(old(Contents()), s) && Rendered(m, old(scrollLeft))
      ensures cursorVisible == old(cursorVisible) && placeholderVisible == old(placeholderVisible)
    {
      value := Prefix(value, cursorIndex) + s + Suffix(value, cursorIndex);
      SetCursorPos(cursorIndex + |s|);
      RenderText(m);
    }

    /** `on_textinput`: inserts the typed text, then notifies every observer once with the new value. */
    method OnTextInput(s: string, m: TextMetrics, log: NotificationLog)
      requires Valid()
      modifies this, log
      ensures Valid() && Contents() == Inserted(old(Contents()), s) && Rendered(m, old(scrollLeft))
      ensures cursorVisible == old(cursorVisible) && placeholderVisible == old(placeholderVisible)
      ensures log.entries == old(log.entries) + Broadcast(registry.callbacks, this, Text(value))
    {
      AddText(s, m);
      registry.Trigger(log, this, Text(value));
    }

    /**
     * `on_keydown` (and key repeat): backspace and delete edit and notify once,
     * even when they remove nothing; the arrows only move the cursor and notify
     * nobody; any other key is ignored.
     */
    method OnKeyDown(key: string, m: TextMetrics, log: NotificationLog)
      requires Valid()
      modifies this, log
      ensures Valid()
      ensures key == "backspace" ==>
        && Contents() == Backspaced(old(Contents())) && Rendered(m, old(scrollLeft))
        && log.entries == old(log.entries) + Broadcast(registry.callbacks, this, Text(value))
      ensures key == "delete" ==>
        && Contents() == Deleted(old(Contents())) && Rendered(m, old(scrollLeft))
        && log.entries == old(log.entries) + Broadcast(registry.callbacks, this, Text(value))
      ensures key == "arrow_left" ==>
        && Contents() == MovedLeft(old(Contents())) && Rendered(m, old(scrollLeft))
        && log.entries == old(log.entries)
      ensures key == "arrow_right" ==>
        && Contents() == MovedRight(old(Contents())) && Rendered(m, old(scrollLeft))
        && log.entries == old(log.entries)
      ensures key !in {"backspace", "delete", "arrow_left", "arrow_right"} ==>
        unchanged(this) && log.entries == old(log.entries)
      ensures cursorVisible == old(cursorVisible) && placeholderVisible == old(placeholderVisible)
    {
      if key == "backspace" {
        value := Prefix(value, if cursorIndex == 0 then 0 else cursorIndex - 1) + Suffix(value, cursorIndex);
        SetCursorPos(cursorIndex - 1);
        registry.Trigger(log, this, Text(value));
        RenderText(m);
      } else if key == "delete" {
        value := Prefix(value, cursorIndex) + Suffix(value, if |value| <= cursorIndex + 1 then |value| else cursorIndex + 1);
        SetCursorPos(cursorIndex);
        registry.Trigger(log, this, Text(value));
        RenderText(m);
      } else if key == "arrow_left" {
        SetCursorPos(cursorIndex - 1);
        RenderText(m);
      } else if key == "arrow_right" {
        SetCursorPos(cursorIndex + 1);
        RenderText(m);
      }
    }

    /** `on_mousedown`: puts the cursor at the character index the renderer reports under the mouse. */
    method OnMouseDown(charIndex: int, m: TextMetrics)
      requires Valid()
      modifies this
      ensures Valid() && Contents() == Buffer(old(value), PlaceCursor(old(value), charIndex))
      ensures Rendered(m, old(scrollLeft))
      ensures cursorVisible == old(cursorVisible) && placeholderVisible == old(placeholderVisible)
    {
      SetCursorPos(charIndex);
      RenderText(m);
    }

    /**
     * `set_value`: replaces the value and notifies once; the cursor index is
     * left where it was, so it can end up past the end of the new value.
     */
    method SetValue(s: string, m: TextMetrics, log: NotificationLog)
      requires Valid()
      modifies this, log
      ensures Valid() && Contents() == Buffer(s, old(cursorIndex)) && Rendered(m, old(scrollLeft))
      ensures cursorVisible == old(cursorVisible) && placeholderVisible == old(placeholderVisible)
      ensures log.entries == old(log.entries) + Broadcast(registry.callbacks, this, Text(s))
    {
      value := s;
      registry.Trigger(log, this, Text(value));
      RenderText(m);
    }

    /** `on_focus`: shows the cursor and hides the placeholder. */
    method OnFocus()
      modifies this
      ensures cursorVisible && !placeholderVisible
      ensures Contents() == old(Contents()) && shownText == old(shownText)
      ensures cursorLeft == old(cursorLeft) && scrollLeft == old(scrollLeft)
    {
      cursorVisible := true;
      placeholderVisible := false;
    }

    /** `on_blur`: hides the cursor, and shows the placeholder again when the field is empty. */
    method OnBlur()
      modifies this
      ensures !cursorVisible
      ensures placeholderVisible == (old(placeholderVisible) || |value| == 0)
      ensures Contents() == old(Contents()) && shownText == old(shownText)
      ensures cursorLeft == old(cursorLeft) && scrollLeft == old(scrollLeft)
    {
      cursorVisible := false;
      if |value| < 1 {
        placeholderVisible := true;
      }
    }
  }

  /**
   * `set_value` can leave the cursor past the end of the value: with the
   * cursor at the end of `"ab"`, setting the value to `""` keeps index 2.
   */
  method SetValueBreaksCursorBound(m: TextMetrics) returns (before: Buffer, after: Buffer)
    ensures before == Buffer("ab", 2) && InBounds(before)
    ensures after == Buffer("", 2) && !InBounds(after)
  {
    var log := new NotificationLog();
    var field := new InputField(200.0, "ab", m);
    field.OnKeyDown("arrow_right", m, log);
    field.OnKeyDown("arrow_right", m, log);
    before := field.Contents();
    field.SetValue("", m, log);
    after := field.Contents();
  }
}
