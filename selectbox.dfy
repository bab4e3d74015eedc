/**
 * `UISelectbox` and its drop-down `UISelectdrop`: a list of `(id, label)`
 * options, a label showing the chosen one, and a drop-down that lists the
 * options when opened.
 */
module Selectboxes {
  import opened Options
  import opened CornerLayouts

  type OptionId = int

  /** One entry of `options`: the pair `(optID, optVal)`. */
  datatype Choice = Choice(id: OptionId, text: string)

  /**
   * The index `_select_option` stops at: the first option whose id equals
   * `key`, or `None` when there is none (`None` as a key matches nothing).
   */
  function FirstMatch(options: seq<Choice>, key: Option<OptionId>): (r: Option<nat>)
    ensures r.Some? ==> r.value < |options| && Some(options[r.value].id) == key
    ensures r.Some? ==> forall k :: 0 <= k < r.value ==> Some(options[k].id) != key
    ensures r.None? <==> forall k :: 0 <= k < |options| ==> Some(options[k].id) != key
  {
    if options == [] then None
    else if Some(options[0].id) == key then Some(0)
    else
      var rest := FirstMatch(options[1..], key);
      if rest.None? then None else Some(rest.value + 1)
  }

  /** No two options share an id. */
  ghost predicate DistinctIds(options: seq<Choice>) {
    forall i, j :: 0 <= i < j < |options| ==> options[i].id != options[j].id
  }

  /** The first option carrying a given id comes no later than any option carrying it. */
  lemma FirstMatchNoLater(options: seq<Choice>, k: nat)
    requires k < |options|
    ensures var r := FirstMatch(options, Some(options[k].id)); r.Some? && r.value <= k
  {
  }

  /** With distinct ids, looking an option's id up finds that very option. */
  lemma FirstMatchDistinct(options: seq<Choice>, k: nat)
    requires k < |options| && DistinctIds(options)
    ensures FirstMatch(options, Some(options[k].id)) == Some(k)
  {
    FirstMatchNoLater(options, k);
  }

  /** The number of rows the drop-down shows for `n` options: all of them, but never more than four. */
  function VisibleRows(n: nat): (v: nat)
    ensures v <= 4 && v <= n && (v == n || v == 4)
  {
    if n <= 4 then n else 4
  }

  /** Where row `k` starts inside the container: 6 px from the top, and 30 px per row above it. */
  function RowTop(k: nat): (t: int)
    ensures k == 0 ==> t == 6
    ensures t >= 6
  {
    6 + 30 * k
  }

  /** Rows are stacked without gaps or overlap: each starts where the one above it ends. */
  lemma RowsStacked(j: nat, k: nat)
    requires j < k
    ensures RowTop(j + 1) == RowTop(j) + 30
    ensures RowTop(j) + 30 <= RowTop(k)
  {
  }

  /** The clipping container's height for `n` options: room for the visible rows, below the 6 px top offset, and 1 px more. */
  function ContainerHeight(n: nat): (h: int)
    ensures h == RowTop(VisibleRows(n)) + 1
    ensures 7 <= h <= 127
  {
    VisibleRows(n) * 30 + 6 + 1
  }

  /** A row lies wholly inside the clipping container exactly when it is one of the first `min(4, n)`. */
  lemma RowShownIff(n: nat, k: nat)
    requires k < n
    ensures RowTop(k) + 30 <= ContainerHeight(n) <==> k < VisibleRows(n)
  {
  }

  /** One row of the drop-down: the option it selects when clicked, its text and its top. */
  datatype Row = Row(id: OptionId, text: string, top: int)

  /** The rows `_render_options` builds for `options`, in order. */
  function Rows(options: seq<Choice>): (rows: seq<Row>)
    ensures |rows| == |options|
    ensures forall k :: 0 <= k < |rows| ==> rows[k].id == options[k].id && rows[k].text == options[k].text
    ensures forall k :: 0 <= k < |rows| ==> rows[k].top == RowTop(k)
  {
    seq(|options|, k requires 0 <= k < |options| => Row(options[k].id, options[k].text, RowTop(k)))
  }

  class Selectdrop {
    const layout: CornerLayout
    const width: real
    var containerHeight: int
    var rows: seq<Row>
    var visible: bool

    ghost predicate Valid()
      reads this, layout
    {
      layout.Valid()
    }

    /**
     * What `_render_options(options)` leaves behind: a frame and a container
     * sized for the first `min(4, n)` rows, the frame laid out again at that
     * height, and one row per option.
     */
    ghost predicate Shows(options: seq<Choice>)
      reads this, layout
    {
      && layout.height == (VisibleRows(|options|) * 30 + 6 + 11) as real
      && layout.parts == Layout(layout.sizeOf, layout.prefix, layout.width, layout.height)
      && containerHeight == ContainerHeight(|options|)
      && rows == Rows(options)
    }

    /** The frame is a corner layout 10 px wider than the drop-down, 100 px tall until options are rendered. */
    constructor (width: real, sizeOf: string -> Size)
      ensures Valid() && fresh(layout) && this.width == width
      ensures layout.prefix == "Selectdrop_" && layout.width == width + 10.0 && layout.height == 100.0
      ensures layout.sizeOf == sizeOf
      ensures containerHeight == 0 && rows == [] && visible
    {
      this.width := width;
      layout := new CornerLayout(sizeOf, "Selectdrop_", width + 10.0, 100.0);
      containerHeight := 0;
      rows := [];
      visible := true;
    }

    /**
     * `_render_options`: sizes the frame and the container for up to four
     * rows, lays the frame out again and replaces the rows with one per option.
     */
    method RenderOptions(options: seq<Choice>)
      requires Valid()
      modifies this, layout
      ensures Valid() && visible == old(visible)
      ensures layout.width == old(layout.width) && layout.prefix == old(layout.prefix)
      ensures Shows(options)
    {
      var shown := VisibleRows(|options|);
      var offsetTop := 6;
      layout.height := (shown * 30 + offsetTop + 11) as real;
      containerHeight := shown * 30 + offsetTop + 1;
      layout.RenderLayout();
      rows := BuildRows(options);
    }
  }

  /** The loop of `_render_options` that places one row per option, each 30 px below the last. */
  method BuildRows(options: seq<Choice>) returns (built: seq<Row>)
    ensures built == Rows(options)
  {
    built := [];
    var currentY := 6;
    var i := 0;
    while i < |options|
      invariant 0 <= i <= |options| && currentY == RowTop(i)
      invariant |built| == i
      invariant forall k :: 0 <= k < i ==> built[k] == Row(options[k].id, options[k].text, RowTop(k))
    {
      built := built + [Row(options[i].id, options[i].text, currentY)];
      currentY := currentY + 30;
      i := i + 1;
    }
  }

  class Selectbox {
    const drop: Selectdrop
    var options: seq<Choice>
    var currentOptionId: Option<OptionId>
    var labelText: string
    /** The label is drawn at half opacity after a selection that matched nothing. */
    var labelDimmed: bool
    var dropOpen: bool

    /** The drop-down is shown exactly when the selectbox believes it is open. */
    ghost predicate Valid()
      reads this, drop, drop.layout
    {
      drop.Valid() && dropOpen == drop.visible
    }

    constructor (width: real, options: Option<seq<Choice>>, selectedOption: Option<OptionId>, sizeOf: string -> Size)
      ensures Valid() && !dropOpen && fresh(drop) && fresh(drop.layout) && drop.rows == []
      ensures this.options == (if options.Some? then options.value else [])
      ensures var m := FirstMatch(this.options, selectedOption);
        && (m.Some? ==> currentOptionId == selectedOption && labelText == this.options[m.value].text && !labelDimmed)
        && (m.None? ==> currentOptionId == None && labelText == "Select an option .." && labelDimmed)
    {
      var d := new Selectdrop(width, sizeOf);
      d.visible := false;
      drop := d;
      dropOpen := false;
      this.options := if options.Some? then options.value else [];
      currentOptionId := None;
      labelText := "Select an option ..";
      labelDimmed := false;
      new;
      SelectOption(selectedOption);
    }

    /**
     * `_select_option`: shows the first option whose id is `optid`; when
     * none matches, keeps the previous text and id and dims the label.
     */
    method SelectOption(optid: Option<OptionId>)
      modifies this
      ensures options == old(options) && dropOpen == old(dropOpen)
      ensures var m := FirstMatch(options, optid);
        && (m.Some? ==> currentOptionId == optid && labelText == options[m.value].text && !labelDimmed)
        && (m.None? ==> currentOptionId == old(currentOptionId) && labelText == old(labelText) && labelDimmed)
    {
      labelDimmed := false;
      var i := 0;
      while i < |options|
        invariant 0 <= i <= |options|
        invariant forall k :: 0 <= k < i ==> Some(options[k].id) != optid
        invariant currentOptionId == old(currentOptionId) && labelText == old(labelText)
      {
        if Some(options[i].id) == optid {
          labelText := options[i].text;
          currentOptionId := Some(options[i].id);
          return;
        }
        i := i + 1;
      }
      labelDimmed := true;
    }

    /** `on_click` on the knob: toggles the drop-down. */
    method OnClick()
      requires Valid()
      modifies this, drop, drop.layout
      ensures Valid() && dropOpen == !old(dropOpen) && options == old(options)
      ensures dropOpen ==> drop.Shows(options)
      ensures drop.layout.width == old(drop.layout.width) && drop.layout.prefix == old(drop.layout.prefix)
      ensures !dropOpen ==> drop.rows == old(drop.rows) && drop.containerHeight == old(drop.containerHeight)
      ensures !dropOpen ==> unchanged(drop.layout)
      ensures currentOptionId == old(currentOptionId) && labelText == old(labelText) && labelDimmed == old(labelDimmed)
    {
      if dropOpen {
        CloseDrop();
      } else {
        OpenDrop();
      }
    }

    /** `_open_drop`: when closed, renders the current options and shows the drop-down; otherwise does nothing. */
    method OpenDrop()
      requires Valid()
      modifies this, drop, drop.layout
      ensures Valid() && dropOpen && options == old(options)
      ensures !old(dropOpen) ==> drop.Shows(options)
      ensures drop.layout.width == old(drop.layout.width) && drop.layout.prefix == old(drop.layout.prefix)
      ensures old(dropOpen) ==> unchanged(this, drop, drop.layout)
      ensures currentOptionId == old(currentOptionId) && labelText == old(labelText) && labelDimmed == old(labelDimmed)
    {
      if !dropOpen {
        drop.RenderOptions(options);
        drop.visible := true;
        dropOpen := true;
      }
    }

    /** `_close_drop`: hides the drop-down if it is open; the rendered rows stay as they were. */
    method CloseDrop()
      requires Valid()
      modifies this, drop
      ensures Valid() && !dropOpen && drop.rows == old(drop.rows) && drop.containerHeight == old(drop.containerHeight)
      ensures options == old(options) && currentOptionId == old(currentOptionId)
      ensures labelText == old(labelText) && labelDimmed == old(labelDimmed)
      ensures !old(dropOpen) ==> unchanged(this, drop)
    {
      if dropOpen {
        drop.visible := false;
        dropOpen := false;
      }
    }

    /** `_on_option_selected`: selects the option and closes the drop-down. */
    method OnOptionSelected(optid: Option<OptionId>)
      requires Valid()
      modifies this, drop
      ensures Valid() && !dropOpen && options == old(options)
      ensures drop.rows == old(drop.rows) && drop.containerHeight == old(drop.containerHeight)
      ensures var m := FirstMatch(options, optid);
        && (m.Some? ==> currentOptionId == optid && labelText == options[m.value].text && !labelDimmed)
        && (m.None? ==> currentOptionId == old(currentOptionId) && labelText == old(labelText) && labelDimmed)
    {
      SelectOption(optid);
      CloseDrop();
    }

    /**
     * `UISelectdrop._on_opt_click`: clicking row `k` selects the id that row
     * was rendered with. When the rows show the current options, the label
     * ends up showing the first option with that id, which is row `k`'s own
     * option when ids are distinct.
     */
    method OnRowClick(k: nat)
      requires Valid() && k < |drop.rows|
      modifies this, drop
      ensures Valid() && !dropOpen && options == old(options)
      ensures drop.rows == old(drop.rows) && drop.containerHeight == old(drop.containerHeight)
      ensures var m := FirstMatch(options, Some(old(drop.rows[k].id)));
        && (m.Some? ==> currentOptionId == Some(old(drop.rows[k].id)) && labelText == options[m.value].text && !labelDimmed)
        && (m.None? ==> currentOptionId == old(currentOptionId) && labelText == old(labelText) && labelDimmed)
      ensures old(drop.rows) == Rows(options) ==> currentOptionId == Some(options[k].id) && !labelDimmed
      ensures old(drop.rows) == Rows(options) ==> labelText == options[FirstMatch(options, Some(options[k].id)).value].text
      ensures old(drop.rows) == Rows(options) && DistinctIds(options) ==> labelText == options[k].text
    {
      var id := drop.rows[k].id;
      ghost var rendered := drop.rows == Rows(options);
      OnOptionSelected(Some(id));
      if rendered {
        FirstMatchNoLater(options, k);
        if DistinctIds(options) {
          FirstMatchDistinct(options, k);
        }
      }
    }

    /** `on_blur`: losing focus closes the drop-down. */
    method OnBlur()
      requires Valid()
      modifies this, drop
      ensures Valid() && !dropOpen && drop.rows == old(drop.rows) && drop.containerHeight == old(drop.containerHeight)
      ensures options == old(options) && currentOptionId == old(currentOptionId)
      ensures labelText == old(labelText) && labelDimmed == old(labelDimmed)
    {
      CloseDrop();
    }

    /** `set_options` as written: its argument is ignored and the drop-down is rendered from the current options. */
    method SetOptions(newOptions: seq<Choice>)
      requires Valid()
      modifies drop, drop.layout
      ensures Valid() && drop.Shows(options) && drop.visible == old(drop.visible)
      ensures drop.layout.width == old(drop.layout.width) && drop.layout.prefix == old(drop.layout.prefix)
    {
      drop.RenderOptions(options);
    }

    /** `set_options` as its signature intends: stores the new options, then renders them. */
    method SetOptionsCorrected(newOptions: seq<Choice>)
      requires Valid()
      modifies this, drop, drop.layout
      ensures Valid() && options == newOptions && drop.rows == Rows(newOptions) && drop.Shows(newOptions)
      ensures drop.layout.width == old(drop.layout.width) && drop.layout.prefix == old(drop.layout.prefix)
      ensures dropOpen == old(dropOpen) && currentOptionId == old(currentOptionId)
      ensures labelText == old(labelText) && labelDimmed == old(labelDimmed)
    {
      options := newOptions;
      drop.RenderOptions(options);
    }
  }

  /**
   * A selectbox built without options, then given one option through
   * `set_options`, still has no options and renders no rows.
   */
  method SetOptionsDropsItsArgument() returns (given: seq<Choice>, kept: seq<Choice>, shown: seq<Row>)
    ensures given == [Choice(1, "One")] && kept == [] && shown == []
    ensures kept != given && |shown| != |given|
  {
    var box := new Selectbox(200.0, None, None, (name: string) => Size(10.0, 10.0));
    given := [Choice(1, "One")];
    box.SetOptions(given);
    kept := box.options;
    shown := box.drop.rows;
  }
}
