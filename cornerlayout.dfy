/**
 * `UICornerLayout`: a rectangle drawn with nine sprites (four corners, four
 * edges, one middle). Each sprite takes its size from its texture, then the
 * edges and the middle are stretched to fill what the corners leave.
 */
module CornerLayouts {

  datatype Part = TR | Top | TL | Right | Mid | Left | BR | Bottom | BL

  /** The order of `UICornerLayout.modes`, in which `render_layout` loads the textures. */
  const Modes: seq<Part> := [TR, Top, TL, Right, Mid, Left, BR, Bottom, BL]

  /** The position of `p` in `Modes`. */
  function ModeIndex(p: Part): (k: nat)
    ensures k < |Modes| && Modes[k] == p
  {
    match p
    case TR => 0 case Top => 1 case TL => 2 case Right => 3 case Mid => 4
    case Left => 5 case BR => 6 case Bottom => 7 case BL => 8
  }

  /** No part appears twice in `Modes`. */
  lemma ModeIndexInverse(k: nat)
    requires k < |Modes|
    ensures ModeIndex(Modes[k]) == k
  {
  }

  /** The name each part goes by in the texture names: `prefix + name`. */
  function PartName(p: Part): string {
    match p
    case TR => "TR" case Top => "Top" case TL => "TL"
    case Right => "Right" case Mid => "Mid" case Left => "Left"
    case BR => "BR" case Bottom => "Bottom" case BL => "BL"
  }

  /** The intrinsic size of a texture of the skin. */
  datatype Size = Size(width: real, height: real)

  /** One sprite: its texture and its geometry within the layout. */
  datatype Patch = Patch(texture: string, width: real, height: real, left: real, top: real)

  /** The sprite for `p` after `set_texture(prefix + name, resize=True)`, keeping its position. */
  function Loaded(sizeOf: string -> Size, prefix: string, p: Part, old_: Patch): (r: Patch)
    ensures r.texture == prefix + PartName(p) && r.left == old_.left && r.top == old_.top
    ensures r.width == sizeOf(prefix + PartName(p)).width && r.height == sizeOf(prefix + PartName(p)).height
  {
    var size := sizeOf(prefix + PartName(p));
    old_.(texture := prefix + PartName(p), width := size.width, height := size.height)
  }

  /**
   * The geometry `render_layout` produces for the given textures and outer
   * size. Each row of sprites tiles the width and each column tiles the
   * height; corners keep their intrinsic size; edges keep it across their
   * length; every texture carries the current prefix.
   */
  function Layout(sizeOf: string -> Size, prefix: string, width: real, height: real): (parts: map<Part, Patch>)
    ensures forall p: Part :: p in parts && parts[p].texture == prefix + PartName(p)
    ensures forall p: Part :: p in {TL, TR, BL, BR} ==> parts[p].width == sizeOf(prefix + PartName(p)).width
    ensures forall p: Part :: p in {TL, TR, BL, BR} ==> parts[p].height == sizeOf(prefix + PartName(p)).height
    ensures forall p: Part :: p in {Left, Right} ==> parts[p].width == sizeOf(prefix + PartName(p)).width
    ensures forall p: Part :: p in {Top, Bottom} ==> parts[p].height == sizeOf(prefix + PartName(p)).height
    // rows: left column at 0, each sprite starts where its left neighbour ends, the last ends at `width`
    ensures parts[TL].left == 0.0 && parts[Left].left == 0.0 && parts[BL].left == 0.0
    ensures parts[Top].left == parts[TL].left + parts[TL].width
    ensures parts[Mid].left == parts[Left].left + parts[Left].width
    ensures parts[Bottom].left == parts[BL].left + parts[BL].width
    ensures parts[TR].left == parts[Top].left + parts[Top].width
    ensures parts[Right].left == parts[Mid].left + parts[Mid].width
    ensures parts[BR].left == parts[Bottom].left + parts[Bottom].width
    ensures parts[TR].left + parts[TR].width == width
    ensures parts[Right].left + parts[Right].width == width
    ensures parts[BR].left + parts[BR].width == width
    // columns: top row at 0, each sprite starts where the one above ends, the last ends at `height`
    ensures parts[TL].top == 0.0 && parts[Top].top == 0.0 && parts[TR].top == 0.0
    ensures parts[Left].top == parts[TL].top + parts[TL].height
    ensures parts[Mid].top == parts[Top].top + parts[Top].height
    ensures parts[Right].top == parts[TR].top + parts[TR].height
    ensures parts[BL].top == parts[Left].top + parts[Left].height
    ensures parts[Bottom].top == parts[Mid].top + parts[Mid].height
    ensures parts[BR].top == parts[Right].top + parts[Right].height
    ensures parts[BL].top + parts[BL].height == height
    ensures parts[Bottom].top + parts[Bottom].height == height
    ensures parts[BR].top + parts[BR].height == height
  {
    map p: Part | true :: Placed(sizeOf, prefix, width, height, p)
  }

  /** The intrinsic size of the texture `p` uses under `prefix`. */
  function Dim(sizeOf: string -> Size, prefix: string, p: Part): Size {
    sizeOf(prefix + PartName(p))
  }

  /** Where `render_layout` puts part `p`: stretched edges take what the corners leave. */
  function Placed(sizeOf: string -> Size, prefix: string, width: real, height: real, p: Part): (r: Patch)
    ensures r.texture == prefix + PartName(p)
    ensures p in {TL, TR, BL, BR} ==> r.width == Dim(sizeOf, prefix, p).width && r.height == Dim(sizeOf, prefix, p).height
  {
    var sTL, sTop, sTR := Dim(sizeOf, prefix, TL), Dim(sizeOf, prefix, Top), Dim(sizeOf, prefix, TR);
    var sLeft, sRight := Dim(sizeOf, prefix, Left), Dim(sizeOf, prefix, Right);
    var sBL, sBottom, sBR := Dim(sizeOf, prefix, BL), Dim(sizeOf, prefix, Bottom), Dim(sizeOf, prefix, BR);
    var topW := width - sTL.width - sTR.width;
    var midW := width - sLeft.width - sRight.width;
    var bottomW := width - sBL.width - sBR.width;
    var leftH := height - sTL.height - sBL.height;
    var midH := height - sTop.height - sBottom.height;
    var rightH := height - sTR.height - sBR.height;
    var tex := prefix + PartName(p);
    match p
    case TL => Patch(tex, sTL.width, sTL.height, 0.0, 0.0)
    case Top => Patch(tex, topW, sTop.height, sTL.width, 0.0)
    case TR => Patch(tex, sTR.width, sTR.height, sTL.width + topW, 0.0)
    case Left => Patch(tex, sLeft.width, leftH, 0.0, sTL.height)
    case Mid => Patch(tex, midW, midH, sLeft.width, sTop.height)
    case Right => Patch(tex, sRight.width, rightH, sLeft.width + midW, sTR.height)
    case BL => Patch(tex, sBL.width, sBL.height, 0.0, sTL.height + leftH)
    case Bottom => Patch(tex, bottomW, sBottom.height, sBL.width, sTop.height + midH)
    case BR => Patch(tex, sBR.width, sBR.height, sBL.width + bottomW, sTR.height + rightH)
  }

  /** When the outer size leaves room for the corners, no stretched sprite has a negative size. */
  lemma LayoutNonNegative(sizeOf: string -> Size, prefix: string, width: real, height: real)
    requires width >= sizeOf(prefix + "TL").width + sizeOf(prefix + "TR").width
    requires width >= sizeOf(prefix + "Left").width + sizeOf(prefix + "Right").width
    requires width >= sizeOf(prefix + "BL").width + sizeOf(prefix + "BR").width
    requires height >= sizeOf(prefix + "TL").height + sizeOf(prefix + "BL").height
    requires height >= sizeOf(prefix + "Top").height + sizeOf(prefix + "Bottom").height
    requires height >= sizeOf(prefix + "TR").height + sizeOf(prefix + "BR").height
    ensures var parts := Layout(sizeOf, prefix, width, height);
      parts[Top].width >= 0.0 && parts[Mid].width >= 0.0 && parts[Bottom].width >= 0.0 &&
      parts[Left].height >= 0.0 && parts[Mid].height >= 0.0 && parts[Right].height >= 0.0
  {
  }

  /** After the first `i` steps of the loading loop over `Modes`, starting from `start`. */
  ghost predicate LoadedUpTo(sizeOf: string -> Size, prefix: string, start: map<Part, Patch>, cur: map<Part, Patch>, i: nat) {
    && (forall p: Part :: p in start && p in cur)
    && (forall p: Part :: cur[p] == if ModeIndex(p) < i then Loaded(sizeOf, prefix, p, start[p]) else start[p])
  }

  /** One step of the loading loop. */
  lemma LoadOne(sizeOf: string -> Size, prefix: string, start: map<Part, Patch>, cur: map<Part, Patch>, i: nat)
    requires i < |Modes| && LoadedUpTo(sizeOf, prefix, start, cur, i)
    ensures LoadedUpTo(sizeOf, prefix, start, cur[Modes[i] := Loaded(sizeOf, prefix, Modes[i], cur[Modes[i]])], i + 1)
  {
    ModeIndexInverse(i);
  }

  /** A map that holds each of the nine parts holds every part. */
  lemma AllPartsIn<V>(m: map<Part, V>)
    requires TR in m && Top in m && TL in m && Right in m && Mid in m
    requires Left in m && BR in m && Bottom in m && BL in m
    ensures forall p: Part :: p in m
  {
    forall p: Part ensures p in m {
      match p
      case TR => case Top => case TL => case Right => case Mid =>
      case Left => case BR => case Bottom => case BL =>
    }
  }

  class CornerLayout {
    const sizeOf: string -> Size
    var prefix: string
    var width: real
    var height: real
    var parts: map<Part, Patch>

    /** All nine sprites exist; the ones `render_layout` never moves stay at the origin of their row or column. */
    ghost predicate Valid()
      reads this
    {
      && (forall p: Part :: p in parts)
      && parts[TL].left == 0.0 && parts[Left].left == 0.0 && parts[BL].left == 0.0
      && parts[TL].top == 0.0 && parts[Top].top == 0.0 && parts[TR].top == 0.0
    }

    constructor (sizeOf: string -> Size, prefix: string, width: real, height: real)
      ensures Valid() && this.sizeOf == sizeOf && this.prefix == prefix
      ensures this.width == width && this.height == height
      ensures parts == Layout(sizeOf, prefix, width, height)
    {
      this.sizeOf := sizeOf;
      this.prefix := prefix;
      this.width := width;
      this.height := height;
      var b := Patch("blank", sizeOf("blank").width, sizeOf("blank").height, 0.0, 0.0);
      parts := map[TR := b, Top := b, TL := b, Right := b, Mid := b, Left := b, BR := b, Bottom := b, BL := b];
      new;
      AllPartsIn(parts);
      RenderLayout();
    }

    /** The loop that opens `render_layout`: every part takes the texture `prefix + name` at its intrinsic size. */
    method LoadTextures()
      requires Valid()
      modifies this
      ensures Valid() && prefix == old(prefix) && width == old(width) && height == old(height)
      ensures forall p: Part :: parts[p] == Loaded(sizeOf, prefix, p, old(parts[p]))
    {
      ghost var before := parts;
      var i := 0;
      while i < |Modes|
        invariant 0 <= i <= |Modes| && before == old(parts)
        invariant LoadedUpTo(sizeOf, prefix, before, parts, i)
        invariant prefix == old(prefix) && width == old(width) && height == old(height)
      {
        LoadOne(sizeOf, prefix, before, parts, i);
        var m := Modes[i];
        parts := parts[m := Loaded(sizeOf, prefix, m, parts[m])];
        i := i + 1;
      }
    }

    /** `render_layout`: loads the nine textures, then sizes and places every sprite. */
    method RenderLayout()
      requires Valid()
      modifies this
      ensures Valid() && parts == Layout(sizeOf, prefix, width, height)
      ensures prefix == old(prefix) && width == old(width) && height == old(height)
    {
      LoadTextures();
      var tl, top, tr, left, mid, right, bl, bottom, br :=
        parts[TL], parts[Top], parts[TR], parts[Left], parts[Mid], parts[Right], parts[BL], parts[Bottom], parts[BR];

      // Width
      top := top.(width := this.width - tl.width - tr.width);
      mid := mid.(width := this.width - left.width - right.width);
      bottom := bottom.(width := this.width - bl.width - br.width);

      // Height
      left := left.(height := this.height - tl.height - bl.height);
      mid := mid.(height := this.height - top.height - bottom.height);
      right := right.(height := this.height - tr.height - br.height);

      // Positioning - Left
      top := top.(left := tl.width);
      mid := mid.(left := left.width);
      bottom := bottom.(left := bl.width);

      tr := tr.(left := top.left + top.width);
      right := right.(left := mid.left + mid.width);
      br := br.(left := bottom.left + bottom.width);

      // Positioning - Top
      left := left.(top := tl.height);
      mid := mid.(top := top.height);
      right := right.(top := tr.height);

      bl := bl.(top := left.top + left.height);
      bottom := bottom.(top := mid.top + mid.height);
      br := br.(top := right.top + right.height);

      parts := map[TL := tl, Top := top, TR := tr, Left := left, Mid := mid, Right := right,
                   BL := bl, Bottom := bottom, BR := br];
      AllPartsIn(parts);
      forall p: Part ensures parts[p] == Placed(sizeOf, prefix, width, height, p) {
        match p
        case TR => case Top => case TL => case Right => case Mid =>
        case Left => case BR => case Bottom => case BL =>
      }
    }

    /** `set_prefix`: switches all nine textures to the new prefix and lays them out again. */
    method SetPrefix(prefix: string)
      requires Valid()
      modifies this
      ensures Valid() && this.prefix == prefix && parts == Layout(sizeOf, prefix, width, height)
      ensures width == old(width) && height == old(height)
    {
      this.prefix := prefix;
      RenderLayout();
    }
  }
}
