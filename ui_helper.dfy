/** Screen-space helpers used to place and label markers: the viewport
    test, the clamp of a marker into the display area, the corners of a
    marker's rectangle, text measurement and shadowed text drawing. The
    viewport, the font and the draw list are explicit parameters. */
module UiHelper {
  import opened Geometry
  import StringSplit

  // ---------------------------------------------------------------------
  // Viewport test and position clamp
  // ---------------------------------------------------------------------

  /** True when `screenPos` lies strictly inside the main viewport. */
  function InsideMainViewport(vp: Viewport, screenPos: Vec2): (b: bool)
    ensures b ==> vp.size.x > 0.0 && vp.size.y > 0.0
  {
    screenPos.x > vp.pos.x && screenPos.x < vp.pos.x + vp.size.x
    && screenPos.y > vp.pos.y && screenPos.y < vp.pos.y + vp.size.y
  }

  /** The test is strict: a point on any edge of the viewport is outside. */
  lemma ViewportEdgesAreOutside(vp: Viewport, p: Vec2)
    requires p.x == vp.pos.x || p.x == vp.pos.x + vp.size.x
          || p.y == vp.pos.y || p.y == vp.pos.y + vp.size.y
    ensures !InsideMainViewport(vp, p)
  {
  }

  /** Clamps a marker's upper-left position into the viewport shrunk by the
      margins `screenConstraint` (L, D, R, U) and by `extraConstraint` on
      every side. As written, the upper (smallest y) bound takes the R
      margin `z` and the lower bound takes the D margin `y`; the U margin
      `w` is not used. When a lower bound exceeds its upper bound the lower
      bound wins. */
  function ConstrainedScreenPos(vp: Viewport, screenPosUL: Vec2, screenConstraint: Vec4,
                                extraConstraint: Vec2): (r: Vec2)
    ensures var lo := vp.pos.x + extraConstraint.x + screenConstraint.x;
            var hi := vp.pos.x + vp.size.x - extraConstraint.x - screenConstraint.z;
            && r.x >= lo
            && (lo <= hi ==> r.x <= hi)
            && (lo <= screenPosUL.x <= hi ==> r.x == screenPosUL.x)
            && (screenPosUL.x < lo ==> r.x == lo)
            && (lo <= hi < screenPosUL.x ==> r.x == hi)
            && (hi < lo ==> r.x == lo)
    ensures var lo := vp.pos.y + extraConstraint.y + screenConstraint.z;
            var hi := vp.pos.y + vp.size.y - extraConstraint.y - screenConstraint.y;
            && r.y >= lo
            && (lo <= hi ==> r.y <= hi)
            && (lo <= screenPosUL.y <= hi ==> r.y == screenPosUL.y)
            && (screenPosUL.y < lo ==> r.y == lo)
            && (lo <= hi < screenPosUL.y ==> r.y == hi)
            && (hi < lo ==> r.y == lo)
  {
    var constraintUL := Add(vp.pos, extraConstraint);
    var constraintBR := Sub(Add(vp.pos, vp.size), extraConstraint);
    var x := Max(constraintUL.x + screenConstraint.x, Min(constraintBR.x - screenConstraint.z, screenPosUL.x));
    var y := Max(constraintUL.y + screenConstraint.z, Min(constraintBR.y - screenConstraint.y, screenPosUL.y));
    Vec2(x, y)
  }

  /** Clamping an already clamped position changes nothing, also when the
      bounds cross. */
  lemma ClampIdempotent(vp: Viewport, p: Vec2, c: Vec4, extra: Vec2)
    ensures var q := ConstrainedScreenPos(vp, p, c, extra);
            ConstrainedScreenPos(vp, q, c, extra) == q
  {
  }

  /** With no margins, a point strictly inside the viewport is left where
      it is. */
  lemma InsideIsClampFixed(vp: Viewport, p: Vec2)
    requires InsideMainViewport(vp, p)
    ensures ConstrainedScreenPos(vp, p, Vec4(0.0, 0.0, 0.0, 0.0), Vec2(0.0, 0.0)) == p
  {
  }

  /** The clamp with the upper bound taken from the U margin `w`, the margin
      the display area itself uses for its top edge. */
  function ConstrainedScreenPosIntended(vp: Viewport, screenPosUL: Vec2, screenConstraint: Vec4,
                                        extraConstraint: Vec2): (r: Vec2)
    ensures ConstrainedScreenPos(vp, screenPosUL, screenConstraint, extraConstraint).x == r.x
    ensures var lo := vp.pos.y + extraConstraint.y + screenConstraint.w;
            var hi := vp.pos.y + vp.size.y - extraConstraint.y - screenConstraint.y;
            && r.y >= lo
            && (lo <= hi ==> r.y <= hi)
            && (lo <= screenPosUL.y <= hi ==> r.y == screenPosUL.y)
            && (screenPosUL.y < lo ==> r.y == lo)
            && (lo <= hi < screenPosUL.y ==> r.y == hi)
            && (hi < lo ==> r.y == lo)
  {
    var constraintUL := Add(vp.pos, extraConstraint);
    var constraintBR := Sub(Add(vp.pos, vp.size), extraConstraint);
    var x := Max(constraintUL.x + screenConstraint.x, Min(constraintBR.x - screenConstraint.z, screenPosUL.x));
    var y := Max(constraintUL.y + screenConstraint.w, Min(constraintBR.y - screenConstraint.y, screenPosUL.y));
    Vec2(x, y)
  }

  // ---------------------------------------------------------------------
  // Rectangle corners
  // ---------------------------------------------------------------------

  /** Four corner points, in drawing order. */
  datatype Quad = Quad(p1: Vec2, p2: Vec2, p3: Vec2, p4: Vec2)

  /** Corners of the axis-aligned rectangle with upper-left `screenPosUL`:
      upper-left, upper-right, lower-right, lower-left. */
  function RectCorners(screenPosUL: Vec2, size: Vec2): (q: Quad)
    ensures q.p1 == screenPosUL
    ensures q.p1.y == q.p2.y && q.p2.x == q.p3.x && q.p3.y == q.p4.y && q.p4.x == q.p1.x
    ensures q.p2.x - q.p1.x == size.x && q.p4.y - q.p1.y == size.y
    ensures q.p3 == Add(q.p2, Vec2(0.0, size.y)) && q.p3 == Add(q.p4, Vec2(size.x, 0.0))
  {
    var p1 := screenPosUL;
    var p2 := Vec2(screenPosUL.x + size.x, screenPosUL.y);
    var p3 := Add(screenPosUL, size);
    var p4 := Vec2(screenPosUL.x, screenPosUL.y + size.y);
    Quad(p1, p2, p3, p4)
  }

  /** The point a marker rectangle is rotated about. */
  function RotationCentre(screenPosUL: Vec2, size: Vec2): (c: Vec2)
    ensures var q := RectCorners(screenPosUL, size);
            && c.x == (q.p1.x + q.p3.x) / 2.0 && c.y == (q.p1.y + q.p3.y) / 2.0
            && c.x == (q.p2.x + q.p4.x) / 2.0 && c.y == (q.p2.y + q.p4.y) / 2.0
  {
    Add(screenPosUL, Scale(size, 1.0 / 2.0))
  }

  // ---------------------------------------------------------------------
  // Text measurement
  // ---------------------------------------------------------------------

  /** The active font: advances indexed by character code, the advance of
      characters past the table, and the font's own pixel size. */
  datatype Font = Font(indexAdvanceX: seq<real>, fallbackAdvanceX: real, fontSize: real)

  /** Advance of one character at the font's native size. */
  function Advance(font: Font, c: char): real {
    if (c as int) < |font.indexAdvanceX| then font.indexAdvanceX[c as int] else font.fallbackAdvanceX
  }

  /** Sum of the advances of the characters of one line. */
  function LineWidth(font: Font, s: string): real {
    if s == [] then 0.0 else LineWidth(font, s[..|s| - 1]) + Advance(font, s[|s| - 1])
  }

  /** The widest of `lines`, never below 0. */
  function MaxLineWidth(font: Font, lines: seq<string>): (r: real)
    ensures r >= 0.0
  {
    if lines == [] then 0.0
    else Max(MaxLineWidth(font, lines[..|lines| - 1]), LineWidth(font, lines[|lines| - 1]))
  }

  /** The size of a text whose widest line is `maxLineW` wide at the font's
      own size, drawn at `fontsize` pixels. */
  function ScaledTextSize(font: Font, maxLineW: real, fontsize: real): Vec2
    requires font.fontSize > 0.0
  {
    Vec2(maxLineW * fontsize / font.fontSize, fontsize)
  }

  /** Width and height of `text` drawn at `fontsize` pixels. */
  ghost function TextSizeOf(font: Font, text: string, fontsize: real): (r: Vec2)
    requires font.fontSize > 0.0
    ensures r.y == fontsize
    ensures fontsize >= 0.0 ==> r.x >= 0.0
  {
    ScaledTextSize(font, MaxLineWidth(font, StringSplit.SplitLines(text)), fontsize)
  }

  /** Measures `text`: splits it on '\n', sums each line's advances, keeps
      the widest line and scales it from the font's size to `fontsize`. */
  method TextSize(font: Font, text: string, fontsize: real) returns (size: Vec2)
    requires font.fontSize > 0.0
    ensures size == TextSizeOf(font, text, fontsize)
  {
    var split := StringSplit.SplitLines(text);
    var maxLineW := 0.0;
    for i := 0 to |split|
      invariant maxLineW == MaxLineWidth(font, split[..i])
    {
      var s := split[i];
      var lineW := 0.0;
      for j := 0 to |s|
        invariant lineW == LineWidth(font, s[..j])
      {
        LineWidthStep(font, s, j);
        lineW := lineW + Advance(font, s[j]);
      }
      assert s[..|s|] == s;
      MaxLineWidthStep(font, split, i);
      maxLineW := Max(maxLineW, lineW);
    }
    assert split[..|split|] == split;
    size := ScaledTextSize(font, maxLineW, fontsize);
  }

  lemma LineWidthStep(font: Font, s: string, j: nat)
    requires j < |s|
    ensures LineWidth(font, s[..j + 1]) == LineWidth(font, s[..j]) + Advance(font, s[j])
  {
    assert s[..j + 1][..j] == s[..j];
  }

  lemma MaxLineWidthStep(font: Font, lines: seq<string>, i: nat)
    requires i < |lines|
    ensures MaxLineWidth(font, lines[..i + 1]) == Max(MaxLineWidth(font, lines[..i]), LineWidth(font, lines[i]))
  {
    assert lines[..i + 1][..i] == lines[..i];
  }

  /** A line's width is additive over concatenation: it is the sum of the
      advances of its characters. */
  lemma {:induction false} LineWidthConcat(font: Font, a: string, b: string)
    ensures LineWidth(font, a + b) == LineWidth(font, a) + LineWidth(font, b)
  {
    if b == [] {
      assert a + b == a;
    } else {
      var ab := a + b;
      assert ab[..|ab| - 1] == a + b[..|b| - 1];
      assert ab[|ab| - 1] == b[|b| - 1];
      LineWidthConcat(font, a, b[..|b| - 1]);
    }
  }

  /** MaxLineWidth is the maximum of 0 and the line widths: no line is
      wider, and it is 0 or the width of some line. */
  lemma {:induction false} MaxLineWidthIsMax(font: Font, lines: seq<string>)
    ensures forall i :: 0 <= i < |lines| ==> LineWidth(font, lines[i]) <= MaxLineWidth(font, lines)
    ensures MaxLineWidth(font, lines) == 0.0
         || exists i :: 0 <= i < |lines| && MaxLineWidth(font, lines) == LineWidth(font, lines[i])
  {
    if lines != [] {
      var init := lines[..|lines| - 1];
      MaxLineWidthIsMax(font, init);
      forall i | 0 <= i < |init| ensures init[i] == lines[i] { }
      if MaxLineWidth(font, lines) != 0.0
         && MaxLineWidth(font, lines) != LineWidth(font, lines[|lines| - 1]) {
        var k :| 0 <= k < |init| && MaxLineWidth(font, init) == LineWidth(font, init[k]);
        assert MaxLineWidth(font, lines) == LineWidth(font, lines[k]);
      }
    }
  }

  /** The empty string measures 0 wide and `fontsize` high. */
  lemma EmptyTextHasZeroWidth(font: Font, fontsize: real)
    requires font.fontSize > 0.0
    ensures TextSizeOf(font, "", fontsize) == Vec2(0.0, fontsize)
  {
    assert StringSplit.SplitLines("") == [""];
    assert [""][..0] == [];
    assert MaxLineWidth(font, [""]) == 0.0;
    assert 0.0 * fontsize / font.fontSize == 0.0;
  }

  /** Width is proportional to the requested font size. */
  lemma TextWidthScales(font: Font, text: string, fontsize: real, k: real)
    requires font.fontSize > 0.0
    ensures TextSizeOf(font, text, k * fontsize).x == k * TextSizeOf(font, text, fontsize).x
  {
    var m := MaxLineWidth(font, StringSplit.SplitLines(text));
    var n := font.fontSize;
    var q := m * fontsize / n;
    assert q * n == m * fontsize;
    assert (k * q) * n == m * (k * fontsize);
  }

  /** A glyph with advance 10 in a 20-pixel font measures (10, 20) at size
      20 and (20, 40) at size 40. */
  lemma SingleGlyphExample(font: Font)
    requires |font.indexAdvanceX| > 65 && font.indexAdvanceX[65] == 10.0
    requires font.fontSize == 20.0
    ensures TextSizeOf(font, "A", 20.0) == Vec2(10.0, 20.0)
    ensures TextSizeOf(font, "A", 40.0) == Vec2(20.0, 40.0)
  {
    StringSplit.SplitSingleLine("A");
    assert "A"[..0] == "";
    assert LineWidth(font, "A") == 10.0;
    assert MaxLineWidth(font, ["A"]) == 10.0 by {
      assert ["A"][..0] == [];
    }
  }

  // ---------------------------------------------------------------------
  // Shadowed text
  // ---------------------------------------------------------------------

  /** One text-drawing command as the renderer receives it. */
  datatype DrawCommand = Text(font: Font, fontSize: real, pos: Vec2, colour: Vec4, text: string)

  /** A frame's draw list: commands are only ever appended. */
  class DrawList {
    var commands: seq<DrawCommand>

    constructor ()
      ensures commands == []
    {
      commands := [];
    }

    method AddText(font: Font, fontSize: real, pos: Vec2, colour: Vec4, text: string)
      modifies this
      ensures commands == old(commands) + [Text(font, fontSize, pos, colour, text)]
    {
      commands := commands + [Text(font, fontSize, pos, colour, text)];
    }
  }

  /** Draws `text` twice in the shadow colour, shifted right and then down
      by `scale`, and then once in `colour` at `pos`, so the shadow lies
      beneath the text. The shadow colour is an input. */
  method DrawTextWithShadow(drawList: DrawList, text: string, pos: Vec2, font: Font,
                            fontsizeRaw: real, scale: real, colour: Vec4, shadowColour: Vec4)
    modifies drawList
    ensures drawList.commands == old(drawList.commands) + [
              Text(font, fontsizeRaw * scale, Vec2(pos.x + scale, pos.y), shadowColour, text),
              Text(font, fontsizeRaw * scale, Vec2(pos.x, pos.y + scale), shadowColour, text),
              Text(font, fontsizeRaw * scale, pos, colour, text)]
  {
    var fontsize := fontsizeRaw * scale;
    var p := pos;
    // shadow to the right
    p := p.(x := p.x + scale);
    drawList.AddText(font, fontsize, p, shadowColour, text);
    // shadow below
    p := p.(x := p.x - scale);
    p := p.(y := p.y + scale);
    drawList.AddText(font, fontsize, p, shadowColour, text);
    // the text itself
    p := p.(y := p.y - scale);
    drawList.AddText(font, fontsize, p, colour, text);
  }
}
