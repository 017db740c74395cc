/** The configuration window's part in the marker area: turning the margins
    into the display-area rectangle shown on screen, turning an edited
    rectangle back into margins, and the per-frame order of editing,
    validating and drawing that rectangle. */
module ConfigUi {
  import opened Geometry
  import opened Configs
  import UiHelper

  // ---------------------------------------------------------------------
  // Margins <-> display area
  // ---------------------------------------------------------------------

  /** The display area for margins `c` in viewport `vp`, as absolute edges
      (L, D, R, U) = (x, y, z, w); D is the bottom edge, U the top. */
  function DisplayArea(vp: Viewport, c: Vec4): (a: Vec4)
    ensures a.x - vp.pos.x == c.x && a.w - vp.pos.y == c.w
    ensures (vp.pos.x + vp.size.x) - a.z == c.z && (vp.pos.y + vp.size.y) - a.y == c.y
    ensures a.z - a.x == vp.size.x - c.x - c.z
    ensures a.y - a.w == vp.size.y - c.y - c.w
  {
    Vec4(vp.pos.x + c.x,              // L
         vp.pos.y + vp.size.y - c.y,  // D
         vp.pos.x + vp.size.x - c.z,  // R
         vp.pos.y + c.w)              // U
  }

  /** The margins of an edited display area `a` in viewport `vp`: how far
      each edge sits inside the matching viewport edge. */
  function ConstraintFromDisplayArea(vp: Viewport, a: Vec4): (c: Vec4)
    ensures c.x + c.z == vp.size.x - (a.z - a.x)
    ensures c.y + c.w == vp.size.y - (a.y - a.w)
    ensures a.x == vp.pos.x + c.x && a.w == vp.pos.y + c.w
  {
    Vec4(a.x - vp.pos.x,              // L
         vp.pos.y + vp.size.y - a.y,  // D
         vp.pos.x + vp.size.x - a.z,  // R
         a.w - vp.pos.y)              // U
  }

  /** Margins survive a trip through the display area: an edit that leaves
      the rectangle alone leaves the margins alone. */
  lemma ConstraintRoundTrip(vp: Viewport, c: Vec4)
    ensures ConstraintFromDisplayArea(vp, DisplayArea(vp, c)) == c
  {
  }

  /** A display area survives a trip through the margins. */
  lemma DisplayAreaRoundTrip(vp: Viewport, a: Vec4)
    ensures DisplayArea(vp, ConstraintFromDisplayArea(vp, a)) == a
  {
  }

  /** On a 1920x1080 viewport at the origin the default margins give the
      area (80, 1000, 1840, 80). */
  lemma DefaultDisplayArea()
    ensures DisplayArea(Viewport(Vec2(0.0, 0.0), Vec2(1920.0, 1080.0)), Defaults().screenMarkConstraint)
            == Vec4(80.0, 1000.0, 1840.0, 80.0)
  {
  }

  /** After validation against the viewport's own size the display area is
      at least 20 pixels wide and high, whatever the margins were. */
  lemma ValidatedAreaIsWideEnough(vp: Viewport, c: Vec4)
    ensures var a := DisplayArea(vp, ValidatedConstraint(c, vp.size));
            a.z - a.x >= 20.0 && a.y - a.w >= 20.0
  {
  }

  // ---------------------------------------------------------------------
  // The marker clamp against the display area
  // ---------------------------------------------------------------------

  /** As written, the clamp takes its top bound from the R margin, so with
      R < U a marker can be placed above the display area's top edge. */
  lemma ClampEscapesDisplayAreaTop()
    ensures var vp := Viewport(Vec2(0.0, 0.0), Vec2(1920.0, 1080.0));
            var c := Vec4(80.0, 80.0, 10.0, 200.0);
            var r := UiHelper.ConstrainedScreenPos(vp, Vec2(500.0, 50.0), c, Vec2(0.0, 0.0));
            r.x == 500.0 && r.y == 50.0 && r.y < DisplayArea(vp, c).w
  {
  }

  /** With the top bound taken from the U margin, a clamped marker keeps
      `extra` away from every edge of the display area whenever that fits. */
  lemma IntendedClampStaysInDisplayArea(vp: Viewport, p: Vec2, c: Vec4, extra: Vec2)
    requires c.x + c.z + 2.0 * extra.x <= vp.size.x
    requires c.y + c.w + 2.0 * extra.y <= vp.size.y
    ensures var a := DisplayArea(vp, c);
            var r := UiHelper.ConstrainedScreenPosIntended(vp, p, c, extra);
            && a.x + extra.x <= r.x <= a.z - extra.x
            && a.w + extra.y <= r.y <= a.y - extra.y
  {
  }

  // ---------------------------------------------------------------------
  // The configuration window, once per frame
  // ---------------------------------------------------------------------

  /** A deferred overlay draw action. `PreviewMarker` stands for the dummy
      marker drawn with the current size scale. */
  datatype OverlayAction =
    | RectOutline(min: Vec2, max: Vec2, colour: Vec4, rounding: real, thickness: real)
    | PreviewMarker(sizeScale: real)

  function Red(): Vec4 { Vec4(1.0, 0.0, 0.0, 1.0) }

  /** The overlay's queue of actions for this frame. */
  class Overlay {
    var actions: seq<OverlayAction>

    constructor ()
      ensures actions == []
    {
      actions := [];
    }

    method AddDrawAction(a: OverlayAction)
      modifies this
      ensures actions == old(actions) + [a]
    {
      actions := actions + [a];
    }
  }

  /** The settings after the settings tab has stored the edited display
      area `edited` back as margins, which it does only while screen marks
      are shown. */
  function AfterSettingsTab(v: ConfigValues, vp: Viewport, edited: Vec4): (r: ConfigValues)
    ensures v.showScreenMark ==> DisplayArea(vp, r.screenMarkConstraint) == edited
    ensures !v.showScreenMark ==> r == v
    ensures r.(screenMarkConstraint := v.screenMarkConstraint) == v
  {
    if v.showScreenMark then v.(screenMarkConstraint := ConstraintFromDisplayArea(vp, edited)) else v
  }

  /** The settings after one frame of the window, before validation.
      `tab` is the settings tab's display-area widget value, or None when
      that tab was not drawn this frame. */
  function AfterWindow(v: ConfigValues, vp: Viewport, tab: Option<Vec4>): ConfigValues {
    if tab.Some? && v.enabled then AfterSettingsTab(v, vp, tab.value) else v
  }

  class ConfigWindow {
    /** Set by the plugin to bring the window to the front; cleared on the
        next frame. */
    var isFocus: bool

    constructor ()
      ensures !isFocus
    {
      isFocus := false;
    }

    /** The margin update at the end of the display-area widget. */
    static method DrawPluginSettingsTab(config: PluginConfig, vp: Viewport, edited: Vec4)
      modifies config
      ensures config.version == old(config.version)
      ensures config.Values() == AfterSettingsTab(old(config.Values()), vp, edited)
    {
      if config.showScreenMark {
        config.screenMarkConstraint := ConstraintFromDisplayArea(vp, edited);
      }
    }

    /** One frame: clear the focus request, let the settings tab store its
        edit, validate the settings against the viewport's size, then queue
        the red display-area outline from (L, U) to (R, D) and the preview
        marker. */
    method Draw(config: PluginConfig, overlay: Overlay, vp: Viewport, tab: Option<Vec4>)
      modifies this, config, overlay
      ensures !isFocus
      ensures config.version == old(config.version)
      ensures config.Values() == ValidatedValues(AfterWindow(old(config.Values()), vp, tab), vp.size)
      ensures var a := DisplayArea(vp, config.screenMarkConstraint);
              overlay.actions == old(overlay.actions)
                + [RectOutline(Vec2(a.x, a.w), Vec2(a.z, a.y), Red(), 0.0, 4.0),
                   PreviewMarker(config.screenMarkSizeScale)]
      ensures var a := DisplayArea(vp, config.screenMarkConstraint);
              a.z - a.x >= 20.0 && a.y - a.w >= 20.0
    {
      if isFocus {
        isFocus := false;
      }
      if tab.Some? && config.enabled {
        DrawPluginSettingsTab(config, vp, tab.value);
      }
      config.CheckValueValidity(vp.size);

      var displayArea := DisplayArea(vp, config.screenMarkConstraint);
      overlay.AddDrawAction(RectOutline(Vec2(displayArea.x, displayArea.w), Vec2(displayArea.z, displayArea.y),
                                        Red(), 0.0, 4.0));
      overlay.AddDrawAction(PreviewMarker(config.screenMarkSizeScale));
    }
  }
}
