/** The plugin's persisted settings: their defaults, the validity clamp run
    on every settings change, and loading from another settings object of
    the same version. */
module Configs {
  import opened Geometry

  const ScreenMarkSizeScaleMin: real := 0.1
  const ScreenMarkSizeScaleMax: real := 10.0
  /** Smallest margin on each side. */
  const ScreenMarkConstraintMin: real := 2.0

  /** Everything a settings object holds except its version. The margins
      are (L, D, R, U) = (x, y, z, w). */
  datatype ConfigValues = ConfigValues(
    enabled: bool,
    showScreenMark: bool,
    screenMarkSizeScale: real,
    screenMarkConstraint: Vec4,
    showDetailWindow: bool,
    hideDetailInContents: bool,
    hideInEvent: bool,
    hideWhenCraftGather: bool,
    notifyChat: bool,
    notifySe: bool,
    notifyToast: bool)

  function DefaultConstraint(): Vec4 { Vec4(80.0, 80.0, 80.0, 80.0) }

  function Defaults(): (d: ConfigValues)
    ensures !d.enabled && !d.showScreenMark && !d.showDetailWindow && !d.hideDetailInContents
    ensures !d.hideInEvent && !d.hideWhenCraftGather && !d.notifyChat && !d.notifySe && !d.notifyToast
  {
    ConfigValues(false, false, 1.0, DefaultConstraint(), false, false, false, false, false, false, false)
  }

  /** The size scale forced into [ScreenMarkSizeScaleMin, ScreenMarkSizeScaleMax]. */
  function ValidatedSizeScale(s: real): (r: real)
    ensures ScreenMarkSizeScaleMin <= r <= ScreenMarkSizeScaleMax
    ensures ScreenMarkSizeScaleMin <= s <= ScreenMarkSizeScaleMax ==> r == s
    ensures s < ScreenMarkSizeScaleMin ==> r == ScreenMarkSizeScaleMin
    ensures s > ScreenMarkSizeScaleMax ==> r == ScreenMarkSizeScaleMax
  {
    var a := if s < ScreenMarkSizeScaleMin then ScreenMarkSizeScaleMin else s;
    if a > ScreenMarkSizeScaleMax then ScreenMarkSizeScaleMax else a
  }

  /** One margin raised to the minimum and then capped at `hi`; the cap
      runs last, so it wins when `hi` is below the minimum. */
  function ValidatedMargin(v: real, hi: real): (r: real)
    ensures r <= hi
    ensures hi >= ScreenMarkConstraintMin ==> r >= ScreenMarkConstraintMin
    ensures ScreenMarkConstraintMin <= v <= hi ==> r == v
    ensures hi < ScreenMarkConstraintMin ==> r == hi
    ensures v < ScreenMarkConstraintMin <= hi ==> r == ScreenMarkConstraintMin
    ensures ScreenMarkConstraintMin <= hi < v ==> r == hi
  {
    var a := RaisedMargin(v);
    if a > hi then hi else a
  }

  /** One margin raised to the minimum. */
  function RaisedMargin(v: real): real {
    if v < ScreenMarkConstraintMin then ScreenMarkConstraintMin else v
  }

  /** The margins after the validity clamp; L and R are bounded by the
      screen's width, D and U by its height. */
  function ValidatedConstraint(c: Vec4, screenSize: Vec2): (r: Vec4)
    ensures r.x <= screenSize.x / 2.0 - 10.0 && r.z <= screenSize.x / 2.0 - 10.0
    ensures r.y <= screenSize.y / 2.0 - 10.0 && r.w <= screenSize.y / 2.0 - 10.0
    ensures screenSize.x / 2.0 - 10.0 >= ScreenMarkConstraintMin
            ==> r.x >= ScreenMarkConstraintMin && r.z >= ScreenMarkConstraintMin
    ensures screenSize.y / 2.0 - 10.0 >= ScreenMarkConstraintMin
            ==> r.y >= ScreenMarkConstraintMin && r.w >= ScreenMarkConstraintMin
    ensures ScreenMarkConstraintMin <= c.x <= screenSize.x / 2.0 - 10.0 ==> r.x == c.x
    ensures ScreenMarkConstraintMin <= c.y <= screenSize.y / 2.0 - 10.0 ==> r.y == c.y
    ensures ScreenMarkConstraintMin <= c.z <= screenSize.x / 2.0 - 10.0 ==> r.z == c.z
    ensures ScreenMarkConstraintMin <= c.w <= screenSize.y / 2.0 - 10.0 ==> r.w == c.w
  {
    var hiX := screenSize.x / 2.0 - 10.0;
    var hiY := screenSize.y / 2.0 - 10.0;
    Vec4(ValidatedMargin(c.x, hiX), ValidatedMargin(c.y, hiY),
         ValidatedMargin(c.z, hiX), ValidatedMargin(c.w, hiY))
  }

  /** All settings after the validity clamp: only the size scale and the
      margins can change. */
  function ValidatedValues(v: ConfigValues, screenSize: Vec2): (r: ConfigValues)
    ensures r.screenMarkSizeScale == ValidatedSizeScale(v.screenMarkSizeScale)
    ensures r.screenMarkConstraint == ValidatedConstraint(v.screenMarkConstraint, screenSize)
    ensures r.(screenMarkSizeScale := v.screenMarkSizeScale,
               screenMarkConstraint := v.screenMarkConstraint) == v
  {
    v.(screenMarkSizeScale := ValidatedSizeScale(v.screenMarkSizeScale),
       screenMarkConstraint := ValidatedConstraint(v.screenMarkConstraint, screenSize))
  }

  /** Validating twice is validating once, also when the cap is below the
      minimum margin. */
  lemma ValidatedValuesIdempotent(v: ConfigValues, screenSize: Vec2)
    ensures ValidatedValues(ValidatedValues(v, screenSize), screenSize) == ValidatedValues(v, screenSize)
  {
  }

  /** Margins of 1 on a large screen are all raised to 2. */
  lemma SmallMarginsRaised(screenSize: Vec2)
    requires screenSize.x >= 24.0 && screenSize.y >= 24.0
    ensures ValidatedConstraint(Vec4(1.0, 1.0, 1.0, 1.0), screenSize) == Vec4(2.0, 2.0, 2.0, 2.0)
  {
  }

  /** The defaults are already valid on any screen of at least 180 by 180
      pixels. */
  lemma DefaultsValidOnLargeScreen(screenSize: Vec2)
    requires screenSize.x >= 180.0 && screenSize.y >= 180.0
    ensures ValidatedValues(Defaults(), screenSize) == Defaults()
  {
  }

  /** The margin part of the validity check: the four raises to the
      minimum, then the four caps, each overwriting one component. */
  method ClampConstraint(constraint: Vec4, screenSize: Vec2) returns (c: Vec4)
    ensures c == ValidatedConstraint(constraint, screenSize)
  {
    c := constraint;
    if c.x < ScreenMarkConstraintMin { c := c.(x := ScreenMarkConstraintMin); }
    if c.y < ScreenMarkConstraintMin { c := c.(y := ScreenMarkConstraintMin); }
    if c.z < ScreenMarkConstraintMin { c := c.(z := ScreenMarkConstraintMin); }
    if c.w < ScreenMarkConstraintMin { c := c.(w := ScreenMarkConstraintMin); }
    if c.x > screenSize.x / 2.0 - 10.0 { c := c.(x := screenSize.x / 2.0 - 10.0); }
    if c.y > screenSize.y / 2.0 - 10.0 { c := c.(y := screenSize.y / 2.0 - 10.0); }
    if c.z > screenSize.x / 2.0 - 10.0 { c := c.(z := screenSize.x / 2.0 - 10.0); }
    if c.w > screenSize.y / 2.0 - 10.0 { c := c.(w := screenSize.y / 2.0 - 10.0); }
  }

  /** The settings object. Sub-compass settings are not part of this model. */
  class PluginConfig {
    var version: int
    var enabled: bool
    var showScreenMark: bool
    var screenMarkSizeScale: real
    var screenMarkConstraint: Vec4
    var showDetailWindow: bool
    var hideDetailInContents: bool
    var hideInEvent: bool
    var hideWhenCraftGather: bool
    var notifyChat: bool
    var notifySe: bool
    var notifyToast: bool

    /** The current settings, version aside. */
    function Values(): ConfigValues
      reads this
    {
      ConfigValues(enabled, showScreenMark, screenMarkSizeScale, screenMarkConstraint,
                   showDetailWindow, hideDetailInContents, hideInEvent, hideWhenCraftGather,
                   notifyChat, notifySe, notifyToast)
    }

    constructor ()
      ensures version == 0
      ensures Values() == Defaults()
      ensures screenMarkSizeScale == 1.0 && screenMarkConstraint == Vec4(80.0, 80.0, 80.0, 80.0)
    {
      version := 0;
      enabled := false;
      showScreenMark := false;
      screenMarkSizeScale := 1.0;
      screenMarkConstraint := Vec4(80.0, 80.0, 80.0, 80.0);
      showDetailWindow := false;
      hideDetailInContents := false;
      hideInEvent := false;
      hideWhenCraftGather := false;
      notifyChat := false;
      notifySe := false;
      notifyToast := false;
    }

    /** Clamps the size scale in place, then the margins, in the source's
        order. The margin vector is a value type, so its components are
        clamped in a copy that is stored back. */
    method CheckValueValidity(screenSize: Vec2)
      modifies this
      ensures version == old(version)
      ensures Values() == ValidatedValues(old(Values()), screenSize)
    {
      if screenMarkSizeScale < ScreenMarkSizeScaleMin { screenMarkSizeScale := ScreenMarkSizeScaleMin; }
      if screenMarkSizeScale > ScreenMarkSizeScaleMax { screenMarkSizeScale := ScreenMarkSizeScaleMax; }
      screenMarkConstraint := ClampConstraint(screenMarkConstraint, screenSize);
    }

    /** Copies every setting of `config` when both have the same version;
        otherwise nothing changes. The version itself is never copied. Each
        field is read before it is written and never written twice, so the
        settings are read once up front, which also covers `config == this`. */
    method Load(config: PluginConfig)
      modifies this
      ensures version == old(version)
      ensures Values() == if old(version) == old(config.version) then old(config.Values()) else old(Values())
    {
      if version == config.version {
        var src := config.Values();
        enabled := src.enabled;
        showScreenMark := src.showScreenMark;
        screenMarkSizeScale := src.screenMarkSizeScale;
        screenMarkConstraint := src.screenMarkConstraint;
        showDetailWindow := src.showDetailWindow;
        hideDetailInContents := src.hideDetailInContents;
        hideInEvent := src.hideInEvent;
        hideWhenCraftGather := src.hideWhenCraftGather;
        notifyChat := src.notifyChat;
        notifySe := src.notifySe;
        notifyToast := src.notifyToast;
      }
    }
  }
}
