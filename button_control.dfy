/** The exported push button (`ButtonControl`): a boolean `Value` whose changes raise
    `Click(old, new)`, five action behaviours deciding what mouse-down and mouse-up do, and the
    pressed-look targets computed from shadow values captured once. */
module Button {
  import opened Platform

  datatype Behavior =
    | SwitchWhenPressed
    | SwitchWhenReleased
    | SwitchUntilReleased
    | LatchWhenPressed
    | LatchWhenReleased

  /** One `Click` notification with its old and new value. */
  datatype ClickEvent = ClickEvent(oldValue: bool, newValue: bool)

  /** The two notifications of a latch: on, then off again. */
  const Pulse: seq<ClickEvent> := [ClickEvent(false, true), ClickEvent(true, false)]

  /** Depth, blur radius and opacity of the drop shadow. */
  datatype Shadow = Shadow(depth: real, blur: real, opacity: real)

  /** The values the `_defaultShadow*` fields start with: -1 means "not captured yet". */
  const Uncaptured: Shadow := Shadow(-1.0, -1.0, -1.0)

  /** What the pressed-look animations aim at: scale, translation and, when a shadow is
      animated at all, its depth, blur and opacity. */
  datatype Targets = Targets(scale: real, translate: real, shadow: Option<Shadow>)

  // ---------------------------------------------------------------- specification

  /** The state a handler leaves behind and the notifications it raised. */
  datatype Step = Step(value: bool, pressed: bool, clicks: seq<ClickEvent>)

  /** The `Value` setter: only a different value notifies. */
  function Assign(current: bool, v: bool): (clicks: seq<ClickEvent>)
    ensures |clicks| <= 1
    ensures clicks != [] <==> current != v
    ensures clicks != [] ==> clicks[0] == ClickEvent(current, v)
  {
    if current != v then [ClickEvent(current, v)] else []
  }

  /** Mouse-down: the button is pressed, then the behaviour acts on `Value`. */
  function Pressed(b: Behavior, value: bool): (r: Step)
    ensures r.pressed
    ensures r.value != value <==> b == SwitchWhenPressed || (b == SwitchUntilReleased && !value)
    ensures b.LatchWhenPressed? ==> r.clicks == Pulse
    ensures !b.LatchWhenPressed? ==> r.clicks == Assign(value, r.value)
  {
    match b
    case SwitchWhenPressed => Step(!value, true, Assign(value, !value))
    case SwitchUntilReleased => Step(true, true, Assign(value, true))
    case LatchWhenPressed => Step(value, true, Pulse)
    case _ => Step(value, true, [])
  }

  /** Mouse-up: nothing unless the button is pressed; then it is released and the behaviour
      acts on `Value`. */
  function Released(b: Behavior, value: bool, pressed: bool): (r: Step)
    ensures !r.pressed
    ensures !pressed ==> r.value == value && r.clicks == []
    ensures pressed ==> (r.value != value <==> b == SwitchWhenReleased || (b == SwitchUntilReleased && value))
    ensures pressed && b.LatchWhenReleased? ==> r.clicks == Pulse
    ensures !b.LatchWhenReleased? ==> r.clicks == Assign(value, r.value)
  {
    if !pressed then Step(value, false, [])
    else
      match b
      case SwitchWhenReleased => Step(!value, false, Assign(value, !value))
      case SwitchUntilReleased => Step(false, false, Assign(value, false))
      case LatchWhenReleased => Step(value, false, Pulse)
      case _ => Step(value, false, [])
  }

  /** `EnsureShadowInit`: the shadow's values are taken once, while the sentinel is in place
      and the shadow exists. */
  function Captured(defaults: Shadow, part: Option<Shadow>): (r: Shadow)
    ensures defaults.depth >= 0.0 || part.None? ==> r == defaults
    ensures defaults.depth < 0.0 && part.Some? ==> r == part.value
  {
    if defaults.depth < 0.0 && part.Some? then part.value else defaults
  }

  function Max(a: real, b: real): real {
    if a >= b then a else b
  }

  /** `UpdatePhysicalDepthState`'s targets: a button that is down shrinks to 95%, moves by at
      least one unit and flattens its shadow; one that is up returns to full size and the
      captured shadow. The shadow is animated only once real defaults were captured. */
  function DepthTargets(isDown: bool, defaults: Shadow, hasShadow: bool): (t: Targets)
    ensures isDown ==> t.scale == 0.95 && t.translate >= 1.0
    ensures !isDown ==> t.scale == 1.0 && t.translate == 0.0
    ensures t.shadow.Some? <==> hasShadow && defaults.depth >= 0.0
    ensures t.shadow.Some? && isDown ==>
      t.shadow.value.depth == 0.0 && t.shadow.value.blur >= 0.0 && t.shadow.value.opacity == defaults.opacity * 0.3
    ensures t.shadow.Some? && !isDown ==> t.shadow.value == defaults
  {
    var shadow :=
      if isDown then Shadow(0.0, Max(0.0, defaults.blur * 0.2), defaults.opacity * 0.3)
      else defaults;
    Targets(
      if isDown then 0.95 else 1.0,
      if isDown then Max(1.0, defaults.depth * 0.7) else 0.0,
      if hasShadow && defaults.depth >= 0.0 then Some(shadow) else None)
  }

  // ---------------------------------------------------------------- properties

  /** Every notification a handler raises reports a real change. */
  predicate AllChanges(clicks: seq<ClickEvent>) {
    forall i :: 0 <= i < |clicks| ==> clicks[i].oldValue != clicks[i].newValue
  }

  lemma HandlersReportChanges(b: Behavior, value: bool, pressed: bool)
    ensures AllChanges(Pressed(b, value).clicks)
    ensures AllChanges(Released(b, value, pressed).clicks)
  {
  }

  /** A full press-and-release. The switching modes change `Value` exactly once and report it
      once; "switch until released" always ends released and off; both latch modes leave
      `Value` as it was and raise exactly the on-off pulse. */
  lemma FullCycle(b: Behavior, value: bool)
    ensures var down := Pressed(b, value);
            var up := Released(b, down.value, down.pressed);
            var clicks := down.clicks + up.clicks;
            (b.SwitchWhenPressed? || b.SwitchWhenReleased? ==> up.value == !value && clicks == [ClickEvent(value, !value)])
            && (b.SwitchUntilReleased? ==> !up.value && clicks == (if value then [ClickEvent(true, false)] else [ClickEvent(false, true), ClickEvent(true, false)]))
            && (b.LatchWhenPressed? || b.LatchWhenReleased? ==> up.value == value && clicks == Pulse)
            && !up.pressed
  {
  }

  /** Leaving the button while it is held cancels the release: the later mouse-up does nothing. */
  lemma LeaveCancelsRelease(b: Behavior, value: bool)
    ensures var down := Pressed(b, value);
            Released(b, down.value, false) == Step(down.value, false, [])
  {
  }

  /** The captured shadow values stay put once real values were taken. */
  lemma CapturedOnce(defaults: Shadow, part: Option<Shadow>)
    requires part.None? || part.value.depth >= 0.0
    ensures Captured(Captured(defaults, part), part) == Captured(defaults, part)
  {
  }

  /** Pressing never deepens the look: with non-negative captured values the down shadow is no
      deeper, no more blurred and no more opaque than the up shadow, and releasing restores it. */
  lemma PressFlattens(defaults: Shadow)
    requires defaults.depth >= 0.0 && defaults.blur >= 0.0 && defaults.opacity >= 0.0
    ensures var down := DepthTargets(true, defaults, true).shadow.value;
            var up := DepthTargets(false, defaults, true).shadow.value;
            down.depth <= up.depth && down.blur <= up.blur && down.opacity <= up.opacity
            && up == defaults
  {
  }

  // ---------------------------------------------------------------- the control

  class ButtonControl {
    var behavior: Behavior
    var value: bool
    var pressed: bool
    /** The `Click` notifications raised so far, in order. */
    var clicks: seq<ClickEvent>
    /** The drop shadow of the template, if it has one. */
    const partShadow: Option<Shadow>
    var defaults: Shadow
    /** The targets of the last pressed-look animation started. */
    var shown: Targets
    /** The target opacity of the "on" overlay. */
    var overlay: real

    /** Every notification reports a real change, and the "on" overlay shows `Value`. */
    predicate Valid()
      reads this
    {
      AllChanges(clicks) && overlay == (if value then 1.0 else 0.0)
    }

    /** A new button: released, off, switching on release, no shadow values captured. */
    constructor (shadow: Option<Shadow>)
      ensures behavior == SwitchWhenReleased && !value && !pressed && clicks == []
      ensures partShadow == shadow && defaults == Uncaptured
      ensures Valid()
    {
      behavior := SwitchWhenReleased;
      value := false;
      pressed := false;
      clicks := [];
      partShadow := shadow;
      defaults := Uncaptured;
      shown := Targets(1.0, 0.0, None);
      overlay := 0.0;
    }

    /** `UpdatePhysicalDepthState`, including the capture of the shadow's values. */
    method UpdatePhysicalDepthState()
      modifies this
      ensures defaults == Captured(old(defaults), partShadow)
      ensures shown == DepthTargets(pressed || value, defaults, partShadow.Some?)
      ensures behavior == old(behavior) && value == old(value) && pressed == old(pressed)
      ensures clicks == old(clicks) && overlay == old(overlay)
    {
      if defaults.depth < 0.0 && partShadow.Some? {
        defaults := partShadow.value;
      }
      var isDown := pressed || value;
      var targetScale := if isDown then 0.95 else 1.0;
      var targetTrans := if isDown then Max(1.0, defaults.depth * 0.7) else 0.0;
      var targetDepth := if isDown then 0.0 else defaults.depth;
      var targetBlur := if isDown then Max(0.0, defaults.blur * 0.2) else defaults.blur;
      var targetOpacity := if isDown then defaults.opacity * 0.3 else defaults.opacity;
      var shadow := None;
      if partShadow.Some? && defaults.depth >= 0.0 {
        shadow := Some(Shadow(targetDepth, targetBlur, targetOpacity));
      }
      shown := Targets(targetScale, targetTrans, shadow);
    }

    /** The `Value` setter: a different value is stored, shown and reported once. */
    method SetValue(v: bool)
      requires Valid()
      modifies this
      ensures Valid()
      ensures value == v && clicks == old(clicks) + Assign(old(value), v)
      ensures behavior == old(behavior) && pressed == old(pressed)
      ensures old(value) == v ==> defaults == old(defaults) && shown == old(shown) && overlay == old(overlay)
      ensures old(value) != v ==>
        (defaults == Captured(old(defaults), partShadow)
         && shown == DepthTargets(pressed || value, defaults, partShadow.Some?)
         && overlay == (if v then 1.0 else 0.0))
    {
      if value != v {
        var previous := value;
        value := v;
        overlay := if v then 1.0 else 0.0;
        UpdatePhysicalDepthState();
        clicks := clicks + [ClickEvent(previous, v)];
      }
    }

    /** The left button goes down on the control. */
    method MouseLeftButtonDown()
      requires Valid()
      modifies this
      ensures Valid()
      ensures value == Pressed(behavior, old(value)).value && pressed
      ensures clicks == old(clicks) + Pressed(behavior, old(value)).clicks
      ensures behavior == old(behavior)
      ensures defaults == Captured(old(defaults), partShadow)
      ensures shown == DepthTargets(true, defaults, partShadow.Some?)
      ensures overlay == (if value then 1.0 else 0.0)
    {
      pressed := true;
      UpdatePhysicalDepthState();
      match behavior {
        case SwitchWhenPressed => SetValue(!value);
        case SwitchUntilReleased => SetValue(true);
        case LatchWhenPressed => clicks := clicks + Pulse;
        case _ =>
      }
    }

    /** The left button comes up: acts only if the press began on this control. */
    method MouseLeftButtonUp()
      requires Valid()
      modifies this
      ensures Valid()
      ensures value == Released(behavior, old(value), old(pressed)).value && !pressed
      ensures clicks == old(clicks) + Released(behavior, old(value), old(pressed)).clicks
      ensures behavior == old(behavior)
      ensures !old(pressed) ==> defaults == old(defaults) && shown == old(shown)
      ensures old(pressed) ==>
        (defaults == Captured(old(defaults), partShadow)
         && shown == DepthTargets(value, defaults, partShadow.Some?))
      ensures overlay == (if value then 1.0 else 0.0)
    {
      if pressed {
        pressed := false;
        UpdatePhysicalDepthState();
        match behavior {
          case SwitchWhenReleased => SetValue(!value);
          case SwitchUntilReleased => SetValue(false);
          case LatchWhenReleased => clicks := clicks + Pulse;
          case _ =>
        }
      }
    }

    /** The mouse leaves the control: a press in progress is dropped without acting. */
    method MouseLeave()
      requires Valid()
      modifies this
      ensures Valid()
      ensures !pressed && value == old(value) && clicks == old(clicks) && behavior == old(behavior)
      ensures overlay == old(overlay)
      ensures !old(pressed) ==> defaults == old(defaults) && shown == old(shown)
      ensures old(pressed) ==>
        (defaults == Captured(old(defaults), partShadow)
         && shown == DepthTargets(value, defaults, partShadow.Some?))
    {
      if pressed {
        pressed := false;
        UpdatePhysicalDepthState();
      }
    }
  }

  /** A press and a release on a fresh button switch it on and report that one change. */
  method DefaultClick(shadow: Option<Shadow>) returns (button: ButtonControl)
    ensures button.value && !button.pressed && button.clicks == [ClickEvent(false, true)]
  {
    button := new ButtonControl(shadow);
    button.MouseLeftButtonDown();
    button.MouseLeftButtonUp();
  }
}
