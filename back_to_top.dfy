/**
 * The back-to-top coin: its right offset from the viewport width, its visibility
 * from the scroll position, the renderer size on resize, the keyboard trigger,
 * and the hover rotation that handlers set and the frame loop follows.
 *
 * Rotations are reals; π is the double-precision value of `Math.PI`. The
 * graphics scene, the tweens and `Math.sin` of the clock are inputs.
 */
module BackToTop3D {
  import opened Wrappers
  import opened Translations
  import opened LanguageContext

  const Pi: real := 3.141592653589793
  /** The page container's maximum width (`--max-w-container`). */
  const MaxContainerWidth: int := 1440
  const VisibilityThreshold: real := 300.0
  const LerpFactor: real := 0.1
  /** The renderer's size when the scene is mounted. */
  const MountSize: int := 200

  // ---------------------------------------------------------------------------
  // Right offset
  // ---------------------------------------------------------------------------

  /** The container's horizontal padding at a viewport width: one value per breakpoint. */
  function Padding(width: int): (padding: int)
    ensures padding in {5, 10, 20, 30, 50}
    ensures padding == 50 <==> width >= 1280
    ensures padding == 5 <==> width < 640
  {
    if width >= 1280 then 50
    else if width >= 1024 then 30
    else if width >= 768 then 20
    else if width >= 640 then 10
    else 5
  }

  /** A wider viewport never has a narrower padding. */
  lemma {:induction false} PaddingMonotone(a: int, b: int)
    requires a <= b
    ensures Padding(a) <= Padding(b)
  {
  }

  /**
   * `calculateRightOffset`: the padding while the viewport is no wider than the
   * container; beyond that, half the spare width plus the padding.
   */
  function RightOffset(width: int): (offset: real)
    ensures offset >= 5.0
    ensures width <= MaxContainerWidth ==> offset == Padding(width) as real
    ensures width > MaxContainerWidth ==> offset > Padding(width) as real
  {
    if width > MaxContainerWidth then (width - MaxContainerWidth) as real / 2.0 + Padding(width) as real
    else Padding(width) as real
  }

  /** A wider viewport never moves the coin closer to the right edge. */
  lemma {:induction false} RightOffsetMonotone(a: int, b: int)
    requires a <= b
    ensures RightOffset(a) <= RightOffset(b)
  {
    PaddingMonotone(a, b);
  }

  /**
   * No jump at the container width: past 1440 px the offset grows from its value
   * at 1440 by exactly half the extra width.
   */
  lemma {:induction false} RightOffsetContinuousAtMaxWidth(width: int)
    requires width >= MaxContainerWidth
    ensures RightOffset(width) - RightOffset(MaxContainerWidth) == (width - MaxContainerWidth) as real / 2.0
  {
    assert Padding(width) == 50 && Padding(MaxContainerWidth) == 50;
  }

  // ---------------------------------------------------------------------------
  // Scroll, resize and keyboard
  // ---------------------------------------------------------------------------

  /** `window.scrollY || window.pageYOffset` */
  function ScrollPosition(scrollY: real, pageYOffset: real): (y: real)
    ensures scrollY != 0.0 ==> y == scrollY
    ensures scrollY == 0.0 ==> y == pageYOffset
  {
    if scrollY != 0.0 then scrollY else pageYOffset
  }

  /** The renderer's side length after a resize: 200 px from 1024 px wide, else 160 px. */
  function ResizedRendererSize(width: int): (size: int)
    ensures size in {160, 200}
    ensures size == 200 <==> width >= 1024
  {
    if width >= 1024 then 200 else 160
  }

  /** Enter and Space act like a click; every other key is ignored. */
  predicate ActivatesOnKey(key: string)
  {
    key == "Enter" || key == " "
  }

  // ---------------------------------------------------------------------------
  // Hover rotation
  // ---------------------------------------------------------------------------

  /** The pointer's horizontal position across the coin's box, from -1 at the left edge to 1 at the right. */
  function PointerX(clientX: real, left: real, width: real): (x: real)
    requires width > 0.0
    ensures left <= clientX <= left + width ==> -1.0 <= x <= 1.0
    ensures clientX == left ==> x == -1.0
    ensures clientX == left + width ==> x == 1.0
  {
    ((clientX - left) / width - 0.5) * 2.0
  }

  /** A pointer inside the box asks for a rotation within half a turn either way. */
  lemma {:induction false} HoverTargetWithinHalfTurn(clientX: real, left: real, width: real)
    requires width > 0.0 && left <= clientX <= left + width
    ensures -Pi <= PointerX(clientX, left, width) * Pi <= Pi
  {
    var x := PointerX(clientX, left, width);
    assert -1.0 <= x <= 1.0;
    assert x * Pi <= 1.0 * Pi;
    assert -1.0 * Pi <= x * Pi;
  }

  /** One hovering frame: the current angle moves a tenth of the way to the target. */
  function Lerp(current: real, target: real): (next: real)
    ensures target - next == 0.9 * (target - current)
  {
    current + (target - current) * LerpFactor
  }

  function Pow(base: real, n: nat): (power: real)
  {
    if n == 0 then 1.0 else base * Pow(base, n - 1)
  }

  /** The angle after `n` hovering frames toward a fixed target. */
  function Hovered(current: real, target: real, n: nat): (angle: real)
    decreases n
  {
    if n == 0 then current else Hovered(Lerp(current, target), target, n - 1)
  }

  /** After `n` hovering frames the remaining gap is 0.9^n of the original one. */
  lemma {:induction false} HoverGapShrinks(current: real, target: real, n: nat)
    ensures target - Hovered(current, target, n) == Pow(0.9, n) * (target - current)
    decreases n
  {
    if n > 0 {
      var next := Lerp(current, target);
      var gap, p := target - current, Pow(0.9, n - 1);
      HoverGapShrinks(next, target, n - 1);
      calc {
        target - Hovered(current, target, n);
        target - Hovered(next, target, n - 1);
        p * (target - next);
        p * (0.9 * gap);
        (0.9 * p) * gap;
        Pow(0.9, n) * gap;
      }
    }
  }

  lemma {:induction false} PowBetweenZeroAndOne(n: nat)
    ensures 0.0 < Pow(0.9, n) <= 1.0
  {
    if n > 0 {
      PowBetweenZeroAndOne(n - 1);
    }
  }

  /** Hovering never overshoots: the gap keeps its sign and never grows. */
  lemma {:induction false} HoverNeverOvershoots(current: real, target: real, n: nat)
    ensures current <= target ==> current <= Hovered(current, target, n) <= target
    ensures target <= current ==> target <= Hovered(current, target, n) <= current
  {
    HoverGapShrinks(current, target, n);
    PowBetweenZeroAndOne(n);
    var p := Pow(0.9, n);
    var g := target - current;
    assert Hovered(current, target, n) == target - p * g;
    if g >= 0.0 {
      assert p * g <= 1.0 * g;
      assert 0.0 <= p * g;
    } else {
      assert 1.0 * g <= p * g;
      assert p * g <= 0.0;
    }
  }

  datatype Rotation = Rotation(x: real, y: real, z: real)

  /** The coin facing the viewer. */
  const FaceForward: Rotation := Rotation(-Pi / 2.0, 0.0, 0.0)

  /**
   * The component's state: visibility (the React state and the ref the frame
   * loop reads), the right offset, the renderer size, the hover refs, the coin's
   * rotation and the last scroll request.
   */
  class BackToTop {
    var isVisible: bool
    var isVisibleRef: bool
    var rightOffset: real
    var rendererSize: int
    var isHovering: bool
    var targetZ: real
    var currentZ: real
    var coin: Rotation
    var scrollRequest: Option<real>

    /** The ref always mirrors the state, and the renderer has one of its two sizes. */
    ghost predicate Valid()
      reads this
    {
      isVisibleRef == isVisible && rendererSize in {160, 200}
    }

    /**
     * The coin's angle about z, the current hover angle and the target all stay
     * within half a turn either way.
     */
    ghost predicate WithinHalfTurn()
      reads this
    {
      -Pi <= coin.z <= Pi && -Pi <= currentZ <= Pi && -Pi <= targetZ <= Pi
    }

    /** Mount at a given viewport width: hidden, offset computed, coin face forward, size 200. */
    constructor Mount(width: int)
      ensures Valid() && WithinHalfTurn()
      ensures !isVisible && !isHovering
      ensures rightOffset == RightOffset(width) && rendererSize == MountSize
      ensures targetZ == 0.0 && currentZ == 0.0 && coin == FaceForward
      ensures scrollRequest == None
    {
      isVisible, isVisibleRef := false, false;
      rightOffset := RightOffset(width);
      rendererSize := MountSize;
      isHovering := false;
      targetZ, currentZ := 0.0, 0.0;
      coin := FaceForward;
      scrollRequest := None;
    }

    /**
     * The scene effect running again after a theme change: a new renderer at
     * 200 px, the coin face forward, and both hover angles back to zero.
     */
    method RebuildScene()
      requires Valid()
      modifies this`rendererSize, this`coin, this`currentZ, this`targetZ
      ensures Valid() && WithinHalfTurn()
      ensures rendererSize == MountSize && coin == FaceForward
      ensures currentZ == 0.0 && targetZ == 0.0
    {
      rendererSize := MountSize;
      coin := FaceForward;
      currentZ, targetZ := 0.0, 0.0;
    }

    /** The two resize listeners: the offset always, the renderer size only once the scene exists. */
    method OnWindowResize(width: int, sceneReady: bool)
      requires Valid()
      modifies this
      ensures Valid()
      ensures rightOffset == RightOffset(width)
      ensures rendererSize == if sceneReady then ResizedRendererSize(width) else old(rendererSize)
      ensures isVisible == old(isVisible) && isHovering == old(isHovering)
      ensures targetZ == old(targetZ) && currentZ == old(currentZ) && coin == old(coin)
      ensures scrollRequest == old(scrollRequest)
    {
      rightOffset := RightOffset(width);
      if sceneReady {
        rendererSize := ResizedRendererSize(width);
      }
    }

    /** `handleScroll`: visible exactly when the page is scrolled past 300 px. */
    method HandleScroll(scrollY: real, pageYOffset: real)
      requires Valid()
      modifies this`isVisible, this`isVisibleRef
      ensures Valid()
      ensures isVisible <==> ScrollPosition(scrollY, pageYOffset) > VisibilityThreshold
    {
      var visible := ScrollPosition(scrollY, pageYOffset) > VisibilityThreshold;
      isVisible := visible;
      isVisibleRef := visible;
    }

    /** `handleMouseMove`: hovering, with the target angle following the pointer. */
    method HandleMouseMove(containerPresent: bool, clientX: real, left: real, width: real)
      requires Valid() && width > 0.0
      modifies this`isHovering, this`targetZ
      ensures Valid()
      ensures containerPresent ==> isHovering && targetZ == PointerX(clientX, left, width) * Pi
      ensures !containerPresent ==> isHovering == old(isHovering) && targetZ == old(targetZ)
      ensures old(WithinHalfTurn()) && left <= clientX <= left + width ==> WithinHalfTurn()
    {
      if containerPresent {
        if left <= clientX <= left + width {
          HoverTargetWithinHalfTurn(clientX, left, width);
        }
        isHovering := true;
        targetZ := PointerX(clientX, left, width) * Pi;
      }
    }

    /** `handleMouseLeave`: not hovering, target angle back to zero. */
    method HandleMouseLeave()
      requires Valid()
      modifies this`isHovering, this`targetZ
      ensures Valid()
      ensures !isHovering && targetZ == 0.0
      ensures old(WithinHalfTurn()) ==> WithinHalfTurn()
    {
      isHovering := false;
      targetZ := 0.0;
    }

    /**
     * One animation frame. Visible and idle: the coin swings with the clock
     * (`sinOfTime` is `Math.sin` of it). Hovering: the current angle moves a
     * tenth of the way to the target and the coin shows it. Otherwise nothing moves.
     */
    method AnimateFrame(sceneReady: bool, sinOfTime: real)
      requires Valid()
      modifies this`currentZ, this`coin
      ensures Valid()
      ensures sceneReady && !isHovering && isVisible ==>
                coin == Rotation(-Pi / 2.0, 0.0, sinOfTime * Pi) && currentZ == old(currentZ)
      ensures sceneReady && isHovering ==>
                currentZ == Lerp(old(currentZ), targetZ) && coin == Rotation(-Pi / 2.0, 0.0, currentZ)
      ensures !sceneReady || (!isHovering && !isVisible) ==>
                coin == old(coin) && currentZ == old(currentZ)
      ensures old(WithinHalfTurn()) && -1.0 <= sinOfTime <= 1.0 ==> WithinHalfTurn()
    {
      if sceneReady {
        if !isHovering && isVisibleRef {
          coin := Rotation(-Pi / 2.0, 0.0, sinOfTime * Pi);
          assert -1.0 <= sinOfTime <= 1.0 ==> -1.0 * Pi <= sinOfTime * Pi <= 1.0 * Pi;
        } else if isHovering {
          currentZ := currentZ + (targetZ - currentZ) * LerpFactor;
          coin := Rotation(-Pi / 2.0, 0.0, currentZ);
        }
      }
    }

    /** `handleClick`: ask the window to scroll to the top. */
    method HandleClick()
      requires Valid()
      modifies this`scrollRequest
      ensures Valid()
      ensures scrollRequest == Some(0.0)
    {
      scrollRequest := Some(0.0);
    }

    /** The key handler: Enter and Space click, other keys change nothing. */
    method HandleKeyDown(key: string)
      requires Valid()
      modifies this`scrollRequest
      ensures Valid()
      ensures ActivatesOnKey(key) ==> scrollRequest == Some(0.0)
      ensures !ActivatesOnKey(key) ==> scrollRequest == old(scrollRequest)
    {
      if key == "Enter" || key == " " {
        HandleClick();
      }
    }
  }

  /** The container's class list: the hidden modifier exactly while the coin is not visible. */
  function ContainerClass(visible: bool): (classes: string)
    ensures Strings.StartsWith(classes, "back-to-top-3d ")
    ensures visible ==> classes == "back-to-top-3d "
    ensures !visible ==> classes == "back-to-top-3d back-to-top-3d--hidden"
  {
    "back-to-top-3d " + (if !visible then "back-to-top-3d--hidden" else "")
  }

  /** Pointer events reach the coin exactly while it is visible. */
  function PointerEvents(visible: bool): (value: string)
    ensures value == "auto" <==> visible
    ensures value in {"auto", "none"}
  {
    if visible then "auto" else "none"
  }

  /**
   * The aria label and title, `t('backToTop.label')`: the table has no
   * `backToTop` section, so both languages show the key itself.
   */
  function Label(language: string): (text: JsValue)
    ensures text == Str("backToTop.label")
  {
    BackToTopKeyFallsBack(language);
    Translate(Table, language, "backToTop.label")
  }
}
