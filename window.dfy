/**
 The application window (vulkanTest/Application/Window/Window.cpp): the size
 and centring arithmetic of Window::Init, the fields Init and Exit write, and
 the rules by which the window procedure forwards keyboard, mouse and touch
 messages to the Input collaborator. Every Win32 call is replaced by the
 answer it gives, passed in as a value.
 */
module WindowSystem {
  import opened Common

  // ---------------------------------------------------------------------
  // Geometry
  // ---------------------------------------------------------------------

  /** Settings::window_width and Settings::window_height. */
  const WindowWidth: int := 640
  const WindowHeight: int := 480

  /** A Win32 RECT. */
  datatype Rect = Rect(left: int, top: int, right: int, bottom: int)

  /** The client rect Init starts from: the configured size at the origin. */
  const InitialClientRect: Rect := Rect(0, 0, WindowWidth, WindowHeight)

  /**
   The border thicknesses that AdjustWindowRectEx adds around a client rect
   for the window's style (caption, menu and sizing frame).
   */
  datatype Frame = Frame(left: nat, top: nat, right: nat, bottom: nat)

  /** The rect AdjustWindowRectEx produces: the client rect grown by the frame. */
  function Adjust(client: Rect, frame: Frame): Rect
  {
    Rect(client.left - frame.left, client.top - frame.top,
         client.right + frame.right, client.bottom + frame.bottom)
  }

  /** Position and size handed to CreateWindowExA. */
  datatype Placement = Placement(x: int, y: int, width: int, height: int)

  /**
   The offset along one axis at which Init places a window of `size` whose
   adjusted rect ends at `windowEnd` on a desktop that ends at `desktopEnd`:
   0 when the desktop ends before the window rect does, otherwise half of the
   free space, halved with C's truncating division. The two margins then
   differ by at most one pixel, and the odd pixel lies on the side away from
   zero.
   */
  function CentreOffset(desktopEnd: int, windowEnd: int, size: int): (c: int)
    ensures desktopEnd < windowEnd ==> c == 0
    ensures desktopEnd >= windowEnd && desktopEnd - size >= 0 ==>
      0 <= (desktopEnd - c - size) - c <= 1
    ensures desktopEnd >= windowEnd && desktopEnd - size < 0 ==>
      -1 <= (desktopEnd - c - size) - c <= 0
  {
    if desktopEnd < windowEnd then 0 else TruncDiv(desktopEnd - size, 2)
  }

  /** Window size and centred position computed from the adjusted and desktop rects. */
  function WindowPlacement(adjusted: Rect, desktop: Rect): Placement
  {
    var width := adjusted.right - adjusted.left;
    var height := adjusted.bottom - adjusted.top;
    Placement(CentreOffset(desktop.right, adjusted.right, width),
              CentreOffset(desktop.bottom, adjusted.bottom, height),
              width, height)
  }

  /**
   For the configured client rect, the window is the client area plus the
   frame, and it is centred on the desktop (within one pixel) unless the
   desktop ends before the adjusted rect, in which case it sits at 0.
   */
  lemma InitialPlacement(frame: Frame, desktop: Rect)
    ensures var p := WindowPlacement(Adjust(InitialClientRect, frame), desktop);
      && p.width == WindowWidth + frame.left + frame.right
      && p.height == WindowHeight + frame.top + frame.bottom
      && (desktop.right < WindowWidth + frame.right ==> p.x == 0)
      && (desktop.bottom < WindowHeight + frame.bottom ==> p.y == 0)
      && (desktop.right >= WindowWidth + frame.right ==> -1 <= (desktop.right - p.x - p.width) - p.x <= 1)
      && (desktop.bottom >= WindowHeight + frame.bottom ==> -1 <= (desktop.bottom - p.y - p.height) - p.y <= 1)
  {
  }

  // ---------------------------------------------------------------------
  // The window object
  // ---------------------------------------------------------------------

  /** NID_MULTI_INPUT, the bit of GetSystemMetrics(SM_DIGITIZER) for multi-touch. */
  const NidMultiInput: bv32 := 0x40

  /** What the Win32 calls made by Init answer. */
  datatype Win32Env = Win32Env(
    moduleInstance: Handle,   // GetModuleHandleA(nullptr)
    frame: Frame,             // what AdjustWindowRectEx adds
    desktop: Rect,            // GetWindowRect(GetDesktopWindow())
    createdWindow: Handle,    // CreateWindowExA, NullHandle on failure
    digitizer: bv32,          // GetSystemMetrics(SM_DIGITIZER)
    rawMouseOk: bool)         // RegisterRawInputDevices for the mouse

  class Window {
    var instance: Handle
    var windowHandle: Handle
    var screenWidth: int
    var screenHeight: int
    var multiTouchEnable: bool

    // What Init and Exit have asked of the OS; `created` is the placement of
    // the window that exists, None while there is none.
    var classRegistered: bool
    var created: Option<Placement>
    var touchRegistered: bool
    var rawMouseRegistered: bool
    var visible: bool
    var quitPosted: bool

    /** The implementation object is value-initialised: every field starts zero. */
    constructor()
      ensures instance == NullHandle && windowHandle == NullHandle
      ensures screenWidth == 0 && screenHeight == 0 && !multiTouchEnable
      ensures !classRegistered && created == None && !touchRegistered
      ensures !rawMouseRegistered && !visible && !quitPosted
    {
      instance, windowHandle := NullHandle, NullHandle;
      screenWidth, screenHeight := 0, 0;
      multiTouchEnable := false;
      classRegistered, created, touchRegistered := false, None, false;
      rawMouseRegistered, visible, quitPosted := false, false, false;
    }

    function GetWindowInstance(): (h: Handle)
      reads this
      ensures h == instance
    {
      instance
    }

    function GetWindowHandle(): (h: Handle)
      reads this
      ensures h == windowHandle
    {
      windowHandle
    }

    /**
     Registers the window class, sizes and centres the window, creates it and,
     when creation succeeded, registers touch and raw mouse input and shows it.
     A null window handle posts a quit message and fails.
     */
    method Init(env: Win32Env) returns (ok: bool)
      modifies this
      ensures instance == env.moduleInstance && classRegistered
      ensures var p := WindowPlacement(Adjust(InitialClientRect, env.frame), env.desktop);
        && screenWidth == p.width && screenHeight == p.height
        && created == (if env.createdWindow == NullHandle then None else Some(p))
      ensures windowHandle == env.createdWindow
      ensures ok <==> env.createdWindow != NullHandle
      ensures !ok ==>
        && quitPosted
        && multiTouchEnable == old(multiTouchEnable) && touchRegistered == old(touchRegistered)
        && rawMouseRegistered == old(rawMouseRegistered) && visible == old(visible)
      ensures ok ==>
        && quitPosted == old(quitPosted)
        && (env.digitizer & NidMultiInput != 0 ==> multiTouchEnable && touchRegistered)
        && (env.digitizer & NidMultiInput == 0 ==>
              multiTouchEnable == old(multiTouchEnable) && touchRegistered == old(touchRegistered))
        && rawMouseRegistered == env.rawMouseOk
        && visible
    {
      instance := env.moduleInstance;
      classRegistered := true;

      var windowRect := Adjust(InitialClientRect, env.frame);
      screenWidth := windowRect.right - windowRect.left;
      screenHeight := windowRect.bottom - windowRect.top;

      var desktopRect := env.desktop;
      var x := if desktopRect.right < windowRect.right then 0 else TruncDiv(desktopRect.right - screenWidth, 2);
      var y := if desktopRect.bottom < windowRect.bottom then 0 else TruncDiv(desktopRect.bottom - screenHeight, 2);

      windowHandle := env.createdWindow;

      if windowHandle == NullHandle {
        created := None;
        quitPosted := true;
        return false;
      }
      created := Some(Placement(x, y, screenWidth, screenHeight));

      InitRawInputDevices(env.digitizer, env.rawMouseOk);
      visible := true;
      return true;
    }

    /**
     Registers the window for touch input when the digitizer reports
     multi-touch, and registers the mouse for raw input; a failed mouse
     registration is only reported.
     */
    method InitRawInputDevices(digitizer: bv32, rawMouseOk: bool)
      modifies this`multiTouchEnable, this`touchRegistered, this`rawMouseRegistered
      ensures digitizer & NidMultiInput != 0 ==> multiTouchEnable && touchRegistered
      ensures digitizer & NidMultiInput == 0 ==>
        multiTouchEnable == old(multiTouchEnable) && touchRegistered == old(touchRegistered)
      ensures rawMouseRegistered == rawMouseOk
    {
      if digitizer & NidMultiInput != 0 {
        touchRegistered := true;
        multiTouchEnable := true;
      }
      rawMouseRegistered := rawMouseOk;
    }

    /** Destroys the window, unregisters the class and clears both handles. */
    method Exit()
      modifies this`windowHandle, this`instance, this`classRegistered, this`visible, this`created
      ensures windowHandle == NullHandle && instance == NullHandle
      ensures GetWindowHandle() == NullHandle && GetWindowInstance() == NullHandle
      ensures created == None && !visible
      ensures !classRegistered
    {
      created, visible := None, false;
      windowHandle := NullHandle;
      classRegistered := false;
      instance := NullHandle;
    }
  }

  // ---------------------------------------------------------------------
  // The window procedure
  // ---------------------------------------------------------------------

  /** The calls the window procedure makes on Input and on the OS. */
  datatype Effect =
    | KeyDown(code: nat)
    | KeyUp(code: nat)
    | UpdateMousePos(dx: int, dy: int, buttonData: nat)
    | UpdateTouchPos(x: int, y: int, index: nat, flags: bv32)
    | CaptureMouse
    | PostQuit

  datatype MouseButton = LeftButton | MiddleButton | RightButton

  /** The part of a RAWINPUT record the procedure reads. */
  datatype RawInput = RawInput(dwType: nat, usFlags: nat, lastX: int, lastY: int, buttonData: nat)

  /** RIM_TYPEMOUSE and MOUSE_MOVE_RELATIVE. */
  const RimTypeMouse: nat := 0
  const MouseMoveRelative: nat := 0

  /** A TOUCHINPUT record: screen coordinates in hundredths of a pixel. */
  datatype TouchInput = TouchInput(x: int, y: int, flags: bv32)

  datatype Point = Point(x: int, y: int)

  /** The messages the procedure distinguishes; every other one is WmOther. */
  datatype Message =
    | WmCreate
    | WmClose
    | WmKeyDown(wParam: nat)
    | WmKeyUp(wParam: nat)
    | WmButtonDown(button: MouseButton, wParam: nat)
    | WmButtonUp(button: MouseButton, wParam: nat)
    | WmInput(raw: RawInput)
    | WmTouch(wParam: nat, touches: seq<TouchInput>)
    | WmOther(id: nat)

  /**
   The answers the procedure gets while handling one message: from Input
   (mouse capture, whether F1 was just triggered, Input::max_touchcount),
   from the user (the quit prompt) and from ScreenToClient (the client
   area's origin in screen pixels).
   */
  datatype Context = Context(
    mouseCaptured: bool,
    f1Triggered: bool,
    quitConfirmed: bool,
    maxTouchCount: int,
    clientOrigin: Point)

  /** Whether the procedure returned 0 itself or passed the message to DefWindowProcA. */
  datatype Outcome = Handled | PassedToDefault

  function LoWord(w: nat): nat
  {
    w % 0x1_0000
  }

  /** TOUCH_COORD_TO_PIXEL followed by ScreenToClient. */
  function TouchToClient(t: TouchInput, origin: Point): Point
  {
    Point(TruncDiv(t.x, 100) - origin.x, TruncDiv(t.y, 100) - origin.y)
  }

  /** The update the touch loop sends for the i-th touch point. */
  function TouchUpdate(touches: seq<TouchInput>, i: nat, origin: Point): Effect
    requires i < |touches|
  {
    var pt := TouchToClient(touches[i], origin);
    UpdateTouchPos(pt.x, pt.y, i, touches[i].flags)
  }

  /** How many touch points get forwarded: the reported count, capped by Input::max_touchcount. */
  function TouchCount(inputNum: nat, maxTouchCount: int): (n: nat)
    ensures n <= inputNum && n <= if maxTouchCount < 0 then 0 else maxTouchCount
    ensures n == inputNum || n == maxTouchCount || (n == 0 && maxTouchCount < 0)
  {
    if maxTouchCount <= 0 then 0
    else if inputNum <= maxTouchCount then inputNum
    else maxTouchCount
  }

  predicate IsRelativeMouseMove(raw: RawInput)
  {
    raw.dwType == RimTypeMouse && raw.usFlags == MouseMoveRelative
  }

  /**
   The WM_TOUCH loop: the first min(inputNum, maxTouchCount) touch points,
   in order, each converted to client pixels and tagged with its index.
   `touches` is what GetTouchInputInfo filled in for `inputNum` points.
   */
  method ForwardTouches(inputNum: nat, touches: seq<TouchInput>, maxTouchCount: int, origin: Point)
    returns (calls: seq<Effect>)
    requires |touches| == inputNum
    ensures |calls| <= inputNum
    ensures |calls| == TouchCount(inputNum, maxTouchCount)
    ensures forall i :: 0 <= i < |calls| ==> calls[i] == TouchUpdate(touches, i, origin)
  {
    calls := [];
    var i := 0;
    while i < inputNum
      invariant 0 <= i <= inputNum
      invariant i == 0 || i <= maxTouchCount
      invariant |calls| == i
      invariant forall k :: 0 <= k < i ==> calls[k] == TouchUpdate(touches, k, origin)
    {
      if i >= maxTouchCount {
        break;
      }
      var pt := TouchToClient(touches[i], origin);
      calls := calls + [UpdateTouchPos(pt.x, pt.y, i, touches[i].flags)];
      i := i + 1;
    }
  }

  /**
   The window procedure. Keys are always forwarded; mouse buttons and relative
   raw mouse motion only while the mouse is captured; touch points up to the
   Input limit; a confirmed close posts a quit message; any other message goes
   to the default procedure.
   */
  method WndProc(msg: Message, ctx: Context) returns (effects: seq<Effect>, outcome: Outcome)
    requires msg.WmTouch? ==> |msg.touches| == LoWord(msg.wParam)
    ensures outcome == PassedToDefault <==> msg.WmOther?
    ensures !ctx.mouseCaptured ==>
      forall e :: e in effects ==> !e.UpdateMousePos?
    ensures (msg.WmButtonDown? || msg.WmButtonUp? || msg.WmInput?) && !ctx.mouseCaptured ==> effects == []
    ensures msg.WmButtonDown? && ctx.mouseCaptured ==> effects == [KeyDown(msg.wParam)]
    ensures msg.WmButtonUp? && ctx.mouseCaptured ==> effects == [KeyUp(msg.wParam)]
    ensures msg.WmInput? && ctx.mouseCaptured ==>
      effects == if IsRelativeMouseMove(msg.raw)
                 then [UpdateMousePos(msg.raw.lastX, msg.raw.lastY, msg.raw.buttonData)]
                 else []
    ensures msg.WmKeyDown? ==>
      effects == [KeyDown(msg.wParam)] + (if ctx.f1Triggered && !ctx.mouseCaptured then [CaptureMouse] else [])
    ensures msg.WmKeyUp? ==> effects == [KeyUp(msg.wParam)]
    ensures msg.WmClose? ==> effects == if ctx.quitConfirmed then [PostQuit] else []
    ensures msg.WmTouch? ==>
      && |effects| == TouchCount(LoWord(msg.wParam), ctx.maxTouchCount)
      && forall i :: 0 <= i < |effects| ==> effects[i] == TouchUpdate(msg.touches, i, ctx.clientOrigin)
    ensures msg.WmCreate? || msg.WmOther? ==> effects == []
  {
    effects, outcome := [], Handled;
    match msg {
      case WmCreate =>
      case WmClose =>
        if ctx.quitConfirmed {
          effects := [PostQuit];
        }
      case WmKeyDown(w) =>
        effects := [KeyDown(w)];
        if ctx.f1Triggered && !ctx.mouseCaptured {
          effects := effects + [CaptureMouse];
        }
      case WmKeyUp(w) =>
        effects := [KeyUp(w)];
      case WmButtonDown(_, w) =>
        if ctx.mouseCaptured {
          effects := [KeyDown(w)];
        }
      case WmButtonUp(_, w) =>
        if ctx.mouseCaptured {
          effects := [KeyUp(w)];
        }
      case WmInput(raw) =>
        if IsRelativeMouseMove(raw) {
          if ctx.mouseCaptured {
            effects := [UpdateMousePos(raw.lastX, raw.lastY, raw.buttonData)];
          }
        }
      case WmTouch(w, touches) =>
        effects := ForwardTouches(LoWord(w), touches, ctx.maxTouchCount, ctx.clientOrigin);
      case WmOther(_) =>
        outcome := PassedToDefault;
    }
  }
}
