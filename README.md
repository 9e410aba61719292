# vulkan_test bring-up and window rules in Dafny

This project models the parts of the vulkan_test application that make
decisions. The rest of the application is Win32 and Vulkan plumbing.

- **Vulkan bring-up** (`vulkanTest/Core/Graphics.cpp`), in `graphics.dfy` and
  `vulkan_select.dfy`:
  - The `Graphics::Impl` object is a class with the fields its steps write.
  - The six creation steps are methods on that class.
  - `Graphics::Initialize` runs them in order and stops at the first failure.
  - The layer check `check_layers`, the graphics queue-family scan and the
    swapchain-extension search are methods with loops. Each is proved
    against a specification function (`AllOccur`/`FirstMissing`,
    `LastGraphicsFamily`, `Occurs`).
  - `check_layers` is a helper that nothing in `Graphics.cpp` calls.
    `CreateInstance` enables the standard validation layer without checking
    that it is available, and its model does no layer check either;
    `CheckLayers` models the helper on its own.
- **Application window** (`vulkanTest/Application/Window/Window.cpp`), in
  `window.dfy`:
  - `Window::Impl` is a class.
  - `Init` sizes the window from the adjusted client rect and centres it on
    the desktop, using C's truncating division. It then creates the window
    and registers input.
  - `Exit` destroys the window and clears the handles. The two getters return the stored fields.
  - The window procedure is a method from a message and the answers of its
    collaborators to the list of calls it makes on `Input` and the OS. Its
    `WM_TOUCH` loop is a separate method.
- **Shared definitions** in `common.dfy`: optional values, handles,
  `UINT32_MAX` and C integer division.

## How the outside world is represented

- **Vulkan loader and driver.** A `Driver` value holds their answers:
  - whether each object was created;
  - the physical devices, each with its queue-family flag words and
    extension names.

  Every creation step in the source `assert`s the API result and then
  returns true. The model follows the build without assertions, so the step
  reports success and records whether the object really exists. As a
  consequence, `Initialize` fails exactly when the driver reports no
  physical device. "## Left out" says what this leaves aside when an
  earlier object is missing.
- **Win32.** A `Win32Env` value holds the answers `Window::Init` receives:
  - the module handle;
  - the frame `AdjustWindowRectEx` adds;
  - the desktop rect;
  - the handle `CreateWindowExA` returns;
  - the digitizer bits;
  - whether raw-mouse registration succeeded.
- **Window procedure.** A `Context` value holds what the procedure asks
  while handling a message:
  - whether the mouse is captured;
  - whether F1 was just triggered;
  - `Input::max_touchcount`;
  - the `MessageBoxA` answer;
  - the `ScreenToClient` origin.
- **Ghost trace.** `Impl` carries a ghost trace of the steps run and what
  each returned. `Initialize` is stated against it and, through the
  `ImplState` snapshot, against every field of the Impl.

**First or last graphics family.** A reader might expect device creation to
use the *first* queue family with the graphics bit, as many Vulkan programs
do. The loop in `CreateDevice` (`Graphics.cpp:333-339`) never breaks, so it
keeps the *last* one, and the model follows the code: `LastGraphicsFamily` is
what `CreateDevice` uses. `FirstGraphicsFamily` is not part of the program.
It is a reference definition of the first-hit choice, used only by
`LastIsFirstIffAtMostOneGraphicsFamily`, which states exactly when the two
choices agree.

**Helpers without a row.** `WindowSystem.WindowPlacement` (the size and
centring arithmetic of `Window.cpp:226-233`) and `WindowSystem.TouchToClient`
(the conversion of one touch point to client pixels, `Window.cpp:183-185`)
have no row of their own. Their behaviour is stated by the rows of
`InitialPlacement` and `Window.Init` for the first and of `ForwardTouches`
for the second.

## Model

| member | source | states |
|---|---|---|
| Common.TruncDiv | vulkanTest/Application/Window/Window.cpp:232-233 | C division truncates toward zero: for a non-negative dividend the quotient is the floor, for a negative one the ceiling, with the remainder strictly inside one divisor of zero |
| VulkanSelect.FirstMissing | vulkanTest/Core/Graphics.cpp:53-65 | None exactly when every requested name occurs in the available list; otherwise the index of a requested name that is missing, with every earlier name present |
| VulkanSelect.CheckLayers | vulkanTest/Core/Graphics.cpp:51-67 | returns true iff every requested layer name occurs among the available layers; with no requested names it returns true; on failure it logs the first missing name and has examined exactly the names up to and including it |
| VulkanSelect.LastGraphicsFamily | vulkanTest/Core/Graphics.cpp:331-339 | UINT32_MAX iff no family has the graphics bit; otherwise a valid index whose family has the graphics bit and after which no family has it |
| VulkanSelect.ChooseGraphicsFamily | vulkanTest/Core/Graphics.cpp:331-339 | the loop that starts from UINT32_MAX and overwrites its choice on every graphics family ends with LastGraphicsFamily of the families |
| VulkanSelect.LastIsFirstIffAtMostOneGraphicsFamily | vulkanTest/Core/Graphics.cpp:333-338 | the loop's last-hit choice equals a first-hit choice iff no two families both have the graphics bit |
| VulkanSelect.FindSwapchainExtension | vulkanTest/Core/Graphics.cpp:271-292 | the flag is true iff some extension name equals VK_KHR_swapchain; an empty list leaves it false |
| Graphics.Impl.constructor | vulkanTest/Core/Graphics.cpp:36 | a new Impl remembers its window and creates no Vulkan object; no step has run and nothing is logged |
| Graphics.Impl.CreateInstance | vulkanTest/Core/Graphics.cpp:111-141 | returns true; the instance exists iff the driver created it; no other field changes; the step is appended to the trace |
| Graphics.Impl.EnumeratePhysicalDevice | vulkanTest/Core/Graphics.cpp:148-315 | returns false iff there is no device, logging that and changing neither gpu nor queue families; otherwise gpu is device 0 whatever the diagnostic pass visited, the queue families and their count are device 0's, and a missing swapchain extension is logged without failing |
| Graphics.Impl.CreateSurface | vulkanTest/Core/Graphics.cpp:317-327 | returns true; the surface is made for the window's current instance and handle and exists iff the driver created it; nothing else changes |
| Graphics.Impl.CreateDevice | vulkanTest/Core/Graphics.cpp:329-363 | returns true; the chosen graphics family is LastGraphicsFamily of the queue families; the device's single queue uses that family and enables exactly the swapchain extension; nothing else changes |
| Graphics.Impl.CreateCommandPool | vulkanTest/Core/Graphics.cpp:365-375 | returns true; the pool is on the chosen graphics family and exists iff the driver created it; nothing else changes |
| Graphics.Impl.CreateFence | vulkanTest/Core/Graphics.cpp:377-385 | returns true; the fence exists iff the driver created it; nothing else changes |
| Graphics.Graphics.constructor | vulkanTest/Core/Graphics.cpp:70 | the Graphics object owns a fresh Impl for the given window that holds no Vulkan object (no instance, device choice, surface, device, command pool or fence), with an empty trace and log |
| Graphics.Graphics.Initialize | vulkanTest/Core/Graphics.cpp:74-89 | returns true iff the driver reports a device; the steps run form a short-circuiting run of the six-step order (every step but the last succeeded, stopping only at a failure, true only when all six ran). The whole new state of the Impl is given on both paths. On failure, only the instance was created, one "no device" error was logged, and nothing else changed, so no later step ran. On success: gpu is device 0 and its queue families are copied; a missing swapchain extension is logged; the surface uses the window's instance and handle; the chosen family is the last graphics family of device 0, and the device queue and the command pool use it; the device enables only the swapchain extension; each object exists iff the driver created it |
| WindowSystem.CentreOffset | vulkanTest/Application/Window/Window.cpp:232-233 | 0 when the desktop ends before the adjusted rect; otherwise the two margins around the window differ by at most one pixel, with truncating division deciding which side gets the odd pixel |
| WindowSystem.InitialPlacement | vulkanTest/Application/Window/Window.cpp:223-233 | from the 640x480 client rect the window is 640 plus the left and right frame wide and 480 plus the top and bottom frame high, and it sits at 0 or is centred within one pixel on each axis |
| WindowSystem.Window.constructor | vulkanTest/Application/Window/Window.cpp:200 | the value-initialised implementation object has null handles, zero size, no multi-touch and has asked nothing of the OS |
| WindowSystem.Window.GetWindowInstance | vulkanTest/Application/Window/Window.cpp:264-267 | returns the stored instance handle |
| WindowSystem.Window.GetWindowHandle | vulkanTest/Application/Window/Window.cpp:269-272 | returns the stored window handle |
| WindowSystem.Window.Init | vulkanTest/Application/Window/Window.cpp:204-253 | records the module handle and registers the class; size is that of WindowPlacement of the adjusted rect and desktop; returns false iff the created handle is null, then records no window, posts quit and skips input registration and showing; otherwise the window exists at that placement, registers input and shows the window |
| WindowSystem.Window.InitRawInputDevices | vulkanTest/Application/Window/Window.cpp:20-40 | a multi-touch digitizer enables and registers touch and otherwise leaves both unchanged; the raw mouse is registered iff the OS accepts it |
| WindowSystem.Window.Exit | vulkanTest/Application/Window/Window.cpp:255-262 | both handles are null afterwards and both getters return null; the created window is destroyed (no window exists and none is shown), and the class is unregistered |
| WindowSystem.TouchCount | vulkanTest/Application/Window/Window.cpp:177-179 | the number of touch points forwarded is at most the reported count and at most the Input limit (0 for a negative limit), and equals one of them |
| WindowSystem.ForwardTouches | vulkanTest/Application/Window/Window.cpp:170-193 | forwards exactly TouchCount touch points, the i-th being touch i converted to client pixels and tagged with index i and its flags |
| WindowSystem.WndProc | vulkanTest/Application/Window/Window.cpp:104-198 | only unknown messages reach the default procedure; mouse buttons and relative raw motion reach Input only while the mouse is captured; keys always do, and F1 captures an uncaptured mouse; a confirmed close posts quit; touch forwards exactly TouchCount converted points in order |

## Left out

- The rendering stubs are not modelled because they have no behaviour: `Graphics::Run`, `Exit`, `BeginFrame`, `EndFrame`, `Impl::CreateDebugLayer` and the swapchain, image-view, render-pass, framebuffer and pipeline builders (`Graphics.cpp:91-109, 143-146, 387-410`). No swapchain, frame loop or memory-type lookup exists in the code.
- Diagnostic logging is not modelled: the device-property, feature and memory dumps and the queue-flag label strings. For `Graphics.cpp`, only which error messages are logged is kept. The window's log messages, including the error when `CreateWindowExA` fails (`Window.cpp:241`), are not modelled. The label strings test flags with `&&` instead of `&`, so any non-zero flag word is labelled with all five capabilities. This is a logging defect only.
- The creation-info structures are not modelled beyond the facts that reach later steps: the application info, layer and extension name arrays, and the queue priority. Those facts are the chosen family, the enabled extension, and the window handles given to the surface.
- Win32 calls are inputs rather than behaviour: `RegisterClassExA`, `AdjustWindowRectEx` (a non-negative frame around the client rect), `GetWindowRect`, `CreateWindowExA`, `ShowWindow`, `DestroyWindow`, `UnregisterClassA`, `GetSystemMetrics`, `RegisterRawInputDevices`, `MessageBoxA`, `GetRawInputData`, `GetTouchInputInfo` and `ScreenToClient`.
- The raw-input device enumeration and its printing (`Window.cpp:42-100`) are output only.
- `Input.h` is not part of this model. `Input::max_touchcount`, mouse capture and the F1 trigger are answers the window procedure receives, and the calls it makes on `Input` are recorded as effects.
- Debug builds abort on a failed `assert`. The model follows the build without assertions, where the step returns true.
- Uninitialised C++ members of `Graphics::Impl` start at zero or empty in the model.
- Window.Init: 32-bit `int`/`LONG` overflow in the rect arithmetic is not modelled, because integers are unbounded and no realistic frame or desktop comes near the limit.
- Graphics.Impl.EnumeratePhysicalDevice: the value of `gpu` during the diagnostic pass is not stated, only the final value.
- Graphics.Impl.EnumeratePhysicalDevice: the model logs a missing swapchain extension and continues. The message is about 230 characters long. `Log::Error` formats it with `sprintf_s` into a 128-byte buffer (`Log.h:22-26`), and MSVC's default handler for a buffer that is too small ends the process. `Log.cpp` is not part of this model, so the log-and-continue reading is kept deliberately.
- Graphics.Graphics.Initialize: each driver answer is independent of the others. A step whose earlier objects were never created still gets the driver's own answer. Examples: enumerating devices on an instance that does not exist; creating a surface, command pool or fence on missing handles; creating the device on family UINT32_MAX when no family has the graphics bit. In the source, built without assertions, these calls are undefined behaviour. So the model's `ok <==> |devices| > 0` and its "exists iff the driver created it" claims describe only runs in which the earlier calls succeeded.
- WindowSystem.WndProc: `WM_INPUT` reads a fixed 48-byte buffer. The model receives the decoded `RAWINPUT` fields directly.
- The message pump in BaseSystem, CoreManager, PerfTimer, the log formatting and the float-only settings are not part of the modelled core.
