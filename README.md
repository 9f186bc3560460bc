# x11_get_windows: property fetch, active window and window titles

A Dafny model of the core of `x11_get_windows`, a thin Rust binding over Xlib that
asks an X server for the focused window and for window titles.

The X server and the Xlib calls the crate makes are modelled by the class
`Xlib.XServer`. It holds three things:
- the server's observable state as a value (`ServerState`: the windows, the names
  clients have interned, and the window properties);
- the heap of buffers Xlib has handed to the client;
- ghost logs of every `XGetWindowProperty` request, every `XInternAtom` request
  and every address passed to `XFree`.

Its four methods (`XFree`, `XInternAtom`, `XGetWindowProperty`, `XGetWMName`)
follow the Xlib manual, "Xlib – C Language X Interface":
- section 4.3 for `XInternAtom`;
- section 4.4 for `XGetWindowProperty`, with the reply given by the function
  `Xlib.GetProperty`.

A missing property gives format 0, type `None`, no items and a NULL buffer. A type
mismatch gives the real type and format, an empty item list, and the full length in
`bytes_after`.

`Xlib.WellFormed` states what every X server keeps true:
- The 68 atoms the core protocol predefines (`Xlib.PredefinedAtom`, numbered as in
  `X11/Xatom.h`) are known on every server.
- Interned names are not predefined ones. Their atoms lie above the predefined range,
  and no two of them share an atom.
- A property sits on an existing window, and its name and type are atoms the server
  knows, so a property never has type `None`.
- A window's name is its `WM_NAME` property, which holds 8-bit text.

`XFree` may only be called on NULL or on a live buffer. A double free or a read
after free cannot be written against the model.

A property buffer is a width tag (`W8`, `W16`, `W32`) plus a sequence of naturals,
each below 2^format. In client memory Xlib stores a format-32 element in a native
64-bit `long` (`MemoryBits`), as the crate's documentation of
`actual_format_return` says. The decoder reads the buffer as `u8`, `u16` or
`usize`. `Windows.ReadSlice` can only be applied when that Rust type is exactly as
wide as the slots Xlib filled, and `Windows.ElementMatchesXlibSlot` proves that
this holds for every format.

The crate's operations are modelled on top of that server:
- `Atoms.New` is `Atom::new`. It rejects a name holding a NUL byte before any
  server call, and otherwise interns the exact bytes with `only_if_exists` set.
  The pure function `Atoms.NewAtom` gives its result.
- `WindowProperty.GetWindowProperty` is `get_window_property`. It sends one
  request (offset 0, 1024 longs, no delete, the caller's type) and returns `Ok`
  with the five out-values unchanged exactly when the status is 0. The buffer is
  not freed there.
- `Sessions.Session` is the `Session` record, with `FromDisplay` and `Open`.
- `Windows.ActiveWindow` is `Window::active_window`:
  - It fills the root-window slot, and the `_NET_ACTIVE_WINDOW` atom slot
    (`ActiveWindowAtom`), only when they are unset.
  - It decodes the first element at the width the reply's format names
    (`DecodeActiveWindow`).
  - It frees the buffer exactly once before returning.
  - Its result is proved equal to `ActiveWindowOf`, which is computed from the
    server state alone. That is the first element of the root window's
    WINDOW-typed `_NET_ACTIVE_WINDOW` property, at whatever format it is stored.
- `Windows.GetTitle` and `Windows.WindowTitle` are `Window::get_title` and
  `WindowTitle`. A NULL name is `Err(Null)`. Otherwise the title's bytes are the
  name up to its first NUL. `Release` plays the part of `Drop` and frees the
  buffer once.

`Scenarios` states, as proved postconditions, the outcomes of concrete sessions
against small servers.

Three behaviours of the code that its doc comments do not make plain:
- `Atom::new` passes `XTrue` as `only_if_exists` (src/atom.rs:30). An unknown
  name therefore gives atom 0 (`None`) and creates nothing. A predefined name
  always resolves (`Atoms.PredefinedNameResolves`).
- `active_window` never reads `actual_type_return`. A property of the wrong type
  still ends in `NotSupported`, because Xlib then returns no items
  (`DecodedReplyIsActiveWindow`, `Scenarios.WrongType`).
- `active_window` reads only the first element of the property. It accepts
  formats 8 and 16 as well as 32.

The source is also inconsistent with itself. `Window::active_window`
(src/window.rs:46) destructures an `active_window_atom` field that the `Session`
struct (src/session.rs:20-26) does not declare. The model gives `Session` that
`Option<Atom>` slot, as src/window.rs requires. `Session::open` and
`Session::from_display` set it to `None` along with the other slots.

The constant `NET_ACTIVE_WINDOW` is not defined in the files modelled here. The
model uses the EWMH property name `_NET_ACTIVE_WINDOW`. It proves the name holds
no NUL, so the `unwrap` at src/window.rs:48 cannot panic. It also proves the name
is not a predefined atom.

Parameters in place of I/O: the X server is the `XServer` object passed to every
operation. `Session.Open` takes the pointer `XOpenDisplay` returned.

## Model

| member | source | states |
|---|---|---|
| `XTypes.FirstNul` | src/window.rs:91 | the index of the first 0 byte, or the length when there is none: every earlier byte is non-zero and the byte there is 0 |
| `XTypes.AsXWindow` | src/window.rs:54 | the `as XWindow` cast keeps the low 64 bits, so any value below 2^64 is widened without change |
| `XTypes.FirstNulOfTerminated` | src/window.rs:90-92 | appending Xlib's terminating 0 does not move the first NUL, so the C string read from the buffer is the stored name up to its own first NUL |
| `XTypes.NulFreeIsWholeString` | src/window.rs:91 | a string with no NUL is read back whole |
| `Xlib.PredefinedConstants` | src/window.rs:49 | the predefined atom table gives `WINDOW` the number 33 that `XA_WINDOW` names, and likewise `CARDINAL`, `STRING` and `WM_NAME` |
| `Xlib.PropertyTypeIsAnAtom` | src/util/get_window_property.rs:45 | on a well-formed server no property has type `None`, so `actual_type_return` is `None` only for a missing property |
| `Xlib.GetProperty` | src/util/get_window_property.rs:38-50 | Xlib's reply: a failed request has status 1 and no buffer; a returned buffer has the reply's format and exactly `nitems` elements |
| `Xlib.Intern` | src/atom.rs:30 | with `only_if_exists` the server state is unchanged, and the atom is `None` exactly when the name is neither predefined nor interned; a known name gives the atom the server maps it to |
| `Xlib.XServer.XFree` | src/window.rs:68 | freeing removes exactly that buffer and appends its address once to the free log; only NULL or a live buffer can be freed |
| `Xlib.XServer.XInternAtom` | src/atom.rs:30 | the request is logged once, and atom and new state are those of `Intern` |
| `Xlib.XServer.XGetWindowProperty` | src/util/get_window_property.rs:38-50 | one logged request. The status and out-values are those of `GetProperty`. A returned buffer is fresh. The property is removed only for `delete` with a complete read of the requested type |
| `Xlib.XServer.XGetWMName` | src/window.rs:83-89 | a window with a `WM_NAME` property gets a fresh buffer holding its text and the terminating 0; otherwise the value is NULL and nothing is allocated |
| `Atoms.CStringNew` | src/atom.rs:29 | fails exactly when the bytes hold a 0, reporting the first 0 and the input; on success the bytes are kept untruncated |
| `Atoms.NewAtom` | src/atom.rs:20-31 | `Err` exactly when the name holds a NUL; otherwise the server's atom, which is `None` (0) exactly when the name is neither predefined nor interned |
| `Atoms.PredefinedNameResolves` | src/atom.rs:28-31 | `Atom::new` on `WINDOW` gives atom 33 on every server, whether or not any client has interned the name |
| `Atoms.NulFailureIgnoresServer` | src/atom.rs:29-30 | a name with a NUL gives the same error whatever the server holds: no server call decides it |
| `Atoms.New` | src/atom.rs:28-32 | an intern request is logged only for a NUL-free name, with the exact bytes and `only_if_exists` set. No atom is created. The result is `NewAtom` on the old state |
| `Atoms.NewTwice` | src/atom.rs:16 | resolving one name twice on one connection gives equal atoms |
| `WindowProperty.ReplyStatus` | src/util/get_window_property.rs:50 | the request succeeds exactly when the window exists and the property and type atoms are known |
| `WindowProperty.MissingPropertyReply` | src/util/get_window_property.rs:38-50 | a missing property: type `None`, format 0, no items, nothing left over, NULL buffer |
| `WindowProperty.TypeMismatchReply` | src/util/get_window_property.rs:44 | a property of another type than `expected_type`: its real type and format, an empty buffer, and its whole length left over |
| `WindowProperty.MatchingReply` | src/util/get_window_property.rs:42 | a property of the requested type: the leading elements that fit in 4096 bytes; `bytes_after` counts exactly the rest, and is 0 exactly when all elements came back |
| `WindowProperty.GetWindowProperty` | src/util/get_window_property.rs:26-60 | exactly one request, offset 0, length 1024, no delete, the caller's type. `Ok` exactly when the status is 0, with the five out-values unchanged. The buffer stays live and nothing is freed |
| `Sessions.OpenDisplay` | src/display.rs:20-26 | a NULL pointer from `XOpenDisplay` is `Err(Null)`; otherwise a display wrapping that pointer |
| `Sessions.Session.FromDisplay` | src/session.rs:39-45 | keeps the given display and leaves every slot `None` |
| `Sessions.Session.Open` | src/session.rs:29-35 | a failed display open is `Err(Null)` and builds nothing; otherwise a new session on that display with every slot `None` |
| `Windows.ActiveWindowNameHasNoNul` | src/window.rs:48 | the property name is a valid C string, so the `unwrap` cannot panic |
| `Windows.ActiveWindowNameIsNotPredefined` | src/window.rs:48 | `_NET_ACTIVE_WINDOW` is not a predefined atom, so only an interned name gives it an atom |
| `Windows.DefaultRootWindow` | src/window.rs:35-38 | the default root window exists on the server |
| `Windows.ElementMatchesXlibSlot` | src/window.rs:50-65 | for each format the element type the decoder reads (`u8`, `u16`, `usize`) is exactly as wide as Xlib's slot for it, 64 bits for format 32 as src/util/get_window_property.rs:81-83 documents, and it holds every value of that format |
| `Windows.ReadSlice` | src/window.rs:52 | `slice::from_raw_parts`: the first `nitems` stored elements, each a value of the element type; only applicable when that type is as wide as the buffer's slots |
| `Windows.FirstAsWindow` | src/window.rs:53-54 | a window exactly when the slice is not empty; its id is the first element, unchanged when it fits in 64 bits |
| `Windows.DecodeActiveWindow` | src/window.rs:50-67 | a window exactly when the format is 8, 16 or 32 and there is at least one item. The window is the first element, read at that width and widened unchanged. The declared type is not consulted |
| `Windows.DecodedReplyIsActiveWindow` | src/window.rs:49-69 | decoding the reply gives `ActiveWindowOf`, the first element of the root's WINDOW-typed `_NET_ACTIVE_WINDOW` property. A failed request, a missing property, a mismatched type and an empty property all give none. Truncation at 4096 bytes keeps the first element |
| `Windows.ActiveWindowAtom` | src/window.rs:48 | the atom slot is filled by one intern of `_NET_ACTIVE_WINDOW` with `only_if_exists` only when it is unset, and kept otherwise; nothing else changes |
| `Windows.QueryActiveWindow` | src/window.rs:49-69 | one property request. A failed fetch frees nothing; otherwise exactly one `XFree` of the returned pointer, so no buffer is leaked. The result is `ActiveWindowOf` on the server state |
| `Windows.ActiveWindow` | src/window.rs:45-70 | slots set only when unset and never changed once set; at most one intern. One property request. A failed fetch returns `NotSupported` with no free; otherwise exactly one `XFree` of the returned pointer. No buffer is leaked. The result is the first element of the root's WINDOW-typed `_NET_ACTIVE_WINDOW` property (`ActiveWindowOf`) |
| `Windows.FocusedWindowOf` | src/window.rs:61-69 | `ActiveWindowOf` with the value `None` read as no window: never `Window(0)`, and otherwise equal to `ActiveWindowOf` |
| `Windows.FocusedWindow` | src/window.rs:45-70 | `active_window` as EWMH intends it: the same slot updates, intern and request logs, frees and allocation as `ActiveWindow`; the result is `FocusedWindowOf` at the slots' values, so an `Ok` window is never `None` |
| `Windows.TitleOf` | src/window.rs:91 | the title is the prefix of the name before its first NUL |
| `Windows.NulFreeNameIsTitle` | src/window.rs:91-92 | a name without NUL bytes is its title byte for byte |
| `Windows.WindowTitle.constructor` | src/window.rs:92 | `WindowTitle(text)` wraps the given buffer address and is not yet released |
| `Windows.WindowTitle.AsRef` | src/window.rs:99-103 | the title's bytes are its buffer up to the terminating 0; readable only while the buffer is live |
| `Windows.WindowTitle.Release` | src/window.rs:104-108 | releasing frees the title's buffer exactly once, allocates nothing, and makes the title unreadable and unreleasable |
| `Windows.GetTitle` | src/window.rs:76-94 | `Err(Null)` exactly when the window has no `WM_NAME`, with nothing allocated. Otherwise a live title on one fresh buffer whose bytes are the name up to its first NUL. Nothing is freed until `Release` |
| `Scenarios.Focused` | src/window.rs:45-70 | `_NET_ACTIVE_WINDOW = [0x20]` at format 32 gives window 0x20 after one intern and one free |
| `Scenarios.EmptyProperty` | src/window.rs:61-69 | an empty property gives `NotSupported` and its buffer is still freed once |
| `Scenarios.WrongType` | src/window.rs:49-69 | a property of type CARDINAL gives `NotSupported` with one free, without a type check in the decoder |
| `Scenarios.AskedTwice` | src/window.rs:47-48 | a second query reuses both slots: one intern in all, one free per query |
| `Scenarios.NoFocus` | src/window.rs:61-69 | `_NET_ACTIVE_WINDOW = [None]` makes `active_window` answer `Ok(Window(0))`, while `FocusedWindow` answers `NotSupported` |
| `Scenarios.FocusedAgrees` | src/window.rs:45-70 | with `[0x20]` stored, `FocusedWindow` answers window 0x20 after one free, as `active_window` does |
| `Scenarios.Titled` | src/window.rs:76-107 | a named window's title reads back as its name, and releasing it frees once |
| `Scenarios.Untitled` | src/window.rs:90-93 | a window without a name gives `Null` and allocates nothing |

## Left out

- src/display.rs: closing the connection in `Drop` (`XCloseDisplay`) and `into_raw`/`from_raw` are not modelled. A `Display` is an opaque handle, and the `XServer` it reaches is passed to each operation beside it.
- `get_windows` and `_NET_CLIENT_LIST`: their source is not part of this model. The `clientListAtom` slot is only created unset and carried unchanged.
- src/windows.rs (accessors over a `Vec`), src/lib.rs (module declarations and the `Null` marker) and the examples (printing and `expect`) hold no logic to model.
- X protocol errors: a BadWindow or BadAtom request is modelled as `XGetWindowProperty` returning status 1. Xlib's error handler, whose default ends the process, is not modelled.
- If the server does not know `_NET_ACTIVE_WINDOW`, the atom slot keeps atom 0 and every later query fails with BadAtom. The model gives `NotSupported` there. It does not model the error handler running.
- Xlib's allocation failures (BadAlloc), its client-side atom cache, raw-pointer reinterpretation, endianness and `mem::uninitialized`. Out-values after a failed request are left unspecified.
- Format-32 values are bounded by 2^32. The sign extension Xlib may apply when it widens them into `long` is not modelled.
- `XGetWMName`: its status is ignored by the code and is not used by the model. The text's encoding and item count are not modelled. The server model only admits `WM_NAME` properties of format 8. Names stored at format 16 or 32, which `CStr::from_ptr` would read byte by byte, are left out, and so is the length cap of `XGetTextProperty`.
- The predefined atom names are modelled as a table lookup. The model does not prove that no two of them are equal.
- `Windows.WindowTitle.Release`: Rust ties the release to scope exit through `Drop`. The model makes it an explicit call whose precondition forbids a second release. The unbounded lifetime `'a` of `WindowTitle` is replaced by the requirement that the title be live when read.
- Concurrency: the binding is single-threaded and every call is one blocking round trip, so the model is sequential.

## Findings

| source | as written | input that shows it | evidently intended | confidence | as-written member | corrected member |
|---|---|---|---|---|---|---|
| src/window.rs:61-69 | the first element of `_NET_ACTIVE_WINDOW` is returned as a window even when it is `None` (0) | the root's `_NET_ACTIVE_WINDOW` is WINDOW/32 `[0]`, which EWMH defines as "no window has the focus"; `Windows.ActiveWindow` returns `Ok(Window(0))` | `Err(NotSupported)` when no window has the focus, so that an `Ok` window is a real one (`Windows.FocusedWindowOf`) | medium, not executed | `Scenarios.NoFocus` | `Windows.FocusedWindow` |
