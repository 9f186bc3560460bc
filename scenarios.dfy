/** Concrete sessions against small servers, showing what the contracts of
    `active_window`, `get_title` and the title's release let a caller conclude. */
module Scenarios {
  import opened XTypes
  import opened Xlib
  import opened Sessions
  import opened Windows

  const ROOT: XID := 0x100
  const ACTIVE_ATOM: nat := 300

  /** A server on which a window manager has interned `_NET_ACTIVE_WINDOW` and
      set it on the root window to `prop`; window 0x20 is named "xterm". */
  method ServerWith(prop: Property) returns (x: XServer)
    requires 1 <= prop.propertyType <= XA_LAST_PREDEFINED && Bounded(prop.width, prop.items)
    ensures fresh(x) && x.Valid()
    ensures x.root == ROOT && x.freed == [] && x.internRequests == []
    ensures x.state.atoms == map[NET_ACTIVE_WINDOW := ACTIVE_ATOM]
    ensures x.state.properties == map[
      PropertyKey(ROOT, ACTIVE_ATOM) := prop,
      PropertyKey(0x20, XA_WM_NAME) := Property(XA_STRING, W8, Ascii("xterm"))]
    ensures x.state.windows == {ROOT, 0x10, 0x20, 0x30}
  {
    ActiveWindowNameIsNotPredefined();
    var state := ServerState(
      {ROOT, 0x10, 0x20, 0x30},
      map[NET_ACTIVE_WINDOW := ACTIVE_ATOM],
      ACTIVE_ATOM + 1,
      map[PropertyKey(ROOT, ACTIVE_ATOM) := prop,
          PropertyKey(0x20, XA_WM_NAME) := Property(XA_STRING, W8, Ascii("xterm"))]);
    x := new XServer(ROOT, state);
  }

  /** `_NET_ACTIVE_WINDOW = [0x20]` at format 32 gives window 0x20, after one
      intern and one free. */
  method Focused() returns (r: Result<Window, NotSupported>, ghost frees: nat, ghost interns: nat)
    ensures r == Ok(Window(0x20))
    ensures frees == 1 && interns == 1
  {
    var x := ServerWith(Property(XA_WINDOW, W32, [0x20]));
    var session := new Session.FromDisplay(Display(1));
    r := ActiveWindow(session, x);
    frees, interns := |x.freed|, |x.internRequests|;
  }

  /** An empty property gives `NotSupported`, and its buffer is still freed. */
  method EmptyProperty() returns (r: Result<Window, NotSupported>, ghost frees: nat)
    ensures r == Err(NotSupported)
    ensures frees == 1
  {
    var x := ServerWith(Property(XA_WINDOW, W32, []));
    var session := new Session.FromDisplay(Display(1));
    r := ActiveWindow(session, x);
    frees := |x.freed|;
  }

  /** A property of type CARDINAL yields no items, so `NotSupported`, although
      the decoder never looks at the type. */
  method WrongType() returns (r: Result<Window, NotSupported>, ghost frees: nat)
    ensures r == Err(NotSupported)
    ensures frees == 1
  {
    var x := ServerWith(Property(XA_CARDINAL, W32, [0x20]));
    var session := new Session.FromDisplay(Display(1));
    r := ActiveWindow(session, x);
    frees := |x.freed|;
  }

  /** A second query reuses both slots: the atom is interned only once. */
  method AskedTwice() returns (first: Result<Window, NotSupported>, second: Result<Window, NotSupported>, ghost interns: nat, ghost frees: nat)
    ensures first == second == Ok(Window(0x20))
    ensures interns == 1 && frees == 2
  {
    var x := ServerWith(Property(XA_WINDOW, W8, [0x20, 0x30]));
    var session := new Session.FromDisplay(Display(1));
    first := ActiveWindow(session, x);
    second := ActiveWindow(session, x);
    interns, frees := |x.internRequests|, |x.freed|;
  }

  /** `_NET_ACTIVE_WINDOW = [None]`, which EWMH reads as "no window has the
      focus": `active_window` as written answers `Window(0)`; `FocusedWindow`
      answers `NotSupported`. */
  method NoFocus() returns (asWritten: Result<Window, NotSupported>, intended: Result<Window, NotSupported>)
    ensures asWritten == Ok(Window(NONE))
    ensures intended == Err(NotSupported)
  {
    var x := ServerWith(Property(XA_WINDOW, W32, [NONE]));
    var session := new Session.FromDisplay(Display(1));
    asWritten := ActiveWindow(session, x);
    var other := new Session.FromDisplay(Display(1));
    intended := FocusedWindow(other, x);
  }

  /** With `[0x20]` stored, the corrected query answers like `active_window`:
      window 0x20, after one intern and one free. */
  method FocusedAgrees() returns (r: Result<Window, NotSupported>, ghost frees: nat)
    ensures r == Ok(Window(0x20))
    ensures frees == 1
  {
    var x := ServerWith(Property(XA_WINDOW, W32, [0x20]));
    var session := new Session.FromDisplay(Display(1));
    r := FocusedWindow(session, x);
    frees := |x.freed|;
  }

  /** A server with no atoms interned, on which window 0x20 is named "xterm"
      and window 0x10 has no name. */
  method NamedServer() returns (x: XServer)
    ensures fresh(x) && x.Valid() && x.freed == [] && x.heap == map[]
    ensures x.state.properties == map[PropertyKey(0x20, XA_WM_NAME) := Property(XA_STRING, W8, Ascii("xterm"))]
    ensures x.state.windows == {ROOT, 0x10, 0x20}
  {
    var state := ServerState(
      {ROOT, 0x10, 0x20},
      map[],
      XA_LAST_PREDEFINED + 1,
      map[PropertyKey(0x20, XA_WM_NAME) := Property(XA_STRING, W8, Ascii("xterm"))]);
    x := new XServer(ROOT, state);
  }

  /** The title of window 0x20 reads back as its name, and releasing it frees
      its buffer once. */
  method Titled() returns (title: seq<byte>, ghost frees: nat)
    ensures title == Ascii("xterm")
    ensures frees == 1
  {
    var x := NamedServer();
    var r := GetTitle(Window(0x20), x, Display(1));
    var t := r.value;
    title := t.AsRef(x);
    NulFreeNameIsTitle(Ascii("xterm"));
    t.Release(x);
    frees := |x.freed|;
  }

  /** Window 0x10 has no name: `Null`, and nothing is allocated. */
  method Untitled() returns (untitled: bool, ghost buffers: nat)
    ensures untitled
    ensures buffers == 0
  {
    var x := NamedServer();
    var r := GetTitle(Window(0x10), x, Display(1));
    untitled := r.Err?;
    buffers := |x.heap|;
  }
}
