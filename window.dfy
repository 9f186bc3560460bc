/** `Window`'s operations: the default root window, the active window of a
    session, and a window's title, whose buffer is freed when it is released. */
module Windows {
  import opened XTypes
  import opened Xlib
  import opened Atoms
  import opened WindowProperty
  import opened Sessions

  /** The EWMH root-window property holding the focused window (`WINDOW/32`). */
  const NET_ACTIVE_WINDOW: seq<byte> := Ascii("_NET_ACTIVE_WINDOW")

  /** The property name is a valid C string, so `Atom::new(..).unwrap()` on it
      cannot panic. */
  lemma ActiveWindowNameHasNoNul()
    ensures forall i :: 0 <= i < |NET_ACTIVE_WINDOW| ==> NET_ACTIVE_WINDOW[i] != 0
  {
    var s := "_NET_ACTIVE_WINDOW";
    assert forall i :: 0 <= i < |s| ==> s[i] != 0 as char;
  }

  /** `_NET_ACTIVE_WINDOW` is not one of the predefined atoms, so the server
      knows it only once some client has interned it. */
  lemma ActiveWindowNameIsNotPredefined()
    ensures PredefinedAtom(NET_ACTIVE_WINDOW) == NONE
  {
    CharsOfAscii("_NET_ACTIVE_WINDOW");
  }

  /** `Window::default_root_window`: the screen's root, which always exists. */
  function DefaultRootWindow(x: XServer, display: Display): (w: Window)
    reads x
    ensures x.Valid() ==> w.id in x.state.windows
  {
    Window(x.root)
  }

  /** The Rust element types `active_window` reads a property buffer as. */
  datatype Element = U8 | U16 | Usize

  /** `usize` is 64 bits wide on the hosts the binding targets. */
  const USIZE_BITS: nat := 64

  function Bits(e: Element): nat
  {
    match e
    case U8 => 8
    case U16 => 16
    case Usize => USIZE_BITS
  }

  /** One more than the largest value of the type. */
  function ElementBound(e: Element): nat
  {
    match e
    case U8 => 0x100
    case U16 => 0x1_0000
    case Usize => XWINDOW_MODULUS
  }

  /** The element type `active_window` reads for a format: `u8` for 8, `u16`
      for 16, `usize` for 32, none for any other format. */
  function ElementOf(format: int): Option<Element>
  {
    match format
    case 8 => Some(U8)
    case 16 => Some(U16)
    case 32 => Some(Usize)
    case _ => None
  }

  /** For every format a buffer can have, the element type the decoder picks is
      exactly as wide as the slot Xlib stores each element in (for format 32 a
      `usize` against Xlib's `long`), and holds every value of that format. */
  lemma ElementMatchesXlibSlot(w: Width)
    ensures ElementOf(Format(w)).Some?
    ensures Bits(ElementOf(Format(w)).value) == MemoryBits(w)
    ensures ValueBound(w) <= ElementBound(ElementOf(Format(w)).value)
  {
  }

  /** `slice::from_raw_parts(ptr as *const T, n)` with `T` the element type
      `e`: the first `n` elements of the buffer, each a value of `T`.  It is
      only sound when `T` is as wide as the slots the buffer was filled with. */
  function ReadSlice(memory: map<Address, Buffer>, ptr: Address, e: Element, n: nat): (s: seq<nat>)
    requires ptr in memory && Bits(e) == MemoryBits(memory[ptr].width)
    requires n <= |memory[ptr].items| && Bounded(memory[ptr].width, memory[ptr].items)
    ensures |s| == n && s <= memory[ptr].items
    ensures forall i :: 0 <= i < n ==> s[i] < ElementBound(e)
  {
    memory[ptr].items[..n]
  }

  /** `.first().map(|x| Window(*x as XWindow))`: a window exactly when the
      slice is not empty, whose id is the first element cast to `XWindow`. */
  function FirstAsWindow(s: seq<nat>): (w: Option<Window>)
    ensures w.Some? <==> |s| > 0
    ensures w.Some? && s[0] < XWINDOW_MODULUS ==> w.value == Window(s[0])
  {
    if |s| == 0 then None else Some(Window(AsXWindow(s[0])))
  }

  /** What the decoder may assume of a response: for format 8, 16 or 32 the
      pointer is a live buffer of that format with `nitems` bounded elements. */
  predicate Readable(memory: map<Address, Buffer>, format: int, nitems: nat, ptr: Address)
  {
    (format == 8 || format == 16 || format == 32) ==>
      && ptr in memory
      && Format(memory[ptr].width) == format
      && nitems <= |memory[ptr].items|
      && Bounded(memory[ptr].width, memory[ptr].items)
  }

  /** The decode step of `active_window`: pick the element type from the
      format, read only the first element, and widen it to a window id.  The
      declared type of the response plays no part. */
  function DecodeActiveWindow(format: int, nitems: nat, memory: map<Address, Buffer>, ptr: Address)
    : (w: Option<Window>)
    requires Readable(memory, format, nitems, ptr)
    ensures w.Some? <==> (format == 8 || format == 16 || format == 32) && nitems > 0
    ensures w.Some? ==> w.value == Window(memory[ptr].items[0])
  {
    match format
    case 8 => FirstAsWindow(ReadSlice(memory, ptr, U8, nitems))
    case 16 => FirstAsWindow(ReadSlice(memory, ptr, U16, nitems))
    case 32 => FirstAsWindow(ReadSlice(memory, ptr, Usize, nitems))
    case _ => None
  }

  /** What `active_window` reports, from the server state alone: the first
      element of the root window's `_NET_ACTIVE_WINDOW` property when that
      property has type WINDOW (at any format); nothing when the property
      cannot be read, has another type, or is empty. */
  function ActiveWindowOf(s: ServerState, root: XID, atom: Atom): Option<Window>
  {
    var key := PropertyKey(root, atom.value);
    if root !in s.windows || !Defined(s, atom.value) || key !in s.properties then None
    else
      var p := s.properties[key];
      if p.propertyType != XA_WINDOW || |p.items| == 0 then None
      else Some(Window(p.items[0]))
  }

  /** The focused window as EWMH defines it: `_NET_ACTIVE_WINDOW` holding
      `None` (0) means that no window has the focus.  This is `ActiveWindowOf`
      with that value read as no window. */
  function FocusedWindowOf(s: ServerState, root: XID, atom: Atom): (w: Option<Window>)
    ensures w.Some? ==> w.value.id != NONE && ActiveWindowOf(s, root, atom) == w
    ensures w.None? && ActiveWindowOf(s, root, atom).Some? ==> ActiveWindowOf(s, root, atom) == Some(Window(NONE))
  {
    match ActiveWindowOf(s, root, atom)
    case Some(w) => if w.id == NONE then None else Some(w)
    case None => None
  }

  /** Decoding the reply to the one bounded request gives exactly
      `ActiveWindowOf`: a missing property (format 0), a type mismatch (no items)
      and an empty property all come out as no window, and cutting the reply at
      4096 bytes never loses the first element. */
  lemma {:induction false} DecodedReplyIsActiveWindow(
    s: ServerState, root: XID, atom: Atom, memory: map<Address, Buffer>, ptr: Address)
    requires WellFormed(s)
    requires var r := Reply(s, Window(root), atom, XA_WINDOW);
             r.data.Some? ==> ptr in memory && memory[ptr] == r.data.value
    ensures var r := Reply(s, Window(root), atom, XA_WINDOW);
            && (r.status != SUCCESS ==> ActiveWindowOf(s, root, atom) == None)
            && (r.status == SUCCESS ==>
                  && Readable(memory, r.actualFormat, r.nitems, ptr)
                  && DecodeActiveWindow(r.actualFormat, r.nitems, memory, ptr) == ActiveWindowOf(s, root, atom))
  {
    var r := Reply(s, Window(root), atom, XA_WINDOW);
    var key := PropertyKey(root, atom.value);
    if r.status == SUCCESS && key in s.properties {
      var p := s.properties[key];
      BufferOfPropertyIsBounded(s, root, atom.value, LONG_OFFSET, LONG_LENGTH, XA_WINDOW);
      if p.propertyType == XA_WINDOW {
        MatchingReply(s, Window(root), atom, XA_WINDOW);
      } else {
        TypeMismatchReply(s, Window(root), atom, XA_WINDOW);
      }
    }
  }

  /** `active_window_atom.get_or_insert_with(|| Atom::new(display,
      NET_ACTIVE_WINDOW).unwrap())`: the session's atom, interning the name
      (with `only_if_exists`) only when the slot is still unset. */
  method ActiveWindowAtom(session: Session, x: XServer) returns (atom: Atom)
    requires x.Valid()
    modifies session, x
    ensures x.Valid()
    ensures session.activeWindowAtom ==
      if old(session.activeWindowAtom).None?
      then Some(Atom(Intern(old(x.state), NET_ACTIVE_WINDOW, ONLY_IF_EXISTS).atom))
      else old(session.activeWindowAtom)
    ensures atom == session.activeWindowAtom.value
    ensures session.rootWindow == old(session.rootWindow) && session.clientListAtom == old(session.clientListAtom)
    ensures x.internRequests == old(x.internRequests) +
      (if old(session.activeWindowAtom).None? then [InternRequest(NET_ACTIVE_WINDOW, ONLY_IF_EXISTS)] else [])
    ensures x.state == old(x.state) && x.heap == old(x.heap) && x.nextAddress == old(x.nextAddress)
    ensures x.freed == old(x.freed) && x.propertyRequests == old(x.propertyRequests)
  {
    if session.activeWindowAtom.None? {
      ActiveWindowNameHasNoNul();
      var interned := New(x, session.display, NET_ACTIVE_WINDOW);
      session.activeWindowAtom := Some(interned.value);
    }
    atom := session.activeWindowAtom.value;
  }

  /** The part of `active_window` after both slots are filled: one property
      request on the root, the decode, and one `XFree` of whatever buffer came
      back; a failed request frees nothing. */
  method QueryActiveWindow(x: XServer, display: Display, root: Window, atom: Atom)
    returns (r: Result<Window, NotSupported>)
    requires x.Valid()
    modifies x
    ensures x.Valid()
    ensures x.internRequests == old(x.internRequests)
    ensures x.propertyRequests == old(x.propertyRequests) + [Request(root, atom, XA_WINDOW)]
    ensures var reply := Reply(old(x.state), root, atom, XA_WINDOW);
      && (reply.status != SUCCESS ==> x.freed == old(x.freed))
      && (reply.status == SUCCESS ==>
            x.freed == old(x.freed) + [if reply.data.Some? then old(x.nextAddress) else NULL])
      && x.nextAddress == old(x.nextAddress) + (if reply.data.Some? then 1 else 0)
    ensures x.heap == old(x.heap) && x.state == old(x.state)
    ensures r == match ActiveWindowOf(old(x.state), root.id, atom)
                 case Some(w) => Ok(w)
                 case None => Err(NotSupported)
  {
    ghost var heapBefore := x.heap;
    var response := GetWindowProperty(x, display, root, atom, XA_WINDOW);
    if response.Err? {
      DecodedReplyIsActiveWindow(old(x.state), root.id, atom, x.heap, NULL);
      return Err(NotSupported);
    }
    var resp := response.value;
    DecodedReplyIsActiveWindow(old(x.state), root.id, atom, x.heap, resp.properReturn);
    var window := DecodeActiveWindow(resp.actualFormatReturn, resp.nitemsReturn, x.heap, resp.properReturn);
    x.XFree(resp.properReturn);
    assert x.heap == heapBefore;
    r := if window.Some? then Ok(window.value) else Err(NotSupported);
  }

  /** `Window::active_window`.  Fills the root-window slot and the atom slot
      only when they are unset (interning `_NET_ACTIVE_WINDOW` at most once),
      sends one property request, and on a reply frees the returned buffer
      exactly once before answering; a failed request frees nothing. */
  method ActiveWindow(session: Session, x: XServer) returns (r: Result<Window, NotSupported>)
    requires x.Valid()
    modifies session, x
    ensures x.Valid()
    ensures session.rootWindow ==
      if old(session.rootWindow).None? then Some(Window(x.root)) else old(session.rootWindow)
    ensures session.activeWindowAtom ==
      if old(session.activeWindowAtom).None?
      then Some(Atom(Intern(old(x.state), NET_ACTIVE_WINDOW, ONLY_IF_EXISTS).atom))
      else old(session.activeWindowAtom)
    ensures session.clientListAtom == old(session.clientListAtom)
    ensures x.internRequests == old(x.internRequests) +
      (if old(session.activeWindowAtom).None? then [InternRequest(NET_ACTIVE_WINDOW, ONLY_IF_EXISTS)] else [])
    ensures x.propertyRequests == old(x.propertyRequests) +
      [Request(session.rootWindow.value, session.activeWindowAtom.value, XA_WINDOW)]
    ensures var reply := Reply(old(x.state), session.rootWindow.value, session.activeWindowAtom.value, XA_WINDOW);
      && (reply.status != SUCCESS ==> r == Err(NotSupported) && x.freed == old(x.freed))
      && (reply.status == SUCCESS ==>
            x.freed == old(x.freed) + [if reply.data.Some? then old(x.nextAddress) else NULL])
      && x.nextAddress == old(x.nextAddress) + (if reply.data.Some? then 1 else 0)
    ensures x.heap == old(x.heap) && x.state == old(x.state)
    ensures r == match ActiveWindowOf(old(x.state), session.rootWindow.value.id, session.activeWindowAtom.value)
                 case Some(w) => Ok(w)
                 case None => Err(NotSupported)
  {
    if session.rootWindow.None? {
      session.rootWindow := Some(DefaultRootWindow(x, session.display));
    }
    var root := session.rootWindow.value;
    var atom := ActiveWindowAtom(session, x);
    r := QueryActiveWindow(x, session.display, root, atom);
  }

  /** `active_window` as EWMH intends it: the same queries, but a
      `_NET_ACTIVE_WINDOW` of `None` (no window has the focus) is
      `NotSupported` rather than `Window(0)`. */
  method FocusedWindow(session: Session, x: XServer) returns (r: Result<Window, NotSupported>)
    requires x.Valid()
    modifies session, x
    ensures x.Valid()
    ensures session.rootWindow ==
      if old(session.rootWindow).None? then Some(Window(x.root)) else old(session.rootWindow)
    ensures session.activeWindowAtom ==
      if old(session.activeWindowAtom).None?
      then Some(Atom(Intern(old(x.state), NET_ACTIVE_WINDOW, ONLY_IF_EXISTS).atom))
      else old(session.activeWindowAtom)
    ensures session.clientListAtom == old(session.clientListAtom)
    ensures x.internRequests == old(x.internRequests) +
      (if old(session.activeWindowAtom).None? then [InternRequest(NET_ACTIVE_WINDOW, ONLY_IF_EXISTS)] else [])
    ensures x.propertyRequests == old(x.propertyRequests) +
      [Request(session.rootWindow.value, session.activeWindowAtom.value, XA_WINDOW)]
    ensures var reply := Reply(old(x.state), session.rootWindow.value, session.activeWindowAtom.value, XA_WINDOW);
      && (reply.status != SUCCESS ==> x.freed == old(x.freed))
      && (reply.status == SUCCESS ==>
            x.freed == old(x.freed) + [if reply.data.Some? then old(x.nextAddress) else NULL])
      && x.nextAddress == old(x.nextAddress) + (if reply.data.Some? then 1 else 0)
    ensures r == match FocusedWindowOf(old(x.state), session.rootWindow.value.id, session.activeWindowAtom.value)
                 case Some(w) => Ok(w)
                 case None => Err(NotSupported)
    ensures r.Ok? ==> r.value.id != NONE
    ensures x.heap == old(x.heap) && x.state == old(x.state)
  {
    r := ActiveWindow(session, x);
    if r.Ok? && r.value.id == NONE {
      r := Err(NotSupported);
    }
  }

  /** A title, as `CStr::from_ptr` reads it from the text Xlib returned: the
      bytes up to the first NUL. */
  function TitleOf(name: seq<nat>): (t: seq<nat>)
    ensures |t| <= |name| && t == name[..|t|]
    ensures forall i :: 0 <= i < |t| ==> t[i] != 0
    ensures |t| < |name| ==> name[|t|] == 0
  {
    name[..FirstNul(name)]
  }

  /** A name without NUL bytes is its own title, byte for byte. */
  lemma NulFreeNameIsTitle(name: seq<nat>)
    requires forall i :: 0 <= i < |name| ==> name[i] != 0
    ensures TitleOf(name) == name
  {
    NulFreeIsWholeString(name);
  }

  /** `WindowTitle`: a view of a buffer Xlib allocated for a window's name.
      Releasing it is the `Drop` that frees the buffer. */
  class WindowTitle {
    const address: Address
    ghost var released: bool

    /** Not yet released, and its buffer is live and NUL-terminated. */
    ghost predicate Live(x: XServer)
      reads this, x
    {
      && !released
      && address in x.heap
      && x.heap[address].width == W8
      && FirstNul(x.heap[address].items) < |x.heap[address].items|
    }

    constructor (address: Address)
      ensures this.address == address && !released
    {
      this.address := address;
      released := false;
    }

    /** `as_ref`: the title's bytes, without the terminator; only readable while
        the buffer is live. */
    function AsRef(x: XServer): (text: seq<byte>)
      reads this, x
      requires x.Valid() && Live(x)
      ensures |text| < |x.heap[address].items| && text == x.heap[address].items[..|text|]
      ensures x.heap[address].items[|text|] == 0
      ensures forall i :: 0 <= i < |text| ==> text[i] != 0
    {
      var items := x.heap[address].items;
      assert forall i :: 0 <= i < |items| ==> items[i] < 0x100;
      items[..FirstNul(items)]
    }

    /** `drop`: frees the title's buffer; a released title cannot be released
        again or read. */
    method Release(x: XServer)
      requires x.Valid() && Live(x)
      modifies this, x
      ensures x.Valid() && released
      ensures x.freed == old(x.freed) + [address]
      ensures x.heap == old(x.heap) - {address} && x.nextAddress == old(x.nextAddress)
      ensures x.state == old(x.state)
      ensures x.propertyRequests == old(x.propertyRequests) && x.internRequests == old(x.internRequests)
    {
      x.XFree(address);
      released := true;
    }
  }

  /** `Window::get_title`.  A NULL text value is `Err(Null)` and allocates
      nothing; otherwise a live title whose bytes are the window's name up to
      its first NUL, with its buffer still to be freed by `Release`. */
  method GetTitle(window: Window, x: XServer, display: Display) returns (r: Result<WindowTitle, Null>)
    requires x.Valid()
    modifies x
    ensures x.Valid()
    ensures r.Err? <==> WMName(old(x.state), window.id).None?
    ensures r.Err? ==> x.heap == old(x.heap) && x.nextAddress == old(x.nextAddress)
    ensures r.Ok? ==> && fresh(r.value)
                      && r.value.address == old(x.nextAddress) && x.nextAddress == old(x.nextAddress) + 1
                      && r.value.address !in old(x.heap)
                      && x.heap.Keys == old(x.heap).Keys + {r.value.address}
                      && (forall a :: a in old(x.heap) ==> x.heap[a] == old(x.heap)[a])
                      && r.value.Live(x)
                      && r.value.AsRef(x) == TitleOf(WMName(old(x.state), window.id).value)
    ensures x.freed == old(x.freed) && x.state == old(x.state)
    ensures x.propertyRequests == old(x.propertyRequests) && x.internRequests == old(x.internRequests)
  {
    var status, value := x.XGetWMName(window.id);
    if value != NULL {
      var name := WMName(x.state, window.id).value;
      FirstNulOfTerminated(name);
      var title := new WindowTitle(value);
      assert x.heap[value].items == name + [0];
      assert x.heap[value].items[..FirstNul(name)] == name[..FirstNul(name)];
      return Ok(title);
    }
    r := Err(Null);
  }
}
