/** The X server and the Xlib calls the binding makes, as an executable model.

    The server's protocol state (windows, atoms, properties) is a
    value; the Xlib client side adds the heap of buffers it hands to the caller,
    and ghost logs of every request and every `XFree` so that callers can state
    how often each happens.  The semantics follow the Xlib manual, section 4.3
    (`XInternAtom`) and section 4.4 (`XGetWindowProperty`, `XGetWMName` through
    `XGetTextProperty`). */
module Xlib {
  import opened XTypes

  /** The element width a property is stored with: its format 8, 16 or 32. */
  datatype Width = W8 | W16 | W32

  function Format(w: Width): int
  {
    match w
    case W8 => 8
    case W16 => 16
    case W32 => 32
  }

  /** Bytes one element takes in the protocol (format / 8). */
  function WireBytes(w: Width): nat
  {
    match w
    case W8 => 1
    case W16 => 2
    case W32 => 4
  }

  /** Every element of a property fits its format. */
  function ValueBound(w: Width): nat
  {
    match w
    case W8 => 0x100
    case W16 => 0x1_0000
    case W32 => 0x1_0000_0000
  }

  /** The host's `long`.  Xlib hands format-32 data back as an array of `long`,
      so on a 64-bit host each format-32 element takes a full native word. */
  const HOST_WORD_BITS: nat := 64

  /** Bits one element takes in the buffer Xlib returns. */
  function MemoryBits(w: Width): (bits: nat)
    ensures bits >= Format(w)
    ensures w == W32 ==> bits == HOST_WORD_BITS
  {
    match w
    case W8 => 8
    case W16 => 16
    case W32 => HOST_WORD_BITS
  }

  predicate Bounded(w: Width, items: seq<nat>)
  {
    forall i :: 0 <= i < |items| ==> items[i] < ValueBound(w)
  }

  /** A property as the server stores it: its type atom, format and elements. */
  datatype Property = Property(propertyType: nat, width: Width, items: seq<nat>)

  /** A buffer Xlib allocated: `items` read at `width` (the extra terminating
      byte Xlib adds is part of `items` only for text). */
  datatype Buffer = Buffer(width: Width, items: seq<nat>)

  datatype PropertyKey = PropertyKey(window: XID, atom: nat)

  /** What the server holds, as far as the binding can observe it.  `atoms`
      holds the names clients have interned; the predefined atoms are given by
      `PredefinedAtom`.  A window's name is its `WM_NAME` property. */
  datatype ServerState = ServerState(
    windows: set<XID>,
    atoms: map<seq<byte>, nat>,
    nextAtom: nat,
    properties: map<PropertyKey, Property>)

  /** The 68 atoms the core protocol predefines, numbered as in `X11/Xatom.h`;
      0 (`None`) for any other name. */
  function PredefinedAtom(name: seq<byte>): (a: nat)
    ensures a <= XA_LAST_PREDEFINED
  {
    match Chars(name)
    case "PRIMARY" => 1 case "SECONDARY" => 2 case "ARC" => 3 case "ATOM" => 4 case "BITMAP" => 5
    case "CARDINAL" => 6 case "COLORMAP" => 7 case "CURSOR" => 8
    case "CUT_BUFFER0" => 9 case "CUT_BUFFER1" => 10 case "CUT_BUFFER2" => 11 case "CUT_BUFFER3" => 12
    case "CUT_BUFFER4" => 13 case "CUT_BUFFER5" => 14 case "CUT_BUFFER6" => 15 case "CUT_BUFFER7" => 16
    case "DRAWABLE" => 17 case "FONT" => 18 case "INTEGER" => 19 case "PIXMAP" => 20 case "POINT" => 21
    case "RECTANGLE" => 22 case "RESOURCE_MANAGER" => 23 case "RGB_COLOR_MAP" => 24 case "RGB_BEST_MAP" => 25
    case "RGB_BLUE_MAP" => 26 case "RGB_DEFAULT_MAP" => 27 case "RGB_GRAY_MAP" => 28 case "RGB_GREEN_MAP" => 29
    case "RGB_RED_MAP" => 30 case "STRING" => 31 case "VISUALID" => 32 case "WINDOW" => 33
    case "WM_COMMAND" => 34 case "WM_HINTS" => 35 case "WM_CLIENT_MACHINE" => 36 case "WM_ICON_NAME" => 37
    case "WM_ICON_SIZE" => 38 case "WM_NAME" => 39 case "WM_NORMAL_HINTS" => 40 case "WM_SIZE_HINTS" => 41
    case "WM_ZOOM_HINTS" => 42 case "MIN_SPACE" => 43 case "NORM_SPACE" => 44 case "MAX_SPACE" => 45
    case "END_SPACE" => 46 case "SUPERSCRIPT_X" => 47 case "SUPERSCRIPT_Y" => 48 case "SUBSCRIPT_X" => 49
    case "SUBSCRIPT_Y" => 50 case "UNDERLINE_POSITION" => 51 case "UNDERLINE_THICKNESS" => 52
    case "STRIKEOUT_ASCENT" => 53 case "STRIKEOUT_DESCENT" => 54 case "ITALIC_ANGLE" => 55 case "X_HEIGHT" => 56
    case "QUAD_WIDTH" => 57 case "WEIGHT" => 58 case "POINT_SIZE" => 59 case "RESOLUTION" => 60
    case "COPYRIGHT" => 61 case "NOTICE" => 62 case "FONT_NAME" => 63 case "FAMILY_NAME" => 64
    case "FULL_NAME" => 65 case "CAP_HEIGHT" => 66 case "WM_CLASS" => 67 case "WM_TRANSIENT_FOR" => 68
    case _ => NONE
  }

  /** The predefined atoms the binding relies on have the numbers its constants give them. */
  lemma PredefinedConstants()
    ensures PredefinedAtom(Ascii("CARDINAL")) == XA_CARDINAL
    ensures PredefinedAtom(Ascii("STRING")) == XA_STRING
    ensures PredefinedAtom(Ascii("WINDOW")) == XA_WINDOW
    ensures PredefinedAtom(Ascii("WM_NAME")) == XA_WM_NAME
  {
    CharsOfAscii("CARDINAL");
    CharsOfAscii("STRING");
    CharsOfAscii("WINDOW");
    CharsOfAscii("WM_NAME");
  }

  /** The interned names: none is a predefined one, their atoms lie above the
      predefined range and below the next free atom, and no two names share
      one. */
  predicate AtomTable(atoms: map<seq<byte>, nat>, nextAtom: nat)
  {
    && XA_LAST_PREDEFINED < nextAtom
    && (forall n :: n in atoms ==> PredefinedAtom(n) == NONE && XA_LAST_PREDEFINED < atoms[n] < nextAtom)
    && (forall n, m :: n in atoms && m in atoms && atoms[n] == atoms[m] ==> n == m)
  }

  /** What every X server keeps true: a well-formed atom table; a property sits
      on an existing window, is named and typed by atoms the server knows, and
      fits its format; a window's `WM_NAME` text is 8-bit. */
  predicate WellFormed(s: ServerState)
  {
    && AtomTable(s.atoms, s.nextAtom)
    && (forall k :: k in s.properties ==>
          && k.window in s.windows
          && Defined(s, k.atom)
          && Defined(s, s.properties[k].propertyType)
          && Bounded(s.properties[k].width, s.properties[k].items))
    && (forall k :: k in s.properties && k.atom == XA_WM_NAME ==> s.properties[k].width == W8)
  }

  /** On a well-formed server every property has a real type, so a reply
      never carries a buffer under type `None`. */
  lemma PropertyTypeIsAnAtom(s: ServerState, k: PropertyKey)
    requires WellFormed(s) && k in s.properties
    ensures s.properties[k].propertyType != NONE
  {
  }

  /** A window's name: the elements of its `WM_NAME` property, if it has one. */
  function WMName(s: ServerState, w: XID): Option<seq<nat>>
  {
    var key := PropertyKey(w, XA_WM_NAME);
    if w in s.windows && key in s.properties then Some(s.properties[key].items) else None
  }

  /** Status values of `XGetWindowProperty`: `Success`, and the 1 Xlib returns
      when the request draws an error (BadWindow, BadAtom, BadValue). */
  const SUCCESS: int := 0
  const REPLY_FAILED: int := 1

  /** The five out-values of `XGetWindowProperty` with its status; `data` is the
      buffer stored at `prop_return`, absent when that pointer is NULL. */
  datatype PropertyReply = PropertyReply(
    status: int,
    actualType: nat,
    actualFormat: int,
    nitems: nat,
    bytesAfter: nat,
    data: Option<Buffer>)

  datatype PropertyRequest = PropertyRequest(
    window: XID, property: nat, longOffset: nat, longLength: nat, delete: bool, reqType: nat)

  datatype InternRequest = InternRequest(name: seq<byte>, onlyIfExists: bool)

  datatype InternReply = InternReply(atom: nat, state: ServerState)

  /** An atom the server can name: a predefined one or one interned so far. */
  predicate Defined(s: ServerState, a: nat)
  {
    (1 <= a <= XA_LAST_PREDEFINED) || a in s.atoms.Values
  }

  /** Length of the stored value in bytes, independent of the format. */
  function ByteLength(p: Property): nat
  {
    |p.items| * WireBytes(p.width)
  }

  function Min(a: nat, b: nat): nat
  {
    if a <= b then a else b
  }

  /** The reply to `XGetWindowProperty(w, property, long_offset, long_length,
      delete, req_type)`, as section 4.4 of the Xlib manual defines it. */
  function GetProperty(s: ServerState, w: XID, property: nat, longOffset: nat, longLength: nat, reqType: nat)
    : (r: PropertyReply)
    ensures r.status != SUCCESS ==> r.status == REPLY_FAILED && r.data.None?
    ensures r.data.Some? ==> Format(r.data.value.width) == r.actualFormat && |r.data.value.items| == r.nitems
  {
    var failed := PropertyReply(REPLY_FAILED, NONE, 0, 0, 0, None);
    var key := PropertyKey(w, property);
    if w !in s.windows || !Defined(s, property) || (reqType != ANY_PROPERTY_TYPE && !Defined(s, reqType)) then
      failed
    else if key !in s.properties then
      PropertyReply(SUCCESS, NONE, 0, 0, 0, None)
    else
      var p := s.properties[key];
      var n := ByteLength(p);
      if reqType != ANY_PROPERTY_TYPE && reqType != p.propertyType then
        PropertyReply(SUCCESS, p.propertyType, Format(p.width), 0, n, Some(Buffer(p.width, [])))
      else if 4 * longOffset > n then
        failed
      else
        var start := 4 * longOffset;
        var len := Min(n - start, 4 * longLength);
        var first := start / WireBytes(p.width);
        var count := len / WireBytes(p.width);
        SliceInBounds(p, longOffset, longLength);
        PropertyReply(SUCCESS, p.propertyType, Format(p.width), count, n - (start + len),
                      Some(Buffer(p.width, p.items[first..first + count])))
  }

  lemma SliceInBounds(p: Property, longOffset: nat, longLength: nat)
    requires 4 * longOffset <= ByteLength(p)
    ensures var start := 4 * longOffset;
            var len := Min(ByteLength(p) - start, 4 * longLength);
            start / WireBytes(p.width) + len / WireBytes(p.width) <= |p.items|
  {
    match p.width
    case W8 =>
    case W16 =>
    case W32 =>
  }

  /** Whether a request with `delete` set removes the property: only a complete
      read of an existing property of the requested type does. */
  predicate Deletes(s: ServerState, w: XID, property: nat, reqType: nat, r: PropertyReply)
  {
    && r.status == SUCCESS
    && PropertyKey(w, property) in s.properties
    && (reqType == ANY_PROPERTY_TYPE || reqType == s.properties[PropertyKey(w, property)].propertyType)
    && r.bytesAfter == 0
  }

  /** The server maps `name` to atom `a`: a predefined name to its number, an
      interned one to the atom it was given. */
  predicate Names(s: ServerState, name: seq<byte>, a: nat)
  {
    a != NONE && (PredefinedAtom(name) == a || (name in s.atoms && s.atoms[name] == a))
  }

  /** `XInternAtom(name, only_if_exists)`: the atom of a known name; for an
      unknown one, `None` when `only_if_exists` is set, a new atom otherwise. */
  function Intern(s: ServerState, name: seq<byte>, onlyIfExists: bool): (r: InternReply)
    requires WellFormed(s)
    ensures WellFormed(r.state)
    ensures onlyIfExists ==> r.state == s
    ensures r.atom == NONE <==> onlyIfExists && PredefinedAtom(name) == NONE && name !in s.atoms
    ensures r.atom != NONE ==> Names(r.state, name, r.atom)
    ensures forall a :: Names(s, name, a) ==> r.atom == a
    ensures forall n :: n in s.atoms ==> n in r.state.atoms && r.state.atoms[n] == s.atoms[n]
  {
    if PredefinedAtom(name) != NONE then InternReply(PredefinedAtom(name), s)
    else if name in s.atoms then InternReply(s.atoms[name], s)
    else if onlyIfExists then InternReply(NONE, s)
    else
      InternKeepsWellFormed(s, name);
      InternReply(s.nextAtom, s.(atoms := s.atoms[name := s.nextAtom], nextAtom := s.nextAtom + 1))
  }

  /** Giving a new name the next free atom keeps the server well formed. */
  lemma InternKeepsWellFormed(s: ServerState, name: seq<byte>)
    requires WellFormed(s) && PredefinedAtom(name) == NONE && name !in s.atoms
    ensures WellFormed(s.(atoms := s.atoms[name := s.nextAtom], nextAtom := s.nextAtom + 1))
  {
    var t := s.(atoms := s.atoms[name := s.nextAtom], nextAtom := s.nextAtom + 1);
    assert AtomTable(t.atoms, t.nextAtom);
    forall a | Defined(s, a)
      ensures Defined(t, a)
    {
      if a in s.atoms.Values {
        var n :| n in s.atoms && s.atoms[n] == a;
        assert t.atoms[n] == a;
      }
    }
  }

  /** The X server as one Xlib connection sees it. */
  class XServer {
    /** The screen's default root window (`XDefaultRootWindow`). */
    const root: XID
    var state: ServerState
    /** Buffers Xlib has allocated and not yet freed, by address. */
    var heap: map<Address, Buffer>
    var nextAddress: Address
    ghost var propertyRequests: seq<PropertyRequest>
    ghost var internRequests: seq<InternRequest>
    /** Every address passed to `XFree`, in order. */
    ghost var freed: seq<Address>

    ghost predicate Valid()
      reads this
    {
      && root in state.windows
      && WellFormed(state)
      && 0 < nextAddress
      && (forall a :: a in heap ==> 0 < a < nextAddress && Bounded(heap[a].width, heap[a].items))
    }

    constructor (root: XID, state: ServerState)
      requires root in state.windows
      requires WellFormed(state)
      ensures Valid()
      ensures this.root == root && this.state == state && heap == map[]
      ensures propertyRequests == [] && internRequests == [] && freed == []
    {
      this.root := root;
      this.state := state;
      heap := map[];
      nextAddress := 1;
      propertyRequests := [];
      internRequests := [];
      freed := [];
    }

    /** `XFree`: releases a buffer Xlib handed out; `XFree(NULL)` does nothing.
        Freeing anything else (a buffer already freed) is undefined, so it
        cannot be called. */
    method XFree(a: Address)
      requires Valid()
      requires a == NULL || a in heap
      modifies this
      ensures Valid()
      ensures heap == old(heap) - {a} && nextAddress == old(nextAddress)
      ensures freed == old(freed) + [a]
      ensures state == old(state)
      ensures propertyRequests == old(propertyRequests) && internRequests == old(internRequests)
    {
      heap := heap - {a};
      freed := freed + [a];
    }

    /** `XInternAtom`; `name` is a C string, so it holds no NUL. */
    method XInternAtom(name: seq<byte>, onlyIfExists: bool) returns (atom: nat)
      requires Valid()
      requires forall i :: 0 <= i < |name| ==> name[i] != 0
      modifies this
      ensures Valid()
      ensures atom == Intern(old(state), name, onlyIfExists).atom
      ensures state == Intern(old(state), name, onlyIfExists).state
      ensures internRequests == old(internRequests) + [InternRequest(name, onlyIfExists)]
      ensures heap == old(heap) && nextAddress == old(nextAddress) && freed == old(freed)
      ensures propertyRequests == old(propertyRequests)
    {
      var r := Intern(state, name, onlyIfExists);
      atom := r.atom;
      state := r.state;
      internRequests := internRequests + [InternRequest(name, onlyIfExists)];
    }

    /** `XGetWindowProperty`.  On success it allocates a fresh buffer for any
        property that exists (none when it does not) and returns its address;
        on failure the out-values other than the status are left unset. */
    method XGetWindowProperty(w: XID, property: nat, longOffset: nat, longLength: nat, delete: bool, reqType: nat)
      returns (status: int, actualType: nat, actualFormat: int, nitems: nat, bytesAfter: nat, prop: Address)
      requires Valid()
      modifies this
      ensures Valid()
      ensures var r := GetProperty(old(state), w, property, longOffset, longLength, reqType);
        && status == r.status
        && (status == SUCCESS ==>
              && actualType == r.actualType && actualFormat == r.actualFormat
              && nitems == r.nitems && bytesAfter == r.bytesAfter
              && prop == (if r.data.Some? then old(nextAddress) else NULL))
        && heap == (if r.data.Some? then old(heap)[old(nextAddress) := r.data.value] else old(heap))
        && nextAddress == (if r.data.Some? then old(nextAddress) + 1 else old(nextAddress))
        && state == (if delete && Deletes(old(state), w, property, reqType, r)
                     then old(state).(properties := old(state).properties - {PropertyKey(w, property)})
                     else old(state))
      ensures propertyRequests == old(propertyRequests) + [PropertyRequest(w, property, longOffset, longLength, delete, reqType)]
      ensures internRequests == old(internRequests) && freed == old(freed)
    {
      var r := GetProperty(state, w, property, longOffset, longLength, reqType);
      status, actualType, actualFormat, nitems, bytesAfter, prop := r.status, 0, 0, 0, 0, NULL;
      if r.status == SUCCESS {
        actualType, actualFormat, nitems, bytesAfter := r.actualType, r.actualFormat, r.nitems, r.bytesAfter;
      }
      if r.data.Some? {
        BufferOfPropertyIsBounded(state, w, property, longOffset, longLength, reqType);
        prop := nextAddress;
        heap := heap[nextAddress := r.data.value];
        nextAddress := nextAddress + 1;
      }
      if delete && Deletes(state, w, property, reqType, r) {
        state := state.(properties := state.properties - {PropertyKey(w, property)});
      }
      propertyRequests := propertyRequests + [PropertyRequest(w, property, longOffset, longLength, delete, reqType)];
    }

    /** `XGetWMName`: when the window has a `WM_NAME` property, a fresh buffer
        holding its text and the terminating 0 Xlib always appends; otherwise a
        NULL value. */
    method XGetWMName(w: XID) returns (status: bool, value: Address)
      requires Valid()
      modifies this
      ensures Valid()
      ensures status <==> WMName(old(state), w).Some?
      ensures status ==> value == old(nextAddress) && nextAddress == old(nextAddress) + 1
                         && heap == old(heap)[value := Buffer(W8, WMName(old(state), w).value + [0])]
      ensures !status ==> value == NULL && heap == old(heap) && nextAddress == old(nextAddress)
      ensures state == old(state) && freed == old(freed)
      ensures propertyRequests == old(propertyRequests) && internRequests == old(internRequests)
    {
      var name := WMName(state, w);
      status := name.Some?;
      value := NULL;
      if status {
        var text: seq<nat> := name.value + [0];
        value := nextAddress;
        heap := heap[nextAddress := Buffer(W8, text)];
        nextAddress := nextAddress + 1;
      }
    }
  }

  /** A buffer the server returns holds only elements of the stored property,
      so it is bounded by its width too. */
  lemma BufferOfPropertyIsBounded(s: ServerState, w: XID, property: nat, longOffset: nat, longLength: nat, reqType: nat)
    requires WellFormed(s)
    ensures var r := GetProperty(s, w, property, longOffset, longLength, reqType);
            r.data.Some? ==> Bounded(r.data.value.width, r.data.value.items)
  {
  }
}
