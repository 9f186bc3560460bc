/** Values shared by every part of the binding: X ids, the Rust wrappers around
    them, the error markers, and the C-string scan that both `CString::new` and
    `CStr::from_ptr` perform. */
module XTypes {

  /** An 8-bit unsigned value (`u8`, `c_uchar`). */
  type byte = b: nat | b < 0x100

  /** A client-side memory address; 0 is the null pointer. */
  type Address = nat

  const NULL: Address := 0

  /** An X resource id (`Window`, `Atom` and `XID` are all `c_ulong`). */
  type XID = nat

  /** The X `None` value: no atom, no window. */
  const NONE: nat := 0

  /** `AnyPropertyType` as a requested type. */
  const ANY_PROPERTY_TYPE: nat := 0

  /** Predefined atoms of the core protocol the binding names (`XA_CARDINAL`,
      `XA_STRING`, `XA_WINDOW`, `XA_WM_NAME`), and `XA_LAST_PREDEFINED`, the
      largest predefined one. */
  const XA_CARDINAL: nat := 6
  const XA_STRING: nat := 31
  const XA_WINDOW: nat := 33
  const XA_WM_NAME: nat := 39
  const XA_LAST_PREDEFINED: nat := 68

  /** `XWindow` is `c_ulong`, 64 bits wide on the hosts the binding targets. */
  const XWINDOW_MODULUS: nat := 0x1_0000_0000_0000_0000

  datatype Option<+T> = None | Some(value: T)

  datatype Result<+T, +E> = Ok(value: T) | Err(error: E)

  /** `Window(pub XWindow)`: a copyable window id with no ownership. */
  datatype Window = Window(id: XID)

  /** `Atom(pub XAtom)`: compared by its numeric value. */
  datatype Atom = Atom(value: nat)

  /** `Display(*mut XDisplay)`: an opaque handle to an open connection. */
  datatype Display = Display(handle: Address)

  /** The crate's `Null` marker: a pointer came back null. */
  datatype Null = Null

  /** The crate's `NotSupported` marker: the server did not give the property. */
  datatype NotSupported = NotSupported

  /** `std::ffi::NulError`: the position of the first NUL byte and the input. */
  datatype NulError = NulError(position: nat, bytes: seq<byte>)

  /** The Rust cast `v as XWindow` (`as u64`): keeps the low 64 bits. */
  function AsXWindow(v: nat): (w: XID)
    ensures w < XWINDOW_MODULUS
    ensures v < XWINDOW_MODULUS ==> w == v
  {
    v % XWINDOW_MODULUS
  }

  /** Index of the first 0 in `s`, or `|s|` when there is none: what `memchr`
      finds in `CString::new` and what `strlen` finds in `CStr::from_ptr`. */
  function FirstNul(s: seq<nat>): (i: nat)
    ensures i <= |s|
    ensures forall j :: 0 <= j < i ==> s[j] != 0
    ensures i < |s| ==> s[i] == 0
  {
    if |s| == 0 then 0
    else if s[0] == 0 then 0
    else 1 + FirstNul(s[1..])
  }

  /** The bytes of an ASCII string literal. */
  function Ascii(s: string): (b: seq<byte>)
    requires forall i :: 0 <= i < |s| ==> s[i] < 128 as char
    ensures |b| == |s|
    ensures forall i :: 0 <= i < |s| ==> b[i] == s[i] as nat
  {
    seq(|s|, i requires 0 <= i < |s| => s[i] as nat)
  }

  /** The characters of a byte string, one per byte. */
  function Chars(b: seq<byte>): (s: string)
    ensures |s| == |b|
    ensures forall i :: 0 <= i < |b| ==> s[i] as nat == b[i]
  {
    seq(|b|, i requires 0 <= i < |b| => b[i] as char)
  }

  /** Reading the bytes of an ASCII literal as characters gives the literal back. */
  lemma CharsOfAscii(s: string)
    requires forall i :: 0 <= i < |s| ==> s[i] < 128 as char
    ensures Chars(Ascii(s)) == s
  {
  }

  /** Appending a terminator does not move the first NUL: a C string read
      back from `bytes + [0]` is `bytes` up to its own first NUL. */
  lemma {:induction false} FirstNulOfTerminated(bytes: seq<nat>)
    ensures FirstNul(bytes + [0]) == FirstNul(bytes)
  {
    var s := bytes + [0];
    assert s[|bytes|] == 0;
    assert forall j :: 0 <= j < |bytes| ==> s[j] == bytes[j];
  }

  /** With no NUL in it, all of `bytes` is read back. */
  lemma NulFreeIsWholeString(bytes: seq<nat>)
    requires forall j :: 0 <= j < |bytes| ==> bytes[j] != 0
    ensures FirstNul(bytes) == |bytes|
  {
  }
}
