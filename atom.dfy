/** `Atom::new`: turn a name into a C string, then ask the server for the atom
    of that name without creating one. */
module Atoms {
  import opened XTypes
  import opened Xlib

  /** `CString`: bytes with no NUL in them; `as_ptr` points at them followed by
      the terminating 0. */
  datatype CString = CString(bytes: seq<byte>)

  /** `XTrue`, passed as `only_if_exists`. */
  const ONLY_IF_EXISTS: bool := true

  /** `CString::new`: refuses input that holds a NUL byte, reporting the first
      one; anything else is kept as it is, with no truncation. */
  function CStringNew(bytes: seq<byte>): (r: Result<CString, NulError>)
    ensures r.Err? <==> exists i :: 0 <= i < |bytes| && bytes[i] == 0
    ensures r.Ok? ==> r.value.bytes == bytes
    ensures r.Err? ==> && r.error.bytes == bytes
                       && r.error.position < |bytes| && bytes[r.error.position] == 0
                       && forall j :: 0 <= j < r.error.position ==> bytes[j] != 0
  {
    var i := FirstNul(bytes);
    if i < |bytes| then Err(NulError(i, bytes)) else Ok(CString(bytes))
  }

  /** What `Atom::new(display, text)` returns against a server in state `s`. */
  function NewAtom(s: ServerState, text: seq<byte>): (r: Result<Atom, NulError>)
    requires WellFormed(s)
    ensures r.Err? <==> 0 in text
    ensures r.Ok? ==> (r.value == Atom(NONE) <==> PredefinedAtom(text) == NONE && text !in s.atoms)
    ensures r.Ok? ==> forall a :: Names(s, text, a) ==> r.value == Atom(a)
  {
    match CStringNew(text)
    case Err(e) => Err(e)
    case Ok(c) => Ok(Atom(Intern(s, c.bytes, ONLY_IF_EXISTS).atom))
  }

  /** A name with a NUL byte fails the same way whatever the server holds: the
      outcome is decided before the server is asked anything. */
  lemma NulFailureIgnoresServer(s1: ServerState, s2: ServerState, text: seq<byte>)
    requires WellFormed(s1) && WellFormed(s2)
    requires 0 in text
    ensures NewAtom(s1, text) == NewAtom(s2, text)
    ensures NewAtom(s1, text).Err?
  {
  }

  /** A predefined name resolves to its fixed atom on every server, whether or
      not any client has interned it. */
  lemma PredefinedNameResolves(s: ServerState)
    requires WellFormed(s)
    ensures NewAtom(s, Ascii("WINDOW")) == Ok(Atom(XA_WINDOW))
  {
    PredefinedConstants();
    var text := Ascii("WINDOW");
    assert forall i :: 0 <= i < |text| ==> text[i] == "WINDOW"[i] as nat;
  }

  /** `Atom::new`.  Only a NUL-free name reaches `XInternAtom`, exactly as
      given, with `only_if_exists` set, so the server creates nothing. */
  method New(x: XServer, display: Display, text: seq<byte>) returns (r: Result<Atom, NulError>)
    requires x.Valid()
    modifies x
    ensures x.Valid()
    ensures r == NewAtom(old(x.state), text)
    ensures x.internRequests == old(x.internRequests) + (if r.Ok? then [InternRequest(text, true)] else [])
    ensures x.state == old(x.state) && x.heap == old(x.heap) && x.nextAddress == old(x.nextAddress)
    ensures x.freed == old(x.freed) && x.propertyRequests == old(x.propertyRequests)
  {
    var c := CStringNew(text);
    if c.Err? {
      return Err(c.error);
    }
    var atom := x.XInternAtom(c.value.bytes, ONLY_IF_EXISTS);
    r := Ok(Atom(atom));
  }

  /** Two resolutions of one name on one connection give equal atoms. */
  method NewTwice(x: XServer, display: Display, text: seq<byte>) returns (a: Result<Atom, NulError>, b: Result<Atom, NulError>)
    requires x.Valid()
    modifies x
    ensures x.Valid()
    ensures a == b
    ensures a.Ok? <==> 0 !in text
  {
    a := New(x, display, text);
    b := New(x, display, text);
  }
}
