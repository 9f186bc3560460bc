/** `get_window_property`: one bounded `XGetWindowProperty` request whose
    status becomes a `Result`, and the response record it fills. */
module WindowProperty {
  import opened XTypes
  import opened Xlib

  /** `GetWindowPropertyResponse`: the out-values of `XGetWindowProperty`.  The
      buffer at `properReturn` belongs to whoever holds the response, who must
      `XFree` it. */
  datatype GetWindowPropertyResponse = GetWindowPropertyResponse(
    actualTypeReturn: nat,
    actualFormatReturn: int,
    nitemsReturn: nat,
    bytesAfterReturn: nat,
    properReturn: Address)

  /** The fixed request parameters: from the start, 4096 bytes counted in
      32-bit units, and never delete. */
  const LONG_OFFSET: nat := 0
  const LONG_LENGTH: nat := 4096 / 4
  const DELETE: bool := false

  /** The one request `get_window_property` sends. */
  function Request(window: Window, property: Atom, expectedType: nat): PropertyRequest
  {
    PropertyRequest(window.id, property.value, LONG_OFFSET, LONG_LENGTH, DELETE, expectedType)
  }

  /** The server's reply to that request. */
  function Reply(s: ServerState, window: Window, property: Atom, expectedType: nat): PropertyReply
  {
    GetProperty(s, window.id, property.value, LONG_OFFSET, LONG_LENGTH, expectedType)
  }

  /** The request succeeds exactly when the window exists and both atoms are
      ones the server knows; reading from offset 0 never draws BadValue. */
  lemma ReplyStatus(s: ServerState, window: Window, property: Atom, expectedType: nat)
    ensures Reply(s, window, property, expectedType).status == SUCCESS <==>
      && window.id in s.windows
      && Defined(s, property.value)
      && (expectedType == ANY_PROPERTY_TYPE || Defined(s, expectedType))
  {
  }

  /** A property the window does not have: format 0, type `None`, no items,
      nothing left over and a NULL buffer. */
  lemma MissingPropertyReply(s: ServerState, window: Window, property: Atom, expectedType: nat)
    requires Reply(s, window, property, expectedType).status == SUCCESS
    requires PropertyKey(window.id, property.value) !in s.properties
    ensures var r := Reply(s, window, property, expectedType);
            r.actualType == NONE && r.actualFormat == 0 && r.nitems == 0 && r.bytesAfter == 0 && r.data.None?
  {
  }

  /** A property of another type than the one asked for: its real type and
      format, its whole length as left over, and an empty item list. */
  lemma TypeMismatchReply(s: ServerState, window: Window, property: Atom, expectedType: nat)
    requires Reply(s, window, property, expectedType).status == SUCCESS
    requires PropertyKey(window.id, property.value) in s.properties
    requires var p := s.properties[PropertyKey(window.id, property.value)];
             expectedType != ANY_PROPERTY_TYPE && expectedType != p.propertyType
    ensures var p := s.properties[PropertyKey(window.id, property.value)];
            var r := Reply(s, window, property, expectedType);
            && r.actualType == p.propertyType && r.actualFormat == Format(p.width)
            && r.nitems == 0 && r.data == Some(Buffer(p.width, []))
            && r.bytesAfter == ByteLength(p)
  {
  }

  /** A property of the asked-for type: the leading elements that fit in 4096
      bytes, the exact number of bytes that did not fit in `bytes_after`. */
  lemma MatchingReply(s: ServerState, window: Window, property: Atom, expectedType: nat)
    requires Reply(s, window, property, expectedType).status == SUCCESS
    requires PropertyKey(window.id, property.value) in s.properties
    requires var p := s.properties[PropertyKey(window.id, property.value)];
             expectedType == ANY_PROPERTY_TYPE || expectedType == p.propertyType
    ensures var p := s.properties[PropertyKey(window.id, property.value)];
            var r := Reply(s, window, property, expectedType);
            && r.actualType == p.propertyType && r.actualFormat == Format(p.width)
            && r.nitems * WireBytes(p.width) <= 4 * LONG_LENGTH
            && r.nitems <= |p.items|
            && r.data == Some(Buffer(p.width, p.items[..r.nitems]))
            && r.nitems * WireBytes(p.width) + r.bytesAfter == ByteLength(p)
            && (r.bytesAfter == 0 <==> r.nitems == |p.items|)
  {
    var p := s.properties[PropertyKey(window.id, property.value)];
    match p.width
    case W8 =>
    case W16 =>
    case W32 =>
  }

  /** `get_window_property`: one request, `Ok` with the five out-values copied
      unchanged exactly when the status is 0, `Err(NotSupported)` otherwise.
      The buffer is handed to the caller, not freed here. */
  method GetWindowProperty(x: XServer, display: Display, window: Window, property: Atom, expectedType: nat)
    returns (r: Result<GetWindowPropertyResponse, NotSupported>)
    requires x.Valid()
    modifies x
    ensures x.Valid()
    ensures x.propertyRequests == old(x.propertyRequests) + [Request(window, property, expectedType)]
    ensures var reply := Reply(old(x.state), window, property, expectedType);
      && (r.Ok? <==> reply.status == SUCCESS)
      && (r.Ok? ==> r.value == GetWindowPropertyResponse(
                      reply.actualType, reply.actualFormat, reply.nitems, reply.bytesAfter,
                      if reply.data.Some? then old(x.nextAddress) else NULL))
      && x.heap == (if reply.data.Some? then old(x.heap)[old(x.nextAddress) := reply.data.value] else old(x.heap))
      && x.nextAddress == (if reply.data.Some? then old(x.nextAddress) + 1 else old(x.nextAddress))
    ensures r.Ok? ==> r.value.properReturn !in old(x.heap)
    ensures x.state == old(x.state)
    ensures x.freed == old(x.freed) && x.internRequests == old(x.internRequests)
  {
    var status, actualType, actualFormat, nitems, bytesAfter, proper :=
      x.XGetWindowProperty(window.id, property.value, LONG_OFFSET, LONG_LENGTH, DELETE, expectedType);
    if status == SUCCESS {
      return Ok(GetWindowPropertyResponse(actualType, actualFormat, nitems, bytesAfter, proper));
    }
    r := Err(NotSupported);
  }
}
