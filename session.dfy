/** `Session`: an open display plus the slots that are filled on first use:
    the root window and the atoms the queries need. */
module Sessions {
  import opened XTypes

  /** `Display::open`, given what `XOpenDisplay` returned: a NULL pointer means
      no server could be reached. */
  function OpenDisplay(xOpenDisplayReturn: Address): (r: Result<Display, Null>)
    ensures r.Err? <==> xOpenDisplayReturn == NULL
    ensures r.Ok? ==> r.value.handle == xOpenDisplayReturn
  {
    if xOpenDisplayReturn == NULL then Err(Null) else Ok(Display(xOpenDisplayReturn))
  }

  class Session {
    /** The open display; the session never replaces it. */
    const display: Display
    var rootWindow: Option<Window>
    var clientListAtom: Option<Atom>
    /** Read and filled by `active_window`; see README on why it exists here. */
    var activeWindowAtom: Option<Atom>

    /** Every slot still unset. */
    predicate Unset()
      reads this
    {
      rootWindow.None? && clientListAtom.None? && activeWindowAtom.None?
    }

    /** `Session::from_display`: always succeeds, keeps the display it is given,
        and leaves every slot unset. */
    constructor FromDisplay(display: Display)
      ensures this.display == display
      ensures Unset()
    {
      this.display := display;
      rootWindow := None;
      clientListAtom := None;
      activeWindowAtom := None;
    }

    /** `Session::open`: a failed `Display::open` is passed on as `Err(Null)`
        and no session is built; otherwise a new session with every slot unset. */
    static method Open(xOpenDisplayReturn: Address) returns (r: Result<Session, Null>)
      ensures r.Err? <==> xOpenDisplayReturn == NULL
      ensures r.Ok? ==> fresh(r.value) && r.value.display == Display(xOpenDisplayReturn) && r.value.Unset()
    {
      var display := OpenDisplay(xOpenDisplayReturn);
      if display.Err? {
        return Err(display.error);
      }
      var session := new Session.FromDisplay(display.value);
      r := Ok(session);
    }
  }
}
