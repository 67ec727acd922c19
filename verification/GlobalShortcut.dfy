/** The one hotkey the application holds. */
module GlobalShortcut {
  import opened Options
  import opened Chord

  datatype Status =
    | Registered(chord: ShortcutChord)
    | Disabled(chord: ShortcutChord)
    | Unavailable(wanted: Option<ShortcutChord>)

  datatype Preference = Preference(enabled: bool, chord: ShortcutChord)

  class GlobalShortcut {
    var status: Status
    var hotKey: Option<nat>
    var registered: Option<ShortcutChord>
    var handlerInstalled: bool
    var carbon: map<nat, ShortcutChord>    // the hotkeys the system holds for us

    /** The system holds exactly the hotkey the object knows of, and the status does
        not claim another. */
    ghost predicate Valid()
      reads this
    {
      && (hotKey.Some? <==> registered.Some?)
      && carbon == (if hotKey.Some? && registered.Some? then map[hotKey.value := registered.value] else map[])
      && (match registered
          case None => !status.Registered?
          case Some(chord) => status == Registered(chord) || status == Unavailable(Some(chord)))
    }

    constructor ()
      ensures Valid() && registered == None && !handlerInstalled
    {
      status, hotKey, registered, handlerInstalled, carbon := Unavailable(None), None, None, false, map[];
    }

    method Unregister()
      modifies `hotKey, `registered, `carbon
      ensures hotKey == None && registered == None
      ensures carbon == if old(hotKey).Some? then old(carbon) - {old(hotKey).value} else old(carbon)
    {
      if hotKey.Some? { carbon := carbon - {hotKey.value}; }
      hotKey := None;
      registered := None;
    }

    method Fail(chord: ShortcutChord)
      requires Valid()
      modifies `status
      ensures Valid() && status == if registered.None? then Unavailable(Some(chord)) else old(status)
    {
      if registered.None? { status := Unavailable(Some(chord)); }
    }

    /** `reserved` is the system's claim on the chord, `installs` whether the event
        handler can be installed, `reference` what registering returns. A failure
        leaves the hotkey that is held, and a success holds exactly the new one. */
    method Apply(enabled: bool, chord: ShortcutChord, reserved: bool, installs: bool, reference: Option<nat>)
      returns (ok: bool)
      requires Valid() && (reference.Some? ==> reference.value !in carbon)
      modifies this
      ensures Valid()
      ensures ok <==> !enabled || (!reserved && (old(registered) == Some(chord)
                                                 || ((old(handlerInstalled) || installs) && reference.Some?)))
      ensures !ok ==> hotKey == old(hotKey) && registered == old(registered) && carbon == old(carbon)
      ensures ok && enabled ==> registered == Some(chord) && status == Registered(chord)
      ensures ok && !enabled ==> registered == None && status == Disabled(chord)
      ensures !ok && status != old(status) ==>
        status == Unavailable(Some(chord)) && (old(registered) == None || (reserved && old(registered) == Some(chord)))
    {
      if !enabled {
        Unregister();
        status := Disabled(chord);
        return true;
      }
      if reserved {
        if registered == Some(chord) { status := Unavailable(Some(chord)); }
        Fail(chord);
        return false;
      }
      if registered == Some(chord) {
        status := Registered(chord);
        return true;
      }
      handlerInstalled := handlerInstalled || installs;
      if !handlerInstalled || reference.None? {
        Fail(chord);
        return false;
      }
      carbon := carbon[reference.value := chord];
      Unregister();
      hotKey := reference;
      registered := Some(chord);
      status := Registered(chord);
      ok := true;
    }

    /** What the preference file says, if it can be read. An unreadable one leaves
        the hotkey that is held, and the status with it. */
    method ApplyContents(contents: Option<Preference>, reserved: bool, installs: bool, reference: Option<nat>)
      returns (ok: bool)
      requires Valid() && (reference.Some? ==> reference.value !in carbon)
      modifies this
      ensures Valid() && (ok ==> contents.Some?)
      ensures !ok ==> hotKey == old(hotKey) && registered == old(registered) && carbon == old(carbon)
      ensures contents.None? ==> status == if old(registered).None? then Unavailable(None) else old(status)
      ensures ok ==> if contents.value.enabled then registered == Some(contents.value.chord) else registered == None
    {
      if contents.None? {
        if registered.None? { status := Unavailable(None); }
        return false;
      }
      ok := Apply(contents.value.enabled, contents.value.chord, reserved, installs, reference);
    }
  }
}
