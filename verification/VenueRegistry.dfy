/** Names to dense slots (types/venue_registry.h): a slot, once given to a name, is that name's forever. */
module VenueRegistries {
  import opened Types

  function ToVenueId(name: string): Option<VenueId> {
    if name == "BINANCE" then Some(BINANCE)
    else if name == "BYBIT" then Some(BYBIT)
    else if name == "OKX" then Some(OKX)
    else None
  }

  function ToVenueString(venue: VenueId): string {
    match venue
    case BINANCE => "BINANCE"
    case BYBIT => "BYBIT"
    case OKX => "OKX"
  }

  /** A name is known exactly when it is the name of a venue, and then it is that one's. */
  lemma {:induction false} NameIsVenue(name: string, venue: VenueId)
    ensures ToVenueId(name) == Some(venue) <==> name == ToVenueString(venue)
    ensures ToVenueId(name) == None <==> forall v :: name != ToVenueString(v)
  {
    assert "OKX"[0] != "BINANCE"[0] && "OKX"[0] != "BYBIT"[0] && "BINANCE"[1] != "BYBIT"[1];
    assert ToVenueId(name) == None ==> forall v :: name != ToVenueString(v);
    if forall v :: name != ToVenueString(v) {
      assert name != ToVenueString(BINANCE) && name != ToVenueString(BYBIT) && name != ToVenueString(OKX);
    }
  }

  class VenueRegistry {
    /** The first `size` entries of the name array. */
    var names: seq<string>

    ghost predicate Valid()
      reads this
    {
      |names| <= 8 && forall i, j :: 0 <= i < j < |names| ==> names[i] != names[j]
    }

    constructor ()
      ensures Valid() && names == []
    {
      names := [];
    }

    method Find(name: string) returns (slot: Option<Slot>)
      requires Valid()
      ensures slot.Some? ==> slot.value < |names| && names[slot.value] == name
      ensures slot.None? ==> name !in names
    {
      var i := 0;
      while i < |names|
        invariant 0 <= i <= |names|
        invariant forall k :: 0 <= k < i ==> names[k] != name
      {
        if names[i] == name {
          return Some(i);
        }
        i := i + 1;
      }
      slot := None;
    }

    /** Idempotent by name; refuses only a new name when all slots are taken. No other name moves. */
    method Register(name: string) returns (slot: Option<Slot>)
      requires Valid()
      modifies this
      ensures Valid() && old(names) <= names
      ensures slot.Some? ==> slot.value < |names| && names[slot.value] == name
      ensures name in old(names) ==> names == old(names) && slot.Some?
      ensures name !in old(names) && |old(names)| < 8 ==> slot == Some(|old(names)|) && names == old(names) + [name]
      ensures slot.None? <==> name !in old(names) && |old(names)| == 8
      ensures slot.None? ==> names == old(names)
    {
      slot := Find(name);
      if slot.Some? {
        return;
      }
      if |names| >= MAX_VENUES {
        return None;
      }
      slot := Some(|names|);
      names := names + [name];
    }

    function Name(slot: Slot): string
      reads this
    {
      if slot >= |names| then "" else names[slot]
    }
  }
}
