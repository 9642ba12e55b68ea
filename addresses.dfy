/**
 * The address controller: a per-user address book in which at most one
 * address of each user carries `isDefault`, kept by clearing the flag on the
 * user's addresses before setting it on one.
 */
module Addresses {
  import opened Common
  import opened Models
  import opened Store

  /** The invariant of the address book, for one user. */
  predicate AtMostOneDefault(book: map<Id, Address>, user: Id) {
    forall a, b ::
      (a in book && b in book && book[a].user == user && book[b].user == user &&
       book[a].isDefault && book[b].isDefault) ==> a == b
  }

  /** Address `id` is the user's default and no other address of the user is. */
  predicate OnlyDefault(book: map<Id, Address>, user: Id, id: Id) {
    id in book && forall k :: k in book && book[k].user == user ==> (book[k].isDefault <==> k == id)
  }

  /** `Address.updateMany({ user, isDefault: true }, { isDefault: false })` */
  function ClearDefaults(book: map<Id, Address>, user: Id): (r: map<Id, Address>)
    ensures r.Keys == book.Keys
    ensures forall k :: k in r && r[k].user == user ==> !r[k].isDefault
    ensures forall k :: k in r ==> r[k].(isDefault := book[k].isDefault) == book[k]
    ensures forall k :: k in r && book[k].user != user ==> r[k] == book[k]
  {
    map k | k in book :: if book[k].user == user then book[k].(isDefault := false) else book[k]
  }

  /** The body of a create request. */
  datatype AddressForm = AddressForm(
    name: string, addressLine1: string, addressLine2: string, city: string, state: string,
    postalCode: string, country: string, phone: string, isDefault: bool)

  /** The body of an update request: every field may be absent. */
  datatype AddressPatch = AddressPatch(
    name: Option<string>, addressLine1: Option<string>, addressLine2: Option<string>,
    city: Option<string>, state: Option<string>, postalCode: Option<string>,
    country: Option<string>, phone: Option<string>, isDefault: Option<bool>)

  function NewAddress(user: Id, f: AddressForm): Address {
    Address(user, f.name, f.addressLine1, f.addressLine2, f.city, f.state, f.postalCode, f.country, f.phone, f.isDefault)
  }

  /**
   * The field merge of updateAddress: the required text fields keep their
   * value when the new one is absent or empty; addressLine2 and isDefault
   * are replaced whenever they are present, even by "" or false.
   */
  function Merge(a: Address, p: AddressPatch): (r: Address)
    ensures r.user == a.user
    ensures r.name == if p.name.Some? && p.name.value != "" then p.name.value else a.name
    ensures r.addressLine1 == if p.addressLine1.Some? && p.addressLine1.value != "" then p.addressLine1.value else a.addressLine1
    ensures r.city == if p.city.Some? && p.city.value != "" then p.city.value else a.city
    ensures r.state == if p.state.Some? && p.state.value != "" then p.state.value else a.state
    ensures r.postalCode == if p.postalCode.Some? && p.postalCode.value != "" then p.postalCode.value else a.postalCode
    ensures r.country == if p.country.Some? && p.country.value != "" then p.country.value else a.country
    ensures r.phone == if p.phone.Some? && p.phone.value != "" then p.phone.value else a.phone
    ensures r.addressLine2 == if p.addressLine2.Some? then p.addressLine2.value else a.addressLine2
    ensures r.isDefault == if p.isDefault.Some? then p.isDefault.value else a.isDefault
  {
    a.(name := OrStr(p.name, a.name),
       addressLine1 := OrStr(p.addressLine1, a.addressLine1),
       addressLine2 := p.addressLine2.Or(a.addressLine2),
       city := OrStr(p.city, a.city),
       state := OrStr(p.state, a.state),
       postalCode := OrStr(p.postalCode, a.postalCode),
       country := OrStr(p.country, a.country),
       phone := OrStr(p.phone, a.phone),
       isDefault := p.isDefault.Or(a.isDefault))
  }

  /** An empty update leaves the address as it was. */
  lemma MergeNothing(a: Address)
    ensures Merge(a, AddressPatch(None, None, None, None, None, None, None, None, None)) == a
  {
  }

  /** Clear-then-set by the owner makes the target the owner's only default. */
  lemma ClearThenSetIsOnlyDefault(book: map<Id, Address>, id: Id, a: Address)
    requires id in book && a.user == book[id].user && a.isDefault
    ensures OnlyDefault(ClearDefaults(book, a.user)[id := a], a.user, id)
    ensures forall u :: AtMostOneDefault(book, u) ==> AtMostOneDefault(ClearDefaults(book, a.user)[id := a], u)
  {
  }

  /** Deleting the default address leaves its owner with no default: nothing is promoted. */
  lemma DeleteDefaultLeavesNone(book: map<Id, Address>, id: Id)
    requires id in book && book[id].isDefault && AtMostOneDefault(book, book[id].user)
    ensures forall k :: k in book - {id} && book[k].user == book[id].user ==> !(book - {id})[k].isDefault
  {
  }

  // ---------------------------------------------------------------------
  // Handlers
  // ---------------------------------------------------------------------

  /** GET /api/addresses/:id */
  method GetAddressById(db: Database, caller: Caller, id: Id) returns (r: Result<Address>)
    ensures id !in db.addresses ==> r == Err(404, "Address not found")
    ensures id in db.addresses && !OwnerOrAdmin(db.addresses[id].user, caller) ==> r == Err(401, "Not authorized")
    ensures r.Ok? <==> id in db.addresses && OwnerOrAdmin(db.addresses[id].user, caller)
    ensures r.Ok? ==> r.value == db.addresses[id]
  {
    if id in db.addresses {
      var address := db.addresses[id];
      if address.user != caller.id && !caller.isAdmin {
        return Err(401, "Not authorized");
      }
      return Ok(address);
    } else {
      return Err(404, "Address not found");
    }
  }

  /** POST /api/addresses: a default address first clears the caller's other defaults. */
  method CreateAddress(db: Database, caller: Caller, form: AddressForm, newId: Id) returns (r: Result<Address>)
    requires newId !in db.addresses
    modifies db`addresses
    ensures r == Ok(NewAddress(caller.id, form))
    ensures db.addresses == (if form.isDefault then ClearDefaults(old(db.addresses), caller.id) else old(db.addresses))[newId := r.value]
    ensures form.isDefault ==> OnlyDefault(db.addresses, caller.id, newId)
    ensures !form.isDefault ==> forall k :: k in old(db.addresses) ==> db.addresses[k] == old(db.addresses)[k]
    ensures forall u :: AtMostOneDefault(old(db.addresses), u) ==> AtMostOneDefault(db.addresses, u)
  {
    if form.isDefault {
      db.addresses := ClearDefaults(db.addresses, caller.id);
    }
    var address := NewAddress(caller.id, form);
    db.addresses := db.addresses[newId := address];
    r := Ok(address);
  }

  /** PUT /api/addresses/:id: merge the patch; becoming default clears the caller's other defaults. */
  method UpdateAddress(db: Database, caller: Caller, id: Id, patch: AddressPatch) returns (r: Result<Address>)
    modifies db`addresses
    ensures id !in old(db.addresses) ==> r == Err(404, "Address not found")
    ensures id in old(db.addresses) && !OwnerOrAdmin(old(db.addresses)[id].user, caller) ==> r == Err(401, "Not authorized")
    ensures r.Err? ==> db.addresses == old(db.addresses)
    ensures r.Ok? <==> id in old(db.addresses) && OwnerOrAdmin(old(db.addresses)[id].user, caller)
    ensures r.Ok? ==>
              var before := old(db.addresses)[id];
              var clears := patch.isDefault == Some(true) && !before.isDefault;
              r.value == Merge(before, patch) &&
              db.addresses == (if clears then ClearDefaults(old(db.addresses), caller.id) else old(db.addresses))[id := r.value]
    // the owner's own update keeps every user's single default
    ensures r.Ok? && old(db.addresses)[id].user == caller.id ==>
              forall u :: AtMostOneDefault(old(db.addresses), u) ==> AtMostOneDefault(db.addresses, u)
  {
    if id !in db.addresses {
      return Err(404, "Address not found");
    }
    var address := db.addresses[id];
    if address.user != caller.id && !caller.isAdmin {
      return Err(401, "Not authorized");
    }
    if patch.isDefault == Some(true) && !address.isDefault {
      db.addresses := ClearDefaults(db.addresses, caller.id);
    }
    address := Merge(address, patch);
    db.addresses := db.addresses[id := address];
    r := Ok(address);
  }

  /** DELETE /api/addresses/:id: removes only the target; no other address becomes default. */
  method DeleteAddress(db: Database, caller: Caller, id: Id) returns (r: Result<string>)
    modifies db`addresses
    ensures id !in old(db.addresses) ==> r == Err(404, "Address not found")
    ensures id in old(db.addresses) && !OwnerOrAdmin(old(db.addresses)[id].user, caller) ==> r == Err(401, "Not authorized")
    ensures r.Err? ==> db.addresses == old(db.addresses)
    ensures r.Ok? <==> id in old(db.addresses) && OwnerOrAdmin(old(db.addresses)[id].user, caller)
    ensures r.Ok? ==> r.value == "Address removed" && db.addresses == old(db.addresses) - {id}
    ensures forall u :: AtMostOneDefault(old(db.addresses), u) ==> AtMostOneDefault(db.addresses, u)
  {
    if id !in db.addresses {
      return Err(404, "Address not found");
    }
    var address := db.addresses[id];
    if address.user != caller.id && !caller.isAdmin {
      return Err(401, "Not authorized");
    }
    db.addresses := db.addresses - {id};
    r := Ok("Address removed");
  }

  /**
   * PUT /api/addresses/:id/default: clear the CALLER's defaults, then set the
   * target. When the caller owns the address it becomes the owner's only
   * default; an administrator acting on someone else's address clears the
   * administrator's own defaults instead (see AdminSetDefaultKeepsOldDefault).
   */
  method SetDefaultAddress(db: Database, caller: Caller, id: Id) returns (r: Result<Address>)
    modifies db`addresses
    ensures id !in old(db.addresses) ==> r == Err(404, "Address not found")
    ensures id in old(db.addresses) && !OwnerOrAdmin(old(db.addresses)[id].user, caller) ==> r == Err(401, "Not authorized")
    ensures r.Err? ==> db.addresses == old(db.addresses)
    ensures r.Ok? <==> id in old(db.addresses) && OwnerOrAdmin(old(db.addresses)[id].user, caller)
    ensures r.Ok? ==>
              r.value == old(db.addresses)[id].(isDefault := true) &&
              db.addresses == ClearDefaults(old(db.addresses), caller.id)[id := r.value]
    ensures r.Ok? && old(db.addresses)[id].user == caller.id ==> OnlyDefault(db.addresses, caller.id, id)
    // for the owner the handler agrees with the corrected rule below
    ensures r.Ok? && old(db.addresses)[id].user == caller.id ==> db.addresses == SetOwnersDefault(old(db.addresses), id)
  {
    if id !in db.addresses {
      return Err(404, "Address not found");
    }
    var address := db.addresses[id];
    if address.user != caller.id && !caller.isAdmin {
      return Err(401, "Not authorized");
    }
    db.addresses := ClearDefaults(db.addresses, caller.id);
    address := address.(isDefault := true);
    db.addresses := db.addresses[id := address];
    r := Ok(address);
  }

  // ---------------------------------------------------------------------
  // The administrator case of setDefaultAddress
  // ---------------------------------------------------------------------

  /**
   * As written: user 7 owns a default address 1 and an address 2; an
   * administrator (user 9) sets address 2 as default. The clear step targets
   * user 9, so user 7 ends up with two defaults.
   */
  lemma AdminSetDefaultKeepsOldDefault()
    ensures var a := Address(7, "Home", "1 Main St", "", "Springfield", "IL", "62701", "US", "555-0100", true);
            var book := map[1 := a, 2 := a.(isDefault := false)];
            AtMostOneDefault(book, 7) &&
            !AtMostOneDefault(ClearDefaults(book, 9)[2 := book[2].(isDefault := true)], 7)
  {
    var a := Address(7, "Home", "1 Main St", "", "Springfield", "IL", "62701", "US", "555-0100", true);
    var book := map[1 := a, 2 := a.(isDefault := false)];
    var after := ClearDefaults(book, 9)[2 := book[2].(isDefault := true)];
    assert after[1].isDefault && after[2].isDefault && after[1].user == after[2].user == 7;
  }

  /**
   * Corrected set-default: clear the OWNER's defaults, whoever the caller is.
   * The target becomes its owner's only default and nobody else's addresses change.
   */
  function SetOwnersDefault(book: map<Id, Address>, id: Id): (r: map<Id, Address>)
    requires id in book
    ensures r.Keys == book.Keys
    ensures OnlyDefault(r, book[id].user, id)
    ensures forall k :: k in book && book[k].user != book[id].user ==> r[k] == book[k]
    ensures forall u :: AtMostOneDefault(book, u) ==> AtMostOneDefault(r, u)
  {
    var owner := book[id].user;
    ClearThenSetIsOnlyDefault(book, id, book[id].(isDefault := true));
    ClearDefaults(book, owner)[id := book[id].(isDefault := true)]
  }
}
