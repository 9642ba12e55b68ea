/**
 * The browser's copy of the user's address book (the Redux address slice):
 * the list, the address being viewed, and the loading/error/success flags
 * that every request lifecycle updates.
 */
module AddressSlice {
  import opened Common

  /** An address as the client holds it: the server document with its id. */
  datatype ClientAddress = ClientAddress(
    id: Id, name: string, addressLine1: string, addressLine2: string, city: string, state: string,
    postalCode: string, country: string, phone: string, isDefault: bool)

  predicate UniqueIds(list: seq<ClientAddress>) {
    forall i, j :: 0 <= i < j < |list| ==> list[i].id != list[j].id
  }

  // ---------------------------------------------------------------------
  // The list transitions of the fulfilled cases
  // ---------------------------------------------------------------------

  /** `addresses.map(a => a._id === payload._id ? payload : a)` */
  function ReplaceById(list: seq<ClientAddress>, payload: ClientAddress): (r: seq<ClientAddress>)
    ensures |r| == |list|
    ensures forall i :: 0 <= i < |list| ==> r[i] == if list[i].id == payload.id then payload else list[i]
  {
    seq(|list|, i requires 0 <= i < |list| => if list[i].id == payload.id then payload else list[i])
  }

  function IdIsNot(id: Id): ClientAddress -> bool {
    (a: ClientAddress) => a.id != id
  }

  /** `addresses.filter(a => a._id !== id)` */
  function RemoveById(list: seq<ClientAddress>, id: Id): seq<ClientAddress> {
    Filter(list, IdIsNot(id))
  }

  /** `addresses.map(a => ({ ...a, isDefault: a._id === payload._id }))` */
  function MarkDefault(list: seq<ClientAddress>, id: Id): (r: seq<ClientAddress>)
    ensures |r| == |list|
    ensures forall i :: 0 <= i < |list| ==> r[i] == list[i].(isDefault := list[i].id == id)
  {
    seq(|list|, i requires 0 <= i < |list| => list[i].(isDefault := list[i].id == id))
  }

  /** Replacing keeps ids, so a list of distinct ids stays one, and the payload is in the list iff its id was. */
  lemma ReplaceByIdKeepsIds(list: seq<ClientAddress>, payload: ClientAddress)
    requires UniqueIds(list)
    ensures UniqueIds(ReplaceById(list, payload))
    ensures payload in ReplaceById(list, payload) <==> exists i :: 0 <= i < |list| && list[i].id == payload.id
  {
    var r := ReplaceById(list, payload);
    if exists i :: 0 <= i < |list| && list[i].id == payload.id {
      var i :| 0 <= i < |list| && list[i].id == payload.id;
      assert r[i] == payload;
    }
  }

  /** Removing drops exactly the entries with that id and keeps the others in order. */
  lemma {:induction false} RemoveByIdExact(list: seq<ClientAddress>, id: Id)
    ensures forall a :: a in RemoveById(list, id) <==> a in list && a.id != id
    ensures |RemoveById(list, id)| <= |list|
    ensures (forall i :: 0 <= i < |list| ==> list[i].id != id) ==> RemoveById(list, id) == list
  {
    if forall i :: 0 <= i < |list| ==> list[i].id != id {
      FilterKeepsAll(list, IdIsNot(id));
    }
  }

  /** With distinct ids, removing an id that is present shortens the list by exactly one. */
  lemma {:induction false} RemoveByIdPresent(list: seq<ClientAddress>, k: nat)
    requires k < |list| && UniqueIds(list)
    ensures RemoveById(list, list[k].id) == list[..k] + list[k+1..]
  {
    var p := IdIsNot(list[k].id);
    if k == 0 {
      assert !p(list[0]);
      FilterKeepsAll(list[1..], p);
    } else {
      assert p(list[0]);
      var rest := list[1..];
      assert rest[k - 1] == list[k];
      RemoveByIdPresent(rest, k - 1);
      assert list[..k] == [list[0]] + rest[..k - 1];
      assert list[k + 1..] == rest[k..];
    }
  }

  /** After marking, at most one entry is the default, and exactly one if the id is in a list of distinct ids. */
  lemma MarkDefaultSingle(list: seq<ClientAddress>, id: Id)
    requires UniqueIds(list)
    ensures forall i, j :: 0 <= i < j < |list| ==> !(MarkDefault(list, id)[i].isDefault && MarkDefault(list, id)[j].isDefault)
    ensures forall i :: 0 <= i < |list| ==> (MarkDefault(list, id)[i].isDefault <==> list[i].id == id)
  {
  }

  // ---------------------------------------------------------------------
  // The slice state
  // ---------------------------------------------------------------------

  /** The six requests whose lifecycle the slice follows. */
  datatype Request = FetchAll | FetchOne | Create | Update | Delete | SetDefault

  /** Create, update and delete also reset `success` when they start and when they fail. */
  predicate TracksSuccess(q: Request) {
    q == Create || q == Update || q == Delete
  }

  class AddressState {
    var addresses: seq<ClientAddress>
    var address: Option<ClientAddress>
    var loading: bool
    var error: Option<string>
    var success: bool

    constructor ()
      ensures addresses == [] && address == None && !loading && error == None && !success
    {
      addresses, address, loading, error, success := [], None, false, None, false;
    }

    /** `clearAddressDetails` */
    method ClearAddressDetails()
      modifies this`address
      ensures address == None
    {
      address := None;
    }

    /** `clearError` */
    method ClearError()
      modifies this`error
      ensures error == None
    {
      error := None;
    }

    /** `resetSuccess` */
    method ResetSuccess()
      modifies this`success
      ensures !success
    {
      success := false;
    }

    /** Every `.pending` case: the list is not touched. */
    method Pending(q: Request)
      modifies this`loading, this`error, this`success
      ensures loading && error == None
      ensures success == if TracksSuccess(q) then false else old(success)
    {
      loading := true;
      error := None;
      if TracksSuccess(q) {
        success := false;
      }
    }

    /** Every `.rejected` case: the list is not touched. */
    method Rejected(q: Request, message: string)
      modifies this`loading, this`error, this`success
      ensures !loading && error == Some(message)
      ensures success == if TracksSuccess(q) then false else old(success)
    {
      loading := false;
      error := Some(message);
      if TracksSuccess(q) {
        success := false;
      }
    }

    method FetchAllFulfilled(payload: seq<ClientAddress>)
      modifies this`loading, this`addresses
      ensures !loading && addresses == payload
    {
      loading := false;
      addresses := payload;
    }

    method FetchOneFulfilled(payload: ClientAddress)
      modifies this`loading, this`address
      ensures !loading && address == Some(payload)
    {
      loading := false;
      address := Some(payload);
    }

    /** The created address is pushed at the end. */
    method CreateFulfilled(payload: ClientAddress)
      modifies this`loading, this`addresses, this`success
      ensures !loading && success
      ensures addresses == old(addresses) + [payload]
    {
      loading := false;
      addresses := addresses + [payload];
      success := true;
    }

    method UpdateFulfilled(payload: ClientAddress)
      modifies this`loading, this`addresses, this`success
      ensures !loading && success
      ensures addresses == ReplaceById(old(addresses), payload)
      ensures UniqueIds(old(addresses)) ==> UniqueIds(addresses)
    {
      loading := false;
      if UniqueIds(addresses) {
        ReplaceByIdKeepsIds(addresses, payload);
      }
      addresses := ReplaceById(addresses, payload);
      success := true;
    }

    /** The id removed is the one the request was made with. */
    method DeleteFulfilled(id: Id)
      modifies this`loading, this`addresses, this`success
      ensures !loading && success
      ensures addresses == RemoveById(old(addresses), id)
      ensures forall a :: a in addresses <==> a in old(addresses) && a.id != id
    {
      loading := false;
      RemoveByIdExact(addresses, id);
      addresses := RemoveById(addresses, id);
      success := true;
    }

    /** `success` is left alone by this request. */
    method SetDefaultFulfilled(payload: ClientAddress)
      modifies this`loading, this`addresses
      ensures !loading
      ensures addresses == MarkDefault(old(addresses), payload.id)
      ensures forall i :: 0 <= i < |addresses| ==> (addresses[i].isDefault <==> addresses[i].id == payload.id)
    {
      loading := false;
      addresses := MarkDefault(addresses, payload.id);
    }
  }
}
