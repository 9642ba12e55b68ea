/**
 * The shipping step of checkout: which saved address is preselected, when
 * the Continue button is enabled, and what submitting records for the
 * next step. The empty string the page uses for "no selection" is None.
 */
module Shipping {
  import opened Common
  import opened AddressSlice

  function IsDefault(): ClientAddress -> bool {
    (a: ClientAddress) => a.isDefault
  }

  /**
   * The preselection effect: with addresses loaded and nothing selected,
   * pick the first default address, or else the first address; a selection
   * already made is left alone.
   */
  function Preselect(addresses: seq<ClientAddress>, selected: Option<Id>): (r: Option<Id>)
    ensures selected.Some? ==> r == selected
    ensures selected.None? ==> (r.None? <==> addresses == [])
    ensures r.Some? && selected.None? ==> exists i :: 0 <= i < |addresses| && addresses[i].id == r.value
  {
    if |addresses| > 0 && selected.None? then
      var k := FindIndex(addresses, IsDefault());
      Some(if k >= 0 then addresses[k].id else addresses[0].id)
    else
      selected
  }

  /** The preselected address is the first default one when there is one, and the first one otherwise. */
  lemma PreselectChoice(addresses: seq<ClientAddress>)
    requires addresses != []
    ensures forall k :: 0 <= k < |addresses| && addresses[k].isDefault && (forall j :: 0 <= j < k ==> !addresses[j].isDefault) ==>
              Preselect(addresses, None) == Some(addresses[k].id)
    ensures (forall j :: 0 <= j < |addresses| ==> !addresses[j].isDefault) ==> Preselect(addresses, None) == Some(addresses[0].id)
  {
    var f := FindIndex(addresses, IsDefault());
    forall k | 0 <= k < |addresses| && addresses[k].isDefault && (forall j :: 0 <= j < k ==> !addresses[j].isDefault)
      ensures Preselect(addresses, None) == Some(addresses[k].id)
    {
      assert IsDefault()(addresses[k]);
      assert f == k;
    }
  }

  /** With a single default in the book, that default is the one preselected. */
  lemma PreselectFindsTheDefault(addresses: seq<ClientAddress>, k: nat)
    requires k < |addresses| && addresses[k].isDefault
    requires forall j :: 0 <= j < |addresses| && j != k ==> !addresses[j].isDefault
    ensures Preselect(addresses, None) == Some(addresses[k].id)
  {
    PreselectChoice(addresses);
  }

  /** The Continue button is disabled exactly while nothing is selected from a non-empty list. */
  predicate ContinueDisabled(addresses: seq<ClientAddress>, selected: Option<Id>) {
    selected.None? && |addresses| > 0
  }

  /** Once preselection has run, Continue is never disabled. */
  lemma PreselectEnablesContinue(addresses: seq<ClientAddress>, selected: Option<Id>)
    ensures !ContinueDisabled(addresses, Preselect(addresses, selected))
  {
  }

  /** An address created from this page is made the default exactly when it is the user's first. */
  function NewAddressIsDefault(addresses: seq<ClientAddress>): (isDefault: bool)
    ensures isDefault <==> addresses == []
  {
    |addresses| == 0
  }

  class ShippingPage {
    /** `selectedAddressId` */
    var selected: Option<Id>
    /** The `shippingAddress` entry left in browser storage for the later steps. */
    var saved: Option<Id>
    /** Whether the page has moved on to the payment step. */
    var proceeded: bool

    constructor (saved: Option<Id>)
      ensures selected == None && this.saved == saved && !proceeded
    {
      this.selected := None;
      this.saved := saved;
      this.proceeded := false;
    }

    /** The preselection effect, run whenever the list or the selection changes. */
    method AddressesChanged(addresses: seq<ClientAddress>)
      modifies this`selected
      ensures selected == Preselect(addresses, old(selected))
      ensures !ContinueDisabled(addresses, selected)
    {
      selected := Preselect(addresses, selected);
    }

    /** Picking an address with the radio buttons. */
    method Choose(id: Id)
      modifies this`selected
      ensures selected == Some(id)
    {
      selected := Some(id);
    }

    /** `handleSubmit`: records the selection and moves on only when something is selected. */
    method Submit()
      modifies this`saved, this`proceeded
      ensures selected.Some? ==> saved == selected && proceeded
      ensures selected.None? ==> saved == old(saved) && proceeded == old(proceeded)
    {
      if selected.Some? {
        saved := selected;
        proceeded := true;
      }
    }
  }
}
