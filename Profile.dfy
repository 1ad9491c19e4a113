/** The profile page (src/pages/Profile.tsx): reading the order history and
    the saved addresses from loosely shaped responses, deleting an address
    optimistically with a rollback, and the profile editor's flags. */
module Profile {
  import opened Types
  import opened Sequences

  /** The order history response: an array, an object that may carry an
      `orders` or a `data` array (`None` when the field is missing or not an
      array), or anything else. */
  datatype OrdersBody =
    | OrderArray(items: seq<Order>)
    | OrderObject(orders: Option<seq<Order>>, data: Option<seq<Order>>)
    | NoOrders

  /** The addresses response: falsy, or a value whose `addresses` field may
      hold an array (`None` when missing or not an array). */
  datatype AddressesBody = NoAddressData | AddressObject(addresses: Option<seq<Address>>)

  /** The orders shown: the first of the response itself, its `orders`, its
      `data` that is an array, else none. */
  function NormaliseOrders(body: OrdersBody): (r: seq<Order>)
    ensures body.OrderArray? ==> r == body.items
    ensures body.OrderObject? && body.orders.Some? ==> r == body.orders.value
    ensures body.OrderObject? && body.orders.None? && body.data.Some? ==> r == body.data.value
    ensures body.NoOrders? || (body.OrderObject? && body.orders.None? && body.data.None?) ==> r == []
  {
    match body
    case OrderArray(items) => items
    case OrderObject(Some(orders), _) => orders
    case OrderObject(None, Some(data)) => data
    case _ => []
  }

  /** The addresses shown: the `addresses` array, else none. */
  function NormaliseAddresses(body: AddressesBody): (r: seq<Address>)
    ensures body.AddressObject? && body.addresses.Some? ==> r == body.addresses.value
    ensures body.NoAddressData? || body.addresses.None? ==> r == []
  {
    match body
    case AddressObject(Some(addresses)) => addresses
    case _ => []
  }

  /** `addresses.filter(addr => addr.id !== id)`. */
  function RemoveAddress(addresses: seq<Address>, id: int): (r: seq<Address>)
    ensures |r| <= |addresses|
    ensures forall a :: a in r ==> a in addresses && a.id != id
    ensures forall a :: a in addresses && a.id != id ==> a in r
  {
    if addresses == [] then []
    else if addresses[0].id != id then [addresses[0]] + RemoveAddress(addresses[1..], id)
    else RemoveAddress(addresses[1..], id)
  }

  /** The addresses left keep their order. */
  lemma {:induction false} RemoveAddressKeepsOrder(addresses: seq<Address>, id: int)
    ensures IsSubsequence(RemoveAddress(addresses, id), addresses)
  {
    if addresses != [] {
      RemoveAddressKeepsOrder(addresses[1..], id);
      var rest := RemoveAddress(addresses[1..], id);
      if addresses[0].id != id {
        assert ([addresses[0]] + rest)[1..] == rest;
      }
    }
  }

  /** Exactly the entries with the id go; every other entry stays as often as
      it occurred. */
  lemma {:induction false} RemoveAddressCounts(addresses: seq<Address>, id: int, a: Address)
    ensures multiset(RemoveAddress(addresses, id))[a] == if a.id == id then 0 else multiset(addresses)[a]
  {
    if addresses != [] {
      RemoveAddressCounts(addresses[1..], id, a);
      assert addresses == [addresses[0]] + addresses[1..];
    }
  }

  /** Removing an id that is not in the list changes nothing. */
  lemma {:induction false} RemoveAbsentAddress(addresses: seq<Address>, id: int)
    requires forall a :: a in addresses ==> a.id != id
    ensures RemoveAddress(addresses, id) == addresses
  {
    if addresses != [] {
      RemoveAbsentAddress(addresses[1..], id);
    }
  }

  /** The profile editor's form; the avatar is the name of a chosen file. */
  datatype EditForm = EditForm(name: string, phone: string, avatar: Option<string>)

  /** The fields `handleUpdateProfile` sends to `updateUser`. */
  datatype ProfileUpdate = ProfileUpdate(name: string, phone: string, avatar: Option<string>)

  class ProfilePage {
    var orders: seq<Order>
    var addresses: seq<Address>
    var isLoadingAddresses: bool
    var isUpdating: bool
    var isEditingProfile: bool
    var editForm: EditForm

    /** The initial state, with the form filled from the signed-in user. */
    constructor (user: Option<User>)
      ensures orders == [] && addresses == [] && !isLoadingAddresses && !isUpdating && !isEditingProfile
      ensures editForm == if user.Some? then FormFor(user.value) else EditForm("", "", None)
    {
      orders := [];
      addresses := [];
      isLoadingAddresses := false;
      isUpdating := false;
      isEditingProfile := false;
      editForm := if user.Some? then FormFor(user.value) else EditForm("", "", None);
    }

    /** `fetchOrders`: a reply replaces the orders with its normal form; a
        rejection keeps them, and shows an error only for a status of 500
        while a user is signed in. */
    method FetchOrders(user: Option<User>, reply: Response<OrdersBody>) returns (errorShown: bool)
      modifies this`orders
      ensures reply.Ok? ==> orders == NormaliseOrders(reply.body)
      ensures reply.Threw? ==> orders == old(orders)
      ensures errorShown <==> reply.Threw? && user.Some? && reply.status == Some(500)
    {
      match reply {
        case Ok(body) =>
          orders := NormaliseOrders(body);
          return false;
        case Threw(status) =>
          if user.None? {
            return false;
          }
          return status == Some(500);
      }
    }

    /** `fetchAddresses`: a reply replaces the addresses with its normal form;
        a rejection keeps them when nobody is signed in and empties them
        otherwise; the loading flag is down afterwards in every case. */
    method FetchAddresses(user: Option<User>, reply: Response<AddressesBody>) returns (errorShown: bool)
      modifies this`addresses, this`isLoadingAddresses
      ensures !isLoadingAddresses
      ensures reply.Ok? ==> addresses == NormaliseAddresses(reply.body)
      ensures reply.Threw? && user.None? ==> addresses == old(addresses)
      ensures reply.Threw? && user.Some? ==> addresses == []
      ensures errorShown <==> reply.Threw? && user.Some? && reply.status == Some(500)
    {
      isLoadingAddresses := true;
      errorShown := false;
      match reply {
        case Ok(body) =>
          addresses := NormaliseAddresses(body);
        case Threw(status) =>
          if user.Some? {
            errorShown := status == Some(500);
            addresses := [];
          }
      }
      isLoadingAddresses := false;
    }

    /** `handleUpdateProfile`: sends the form, and closes the editor only when
        both the update and the refresh of the user succeeded; the updating
        flag is down afterwards in every case. */
    method HandleUpdateProfile(updateOk: bool, refreshOk: bool) returns (sent: ProfileUpdate, success: bool)
      modifies this`isUpdating, this`isEditingProfile
      ensures sent == ProfileUpdate(editForm.name, editForm.phone, editForm.avatar)
      ensures success <==> updateOk && refreshOk
      ensures !isUpdating
      ensures isEditingProfile == (old(isEditingProfile) && !success)
    {
      isUpdating := true;
      sent := ProfileUpdate(editForm.name, editForm.phone, editForm.avatar);
      success := updateOk && refreshOk;
      if success {
        isEditingProfile := false;
      }
      isUpdating := false;
    }

    /** `handleDeleteAddress`: the entries with the id disappear at once
        (`shownWhilePending`); if the server refuses, the list goes back to
        the snapshot taken before the removal. */
    method HandleDeleteAddress(id: int, deleteOk: bool) returns (shownWhilePending: seq<Address>)
      modifies this`addresses
      ensures shownWhilePending == RemoveAddress(old(addresses), id)
      ensures addresses == if deleteOk then shownWhilePending else old(addresses)
    {
      var previousAddresses := addresses;
      addresses := RemoveAddress(addresses, id);
      shownWhilePending := addresses;
      if !deleteOk {
        addresses := previousAddresses;
      }
    }

    /** The edit button: the form is reset from the user and the editor opens. */
    method OpenEditor(user: User)
      modifies this`editForm, this`isEditingProfile
      ensures editForm == FormFor(user) && isEditingProfile
    {
      editForm := FormFor(user);
      isEditingProfile := true;
    }
  }

  /** The form for a user: the name and the phone, the empty string for a
      missing phone, and no avatar file. */
  function FormFor(user: User): (f: EditForm)
    ensures f.name == user.name && f.avatar == None
    ensures f.phone == if Truthy(user.phone) then user.phone.value else ""
  {
    EditForm(user.name, if user.phone.Some? then user.phone.value else "", None)
  }
}
