/**
 * The account page (src/pages/Account.tsx): the sign-in error message, the
 * active tab taken from the query string, and the address book with add,
 * edit, delete and set-default.
 */
module Account {
  import opened Common
  import opened Text

  // -------------------------------------------------------- error message

  const UnknownError: string := "An unknown error occurred"

  /**
   * The message shown for a failed sign-in or sign-up: the second
   * '/'-separated segment of the error code with every '-' made a space and
   * the first character upper-cased, or the fallback text when the code, or
   * its second segment, is missing or empty.
   */
  function ErrorMessage(code: Option<string>): string
  {
    var segment :=
      if code.Some? && |Split(code.value, '/')| >= 2 then ReplaceAll(Split(code.value, '/')[1], '-', ' ')
      else "";
    Capitalize(if segment != "" then segment else UnknownError)
  }

  /**
   * For a code `prefix/segment` followed by nothing or by further
   * '/'-separated segments, the message is the segment with dashes made
   * spaces and a capital first letter, or the fallback text when the segment
   * is empty.
   */
  lemma ErrorMessageFormat(prefix: string, segment: string, tail: string)
    requires '/' !in prefix && '/' !in segment
    requires tail == [] || tail[0] == '/'
    ensures ErrorMessage(Some(prefix + ['/'] + segment + tail)) ==
            if segment == "" then UnknownError else Capitalize(ReplaceAll(segment, '-', ' '))
  {
    var code := prefix + ['/'] + segment + tail;
    assert code == prefix + ['/'] + (segment + tail);
    SplitAtFirst(prefix, segment + tail, '/');
    if tail == [] {
      assert segment + tail == segment;
      SplitNoSeparator(segment, '/');
    } else {
      assert segment + tail == segment + ['/'] + tail[1..];
      SplitAtFirst(segment, tail[1..], '/');
    }
    assert Capitalize(UnknownError) == UnknownError;
  }

  /** The code Firebase reports for a wrong password gives "Invalid credential". */
  lemma ErrorMessageExample(code: string)
    requires code == "auth/invalid-credential"
    ensures ErrorMessage(Some(code)) == "Invalid credential"
  {
    var prefix, segment := "auth", "invalid-credential";
    assert code == prefix + ['/'] + segment + "";
    assert '/' !in prefix;
    assert '/' !in segment;
    ErrorMessageFormat(prefix, segment, "");
    InvalidCredentialText(segment);
  }

  lemma InvalidCredentialText(segment: string)
    requires segment == "invalid-credential"
    ensures Capitalize(ReplaceAll(segment, '-', ' ')) == "Invalid credential"
  {
    var spaced := ReplaceAll(segment, '-', ' ');
    assert spaced == "invalid credential";
    assert Capitalize(spaced) == [UpperChar('i')] + spaced[1..];
  }

  /** A missing code, or one with no '/', gives the fallback text. */
  lemma ErrorMessageFallback(code: string)
    ensures ErrorMessage(None) == UnknownError
    ensures '/' !in code ==> ErrorMessage(Some(code)) == UnknownError
  {
    assert Capitalize(UnknownError) == UnknownError;
    if '/' !in code {
      SplitNoSeparator(code, '/');
    }
  }

  /** No message is empty or contains a '-' or a '/'. */
  lemma ErrorMessageClean(code: Option<string>)
    ensures ErrorMessage(code) != ""
    ensures '-' !in ErrorMessage(code) && '/' !in ErrorMessage(code)
  {
    var m := ErrorMessage(code);
    if code.Some? && |Split(code.value, '/')| >= 2 {
      var part := Split(code.value, '/')[1];
      assert '/' !in part;
      var segment := ReplaceAll(part, '-', ' ');
      if segment != "" {
        assert m == Capitalize(segment);
        forall i | 0 <= i < |m| ensures m[i] != '-' && m[i] != '/' {
          assert segment[i] in part || segment[i] == ' ';
          if i > 0 {
            assert m[i] == segment[i];
          }
        }
      }
    }
  }

  // ---------------------------------------------------------------- tabs

  /** The initial tab: the 'tab' query parameter when present and not empty, else 'profile'. */
  function InitialTab(tabParam: Option<string>): string
  {
    if Truthy(tabParam) then tabParam.value else "profile"
  }

  /** The tab is 'profile' exactly when no other tab is named; a named tab is taken verbatim. */
  lemma InitialTabCases(tabParam: Option<string>)
    ensures InitialTab(tabParam) == "profile" <==> !Truthy(tabParam) || tabParam.value == "profile"
    ensures Truthy(tabParam) ==> InitialTab(tabParam) == tabParam.value
    ensures InitialTab(tabParam) != ""
  {
  }

  // ------------------------------------------------------------ addresses

  datatype Address = Address(
    id: int,
    name: string,
    phone: string,
    street: string,
    city: string,
    state: string,
    pincode: string,
    isDefault: bool)

  /** What the address form submits: an address without id and default flag. */
  datatype AddressFields = AddressFields(
    name: string,
    phone: string,
    street: string,
    city: string,
    state: string,
    pincode: string)

  const InitialAddress: Address :=
    Address(1, "GSK", "9876543210", "123 Elegance Avenue", "Mumbai", "Maharashtra", "400001", true)

  /** `{ ...address, ...fields }`: the form's fields with the address's id and default flag. */
  function WithFields(a: Address, f: AddressFields): Address
  {
    Address(a.id, f.name, f.phone, f.street, f.city, f.state, f.pincode, a.isDefault)
  }

  function FieldsOf(a: Address): AddressFields
  {
    AddressFields(a.name, a.phone, a.street, a.city, a.state, a.pincode)
  }

  /** The list after saving an edit: every entry with the edited id becomes the edited snapshot with the new fields. */
  function SavedEdit(addrs: seq<Address>, editing: Address, f: AddressFields): (r: seq<Address>)
    ensures |r| == |addrs|
  {
    seq(|addrs|, i requires 0 <= i < |addrs| =>
      if addrs[i].id == editing.id then WithFields(editing, f) else addrs[i])
  }

  /** The list after saving a new address; the id is the clock reading. */
  function SavedNew(addrs: seq<Address>, f: AddressFields, now: int): seq<Address>
  {
    addrs + [Address(now, f.name, f.phone, f.street, f.city, f.state, f.pincode, |addrs| == 0)]
  }

  function Deleted(addrs: seq<Address>, id: int): seq<Address>
  {
    Filter(addrs, (a: Address) => a.id != id)
  }

  /** The list after `handleSetDefault(id)`. */
  function WithDefault(addrs: seq<Address>, id: int): (r: seq<Address>)
    ensures |r| == |addrs|
  {
    seq(|addrs|, i requires 0 <= i < |addrs| => addrs[i].(isDefault := addrs[i].id == id))
  }

  predicate IdsUnique(addrs: seq<Address>)
  {
    forall i, j :: 0 <= i < j < |addrs| ==> addrs[i].id != addrs[j].id
  }

  predicate AtMostOneDefault(addrs: seq<Address>)
  {
    forall i, j :: 0 <= i < j < |addrs| ==> !(addrs[i].isDefault && addrs[j].isDefault)
  }

  /**
   * Saving an edit changes only the entries with the edited id: each gets the
   * form's fields and keeps the snapshot's id and default flag; the others,
   * the length and the order are untouched.
   */
  lemma SavedEditOnly(addrs: seq<Address>, editing: Address, f: AddressFields)
    ensures |SavedEdit(addrs, editing, f)| == |addrs|
    ensures forall i :: 0 <= i < |addrs| && addrs[i].id != editing.id ==> SavedEdit(addrs, editing, f)[i] == addrs[i]
    ensures forall i :: 0 <= i < |addrs| && addrs[i].id == editing.id ==>
              var a := SavedEdit(addrs, editing, f)[i];
              FieldsOf(a) == f && a.id == editing.id && a.isDefault == editing.isDefault
  {
  }

  /**
   * A new address goes at the end with the clock reading as id and is the
   * default exactly when the list was empty.
   */
  lemma SavedNewAppends(addrs: seq<Address>, f: AddressFields, now: int)
    ensures SavedNew(addrs, f, now)[..|addrs|] == addrs
    ensures var a := SavedNew(addrs, f, now)[|addrs|];
            FieldsOf(a) == f && a.id == now && (a.isDefault <==> addrs == [])
  {
  }

  /** Delete drops exactly the addresses with that id, keeping the others in order. */
  lemma DeletedExact(addrs: seq<Address>, id: int, a: Address)
    ensures multiset(Deleted(addrs, id))[a] == if a.id != id then multiset(addrs)[a] else 0
    ensures forall i :: 0 <= i < |Deleted(addrs, id)| ==> Deleted(addrs, id)[i].id != id
  {
    FilterCount(addrs, (b: Address) => b.id != id, a);
    forall i | 0 <= i < |Deleted(addrs, id)| ensures Deleted(addrs, id)[i].id != id {
      assert Deleted(addrs, id)[i] in Deleted(addrs, id);
    }
  }

  /**
   * After set-default the addresses with that id are the default ones and no
   * other is; nothing else changes. With distinct ids at most one default
   * remains, and exactly one when the id is present.
   */
  lemma WithDefaultExact(addrs: seq<Address>, id: int)
    ensures forall i :: 0 <= i < |addrs| ==>
              WithDefault(addrs, id)[i].isDefault == (addrs[i].id == id) &&
              WithDefault(addrs, id)[i].(isDefault := addrs[i].isDefault) == addrs[i]
    ensures IdsUnique(addrs) ==> AtMostOneDefault(WithDefault(addrs, id))
    ensures IdsUnique(addrs) && (exists i :: 0 <= i < |addrs| && addrs[i].id == id) ==>
              exists i :: 0 <= i < |addrs| && WithDefault(addrs, id)[i].isDefault
  {
  }

  /** A well-formed address book: distinct ids and at most one default. */
  predicate Valid(addrs: seq<Address>)
  {
    IdsUnique(addrs) && AtMostOneDefault(addrs)
  }

  predicate NotAnId(addrs: seq<Address>, id: int)
  {
    forall i :: 0 <= i < |addrs| ==> addrs[i].id != id
  }

  /** Saving a new address keeps the book well-formed when the clock reading is not already an id. */
  lemma SavedNewKeepsValid(addrs: seq<Address>, f: AddressFields, now: int)
    requires Valid(addrs)
    requires NotAnId(addrs, now)
    ensures Valid(SavedNew(addrs, f, now))
  {
    var r := SavedNew(addrs, f, now);
    forall i, j | 0 <= i < j < |r| ensures r[i].id != r[j].id && !(r[i].isDefault && r[j].isDefault) {
      assert r[i] == addrs[i];
      if j < |addrs| {
        assert r[j] == addrs[j];
      }
    }
  }

  /** Saving an edit of an address taken from the book keeps it well-formed. */
  lemma SavedEditKeepsValid(addrs: seq<Address>, k: int, f: AddressFields)
    requires Valid(addrs)
    requires 0 <= k < |addrs|
    ensures Valid(SavedEdit(addrs, addrs[k], f))
  {
    var r := SavedEdit(addrs, addrs[k], f);
    forall i | 0 <= i < |addrs| ensures r[i].id == addrs[i].id && r[i].isDefault == addrs[i].isDefault {
      if addrs[i].id == addrs[k].id {
        assert i == k;
      }
    }
  }

  /** Deleting keeps the book well-formed. */
  lemma {:induction false} DeletedKeepsValid(addrs: seq<Address>, id: int)
    requires Valid(addrs)
    ensures Valid(Deleted(addrs, id))
  {
    if addrs != [] {
      assert Valid(addrs[1..]);
      DeletedKeepsValid(addrs[1..], id);
      forall q | q in Deleted(addrs[1..], id) ensures q.id != addrs[0].id && !(addrs[0].isDefault && q.isDefault) {
        var k :| 0 <= k < |addrs[1..]| && addrs[1..][k] == q;
        assert addrs[k + 1] == q;
      }
    }
  }

  /** The page's tab and address-book state. */
  class AccountPage {
    var activeTab: string
    var addresses: seq<Address>
    var showAddressForm: bool
    var editingAddress: Option<Address>

    constructor(tabParam: Option<string>)
      ensures activeTab == InitialTab(tabParam)
      ensures addresses == [InitialAddress] && !showAddressForm && editingAddress == None
      ensures Valid(addresses)
    {
      activeTab := InitialTab(tabParam);
      addresses := [InitialAddress];
      showAddressForm := false;
      editingAddress := None;
    }

    /** The effect on a query-string change: a present, non-empty 'tab' selects that tab; otherwise the tab stays. */
    method SyncTab(tabParam: Option<string>)
      modifies this
      ensures activeTab == if Truthy(tabParam) then tabParam.value else old(activeTab)
      ensures addresses == old(addresses) && showAddressForm == old(showAddressForm)
      ensures editingAddress == old(editingAddress)
    {
      if Truthy(tabParam) {
        activeTab := tabParam.value;
      }
    }

    /** "Add New": the form opens with no address being edited. */
    method OpenNewAddressForm()
      modifies this
      ensures editingAddress == None && showAddressForm
      ensures activeTab == old(activeTab) && addresses == old(addresses)
    {
      editingAddress := None;
      showAddressForm := true;
    }

    /** The form's cancel button: the form closes and nothing else changes. */
    method CancelAddressForm()
      modifies this
      ensures !showAddressForm
      ensures activeTab == old(activeTab) && addresses == old(addresses)
      ensures editingAddress == old(editingAddress)
    {
      showAddressForm := false;
    }

    /** `handleEditAddress`. */
    method HandleEditAddress(a: Address)
      modifies this
      ensures editingAddress == Some(a) && showAddressForm
      ensures activeTab == old(activeTab) && addresses == old(addresses)
    {
      editingAddress := Some(a);
      showAddressForm := true;
    }

    /** `handleSaveAddress`: edit or append, then close the form. */
    method HandleSaveAddress(f: AddressFields, now: int)
      modifies this
      ensures old(editingAddress).Some? ==> addresses == SavedEdit(old(addresses), old(editingAddress).value, f)
      ensures old(editingAddress).None? ==> addresses == SavedNew(old(addresses), f, now)
      ensures old(Valid(addresses)) && old(editingAddress).Some? && old(editingAddress).value in old(addresses) ==>
                Valid(addresses)
      ensures old(Valid(addresses)) && old(editingAddress).None? && NotAnId(old(addresses), now) ==>
                Valid(addresses)
      ensures !showAddressForm && editingAddress == None && activeTab == old(activeTab)
    {
      if editingAddress.Some? {
        if Valid(addresses) && editingAddress.value in addresses {
          var k :| 0 <= k < |addresses| && addresses[k] == editingAddress.value;
          SavedEditKeepsValid(addresses, k, f);
        }
        addresses := SavedEdit(addresses, editingAddress.value, f);
      } else {
        if Valid(addresses) && NotAnId(addresses, now) {
          SavedNewKeepsValid(addresses, f, now);
        }
        addresses := SavedNew(addresses, f, now);
      }
      showAddressForm := false;
      editingAddress := None;
    }

    /** `handleDeleteAddress`: only when the confirmation was accepted. */
    method HandleDeleteAddress(id: int, confirmed: bool)
      modifies this
      ensures addresses == if confirmed then Deleted(old(addresses), id) else old(addresses)
      ensures old(Valid(addresses)) ==> Valid(addresses)
      ensures activeTab == old(activeTab) && showAddressForm == old(showAddressForm)
      ensures editingAddress == old(editingAddress)
    {
      if confirmed {
        if Valid(addresses) {
          DeletedKeepsValid(addresses, id);
        }
        addresses := Deleted(addresses, id);
      }
    }

    /** `handleSetDefault`. */
    method HandleSetDefault(id: int)
      modifies this
      ensures addresses == WithDefault(old(addresses), id)
      ensures old(Valid(addresses)) ==> Valid(addresses)
      ensures activeTab == old(activeTab) && showAddressForm == old(showAddressForm)
      ensures editingAddress == old(editingAddress)
    {
      WithDefaultExact(addresses, id);
      addresses := WithDefault(addresses, id);
    }
  }
}
