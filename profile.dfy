/** The profile screen (components/ProfileScreen.tsx): choosing the default address and
    card, deleting an address after confirmation, and editing the display name. The
    lists the screen hands back to its parent are the results of the functions; the
    screen's own state is the class `ProfileScreen`. */
module Profile {
  import opened Types
  import opened Text
  import opened Seqs

  /** `list.map(x => ({ ...x, isDefault: x.id === id }))`, the rule both the address and
      the card handler apply: `mark(x, b)` is `x` with its `isDefault` flag set to `b`. */
  function SetDefault<T(!new)>(xs: seq<T>, id: string, idOf: T -> string, isDefault: T -> bool,
                         mark: (T, bool) -> T): (r: seq<T>)
    requires forall x, b :: isDefault(mark(x, b)) == b
    ensures |r| == |xs|
    ensures forall i :: 0 <= i < |r| ==>
              (isDefault(r[i]) <==> idOf(xs[i]) == id) && r[i] == mark(xs[i], isDefault(r[i]))
  {
    seq(|xs|, i requires 0 <= i < |xs| => mark(xs[i], idOf(xs[i]) == id))
  }

  predicate UniqueIds<T>(xs: seq<T>, idOf: T -> string) {
    forall i, j :: 0 <= i < j < |xs| ==> idOf(xs[i]) != idOf(xs[j])
  }

  /** With unique ids and the id present, exactly one entry is the default. */
  lemma OneDefault<T(!new)>(xs: seq<T>, id: string, k: nat, idOf: T -> string, isDefault: T -> bool,
                      mark: (T, bool) -> T)
    requires forall x, b :: isDefault(mark(x, b)) == b
    requires UniqueIds(xs, idOf) && k < |xs| && idOf(xs[k]) == id
    ensures var r := SetDefault(xs, id, idOf, isDefault, mark);
            isDefault(r[k]) && forall j :: 0 <= j < |r| && j != k ==> !isDefault(r[j])
  {
    var r := SetDefault(xs, id, idOf, isDefault, mark);
    forall j | 0 <= j < |r| && j != k ensures !isDefault(r[j]) {
      if j < k { assert idOf(xs[j]) != idOf(xs[k]); }
      else { assert idOf(xs[k]) != idOf(xs[j]); }
    }
  }

  function AddressId(a: Address): string { a.id }
  function AddressIsDefault(a: Address): bool { a.isDefault }
  function MarkAddress(a: Address, b: bool): Address { a.(isDefault := b) }

  function CardId(c: PaymentMethod): string { c.id }
  function CardIsDefault(c: PaymentMethod): bool { c.isDefault }
  function MarkCard(c: PaymentMethod, b: bool): PaymentMethod { c.(isDefault := b) }

  /** `handleSetDefaultAddress`. */
  function SetDefaultAddress(addresses: seq<Address>, id: string): seq<Address> {
    SetDefault(addresses, id, AddressId, AddressIsDefault, MarkAddress)
  }

  /** `handleSetDefaultCard`. */
  function SetDefaultCard(cards: seq<PaymentMethod>, id: string): seq<PaymentMethod> {
    SetDefault(cards, id, CardId, CardIsDefault, MarkCard)
  }

  predicate UniqueAddressIds(addresses: seq<Address>) {
    forall i, j :: 0 <= i < j < |addresses| ==> addresses[i].id != addresses[j].id
  }

  /** An id that no address carries leaves no default at all. */
  lemma AbsentIdClearsDefault(addresses: seq<Address>, id: string)
    requires forall i :: 0 <= i < |addresses| ==> addresses[i].id != id
    ensures forall i :: 0 <= i < |addresses| ==> !SetDefaultAddress(addresses, id)[i].isDefault
  {
  }

  function AddressIdIsNot(id: string, a: Address): bool {
    a.id != id
  }

  /** `handleDeleteAddress`: once confirmed, the list without the addresses carrying
      the id is handed back; without confirmation nothing is handed back. */
  function DeleteAddress(addresses: seq<Address>, id: string, confirmed: bool): (r: Option<seq<Address>>)
    ensures r.Some? <==> confirmed
    ensures r.Some? ==> (forall a :: a in r.value <==> a in addresses && a.id != id) && IsSubseq(r.value, addresses)
    ensures r.Some? ==> forall a :: multiset(r.value)[a] == if a.id != id then multiset(addresses)[a] else 0
  {
    if confirmed then
      FilterIsSubseq(addresses, (a: Address) => AddressIdIsNot(id, a));
      Some(Filter(addresses, (a: Address) => AddressIdIsNot(id, a)))
    else None
  }

  /** Deleting an address with a unique id removes exactly one entry. */
  lemma DeleteOneAddress(addresses: seq<Address>, id: string, k: nat)
    requires UniqueAddressIds(addresses) && k < |addresses| && addresses[k].id == id
    ensures |DeleteAddress(addresses, id, true).value| == |addresses| - 1
  {
    var keep := (a: Address) => AddressIdIsNot(id, a);
    CountIsFilterLength(addresses, keep);
    CountAllButOne(addresses, id, k);
  }

  lemma {:induction false} CountAllButOne(addresses: seq<Address>, id: string, k: nat)
    requires UniqueAddressIds(addresses) && k < |addresses| && addresses[k].id == id
    ensures Count(addresses, (a: Address) => AddressIdIsNot(id, a)) == |addresses| - 1
    decreases |addresses|
  {
    var keep := (a: Address) => AddressIdIsNot(id, a);
    var tail := addresses[1..];
    assert UniqueAddressIds(tail) by {
      forall i, j | 0 <= i < j < |tail| ensures tail[i].id != tail[j].id {
        assert tail[i] == addresses[i + 1] && tail[j] == addresses[j + 1];
      }
    }
    if k == 0 {
      CountNone(tail, id);
    } else {
      assert addresses[0].id != id by { assert addresses[0].id != addresses[k].id; }
      assert tail[k - 1] == addresses[k];
      CountAllButOne(tail, id, k - 1);
    }
  }

  lemma {:induction false} CountNone(addresses: seq<Address>, id: string)
    requires forall i :: 0 <= i < |addresses| ==> addresses[i].id != id
    ensures Count(addresses, (a: Address) => AddressIdIsNot(id, a)) == |addresses|
    decreases |addresses|
  {
    if addresses != [] {
      CountNone(addresses[1..], id);
    }
  }

  /** The screen's own state: the sub-view shown and the name editor. */
  class ProfileScreen {
    var view: ProfileView
    var isEditingName: bool
    var newName: string

    constructor (user: User)
      ensures view == Menu && !isEditingName && newName == user.name
    {
      view := Menu;
      isEditingName := false;
      newName := user.name;
    }

    method SetView(v: ProfileView)
      modifies this`view
      ensures view == v
    {
      view := v;
    }

    method StartEditName()
      modifies this`isEditingName
      ensures isEditingName
    {
      isEditingName := true;
    }

    method SetNewName(value: string)
      modifies this`newName
      ensures newName == value
    {
      newName := value;
    }

    /** `handleNameSave`: a name that is not blank once trimmed is stored as typed (not
        trimmed) and closes the editor; a blank name changes nothing. */
    method HandleNameSave(user: User) returns (updated: Option<User>)
      modifies this`isEditingName
      ensures updated.Some? <==> Trim(newName) != ""
      ensures updated.Some? ==> updated.value == user.(name := newName) && !isEditingName
      ensures updated.None? ==> isEditingName == old(isEditingName)
    {
      if Trim(newName) != "" {
        updated := Some(user.(name := newName));
        isEditingName := false;
      } else {
        updated := None;
      }
    }

    /** The cancel button: the editor closes and the typed name is discarded. */
    method CancelEditName(user: User)
      modifies this`isEditingName, this`newName
      ensures !isEditingName && newName == user.name
    {
      isEditingName := false;
      newName := user.name;
    }
  }
}
