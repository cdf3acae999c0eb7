/** The address book of the account page (src/components/user/Addresses.tsx): the saved
    addresses, the form that adds a new one or edits one in place, and deletion after the
    user confirms. The clock reading that ids a new address and the answer to the
    confirmation dialog are parameters. */
module AddressBook {
  import opened Wrappers
  import opened Seqs
  import opened Text
  import opened Forms
  import Catalog

  /** A saved address, of the shape the mock data gives it. */
  type Address = Catalog.Address

  /** The names of the form's inputs; `Street` is the input named "address". */
  datatype Field = Title | Street | PostalCode | City | Province

  /** The keys of the form data. */
  const Fields: set<Field> := {Title, Street, PostalCode, City, Province}

  const TitleRequired: string := "عنوان آدرس الزامی است"
  const StreetRequired: string := "آدرس الزامی است"
  const PostalCodeRequired: string := "کد پستی الزامی است"
  const CityRequired: string := "نام شهر الزامی است"
  const ProvinceRequired: string := "انتخاب استان الزامی است"

  /** The empty form. */
  const Blank: Record<Field> := map[Title := "", Street := "", PostalCode := "", City := "", Province := ""]

  /** The addresses the page starts with, those of the mock user. */
  const MockAddresses: seq<Address> := Catalog.MockUser.addresses

  /** No two addresses share an id. */
  predicate UniqueIds(list: seq<Address>) {
    forall i, j :: 0 <= i < j < |list| ==> list[i].id != list[j].id
  }

  /** The messages `validateForm` collects for the data `f`: the four text fields must not
      be blank, while the province, a select, must only be non-empty. */
  function Errors(f: Record<Field>): (r: Record<Field>)
    requires Fields <= f.Keys
    ensures r.Keys <= Fields
    ensures Title in r <==> IsBlank(f[Title])
    ensures Street in r <==> IsBlank(f[Street])
    ensures PostalCode in r <==> IsBlank(f[PostalCode])
    ensures City in r <==> IsBlank(f[City])
    ensures Province in r <==> f[Province] == ""
  {
    var e := Check(map[], Title, BlankRule(f[Title], TitleRequired));
    var e := Check(e, Street, BlankRule(f[Street], StreetRequired));
    var e := Check(e, PostalCode, BlankRule(f[PostalCode], PostalCodeRequired));
    var e := Check(e, City, BlankRule(f[City], CityRequired));
    Check(e, Province, Missing(f[Province], ProvinceRequired))
  }

  /** `{ ...addr, ...formData }`: the form's five values over the address, its id kept. */
  function Apply(a: Address, f: Record<Field>): (r: Address)
    requires Fields <= f.Keys
    ensures r.id == a.id
  {
    Catalog.Address(a.id, f[Title], f[Street], f[PostalCode], f[City], f[Province])
  }

  /** The form filled from an address, as `handleEdit` does. */
  function FormOf(a: Address): (r: Record<Field>)
    ensures r.Keys == Fields
  {
    map[Title := a.title, Street := a.address, PostalCode := a.postalCode, City := a.city, Province := a.province]
  }

  /** Filling the form from an address and applying it gives the address back. */
  lemma ApplyFormOf(a: Address)
    ensures Apply(a, FormOf(a)) == a
  {
  }

  /** `prev.map(addr => addr.id === id ? { ...addr, ...formData } : addr)` */
  function Edited(list: seq<Address>, id: int, f: Record<Field>): seq<Address>
    requires Fields <= f.Keys
  {
    seq(|list|, i requires 0 <= i < |list| => if list[i].id == id then Apply(list[i], f) else list[i])
  }

  /** An edit keeps the length, the order and every id; the addresses with the edited id
      take the form's values and the others are untouched. */
  lemma EditedSpec(list: seq<Address>, id: int, f: Record<Field>)
    requires Fields <= f.Keys
    ensures var r := Edited(list, id, f);
      |r| == |list|
      && (forall i :: 0 <= i < |r| ==> r[i].id == list[i].id)
      && (forall i :: 0 <= i < |r| && list[i].id == id ==> r[i] == Apply(list[i], f))
      && (forall i :: 0 <= i < |r| && list[i].id != id ==> r[i] == list[i])
      && (UniqueIds(list) ==> UniqueIds(r))
  {
  }

  /** The address a submitted form adds, with id `freshId`. */
  function NewAddress(freshId: int, f: Record<Field>): Address
    requires Fields <= f.Keys
  {
    Catalog.Address(freshId, f[Title], f[Street], f[PostalCode], f[City], f[Province])
  }

  /** `[...prev, newAddress]` keeps every address and adds the new one last; with a fresh
      id the ids stay unique. */
  lemma AppendedSpec(list: seq<Address>, freshId: int, f: Record<Field>)
    requires Fields <= f.Keys
    ensures var r := list + [NewAddress(freshId, f)];
      |r| == |list| + 1 && r[..|list|] == list && r[|list|].id == freshId
      && (UniqueIds(list) && (forall i :: 0 <= i < |list| ==> list[i].id != freshId) ==> UniqueIds(r))
  {
  }

  function OtherId(id: int): Address -> bool {
    (a: Address) => a.id != id
  }

  /** `prev.filter(addr => addr.id !== id)` */
  function Deleted(list: seq<Address>, id: int): seq<Address> {
    Filter(list, OtherId(id))
  }

  /** A delete removes every address with that id and keeps every other one, in order. */
  lemma DeletedSpec(list: seq<Address>, id: int)
    ensures var r := Deleted(list, id);
      (forall i :: 0 <= i < |r| ==> r[i].id != id && r[i] in list)
      && (forall i :: 0 <= i < |list| && list[i].id != id ==> list[i] in r)
      && IsSubsequence(r, list)
  {
    FilterMembers(list, OtherId(id));
  }

  /** `if (editingId)`: an id is truthy unless it is absent (`null`) or 0. */
  predicate Editing(editingId: Option<int>) {
    editingId.Some? && editingId.value != 0
  }

  /** The page's state. */
  class Book {
    var addresses: seq<Address>
    var isAdding: bool
    var editingId: Option<int>
    var formData: Record<Field>
    var errors: Record<Field>

    /** Every field of the form has a value. */
    predicate Valid()
      reads this
    {
      Fields <= formData.Keys
    }

    constructor()
      ensures addresses == MockAddresses && !isAdding && editingId == None
      ensures formData == Blank && errors == map[] && Valid()
    {
      addresses := MockAddresses;
      isAdding := false;
      editingId := None;
      formData := Blank;
      errors := map[];
    }

    /** The "add address" buttons open the empty form. */
    method StartAdding()
      modifies this
      ensures isAdding
      ensures addresses == old(addresses) && editingId == old(editingId) && formData == old(formData) && errors == old(errors)
    {
      isAdding := true;
    }

    /** `handleInputChange` and `handleSelectChange`: set one field, blank its message. */
    method HandleInputChange(name: Field, value: string)
      modifies this
      ensures formData == old(formData)[name := value] && errors == ClearedError(old(errors), name)
      ensures addresses == old(addresses) && editingId == old(editingId) && isAdding == old(isAdding)
      ensures old(Valid()) ==> Valid()
    {
      formData := formData[name := value];
      errors := ClearedError(errors, name);
    }

    /** `resetForm`, also the form's cancel button: the form emptied and closed, no message,
        nothing being edited. */
    method ResetForm()
      modifies this
      ensures formData == Blank && errors == map[] && !isAdding && editingId == None
      ensures addresses == old(addresses) && Valid()
    {
      formData := Blank;
      errors := map[];
      isAdding := false;
      editingId := None;
    }

    /** `handleEdit(address)`: the form filled from the address and opened for it. */
    method HandleEdit(a: Address)
      modifies this
      ensures formData == FormOf(a) && editingId == Some(a.id) && isAdding
      ensures addresses == old(addresses) && errors == old(errors) && Valid()
    {
      formData := FormOf(a);
      editingId := Some(a.id);
      isAdding := true;
    }

    /** `handleDelete(id)`: the addresses with that id are removed when the user confirms. */
    method HandleDelete(id: int, confirmed: bool)
      modifies this
      ensures addresses == if confirmed then Deleted(old(addresses), id) else old(addresses)
      ensures formData == old(formData) && errors == old(errors) && editingId == old(editingId) && isAdding == old(isAdding)
    {
      if confirmed {
        addresses := Filter(addresses, OtherId(id));
      }
    }

    /** `validateForm()`: each blank field gets its message, the messages replace the old
        ones, and the form passes when there are none. */
    method ValidateForm() returns (ok: bool)
      requires Valid()
      modifies this
      ensures formData == old(formData) && errors == Errors(formData) && ok == NoErrors(errors)
      ensures addresses == old(addresses) && editingId == old(editingId) && isAdding == old(isAdding)
    {
      var f := formData;
      var newErrors: Record<Field> := map[];
      if IsBlank(f[Title]) {
        newErrors := newErrors[Title := TitleRequired];
      }
      ghost var e1 := newErrors;
      assert e1 == Check(map[], Title, BlankRule(f[Title], TitleRequired));
      if IsBlank(f[Street]) {
        newErrors := newErrors[Street := StreetRequired];
      }
      ghost var e2 := newErrors;
      assert e2 == Check(e1, Street, BlankRule(f[Street], StreetRequired));
      if IsBlank(f[PostalCode]) {
        newErrors := newErrors[PostalCode := PostalCodeRequired];
      }
      ghost var e3 := newErrors;
      assert e3 == Check(e2, PostalCode, BlankRule(f[PostalCode], PostalCodeRequired));
      if IsBlank(f[City]) {
        newErrors := newErrors[City := CityRequired];
      }
      ghost var e4 := newErrors;
      assert e4 == Check(e3, City, BlankRule(f[City], CityRequired));
      if f[Province] == "" {
        newErrors := newErrors[Province := ProvinceRequired];
      }
      assert newErrors == Check(e4, Province, Missing(f[Province], ProvinceRequired));
      errors := newErrors;
      ok := newErrors == map[];
    }

    /** `handleSubmit`: an invalid form shows its messages and changes nothing else. A valid
        one edits the addresses with the id being edited, or, when none is, adds a new
        address with id `freshId`; then the form is reset. */
    method HandleSubmit(freshId: int)
      requires Valid()
      modifies this
      ensures !NoErrors(Errors(old(formData))) ==>
                errors == Errors(old(formData)) && addresses == old(addresses) && formData == old(formData)
                && editingId == old(editingId) && isAdding == old(isAdding)
      ensures NoErrors(Errors(old(formData))) && Editing(old(editingId)) ==>
                addresses == Edited(old(addresses), old(editingId).value, old(formData))
      ensures NoErrors(Errors(old(formData))) && !Editing(old(editingId)) ==>
                addresses == old(addresses) + [NewAddress(freshId, old(formData))]
      ensures NoErrors(Errors(old(formData))) ==>
                formData == Blank && errors == map[] && !isAdding && editingId == None
      ensures Valid()
    {
      var ok := ValidateForm();
      if !ok {
        return;
      }
      if editingId.Some? && editingId.value != 0 {
        addresses := Edited(addresses, editingId.value, formData);
      } else {
        addresses := addresses + [NewAddress(freshId, formData)];
      }
      ResetForm();
    }
  }

  /** Editing an address and submitting the form unchanged leaves the book as it was when
      ids are unique and non-zero. */
  method EditUnchanged(book: Book, i: nat, freshId: int)
    requires i < |book.addresses| && UniqueIds(book.addresses) && book.addresses[i].id != 0
    requires NoErrors(Errors(FormOf(book.addresses[i])))
    modifies book
    ensures book.addresses == old(book.addresses) && book.editingId == None && !book.isAdding
  {
    var before := book.addresses;
    book.HandleEdit(before[i]);
    book.HandleSubmit(freshId);
    EditedSpec(before, before[i].id, FormOf(before[i]));
    ApplyFormOf(before[i]);
    assert book.addresses == before;
  }
}
