/** The checkout page (src/pages/Checkout.tsx): the delivery details, which need only be
    non-empty, the totals of the order, and the redirect of an empty cart. */
module CheckoutPage {
  import opened Wrappers
  import opened Forms
  import opened Cart
  import opened CartSummary

  /** The names of the form's inputs. */
  datatype Field = FullName | Phone | Email | Province | City | Address | PostalCode | Notes

  /** The keys of the form data, and the six of them the page requires. */
  const Fields: set<Field> := {FullName, Phone, Email, Province, City, Address, PostalCode, Notes}
  const Required: set<Field> := {FullName, Phone, Province, City, Address, PostalCode}

  const FullNameRequired: string := "نام و نام خانوادگی الزامی است"
  const ProvinceRequired: string := "انتخاب استان الزامی است"
  const CityRequired: string := "نام شهر الزامی است"
  const AddressRequired: string := "آدرس الزامی است"
  const PostalCodeRequired: string := "کد پستی الزامی است"

  /** The empty form. */
  const Blank: Record<Field> :=
    map[FullName := "", Phone := "", Email := "", Province := "", City := "", Address := "", PostalCode := "", Notes := ""]

  /** The messages `validateForm` collects for the data `f`: a message for each required
      field left empty, and none for the e-mail, the notes, or content of any kind (a
      phone of spaces passes). */
  function Errors(f: Record<Field>): (r: Record<Field>)
    requires Fields <= f.Keys
    ensures forall k :: k in Required ==> (k in r <==> f[k] == "")
    ensures r.Keys <= Required
  {
    var e := Check(map[], FullName, Missing(f[FullName], FullNameRequired));
    var e := Check(e, Phone, Missing(f[Phone], PhoneRequired));
    var e := Check(e, Province, Missing(f[Province], ProvinceRequired));
    var e := Check(e, City, Missing(f[City], CityRequired));
    var e := Check(e, Address, Missing(f[Address], AddressRequired));
    Check(e, PostalCode, Missing(f[PostalCode], PostalCodeRequired))
  }

  /** The form passes exactly when every required field is non-empty, whatever the
      e-mail and the notes hold. */
  lemma ValidIffRequiredGiven(f: Record<Field>, email: string, notes: string)
    requires Fields <= f.Keys
    ensures NoErrors(Errors(f)) <==> forall k :: k in Required ==> f[k] != ""
    ensures Errors(f[Email := email][Notes := notes]) == Errors(f)
  {
    var r := Errors(f);
    if !NoErrors(r) {
      var k :| k in r;
      assert k in Required;
    }
  }

  /** The page's state. */
  class Page {
    var formData: Record<Field>
    var errors: Record<Field>

    /** Every field of the form has a value. */
    predicate Valid()
      reads this
    {
      Fields <= formData.Keys
    }

    constructor()
      ensures formData == Blank && errors == map[] && Valid()
    {
      formData := Blank;
      errors := map[];
    }

    /** `handleInputChange` and `handleSelectChange`: set one field, blank its message. */
    method HandleInputChange(name: Field, value: string)
      modifies this
      ensures formData == old(formData)[name := value] && errors == ClearedError(old(errors), name)
      ensures old(Valid()) ==> Valid()
    {
      formData := formData[name := value];
      errors := ClearedError(errors, name);
    }

    /** `validateForm()`: each empty required field gets its message, the messages replace
        the old ones, and the form passes when there are none. */
    method ValidateForm() returns (ok: bool)
      requires Valid()
      modifies this
      ensures formData == old(formData) && errors == Errors(formData) && ok == NoErrors(errors)
    {
      var f := formData;
      var newErrors: Record<Field> := map[];
      if f[FullName] == "" {
        newErrors := newErrors[FullName := FullNameRequired];
      }
      ghost var e1 := newErrors;
      assert e1 == Check(map[], FullName, Missing(f[FullName], FullNameRequired));
      if f[Phone] == "" {
        newErrors := newErrors[Phone := PhoneRequired];
      }
      ghost var e2 := newErrors;
      assert e2 == Check(e1, Phone, Missing(f[Phone], PhoneRequired));
      if f[Province] == "" {
        newErrors := newErrors[Province := ProvinceRequired];
      }
      ghost var e3 := newErrors;
      assert e3 == Check(e2, Province, Missing(f[Province], ProvinceRequired));
      if f[City] == "" {
        newErrors := newErrors[City := CityRequired];
      }
      ghost var e4 := newErrors;
      assert e4 == Check(e3, City, Missing(f[City], CityRequired));
      if f[Address] == "" {
        newErrors := newErrors[Address := AddressRequired];
      }
      ghost var e5 := newErrors;
      assert e5 == Check(e4, Address, Missing(f[Address], AddressRequired));
      if f[PostalCode] == "" {
        newErrors := newErrors[PostalCode := PostalCodeRequired];
      }
      assert newErrors == Check(e5, PostalCode, Missing(f[PostalCode], PostalCodeRequired));
      errors := newErrors;
      ok := newErrors == map[];
    }

    /** `handleSubmit`: the messages replace the old ones; a valid form moves to the
        order confirmation. */
    method HandleSubmit() returns (navigate: Option<string>)
      requires Valid()
      modifies this
      ensures formData == old(formData) && errors == Errors(formData)
      ensures navigate == (if NoErrors(errors) then Some("/order-success") else None)
    {
      var ok := ValidateForm();
      if ok {
        navigate := Some("/order-success");
      } else {
        navigate := None;
      }
    }
  }

  /** What the page shows for a cart: an empty cart is sent to "/cart"; otherwise the
      subtotal, the shipping and the final total of the order summary. */
  datatype View = ToCart | Summary(subtotal: int, shipping: int, total: int)

  function Render(cart: CartState): (v: View)
    ensures v.ToCart? <==> |cart.items| == 0
    ensures v.Summary? ==>
      v.subtotal == cart.totalPrice && v.total == v.subtotal + v.shipping
      && (v.shipping == 0 <==> cart.totalPrice > FreeShippingThreshold)
      && (v.shipping == 0 || v.shipping == ShippingFee)
  {
    if |cart.items| == 0 then ToCart
    else Summary(cart.totalPrice, ShippingCost(cart.totalPrice), FinalTotal(cart.totalPrice))
  }
}
