/** The mock data layer (src/utils/mockData.ts): the product, category, address and
    order shapes, the seed catalogue, categories and user, and the `getProduct` lookup. */
module Catalog {
  import opened Wrappers
  import opened Seqs

  datatype Specifications = Specifications(material: string, weight: string, dimensions: string, color: string)

  /** The selectable options per variation axis; an absent axis is None. */
  datatype VariationOptions = VariationOptions(size: Option<seq<string>>, material: Option<seq<string>>, color: Option<seq<string>>)

  /** A catalogue entry. `rating` is held in tenths of a star (4.8 is 48). */
  datatype Product = Product(
    id: int,
    nameFa: string,
    nameEn: string,
    price: int,
    originalPrice: Option<int>,
    images: seq<string>,
    tags: seq<string>,
    stock: int,
    rating: int,
    reviews: int,
    description: string,
    specifications: Specifications,
    variations: Option<VariationOptions>)

  datatype Category = Category(id: int, name: string, slug: string)

  datatype Address = Address(id: int, title: string, address: string, postalCode: string, city: string, province: string)

  datatype OrderItem = OrderItem(id: int, nameFa: string, price: int, images: seq<string>)

  datatype Order = Order(id: string, date: string, status: string, total: int, items: seq<OrderItem>)

  datatype Account = Account(id: int, name: string, email: string, phone: string, profileImage: Option<string>,
                             addresses: seq<Address>, orders: seq<Order>)

  /** No two products share an id. */
  predicate UniqueIds(ps: seq<Product>) {
    forall i, j :: 0 <= i < j < |ps| ==> ps[i].id != ps[j].id
  }

  /** Some product of `ps` has id `id`. */
  predicate HasId(ps: seq<Product>, id: int) {
    exists i :: 0 <= i < |ps| && ps[i].id == id
  }

  /** `ps.find((p) => p.id === id) || null`: the first product with that id. */
  function FindById(ps: seq<Product>, id: int): (r: Option<Product>)
    ensures r.None? <==> !HasId(ps, id)
    ensures r.Some? ==> exists i :: 0 <= i < |ps| && ps[i] == r.value && r.value.id == id
                                  && forall j :: 0 <= j < i ==> ps[j].id != id
  {
    if ps == [] then None
    else if ps[0].id == id then Some(ps[0])
    else
      var r := FindById(ps[1..], id);
      assert HasId(ps[1..], id) ==> HasId(ps, id) by {
        if HasId(ps[1..], id) { var i :| 0 <= i < |ps| - 1 && ps[1..][i].id == id; assert ps[i + 1].id == id; }
      }
      assert HasId(ps, id) ==> HasId(ps[1..], id) by {
        if HasId(ps, id) { var i :| 0 <= i < |ps| && ps[i].id == id; assert i > 0 && ps[1..][i - 1].id == id; }
      }
      r
  }

  /** Filtering a list without repeated ids leaves a list without repeated ids. */
  lemma {:induction false} FilterKeepsUnique(ps: seq<Product>, keep: Product -> bool)
    requires UniqueIds(ps)
    ensures UniqueIds(Filter(ps, keep))
  {
    if ps != [] {
      var x, rest := ps[0], ps[1..];
      FilterKeepsUnique(rest, keep);
      FilterMembers(rest, keep);
      if keep(x) {
        var r := Filter(ps, keep);
        assert r == [x] + Filter(rest, keep);
        forall j | 1 <= j < |r| ensures r[0].id != r[j].id {
          var k :| 0 <= k < |rest| && rest[k] == r[j];
          assert ps[k + 1] == r[j];
        }
      }
    }
  }

  /** In a catalogue without repeated ids, the product found is the one at the index of that id. */
  lemma FindByIdUnique(ps: seq<Product>, i: nat)
    requires UniqueIds(ps) && i < |ps|
    ensures FindById(ps, ps[i].id) == Some(ps[i])
  {
    var r := FindById(ps, ps[i].id);
    var k :| 0 <= k < |ps| && ps[k] == r.value && r.value.id == ps[i].id
             && forall j :: 0 <= j < k ==> ps[j].id != ps[i].id;
    assert k == i;
  }

  // ---------------------------------------------------------------- seed data

  const MockProducts: seq<Product> := [
    Product(1, "گردنبند طلای ۱۸ عیار", "18K Gold Necklace", 25000000, Some(30000000),
      ["https://images.unsplash.com/photo-1515562141207-7a88fb7ce338?w=400",
       "https://images.unsplash.com/photo-1506630448388-4e683c67ddb0?w=400",
       "https://images.unsplash.com/photo-1599643478518-a784e5dc4c8f?w=400"],
      ["طلای ۱۸ عیار", "گردنبند", "کلاسیک"], 5, 48, 24,
      "گردنبند زیبا و کلاسیک از طلای ۱۸ عیار با طراحی منحصر به فرد",
      Specifications("طلای ۱۸ عیار", "۱۵ گرم", "۴۵ سانتی‌متر", "طلایی"),
      Some(VariationOptions(Some(["۴۰ سانتی‌متر", "۴۵ سانتی‌متر", "۵۰ سانتی‌متر"]),
                            Some(["طلای ۱۸ عیار", "طلای ۱۴ عیار"]), None))),
    Product(2, "دستبند نقره‌ای با نگین", "Silver Bracelet with Gemstone", 8500000, None,
      ["https://images.unsplash.com/photo-1605100804763-247f67b3557e?w=400",
       "https://images.unsplash.com/photo-1617038220319-276d4f7b9b0e?w=400"],
      ["نقره", "دستبند", "نگین"], 8, 46, 18,
      "دستبند زیبا از نقره خالص با نگین‌های طبیعی",
      Specifications("نقره ۹۲۵", "۲۵ گرم", "۱۸ سانتی‌متر", "نقره‌ای"),
      Some(VariationOptions(Some(["۱۶ سانتی‌متر", "۱۸ سانتی‌متر", "۲۰ سانتی‌متر"]), None, None))),
    Product(3, "انگشتر الماس", "Diamond Ring", 45000000, Some(50000000),
      ["https://images.unsplash.com/photo-1603561591411-07134e71a2a9?w=400",
       "https://images.unsplash.com/photo-1596944924616-7b384c9e35d1?w=400"],
      ["الماس", "انگشتر", "لوکس"], 2, 49, 12,
      "انگشتر لوکس با الماس طبیعی و طلای ۱۸ عیار",
      Specifications("طلای ۱۸ عیار + الماس", "۸ گرم", "سایز ۵۴", "طلایی"),
      Some(VariationOptions(Some(["سایز ۵۰", "سایز ۵۲", "سایز ۵۴", "سایز ۵۶"]), None, None))),
    Product(4, "گوشواره مروارید", "Pearl Earrings", 12000000, None,
      ["https://images.unsplash.com/photo-1535632066927-ab7c9ab60908?w=400",
       "https://images.unsplash.com/photo-1515562141207-7a88fb7ce338?w=400"],
      ["مروارید", "گوشواره", "کلاسیک"], 6, 47, 15,
      "گوشواره زیبا با مروارید طبیعی و طلای ۱۴ عیار",
      Specifications("طلای ۱۴ عیار + مروارید", "۶ گرم", "۲ سانتی‌متر", "طلایی"),
      None),
    Product(5, "ساعت مچی طلای ۱۸ عیار", "18K Gold Watch", 75000000, Some(85000000),
      ["https://images.unsplash.com/photo-1506744038136-46273834b3fb?w=400",
       "https://images.unsplash.com/photo-1519125323398-675f0ddb6308?w=400"],
      ["ساعت", "طلای ۱۸ عیار", "مردانه"], 3, 49, 8,
      "ساعت مچی لوکس مردانه از طلای ۱۸ عیار",
      Specifications("طلای ۱۸ عیار", "۱۲۰ گرم", "۴۲ میلی‌متر", "طلایی"),
      None),
    Product(6, "سرویس طلا زنانه", "Women's Gold Set", 95000000, None,
      ["https://images.unsplash.com/photo-1506630448388-4e683c67ddb0?w=400",
       "https://images.unsplash.com/photo-1599643478518-a784e5dc4c8f?w=400"],
      ["سرویس", "طلای ۱۸ عیار", "زنانه"], 1, 50, 6,
      "سرویس کامل طلا شامل گردنبند، دستبند و گوشواره",
      Specifications("طلای ۱۸ عیار", "۸۵ گرم", "متنوع", "طلایی"),
      None)
  ]

  const MockCategories: seq<Category> := [
    Category(1, "گردنبند", "necklaces"),
    Category(2, "دستبند", "bracelets"),
    Category(3, "انگشتر", "rings"),
    Category(4, "گوشواره", "earrings"),
    Category(5, "ساعت", "watches"),
    Category(6, "سرویس", "sets")
  ]

  const MockUser: Account := Account(1, "احمد محمدی", "ahmad@example.com", "09123456789", None,
    [Address(1, "خانه", "تهران، خیابان ولیعصر، پلاک ۱۲۳، طبقه ۲، واحد ۵", "1234567890", "تهران", "تهران"),
     Address(2, "محل کار", "تهران، خیابان آزادی، برج میلاد، طبقه ۱۵", "0987654321", "تهران", "تهران")],
    [Order("ORD-001", "۱۴۰۳/۰۱/۱۵", "تحویل شده", 45000000,
       [OrderItem(1, "گردنبند طلای ۱۸ عیار", 25000000, ["https://images.unsplash.com/photo-1515562141207-7a88fb7ce338?w=400"]),
        OrderItem(2, "دستبند نقره‌ای با نگین", 20000000, ["https://images.unsplash.com/photo-1605100804763-247f67b3557e?w=400"])]),
     Order("ORD-002", "۱۴۰۳/۰۱/۱۰", "در حال ارسال", 32000000,
       [OrderItem(3, "انگشتر الماس", 32000000, ["https://images.unsplash.com/photo-1603561591411-07134e71a2a9?w=400"])])])

  /** `mockApi.getProduct(id)` once its delay has passed. */
  function GetProduct(id: int): (r: Option<Product>)
    ensures r.Some? ==> r.value in MockProducts && r.value.id == id
    ensures r.None? <==> !HasId(MockProducts, id)
  {
    FindById(MockProducts, id)
  }

  /** The sum of the prices of an order's items. */
  function ItemsTotal(items: seq<OrderItem>): int {
    if items == [] then 0 else ItemsTotal(items[..|items| - 1]) + items[|items| - 1].price
  }

  /** The seed products carry the ids 1 to 6, in that order, so no id repeats. */
  lemma SeedIds()
    ensures |MockProducts| == 6
    ensures forall i :: 0 <= i < 6 ==> MockProducts[i].id == i + 1
    ensures UniqueIds(MockProducts)
  {
  }

  /** `getProduct(id)` finds the seed product with id `id` for ids 1 to 6 and nothing otherwise. */
  lemma GetProductSeed(id: int)
    ensures 1 <= id <= 6 ==> GetProduct(id) == Some(MockProducts[id - 1])
    ensures !(1 <= id <= 6) ==> GetProduct(id) == None
  {
    SeedIds();
    if 1 <= id <= 6 {
      FindByIdUnique(MockProducts, id - 1);
    }
  }

  /** Every seed product with an original price is discounted: the original price is higher. */
  lemma SeedDiscounts()
    ensures forall i :: 0 <= i < |MockProducts| && MockProducts[i].originalPrice.Some? ==>
              MockProducts[i].originalPrice.value > MockProducts[i].price
  {
  }

  /** Every seed product is in stock and has at least one image. */
  lemma SeedStockAndImages()
    ensures forall i :: 0 <= i < |MockProducts| ==> MockProducts[i].stock >= 1 && |MockProducts[i].images| >= 1
  {
  }

  /** Each order of the seed user totals the prices of its items. */
  lemma SeedOrderTotals()
    ensures forall k :: 0 <= k < |MockUser.orders| ==> MockUser.orders[k].total == ItemsTotal(MockUser.orders[k].items)
  {
    var o := MockUser.orders;
    assert o[0].items[..1] == [o[0].items[0]];
    assert ItemsTotal(o[0].items) == 45000000;
    assert ItemsTotal(o[1].items) == 32000000;
  }

  /** The category slugs are pairwise distinct, so a slug names at most one category. */
  lemma SeedSlugs()
    ensures forall i, j :: 0 <= i < j < |MockCategories| ==> MockCategories[i].slug != MockCategories[j].slug
  {
  }
}
