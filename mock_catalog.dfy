/** The development catalog `getMockProducts` returns, and what the catalog page does with it. */
module MockCatalog {
  import opened CatalogFilter

  const ClassicBlackTShirt := Product("1", "Classic Black T-Shirt",
    "A comfortable and versatile black t-shirt made from 100% cotton.",
    19.99, "/placeholder.svg?height=300&width=300", "T-shirts", "black")
  const BlueDenimJeans := Product("2", "Blue Denim Jeans",
    "Stylish blue jeans with a modern fit, perfect for any casual occasion.",
    49.99, "/placeholder.svg?height=300&width=300", "Jeans", "blue")
  const GrayHoodie := Product("3", "Gray Hoodie",
    "A warm and cozy hoodie for those chilly days, featuring a kangaroo pocket.",
    39.99, "/placeholder.svg?height=300&width=300", "Hoodies", "gray")
  const WhiteGraphicTShirt := Product("4", "White Graphic T-Shirt",
    "A stylish white t-shirt with a unique graphic design on the front.",
    24.99, "/placeholder.svg?height=300&width=300", "T-shirts", "white")
  const BlackSkinnyJeans := Product("5", "Black Skinny Jeans",
    "Sleek black skinny jeans that provide both comfort and style.",
    54.99, "/placeholder.svg?height=300&width=300", "Jeans", "black")
  const RedZipUpHoodie := Product("6", "Red Zip-Up Hoodie",
    "A vibrant red hoodie with a full-length zipper and adjustable hood.",
    44.99, "/placeholder.svg?height=300&width=300", "Hoodies", "red")

  function MockProducts(): (ps: seq<Product>)
    ensures |ps| == 6
  {
    [ClassicBlackTShirt, BlueDenimJeans, GrayHoodie, WhiteGraphicTShirt, BlackSkinnyJeans, RedZipUpHoodie]
  }

  lemma FirstMockPrices()
    ensures var ps := MockProducts(); ps[0].price == 19.99 && ps[1].price == 49.99 && ps[2].price == 39.99
  {
  }

  lemma LastMockPrices()
    ensures var ps := MockProducts(); ps[3].price == 24.99 && ps[4].price == 54.99 && ps[5].price == 44.99
  {
  }

  /** Every mock price lies between the first product's and the fifth's. */
  lemma MockPrices()
    ensures forall i :: 0 <= i < |MockProducts()| ==> 19.99 <= MockProducts()[i].price <= 54.99
    ensures MockProducts()[0].price == 19.99 && MockProducts()[4].price == 54.99
  {
    FirstMockPrices();
    LastMockPrices();
  }

  /** Loading the mock catalog sets the slider to [19, 55]. */
  lemma MockBounds()
    ensures PriceBounds(MockProducts()) == PriceRange(19, 55)
  {
    var ps := MockProducts();
    MockPrices();
    assert ps[0] in ps && ps[4] in ps;
    assert forall p :: p in ps ==> 19.99 <= p.price <= 54.99;
    assert MinPrice(ps) == 19.99;
    assert MaxPrice(ps) == 54.99;
  }

  /** The category stage over the last three products keeps the white T-shirt. */
  lemma MockTShirtStageTail(f: Filters)
    requires f.category == "T-shirts"
    ensures Filter([WhiteGraphicTShirt, BlackSkinnyJeans, RedZipUpHoodie], CategoryTest(f)) == [WhiteGraphicTShirt]
  {
    var k := CategoryTest(f);
    FilterCons(RedZipUpHoodie, [], k);
    FilterCons(BlackSkinnyJeans, [RedZipUpHoodie], k);
    FilterCons(WhiteGraphicTShirt, [BlackSkinnyJeans, RedZipUpHoodie], k);
  }

  /** The category stage over the last five products keeps the white T-shirt. */
  lemma MockTShirtStageMiddle(f: Filters)
    requires f.category == "T-shirts"
    ensures Filter([BlueDenimJeans, GrayHoodie, WhiteGraphicTShirt, BlackSkinnyJeans, RedZipUpHoodie], CategoryTest(f))
         == [WhiteGraphicTShirt]
  {
    var tail := [WhiteGraphicTShirt, BlackSkinnyJeans, RedZipUpHoodie];
    MockTShirtStageTail(f);
    FilterCons(GrayHoodie, tail, CategoryTest(f));
    FilterCons(BlueDenimJeans, [GrayHoodie] + tail, CategoryTest(f));
  }

  /** The category stage alone keeps the two T-shirts. */
  lemma MockTShirtStage(f: Filters)
    requires f.category == "T-shirts"
    ensures Filter([ClassicBlackTShirt, BlueDenimJeans, GrayHoodie, WhiteGraphicTShirt, BlackSkinnyJeans, RedZipUpHoodie],
                   CategoryTest(f))
         == [ClassicBlackTShirt, WhiteGraphicTShirt]
  {
    MockTShirtStageMiddle(f);
    FilterCons(ClassicBlackTShirt, [BlueDenimJeans, GrayHoodie, WhiteGraphicTShirt, BlackSkinnyJeans, RedZipUpHoodie], CategoryTest(f));
  }

  /** With the category "T-shirts" and the loaded range, the page shows products 1 and 4, in that order. */
  lemma MockTShirts()
    ensures ApplyFilters(MockProducts(), Filters("T-shirts", [], 19.0, 55.0)) == [ClassicBlackTShirt, WhiteGraphicTShirt]
  {
    var f := Filters("T-shirts", [], 19.0, 55.0);
    MockTShirtStage(f);
    FilterKeepsAll([ClassicBlackTShirt, WhiteGraphicTShirt], PriceTest(f));
  }

  /** From "Jeans", clicking "Hoodies" twice ends with no category, not with "Jeans". */
  lemma CategoryToggleCounterexample()
    ensures ToggleCategory(ToggleCategory(Filters("Jeans", [], 0.0, 200.0), "Hoodies"), "Hoodies").category == ""
  {
  }
}
