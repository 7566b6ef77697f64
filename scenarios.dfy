/** Worked sessions on the cart: what a shopper sees after a sequence of clicks. */
module Scenarios {
  import opened Wrappers
  import opened LineItems
  import opened CartEngine
  import opened PriceParsing

  /** Two lattes and a croissant: two lines in order of first addition, a total of 12.00 and a badge of 3. */
  method LattesAndCroissant(img: Option<string>)
  {
    var cart := new Cart();
    cart.Add("Latte", 4.5, img);
    cart.Add("Latte", 4.5, img);
    cart.Add("Croissant", 3.0, img);
    assert cart.items == [LineItem("Latte", 4.5, img, 2), LineItem("Croissant", 3.0, img, 1)];
    var latte, croissant := LineItem("Latte", 4.5, img, 2), LineItem("Croissant", 3.0, img, 1);
    assert cart.items == [latte] + [croissant];
    SumsOfConcat([latte], [croissant]);
    SumsOfSingle(latte);
    SumsOfSingle(croissant);
    assert LineTotal(latte) == 9.0 && LineTotal(croissant) == 3.0;
    assert cart.CartTotal() == 12.0;
    assert cart.BadgeCount() == 3;
  }

  /** "-" on the only latte empties the cart and brings up the empty indicator. */
  method LastLatteRemoved(img: Option<string>)
  {
    var cart := new Cart();
    cart.Add("Latte", 4.5, img);
    cart.Decrease(0);
    assert cart.items == [];
    var v := cart.Render();
    assert v.emptyShown && v.total == 0.0 && v.badge == 0;
  }

  /** Checkout on an empty cart only shows the toast; on a full one it saves the lines and redirects. */
  method CheckoutBothWays(img: Option<string>)
  {
    var cart := new Cart();
    var store := new LocalStorage();
    var outcome := cart.Checkout(store);
    assert outcome == EmptyCartNotice(EmptyCartMessage) && store.entries == map[];
    cart.Add("Latte", 4.5, img);
    outcome := cart.Checkout(store);
    assert outcome == Redirect(CheckoutPage);
    assert store.entries == map[StorageKey := [LineItem("Latte", 4.5, img, 1)]];
  }

  /** A price text `$4.50` without a `data-price` reads as 4.5. */
  lemma PriceFromText()
    ensures PriceOf(PriceElement(None, "$4.50")) == Finite(4.5)
  {
    DollarSignDropped();
    FourFiftyParsed();
  }

  lemma DollarSignDropped()
    ensures KeepDigitsAndDots("$4.50") == "4.50"
  {
    assert "$4.50" == "$" + "4.50";
    KeepDigitsAndDotsConcat("$", "4.50");
    KeepDigitsAndDotsClean("4.50");
  }

  lemma FourFiftyParsed()
    ensures ParseFloat("4.50") == Finite(4.5)
  {
    assert "4.50" == "4" + "." + "50";
    ParseDecimal("4", "50");
    FourFiftyValue();
  }

  lemma FourFiftyValue()
    ensures DecimalValue(Decimal("4", "50", 0)) == 4.5
  {
    assert DigitsValue("4") == 4;
    assert DigitsValue("50") == 50 by {
      assert "50"[..1] == "5";
    }
    assert Pow10(|"50"|) == 100;
    assert Scale(0) == 1.0;
  }
}
