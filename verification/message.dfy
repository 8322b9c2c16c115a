/** The order text `buildWhatsAppMessage` writes (scripts/inicio.js:258-283).

    Money amounts are written by `formatCOP`, which calls the browser's
    `Intl.NumberFormat`; here it is the parameter `fmt`, about which nothing
    is assumed except, where stated, that its output holds no line break. */
module Message {
  import opened Wrappers
  import opened Numbers
  import opened Text
  import opened Cart
  import opened Pricing

  /** The trimmed fields of the delivery form. */
  datatype DeliveryDetails = DeliveryDetails(address: string, name: string, phone: string)

  // Each constant is written as short pieces so that facts about its
  // characters (no line break) stay cheap to prove; the text is the script's.
  const Greeting: string := "\U{1F457} ¡Hola" + " Mahia" + " Travesuras!" + " Quiero" + " realizar" + " este" + " pedido:"
  const Rule: string := "------------" + "------------" + "------------"
  const DetailsHeading: string := "Mis datos" + " de envío" + " son:"
  const PickupLine: string := "Pasaré a" + " recoger el" + " pedido." + " ¡Gracias!"

  function MethodLabel(choice: ShippingMethod): string {
    match choice
    case Delivery => "Domicilio"
    case Pickup => "Recoger en tienda"
  }

  /** `  - ${qty} x ${name} (${formatCOP(price)})` */
  function ItemLine(it: LineItem, fmt: int -> string): string {
    "  - " + IntToString(it.qty) + " x " + it.name + " (" + fmt(it.price) + ")"
  }

  /** One line per entry, in cart order. */
  function ItemLines(cart: Cart, fmt: int -> string): (ls: seq<string>)
    ensures |ls| == |cart|
    ensures forall i | 0 <= i < |cart| :: ls[i] == ItemLine(cart[i], fmt)
  {
    seq(|cart|, i requires 0 <= i < |cart| => ItemLine(cart[i], fmt))
  }

  /** The closing lines: the delivery fields when the form supplied them,
      the pickup acknowledgement otherwise. */
  function Closing(details: Option<DeliveryDetails>): (ls: seq<string>)
    ensures details.None? ==> ls == [PickupLine]
    ensures details.Some? ==> |ls| == 4 && ls[0] == DetailsHeading
  {
    match details
    case Some(d) => [DetailsHeading, "Nombre: " + d.name, "Dirección: " + d.address, "Celular: " + d.phone]
    case None => [PickupLine]
  }

  /** The four summary lines, amounts as `updateTotalsUI` computes them. */
  function Summary(cart: Cart, choice: ShippingMethod, fmt: int -> string): seq<string> {
    var t := ComputeTotals(cart, choice);
    [ "Subtotal: " + fmt(t.subtotal),
      "Método: " + MethodLabel(choice),
      "Costo Envío: " + fmt(t.shipping),
      "TOTAL: " + fmt(t.total) ]
  }

  /** The array `message` before it is joined: greeting, the items as one
      joined block, the summary with its two rules, then the closing lines. */
  function Parts(cart: Cart, choice: ShippingMethod, details: Option<DeliveryDetails>, fmt: int -> string): (ps: seq<string>)
    ensures |ps| == 8 + |Closing(details)|
  {
    [Greeting + "\n", Join(ItemLines(cart, fmt), '\n'), "\n" + Rule]
    + Summary(cart, choice, fmt)
    + [Rule + "\n"]
    + Closing(details)
  }

  /** `buildWhatsAppMessage(deliveryDetails)`: the parts joined by line breaks. */
  function Build(cart: Cart, choice: ShippingMethod, details: Option<DeliveryDetails>, fmt: int -> string): (msg: string)
    ensures |Greeting| < |msg| && msg[..|Greeting|] == Greeting
  {
    var ps := Parts(cart, choice, details, fmt);
    JoinAppend([ps[0]], ps[1..], '\n');
    assert [ps[0]] + ps[1..] == ps;
    Join(ps, '\n')
  }

  /** The message line by line, as a reader sees it: the greeting and a blank
      line; one line per item in cart order (a single blank line for an empty
      cart); a blank line; the summary between two rules; a blank line; the
      closing lines. */
  function Layout(cart: Cart, choice: ShippingMethod, details: Option<DeliveryDetails>, fmt: int -> string): seq<string> {
    [Greeting, ""]
    + ItemBlock(cart, fmt)
    + ["", Rule]
    + Summary(cart, choice, fmt)
    + [Rule, ""]
    + Closing(details)
  }

  /** The item lines as the message shows them: an empty cart still leaves one (blank) line. */
  function ItemBlock(cart: Cart, fmt: int -> string): (ls: seq<string>)
    ensures |ls| > 0
    ensures Join(ls, '\n') == Join(ItemLines(cart, fmt), '\n')
  {
    if |cart| == 0 then [""] else ItemLines(cart, fmt)
  }

  /** No product name, form field or formatted amount contains a line break. */
  ghost predicate SingleLineFields(cart: Cart, details: Option<DeliveryDetails>, fmt: int -> string) {
    && (forall i | 0 <= i < |cart| :: '\n' !in cart[i].name)
    && (forall n: int :: '\n' !in fmt(n))
    && (details.Some? ==> '\n' !in details.value.name && '\n' !in details.value.address && '\n' !in details.value.phone)
  }

  /** The joined parts are the joined layout: the line breaks inside the
      greeting, the item block and the two rules become line boundaries. */
  lemma BuildIsJoinedLayout(cart: Cart, choice: ShippingMethod, details: Option<DeliveryDetails>, fmt: int -> string)
    ensures Build(cart, choice, details, fmt) == Join(Layout(cart, choice, details, fmt), '\n')
  {
    SpliceAll(Greeting, Join(ItemLines(cart, fmt), '\n'), ItemBlock(cart, fmt), Rule, Summary(cart, choice, fmt), Closing(details));
  }

  lemma NumeralHasNoBreak(n: int)
    ensures '\n' !in IntToString(n)
  {
    var s := IntToString(n);
    var d := Decimal(if n < 0 then -n else n);
    assert forall i | 0 <= i < |d| :: d[i] != '\n';
    if n < 0 {
      assert s == "-" + d;
      assert forall i | 1 <= i < |s| :: s[i] == d[i - 1];
    }
    assert forall i | 0 <= i < |s| :: s[i] != '\n';
  }

  lemma ConstantsHaveNoBreak()
    ensures '\n' !in Greeting && '\n' !in Rule && '\n' !in DetailsHeading && '\n' !in PickupLine
  {
  }

  /** No element of `ls` contains a line break. */
  predicate SingleLines(ls: seq<string>) {
    forall i | 0 <= i < |ls| :: '\n' !in ls[i]
  }

  lemma ItemLinesHaveNoBreak(cart: Cart, fmt: int -> string)
    requires SingleLineFields(cart, None, fmt)
    ensures SingleLines(ItemBlock(cart, fmt))
  {
    forall i | 0 <= i < |cart|
      ensures '\n' !in ItemLine(cart[i], fmt)
    {
      NumeralHasNoBreak(cart[i].qty);
      assert '\n' !in "  - " && '\n' !in " x " && '\n' !in " (" && '\n' !in ")";
    }
  }

  lemma SummaryHasNoBreak(cart: Cart, choice: ShippingMethod, fmt: int -> string)
    requires forall n: int :: '\n' !in fmt(n)
    ensures SingleLines(Summary(cart, choice, fmt))
  {
    var t := ComputeTotals(cart, choice);
    assert '\n' !in "Subtotal: " + fmt(t.subtotal);
    assert '\n' !in "Método: " + MethodLabel(choice);
    assert '\n' !in "Costo Envío: " + fmt(t.shipping);
    assert '\n' !in "TOTAL: " + fmt(t.total);
  }

  lemma ClosingHasNoBreak(details: Option<DeliveryDetails>)
    requires details.Some? ==> '\n' !in details.value.name && '\n' !in details.value.address && '\n' !in details.value.phone
    ensures SingleLines(Closing(details))
  {
    ConstantsHaveNoBreak();
    if details.Some? {
      var d := details.value;
      assert '\n' !in "Nombre: " + d.name;
      assert '\n' !in "Dirección: " + d.address;
      assert '\n' !in "Celular: " + d.phone;
    }
  }

  lemma SingleLinesAppend(a: seq<string>, b: seq<string>)
    requires SingleLines(a) && SingleLines(b)
    ensures SingleLines(a + b)
  {
    forall i | 0 <= i < |a + b|
      ensures '\n' !in (a + b)[i]
    {
      if i < |a| {
        assert (a + b)[i] == a[i];
      } else {
        assert (a + b)[i] == b[i - |a|];
      }
    }
  }

  lemma LayoutHasNoBreak(cart: Cart, choice: ShippingMethod, details: Option<DeliveryDetails>, fmt: int -> string)
    requires SingleLineFields(cart, details, fmt)
    ensures SingleLines(Layout(cart, choice, details, fmt))
  {
    ConstantsHaveNoBreak();
    var p1, p2, p3, p4, p5, p6 := [Greeting, ""], ItemBlock(cart, fmt), ["", Rule], Summary(cart, choice, fmt), [Rule, ""], Closing(details);
    ItemLinesHaveNoBreak(cart, fmt);
    SummaryHasNoBreak(cart, choice, fmt);
    ClosingHasNoBreak(details);
    assert SingleLines(p1) && SingleLines(p3) && SingleLines(p5);
    SingleLinesAppend(p1, p2);
    SingleLinesAppend(p1 + p2, p3);
    SingleLinesAppend(p1 + p2 + p3, p4);
    SingleLinesAppend(p1 + p2 + p3 + p4, p5);
    SingleLinesAppend(p1 + p2 + p3 + p4 + p5, p6);
  }

  /** Read line by line, the message is exactly its layout, provided no
      product name, form field or formatted amount contains a line break. */
  lemma MessageLines(cart: Cart, choice: ShippingMethod, details: Option<DeliveryDetails>, fmt: int -> string)
    requires SingleLineFields(cart, details, fmt)
    ensures Split(Build(cart, choice, details, fmt), '\n') == Layout(cart, choice, details, fmt)
  {
    BuildIsJoinedLayout(cart, choice, details, fmt);
    LayoutHasNoBreak(cart, choice, details, fmt);
    SplitJoin(Layout(cart, choice, details, fmt), '\n');
  }

  /** Where each block of a layout sits, for any greeting and blocks. */
  lemma LayoutPositions(g: string, block: seq<string>, summary: seq<string>, closing: seq<string>)
    ensures var ls := [g, ""] + block + ["", Rule] + summary + [Rule, ""] + closing;
      && |ls| == |block| + 6 + |summary| + |closing|
      && ls[0] == g
      && (forall i | 0 <= i < |block| :: ls[2 + i] == block[i])
      && (forall i | 0 <= i < |summary| :: ls[|block| + 4 + i] == summary[i])
      && (forall i | 0 <= i < |closing| :: ls[|block| + |summary| + 6 + i] == closing[i])
  {
  }

  /** The greeting and the entries in the layout of a non-empty cart. */
  lemma LayoutItems(cart: Cart, choice: ShippingMethod, details: Option<DeliveryDetails>, fmt: int -> string)
    requires |cart| > 0
    ensures var ls := Layout(cart, choice, details, fmt);
      && |ls| == |cart| + 10 + |Closing(details)|
      && ls[0] == Greeting
      && (forall i | 0 <= i < |cart| :: ls[2 + i] == ItemLine(cart[i], fmt))
  {
    LayoutPositions(Greeting, ItemBlock(cart, fmt), Summary(cart, choice, fmt), Closing(details));
  }

  /** The summary lines in the layout of a non-empty cart. */
  lemma LayoutSummary(cart: Cart, choice: ShippingMethod, details: Option<DeliveryDetails>, fmt: int -> string)
    requires |cart| > 0
    ensures var ls := Layout(cart, choice, details, fmt);
      var n := |cart|;
      && |ls| == n + 10 + |Closing(details)|
      && (forall i | 0 <= i < 4 :: ls[n + 4 + i] == Summary(cart, choice, fmt)[i])
  {
    var block, summary, closing := ItemBlock(cart, fmt), Summary(cart, choice, fmt), Closing(details);
    assert Layout(cart, choice, details, fmt) == [Greeting, ""] + block + ["", Rule] + summary + [Rule, ""] + closing;
    LayoutPositions(Greeting, block, summary, closing);
  }

  /** The closing lines in the layout of a non-empty cart. */
  lemma LayoutEnd(cart: Cart, choice: ShippingMethod, details: Option<DeliveryDetails>, fmt: int -> string)
    requires |cart| > 0
    ensures var ls := Layout(cart, choice, details, fmt);
      var n := |cart|;
      && |ls| == n + 10 + |Closing(details)|
      && (forall j | 0 <= j < |Closing(details)| :: ls[n + 10 + j] == Closing(details)[j])
  {
    var block, summary, closing := ItemBlock(cart, fmt), Summary(cart, choice, fmt), Closing(details);
    assert Layout(cart, choice, details, fmt) == [Greeting, ""] + block + ["", Rule] + summary + [Rule, ""] + closing;
    LayoutPositions(Greeting, block, summary, closing);
  }

  /** What a reader finds in the message: the greeting first; the entries on
      lines 3 onwards, one per line, in cart order; the summary with the
      totals of the cart; and at the end either the three delivery fields
      or the pickup line. */
  lemma MessageContents(cart: Cart, choice: ShippingMethod, details: Option<DeliveryDetails>, fmt: int -> string)
    requires SingleLineFields(cart, details, fmt)
    requires |cart| > 0
    ensures var lines := Split(Build(cart, choice, details, fmt), '\n');
      var t := ComputeTotals(cart, choice);
      var n := |cart|;
      && |lines| == n + 10 + |Closing(details)|
      && lines[0] == Greeting
      && (forall i | 0 <= i < n :: lines[2 + i] == ItemLine(cart[i], fmt))
      && lines[n + 4] == "Subtotal: " + fmt(t.subtotal)
      && lines[n + 5] == "Método: " + MethodLabel(choice)
      && lines[n + 6] == "Costo Envío: " + fmt(t.shipping)
      && lines[n + 7] == "TOTAL: " + fmt(t.total)
      && (details.None? ==> lines[n + 10] == PickupLine)
      && (details.Some? ==>
            && lines[n + 10] == DetailsHeading
            && lines[n + 11] == "Nombre: " + details.value.name
            && lines[n + 12] == "Dirección: " + details.value.address
            && lines[n + 13] == "Celular: " + details.value.phone)
  {
    MessageLines(cart, choice, details, fmt);
    LayoutItems(cart, choice, details, fmt);
    LayoutSummary(cart, choice, details, fmt);
    LayoutEnd(cart, choice, details, fmt);
    var closing := Closing(details);
    var n := |cart|;
    var ls := Layout(cart, choice, details, fmt);
    var summary := Summary(cart, choice, fmt);
    assert ls[n + 4 + 0] == summary[0];
    assert ls[n + 4 + 1] == summary[1];
    assert ls[n + 4 + 2] == summary[2];
    assert ls[n + 4 + 3] == summary[3];
    assert ls[n + 10] == closing[0];
    if details.Some? {
      assert ls[n + 11] == closing[1];
      assert ls[n + 12] == closing[2];
      assert ls[n + 13] == closing[3];
    }
  }
}
