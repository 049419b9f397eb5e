/** The shopping-cart modal: the cart total, the quantity buttons, and the
    checkout that turns the cart and the customer's details into a WhatsApp
    order message. The cart store's reducer is not part of this model: the
    modal only reads the items of its render and dispatches commands. */
module CartModal {
  import opened Optional
  import opened Decimal
  import opened Lines
  import opened CartTypes

  // ---------------------------------------------------------------- total

  /** What one line costs, in cents. */
  function LineAmount(item: CartItem): nat {
    item.price * item.quantity
  }

  /** The reference sum of price × quantity over the items. */
  function Sum(items: seq<CartItem>): nat {
    if items == [] then 0 else LineAmount(items[0]) + Sum(items[1..])
  }

  /** `items.reduce((sum, item) => sum + item.price * item.quantity, acc)`:
      a left fold that adds each line to the running sum in cart order. */
  function Reduce(items: seq<CartItem>, acc: nat): nat {
    if items == [] then acc else Reduce(items[1..], acc + LineAmount(items[0]))
  }

  lemma {:induction false} ReduceIsSum(items: seq<CartItem>, acc: nat)
    ensures Reduce(items, acc) == acc + Sum(items)
  {
    if items != [] {
      ReduceIsSum(items[1..], acc + LineAmount(items[0]));
    }
  }

  /** The cart total in cents, as the modal computes it with a fold from 0. */
  function Total(items: seq<CartItem>): (total: nat)
    ensures total == Sum(items)
    ensures items == [] ==> total == 0
  {
    ReduceIsSum(items, 0);
    Reduce(items, 0)
  }

  lemma {:induction false} SumAppend(a: seq<CartItem>, b: seq<CartItem>)
    ensures Sum(a + b) == Sum(a) + Sum(b)
  {
    if a == [] {
      assert a + b == b;
    } else {
      SumAppend(a[1..], b);
      assert (a + b)[1..] == a[1..] + b;
    }
  }

  /** The total of a cart is the totals of its parts added up. */
  lemma TotalAppend(a: seq<CartItem>, b: seq<CartItem>)
    ensures Total(a + b) == Total(a) + Total(b)
  {
    SumAppend(a, b);
  }

  // -------------------------------------------------- quantity change policy

  /** `handleQuantityChange`: a requested quantity below 1 removes the line,
      any other quantity is set as it is. */
  function QuantityChange(productId: string, quantity: int): (c: Cmd)
    ensures c.RemoveItem? <==> quantity < 1
    ensures c.RemoveItem? || c.UpdateQuantity?
    ensures c.productId == productId
    ensures c.UpdateQuantity? ==> c.quantity == quantity
    ensures KeepsQuantitiesPositive(c)
  {
    if quantity < 1 then RemoveItem(productId) else UpdateQuantity(productId, quantity)
  }

  /** The command sent by the − button of a line. */
  function DecreaseCommand(item: CartItem): Cmd {
    QuantityChange(item.productId, item.quantity - 1)
  }

  /** The command sent by the + button of a line. */
  function IncreaseCommand(item: CartItem): Cmd {
    QuantityChange(item.productId, item.quantity + 1)
  }

  /** − removes a line exactly when its quantity is at most 1 (so a line of
      quantity 1 is removed), and otherwise asks for one less. */
  lemma DecreaseRemovesLast(item: CartItem)
    ensures DecreaseCommand(item) == RemoveItem(item.productId) <==> item.quantity <= 1
    ensures item.quantity >= 2 ==> DecreaseCommand(item) == UpdateQuantity(item.productId, item.quantity - 1)
  {
  }

  /** + never removes a line and always asks for one more. */
  lemma IncreaseNeverRemoves(item: CartItem)
    ensures IncreaseCommand(item) == UpdateQuantity(item.productId, item.quantity + 1)
  {
  }

  // ----------------------------------------------------------- order text

  /** One line of the order: `{q}x {name} - ${amount}`. */
  function ItemLine(item: CartItem): string {
    NatToString(item.quantity) + "x " + item.name + " - $" + FormatCents(LineAmount(item))
  }

  /** `items.map(ItemLine)`, in cart order. */
  function ItemLines(items: seq<CartItem>): (lines: seq<string>)
    ensures |lines| == |items|
    ensures forall i :: 0 <= i < |items| ==> lines[i] == ItemLine(items[i])
  {
    if items == [] then [] else [ItemLine(items[0])] + ItemLines(items[1..])
  }

  /** The `orderItems` text: the item lines joined by '\n'. */
  function OrderItems(items: seq<CartItem>): string {
    Join(ItemLines(items))
  }

  function TotalLine(total: nat): string {
    "*Total: $" + FormatCents(total) + "*"
  }

  /** The order message, exactly as the template in `handleCheckout` builds it. */
  function Message(items: seq<CartItem>, form: CheckoutForm): string
  {
    "*New Order*\n\n" +
    "*Customer Details*\n" +
    "Name: " + form.name + "\n" +
    "Phone: " + form.phone + "\n" +
    "Address: " + form.address + "\n\n" +
    "*Order Items*\n" + OrderItems(items) + "\n\n" +
    "*Total: $" + FormatCents(Total(items)) + "*"
  }

  lemma PrefixExtend(p: string, x: string, y: string)
    requires p <= x
    ensures p <= x + y
  {
    assert (x + y)[..|x|] == x;
  }

  /** The message opens with the fixed order and customer headings. */
  lemma MessageStartsWithHeadings(items: seq<CartItem>, form: CheckoutForm)
    ensures "*New Order*\n\n" + "*Customer Details*\n" <= Message(items, form)
  {
    var head := "*New Order*\n\n" + "*Customer Details*\n";
    var m1 := head + "Name: " + form.name + "\n";
    PrefixExtend(head, head, "Name: ");
    PrefixExtend(head, head + "Name: ", form.name);
    PrefixExtend(head, head + "Name: " + form.name, "\n");
    var m2 := m1 + "Phone: " + form.phone + "\n";
    PrefixExtend(head, m1, "Phone: ");
    PrefixExtend(head, m1 + "Phone: ", form.phone);
    PrefixExtend(head, m1 + "Phone: " + form.phone, "\n");
    var m3 := m2 + "Address: " + form.address + "\n\n";
    PrefixExtend(head, m2, "Address: ");
    PrefixExtend(head, m2 + "Address: ", form.address);
    PrefixExtend(head, m2 + "Address: " + form.address, "\n\n");
    var m4 := m3 + "*Order Items*\n" + OrderItems(items) + "\n\n";
    PrefixExtend(head, m3, "*Order Items*\n");
    PrefixExtend(head, m3 + "*Order Items*\n", OrderItems(items));
    PrefixExtend(head, m3 + "*Order Items*\n" + OrderItems(items), "\n\n");
    var amount := FormatCents(Total(items));
    PrefixExtend(head, m4, "*Total: $");
    PrefixExtend(head, m4 + "*Total: $", amount);
    PrefixExtend(head, m4 + "*Total: $" + amount, "*");
  }

  lemma EndsWithTotalLine(x: string, amount: string)
    ensures (x + "*Total: $" + amount + "*")[|x + "*Total: $" + amount + "*"| - |"*Total: $" + amount + "*"|..]
         == "*Total: $" + amount + "*"
  {
    assert x + "*Total: $" + amount + "*" == x + ("*Total: $" + amount + "*");
  }

  /** The message ends with the total line, whatever the customer typed. */
  lemma MessageEndsWithTotal(items: seq<CartItem>, form: CheckoutForm)
    ensures Message(items, form)[|Message(items, form)| - |TotalLine(Total(items))|..] == TotalLine(Total(items))
  {
    EndsWithTotalLine(
      "*New Order*\n\n" +
      "*Customer Details*\n" +
      "Name: " + form.name + "\n" +
      "Phone: " + form.phone + "\n" +
      "Address: " + form.address + "\n\n" +
      "*Order Items*\n" + OrderItems(items) + "\n\n",
      FormatCents(Total(items)));
  }

  predicate NamesNoNewline(items: seq<CartItem>) {
    forall i :: 0 <= i < |items| ==> NoNewline(items[i].name)
  }

  predicate FormNoNewline(form: CheckoutForm) {
    NoNewline(form.name) && NoNewline(form.phone) && NoNewline(form.address)
  }

  /** The lines of the message before the order items. */
  function HeaderLines(form: CheckoutForm): seq<string> {
    ["*New Order*", "", "*Customer Details*",
     "Name: " + form.name, "Phone: " + form.phone, "Address: " + form.address,
     "", "*Order Items*"]
  }

  lemma ItemLineNoNewline(item: CartItem)
    requires NoNewline(item.name)
    ensures NoNewline(ItemLine(item))
  {
    var q := NatToString(item.quantity);
    assert forall k :: 0 <= k < |q| ==> q[k] != '\n';
  }

  /** A cart of n items whose names hold no '\n' gives an order-items text
      of exactly n lines, the item lines in cart order, with n - 1
      separators. The empty cart gives the empty text. */
  lemma OrderItemsLines(items: seq<CartItem>)
    requires NamesNoNewline(items)
    ensures items == [] ==> OrderItems(items) == ""
    ensures items != [] ==> Split(OrderItems(items)) == ItemLines(items)
    ensures items != [] ==> NewlineCount(OrderItems(items)) == |items| - 1
  {
    var lines := ItemLines(items);
    forall i | 0 <= i < |lines| ensures NoNewline(lines[i]) {
      ItemLineNoNewline(items[i]);
    }
    if items != [] {
      SplitJoin(lines);
      JoinNewlineCount(lines);
    }
  }

  lemma TotalLineNoNewline(total: nat)
    ensures NoNewline(TotalLine(total))
  {
  }

  // TailShape, FieldShape, HeadShape and MessageShape only regroup the
  // template's concatenation line by line, so that Split can read it off.

  lemma TailShape(pA: string, O: string, amount: string)
    ensures pA + "\n\n" + "*Order Items*\n" + O + "\n\n" + "*Total: $" + amount + "*" ==
            pA + "\n" + ("" + "\n" + ("*Order Items*" + "\n" + (O + "\n" + ("" + "\n" + ("*Total: $" + amount + "*")))))
  {
  }

  lemma FieldShape(p: string, tag: string, v: string, rest: string)
    ensures p + "\n" + tag + v + "\n" + rest == p + "\n" + ((tag + v) + "\n" + rest)
  {
  }

  lemma HeadShape(name: string, rest: string)
    ensures "*New Order*\n\n" + "*Customer Details*\n" + "Name: " + name + "\n" + rest ==
      "*New Order*" + "\n" + ("" + "\n" + ("*Customer Details*" + "\n" + (("Name: " + name) + "\n" + rest)))
  {
  }

  /** The template, regrouped line by line: each line followed by its '\n'
      and the rest of the message. */
  function Template(nameLine: string, phoneLine: string, addressLine: string, body: string, totalLine: string): string {
    "*New Order*" + "\n" + ("" + "\n" + ("*Customer Details*" + "\n" + (nameLine + "\n" +
    (phoneLine + "\n" + (addressLine + "\n" + ("" + "\n" + ("*Order Items*" + "\n" +
    (body + "\n" + ("" + "\n" + totalLine)))))))))
  }

  lemma MessageShape(items: seq<CartItem>, form: CheckoutForm)
    ensures Message(items, form) ==
      Template("Name: " + form.name, "Phone: " + form.phone, "Address: " + form.address,
               OrderItems(items), TotalLine(Total(items)))
  {
    var amount := FormatCents(Total(items));
    var O := OrderItems(items);
    var r6 := "" + "\n" + ("*Order Items*" + "\n" + (O + "\n" + ("" + "\n" + ("*Total: $" + amount + "*"))));
    var pP := "*New Order*\n\n" + "*Customer Details*\n" + "Name: " + form.name + "\n" + "Phone: " + form.phone;
    TailShape(pP + "\n" + "Address: " + form.address, O, amount);
    FieldShape(pP, "Address: ", form.address, r6);
    var r5 := ("Address: " + form.address) + "\n" + r6;
    var pN := "*New Order*\n\n" + "*Customer Details*\n" + "Name: " + form.name;
    FieldShape(pN, "Phone: ", form.phone, r5);
    HeadShape(form.name, ("Phone: " + form.phone) + "\n" + r5);
  }

  /** The part of the regrouped template from the order items on. */
  lemma SplitTemplateTail(body: string, totalLine: string)
    requires NoNewline(totalLine)
    ensures Split(body + "\n" + ("" + "\n" + totalLine)) == Split(body) + ["", totalLine]
  {
    SplitNoNewline(totalLine);
    SplitLine("", totalLine);
    SplitGlue(body, "" + "\n" + totalLine);
  }

  /** Reading the regrouped template line by line, whatever the three
      customer lines and the body hold. */
  lemma SplitTemplate(nameLine: string, phoneLine: string, addressLine: string, body: string, totalLine: string)
    requires NoNewline(totalLine)
    ensures Split(Template(nameLine, phoneLine, addressLine, body, totalLine)) ==
      ["*New Order*", "", "*Customer Details*"] + (Split(nameLine) + (Split(phoneLine) + (Split(addressLine)
      + (["", "*Order Items*"] + (Split(body) + ["", totalLine])))))
  {
    var r6 := "" + "\n" + ("*Order Items*" + "\n" + (body + "\n" + ("" + "\n" + totalLine)));
    SplitTemplateOrder(body, totalLine);
    SplitTemplateFields(nameLine, phoneLine, addressLine, r6);
    SplitTemplateHead(nameLine + "\n" + (phoneLine + "\n" + (addressLine + "\n" + r6)));
  }

  lemma SplitTemplateHead(rest: string)
    ensures Split("*New Order*" + "\n" + ("" + "\n" + ("*Customer Details*" + "\n" + rest)))
         == ["*New Order*", "", "*Customer Details*"] + Split(rest)
  {
    SplitLine("*Customer Details*", rest);
    SplitLine("", "*Customer Details*" + "\n" + rest);
    SplitLine("*New Order*", "" + "\n" + ("*Customer Details*" + "\n" + rest));
    TripleUp("*New Order*", "", "*Customer Details*", Split(rest));
  }

  lemma SplitTemplateFields(nameLine: string, phoneLine: string, addressLine: string, rest: string)
    ensures Split(nameLine + "\n" + (phoneLine + "\n" + (addressLine + "\n" + rest)))
         == Split(nameLine) + (Split(phoneLine) + (Split(addressLine) + Split(rest)))
  {
    SplitGlue(addressLine, rest);
    SplitGlue(phoneLine, addressLine + "\n" + rest);
    SplitGlue(nameLine, phoneLine + "\n" + (addressLine + "\n" + rest));
  }

  lemma SplitTemplateOrder(body: string, totalLine: string)
    requires NoNewline(totalLine)
    ensures Split("" + "\n" + ("*Order Items*" + "\n" + (body + "\n" + ("" + "\n" + totalLine))))
         == ["", "*Order Items*"] + (Split(body) + ["", totalLine])
  {
    var r8 := body + "\n" + ("" + "\n" + totalLine);
    SplitTemplateTail(body, totalLine);
    SplitLine("*Order Items*", r8);
    SplitLine("", "*Order Items*" + "\n" + r8);
    PairUp("", "*Order Items*", Split(r8));
  }

  lemma PairUp(a: string, b: string, rest: seq<string>)
    ensures [a] + ([b] + rest) == [a, b] + rest
  {
  }

  lemma TripleUp(a: string, b: string, c: string, rest: seq<string>)
    ensures [a] + ([b] + ([c] + rest)) == [a, b, c] + rest
  {
  }

  /** The message's lines, for every cart and every form: the headings, the
      pieces of each labelled customer field (a multi-line address gives
      several lines), an empty line and `*Order Items*`, the lines of the
      order-items text, an empty line and the total line. */
  lemma MessageSplit(items: seq<CartItem>, form: CheckoutForm)
    ensures Split(Message(items, form)) ==
      ["*New Order*", "", "*Customer Details*"]
      + (Split("Name: " + form.name) + (Split("Phone: " + form.phone) + (Split("Address: " + form.address)
      + (["", "*Order Items*"] + (Split(OrderItems(items)) + ["", TotalLine(Total(items))])))))
  {
    MessageShape(items, form);
    TotalLineNoNewline(Total(items));
    SplitTemplate("Name: " + form.name, "Phone: " + form.phone, "Address: " + form.address,
                  OrderItems(items), TotalLine(Total(items)));
  }

  lemma NamePhoneOneLine(form: CheckoutForm)
    requires NoNewline(form.name) && NoNewline(form.phone)
    ensures Split("Name: " + form.name) == ["Name: " + form.name]
    ensures Split("Phone: " + form.phone) == ["Phone: " + form.phone]
  {
    SplitNoNewline("Name: " + form.name);
    SplitNoNewline("Phone: " + form.phone);
  }

  lemma AddressOneLine(form: CheckoutForm)
    requires NoNewline(form.address)
    ensures Split("Address: " + form.address) == ["Address: " + form.address]
  {
    SplitNoNewline("Address: " + form.address);
  }

  /** The line list of a message whose customer fields are one line each. */
  lemma OneLineShape(form: CheckoutForm, body: seq<string>, totalLine: string)
    ensures ["*New Order*", "", "*Customer Details*"]
      + (["Name: " + form.name] + (["Phone: " + form.phone] + (["Address: " + form.address]
      + (["", "*Order Items*"] + (body + ["", totalLine])))))
      == HeaderLines(form) + body + ["", totalLine]
  {
  }

  /** When no customer field holds a '\n', each field is one line of the
      message, verbatim after its label. */
  lemma MessageSplitOneLine(items: seq<CartItem>, form: CheckoutForm)
    requires FormNoNewline(form)
    ensures Split(Message(items, form)) ==
      HeaderLines(form) + Split(OrderItems(items)) + ["", TotalLine(Total(items))]
  {
    MessageSplit(items, form);
    NamePhoneOneLine(form);
    AddressOneLine(form);
    OneLineShape(form, Split(OrderItems(items)), TotalLine(Total(items)));
  }

  /** For a non-empty cart without '\n' in any text the customer or the
      catalog supplied, the message is exactly these lines, one per item. */
  lemma MessageLines(items: seq<CartItem>, form: CheckoutForm)
    requires items != [] && FormNoNewline(form) && NamesNoNewline(items)
    ensures Split(Message(items, form)) ==
      HeaderLines(form) + ItemLines(items) + ["", TotalLine(Total(items))]
    ensures |Split(Message(items, form))| == |items| + 10
  {
    MessageSplitOneLine(items, form);
    OrderItemsLines(items);
  }

  lemma LabelledEqual(tag: string, v: string, w: string)
    requires tag + v == tag + w
    ensures v == w
  {
    assert v == (tag + v)[|tag|..];
  }

  /** A line list with one marker line in it and none after it is cut at
      that marker in one way only. */
  lemma MarkerCut(x1: seq<string>, r1: seq<string>, x2: seq<string>, r2: seq<string>, m: string)
    requires x1 + [m] + r1 == x2 + [m] + r2
    requires m !in r1 && m !in r2
    ensures x1 == x2
  {
    var s := x1 + [m] + r1;
    assert forall k :: |x1| < k < |s| ==> s[k] == r1[k - |x1| - 1];
    assert forall k :: |x2| < k < |s| ==> s[k] == r2[k - |x2| - 1];
    assert s[|x1|] == m && s[|x2|] == m;
    assert |x1| == |x2|;
    assert x1 == s[..|x1|] && x2 == s[..|x2|];
  }

  /** With item names on one line, each line of the order-items text of a
      non-empty cart starts with a digit: the item's quantity. */
  lemma OrderItemDigits(items: seq<CartItem>)
    requires items != [] && NamesNoNewline(items)
    ensures forall l :: l in Split(OrderItems(items)) ==> |l| >= 1 && IsDigit(l[0])
  {
    OrderItemsLines(items);
    var lines := ItemLines(items);
    forall i | 0 <= i < |lines| ensures |lines[i]| >= 1 && IsDigit(lines[i][0]) {
      var q := NatToString(items[i].quantity);
      assert lines[i][0] == q[0] && IsDigit(q[0]);
    }
  }

  /** With item names on one line, the order-items text never holds a line
      `*Order Items*`; an empty cart gives the one empty line. */
  lemma OrderItemsNoHeading(items: seq<CartItem>)
    requires NamesNoNewline(items)
    ensures items == [] ==> Split(OrderItems(items)) == [""]
    ensures "*Order Items*" !in Split(OrderItems(items))
  {
    if items != [] {
      OrderItemDigits(items);
      assert !IsDigit("*Order Items*"[0]);
    } else {
      assert OrderItems(items) == "";
      assert Split("") == [""];
    }
  }

  lemma TotalLineNotHeading(total: nat)
    ensures TotalLine(total) != "*Order Items*"
  {
    assert TotalLine(total)[1] == 'T';
  }

  /** The line list of a message cut at the `*Order Items*` marker. */
  lemma MarkerShape(nameLine: string, phoneLine: string, address: seq<string>, rest: seq<string>)
    ensures ["*New Order*", "", "*Customer Details*"]
      + ([nameLine] + ([phoneLine] + (address + (["", "*Order Items*"] + rest))))
      == (["*New Order*", "", "*Customer Details*", nameLine, phoneLine] + address + [""])
      + ["*Order Items*"] + rest
  {
  }

  /** The message's lines as the headings, name, phone, the address pieces
      and an empty line, then the `*Order Items*` marker and what follows. */
  lemma MessageAroundMarker(items: seq<CartItem>, form: CheckoutForm)
    requires NoNewline(form.name) && NoNewline(form.phone)
    ensures Split(Message(items, form)) ==
      CustomerPart(form) + ["*Order Items*"] + (Split(OrderItems(items)) + ["", TotalLine(Total(items))])
  {
    MessageSplit(items, form);
    NamePhoneOneLine(form);
    MarkerShape("Name: " + form.name, "Phone: " + form.phone, Split("Address: " + form.address),
                Split(OrderItems(items)) + ["", TotalLine(Total(items))]);
  }

  /** The customer's details can be read back from the message, a
      multi-line address included: two forms that differ give different
      messages, whatever the carts, as long as the name, the phone and the
      item names are one line each. */
  lemma MessageDeterminesForm(items1: seq<CartItem>, form1: CheckoutForm,
                              items2: seq<CartItem>, form2: CheckoutForm)
    requires NoNewline(form1.name) && NoNewline(form1.phone) && NamesNoNewline(items1)
    requires NoNewline(form2.name) && NoNewline(form2.phone) && NamesNoNewline(items2)
    requires Message(items1, form1) == Message(items2, form2)
    ensures form1 == form2
  {
    MessageAroundMarker(items1, form1);
    MessageAroundMarker(items2, form2);
    OrderItemsNoHeading(items1);
    OrderItemsNoHeading(items2);
    TotalLineNotHeading(Total(items1));
    TotalLineNotHeading(Total(items2));
    MarkerCut(CustomerPart(form1), Split(OrderItems(items1)) + ["", TotalLine(Total(items1))],
              CustomerPart(form2), Split(OrderItems(items2)) + ["", TotalLine(Total(items2))], "*Order Items*");
    CustomerPartDeterminesForm(form1, form2);
  }

  /** The lines of a message before its `*Order Items*` marker. */
  function CustomerPart(form: CheckoutForm): seq<string> {
    ["*New Order*", "", "*Customer Details*", "Name: " + form.name, "Phone: " + form.phone]
    + Split("Address: " + form.address) + [""]
  }

  lemma CustomerPartDeterminesForm(form1: CheckoutForm, form2: CheckoutForm)
    requires CustomerPart(form1) == CustomerPart(form2)
    ensures form1 == form2
  {
    var x1 := CustomerPart(form1);
    var x2 := CustomerPart(form2);
    assert x1[3] == "Name: " + form1.name && x2[3] == "Name: " + form2.name;
    LabelledEqual("Name: ", form1.name, form2.name);
    assert x1[4] == "Phone: " + form1.phone && x2[4] == "Phone: " + form2.phone;
    LabelledEqual("Phone: ", form1.phone, form2.phone);
    assert x1[5..|x1| - 1] == Split("Address: " + form1.address);
    assert x2[5..|x2| - 1] == Split("Address: " + form2.address);
    SplitInjective("Address: " + form1.address, "Address: " + form2.address);
    LabelledEqual("Address: ", form1.address, form2.address);
  }

  /** With every customer field on one line the details can be read back
      whatever the item names hold. */
  lemma MessageDeterminesFormOneLine(items1: seq<CartItem>, form1: CheckoutForm,
                                     items2: seq<CartItem>, form2: CheckoutForm)
    requires FormNoNewline(form1) && FormNoNewline(form2)
    requires Message(items1, form1) == Message(items2, form2)
    ensures form1 == form2
  {
    MessageSplitOneLine(items1, form1);
    MessageSplitOneLine(items2, form2);
    HeaderDeterminesForm(form1, Split(OrderItems(items1)), ["", TotalLine(Total(items1))],
                         form2, Split(OrderItems(items2)), ["", TotalLine(Total(items2))]);
  }

  lemma HeaderDeterminesForm(form1: CheckoutForm, body1: seq<string>, tail1: seq<string>,
                              form2: CheckoutForm, body2: seq<string>, tail2: seq<string>)
    requires HeaderLines(form1) + body1 + tail1 == HeaderLines(form2) + body2 + tail2
    ensures form1 == form2
  {
    var l := HeaderLines(form1) + body1 + tail1;
    assert l[3] == "Name: " + form1.name && l[3] == "Name: " + form2.name;
    LabelledEqual("Name: ", form1.name, form2.name);
    assert l[4] == "Phone: " + form1.phone && l[4] == "Phone: " + form2.phone;
    LabelledEqual("Phone: ", form1.phone, form2.phone);
    assert l[5] == "Address: " + form1.address && l[5] == "Address: " + form2.address;
    LabelledEqual("Address: ", form1.address, form2.address);
  }

  /** A '\n' in the name can fake the phone line: these two forms give the
      same message for every cart, so the name must be one line for the
      details to be read back. */
  lemma NameNewlineAmbiguous(items: seq<CartItem>)
    ensures CheckoutForm("a\nPhone: b", "c", "d") != CheckoutForm("a", "b\nPhone: c", "d")
    ensures Message(items, CheckoutForm("a\nPhone: b", "c", "d")) == Message(items, CheckoutForm("a", "b\nPhone: c", "d"))
  {
    FakePhoneLine("*New Order*\n\n" + "*Customer Details*\n");
  }

  /** The text up to the phone field is the same for both forms. */
  lemma FakePhoneLine(head: string)
    ensures head + "Name: " + "a\nPhone: b" + "\n" + "Phone: " + "c"
         == head + "Name: " + "a" + "\n" + "Phone: " + "b\nPhone: c"
  {
    assert "Name: " + "a\nPhone: b" + "\n" + "Phone: " + "c" == "Name: " + "a" + "\n" + "Phone: " + "b\nPhone: c";
  }

  /** A '\n' in an item name can fake the order-items heading: an empty
      address with a three-line item name gives the same message as a
      three-line address with an empty item name, so the item names must be
      one line for the address to be read back. */
  lemma ItemNameNewlineAmbiguous(name: string, phone: string)
    ensures Message([CartItem("w", "\n\n*Order Items*\n1x ", 0, 1)], CheckoutForm(name, phone, ""))
         == Message([CartItem("w", "", 0, 1)], CheckoutForm(name, phone, "\n\n*Order Items*\n1x "))
  {
    FakeCarts();
    FakeHeading();
    FakeOrderHeading("*New Order*\n\n" + "*Customer Details*\n" + "Name: " + name + "\n" + "Phone: " + phone + "\n",
                     "Address: ", "\n\n", "*Order Items*\n", "1x ", " - $" + FormatCents(0));
  }

  lemma FakeCarts()
    ensures OrderItems([CartItem("w", "\n\n*Order Items*\n1x ", 0, 1)])
         == "1x " + ("\n\n" + "*Order Items*\n" + "1x ") + (" - $" + FormatCents(0))
    ensures OrderItems([CartItem("w", "", 0, 1)]) == "1x " + "" + (" - $" + FormatCents(0))
    ensures Total([CartItem("w", "\n\n*Order Items*\n1x ", 0, 1)]) == 0
    ensures Total([CartItem("w", "", 0, 1)]) == 0
  {
    OneItemCart(CartItem("w", "\n\n*Order Items*\n1x ", 0, 1));
    OneItemCart(CartItem("w", "", 0, 1));
    FakeHeading();
  }

  lemma FakeHeading()
    ensures "\n\n*Order Items*\n1x " == "\n\n" + "*Order Items*\n" + "1x "
  {
  }

  /** A cart of one free item of quantity 1. */
  lemma OneItemCart(item: CartItem)
    requires item.price == 0 && item.quantity == 1
    ensures OrderItems([item]) == "1x " + item.name + (" - $" + FormatCents(0))
    ensures Total([item]) == 0
  {
    assert NatToString(1) == "1";
    assert [item][1..] == [];
    assert Sum([item]) == LineAmount(item) + Sum([]);
  }

  /** The text up to the end of the order items, with the address moved
      from the item name into the address field. */
  lemma FakeOrderHeading(head: string, tag: string, gap: string, heading: string, count: string, tail: string)
    ensures head + tag + "" + gap + heading + (count + (gap + heading + count) + tail)
         == head + tag + (gap + heading + count) + gap + heading + (count + "" + tail)
  {
  }

  // -------------------------------------------- amounts read back from text

  /** The text after the last '$' of a line (all of it if there is none). */
  function AfterLastDollar(s: string): string {
    if s == [] then []
    else if s[|s| - 1] == '$' then []
    else AfterLastDollar(s[..|s| - 1]) + [s[|s| - 1]]
  }

  lemma {:induction false} AfterLastDollarOf(u: string, t: string)
    requires '$' !in t
    ensures AfterLastDollar(u + "$" + t) == t
  {
    var s := u + "$" + t;
    if t == [] {
      assert s[|s| - 1] == '$';
    } else {
      var t' := t[..|t| - 1];
      AfterLastDollarOf(u, t');
      assert s[..|s| - 1] == u + "$" + t';
      assert s[|s| - 1] == t[|t| - 1];
      assert t' + [t[|t| - 1]] == t;
    }
  }

  /** The amount a reader finds at the end of an item line. */
  function ReadLineAmount(line: string): Option<nat> {
    ParseCents(AfterLastDollar(line))
  }

  /** The amount a reader finds on a `*Total: $…*` line. */
  function ReadTotalLine(line: string): Option<nat> {
    if |line| >= 1 && line[|line| - 1] == '*' then ParseCents(AfterLastDollar(line[..|line| - 1]))
    else None
  }

  /** The item lines' amounts added up, or None if one has no amount. */
  function SumLineAmounts(lines: seq<string>): Option<nat> {
    if lines == [] then Some(0)
    else
      var first := ReadLineAmount(lines[0]);
      var rest := SumLineAmounts(lines[1..]);
      if first.Some? && rest.Some? then Some(first.value + rest.value) else None
  }

  /** Each item line ends with the exact amount of that line, whatever the
      item's name holds. */
  lemma ItemLineAmount(item: CartItem)
    ensures ReadLineAmount(ItemLine(item)) == Some(LineAmount(item))
  {
    var prefix := NatToString(item.quantity) + "x " + item.name + " - ";
    assert ItemLine(item) == prefix + "$" + FormatCents(LineAmount(item));
    AfterLastDollarOf(prefix, FormatCents(LineAmount(item)));
    ParseFormatCents(LineAmount(item));
  }

  lemma TotalLineAmount(total: nat)
    ensures ReadTotalLine(TotalLine(total)) == Some(total)
  {
    var line := TotalLine(total);
    assert line[..|line| - 1] == "*Total: " + "$" + FormatCents(total);
    AfterLastDollarOf("*Total: ", FormatCents(total));
    ParseFormatCents(total);
  }

  lemma SumLineAmountsCons(line: string, rest: seq<string>, a: nat, b: nat)
    requires ReadLineAmount(line) == Some(a) && SumLineAmounts(rest) == Some(b)
    ensures SumLineAmounts([line] + rest) == Some(a + b)
  {
    assert ([line] + rest)[0] == line && ([line] + rest)[1..] == rest;
  }

  lemma {:induction false} SumItemLineAmounts(items: seq<CartItem>)
    ensures SumLineAmounts(ItemLines(items)) == Some(Sum(items))
  {
    if items != [] {
      assert ItemLines(items) == [ItemLine(items[0])] + ItemLines(items[1..]);
      assert Sum(items) == LineAmount(items[0]) + Sum(items[1..]);
      SumItemLineAmounts(items[1..]);
      ItemLineAmount(items[0]);
      SumLineAmountsCons(ItemLine(items[0]), ItemLines(items[1..]), LineAmount(items[0]), Sum(items[1..]));
    }
  }

  /** The amount on the total line is the sum of the amounts on the item
      lines: in cents no rounding separates them. */
  lemma TotalMatchesItemLines(items: seq<CartItem>)
    ensures SumLineAmounts(ItemLines(items)) == ReadTotalLine(TotalLine(Total(items)))
  {
    SumItemLineAmounts(items);
    TotalLineAmount(Total(items));
  }

  /** The worked example: two Widgets at $5.00. */
  lemma WidgetExample()
    ensures ItemLine(CartItem("w", "Widget", 500, 2)) == "2x Widget - $10.00"
    ensures TotalLine(Total([CartItem("w", "Widget", 500, 2)])) == "*Total: $10.00*"
  {
    FormatTenDollars();
    var items := [CartItem("w", "Widget", 500, 2)];
    assert Sum(items) == 1000 by {
      assert items[1..] == [];
    }
  }

  // ------------------------------------------------------------ WhatsApp

  /** The receiving party's fixed deep-link endpoint. */
  const WhatsAppBase: string := "https://wa.me/5511952807174?text="

  /** `whatsappUrl`: the fixed endpoint followed by the encoded message;
      `encode` stands for `encodeURIComponent`. */
  function WhatsAppUrl(message: string, encode: string -> string): (url: string)
    ensures WhatsAppBase <= url
    ensures url[|WhatsAppBase|..] == encode(message)
  {
    WhatsAppBase + encode(message)
  }

  /** With an injective encoding the URL carries the whole message: two
      different messages never open the same URL. */
  lemma WhatsAppUrlInjective(encode: string -> string, m1: string, m2: string)
    requires forall a: string, b: string :: encode(a) == encode(b) ==> a == b
    requires WhatsAppUrl(m1, encode) == WhatsAppUrl(m2, encode)
    ensures m1 == m2
  {
    var u := WhatsAppUrl(m1, encode);
    assert encode(m1) == u[|WhatsAppBase|..] == encode(m2);
  }

  /** The effects of `handleCheckout`, in order. */
  function CheckoutEffects(items: seq<CartItem>, form: CheckoutForm, encode: string -> string): (effects: seq<Effect>)
    ensures |effects| == 4 && effects[0] == PreventDefault && effects[3] == Close
    ensures effects[1] == OpenWindow(WhatsAppUrl(Message(items, form), encode), "_blank")
    ensures effects[2] == Dispatch(ClearCart)
    ensures LogKeepsQuantitiesPositive(effects)
  {
    [PreventDefault,
     OpenWindow(WhatsAppUrl(Message(items, form), encode), "_blank"),
     Dispatch(ClearCart),
     Close]
  }

  /** Checkout dispatches exactly one command, CLEAR_CART, after the
      order URL has been opened and before the modal closes. */
  lemma CheckoutDispatchesClearOnly(items: seq<CartItem>, form: CheckoutForm, encode: string -> string)
    ensures Dispatched(CheckoutEffects(items, form, encode)) == [ClearCart]
  {
    var e := CheckoutEffects(items, form, encode);
    assert e[1..][1..][1..][1..] == [];
    assert Dispatched(e[3..]) == [];
    assert e[2..] == [e[2]] + e[3..];
    assert Dispatched(e[2..]) == [ClearCart];
    assert e[1..][1..] == e[2..];
    assert Dispatched(e[1..]) == [ClearCart];
  }

  // ------------------------------------------------------------ the view

  /** The controls of the modal a user can act on. */
  datatype Control =
    | CloseButton
    | Decrease(index: nat)
    | Increase(index: nat)
    | EditName(name: string)
    | EditPhone(phone: string)
    | EditAddress(address: string)
    | Submit

  /** Which controls a render of the modal shows: the close button always;
      the − and + buttons once per line; the form only for a non-empty cart. */
  predicate Rendered(items: seq<CartItem>, c: Control) {
    match c
    case CloseButton => true
    case Decrease(i) => i < |items|
    case Increase(i) => i < |items|
    case _ => items != []
  }

  /** The browser submits the form only when each of its three `required`
      fields holds some text. */
  predicate FormComplete(form: CheckoutForm) {
    form.name != "" && form.phone != "" && form.address != ""
  }

  /** The effects of acting on a control. */
  function ControlEffects(items: seq<CartItem>, form: CheckoutForm, encode: string -> string, c: Control): (effects: seq<Effect>)
    requires Rendered(items, c)
    ensures LogKeepsQuantitiesPositive(effects)
  {
    match c
    case CloseButton => [Close]
    case Decrease(i) => [Dispatch(DecreaseCommand(items[i]))]
    case Increase(i) => [Dispatch(IncreaseCommand(items[i]))]
    case Submit => if FormComplete(form) then CheckoutEffects(items, form, encode) else []
    case _ => []
  }

  /** The checkout form after acting on a control. */
  function FormAfter(form: CheckoutForm, c: Control): CheckoutForm {
    match c
    case EditName(v) => form.(name := v)
    case EditPhone(v) => form.(phone := v)
    case EditAddress(v) => form.(address := v)
    case _ => form
  }

  /** Only typing into a field changes the form; the typed field takes the
      typed value, and the other two stay as they were: the buttons and the checkout
      itself never touch it. */
  lemma FormChangesOnlyByTyping(form: CheckoutForm, c: Control)
    ensures FormAfter(form, c) != form ==> c.EditName? || c.EditPhone? || c.EditAddress?
    ensures c.EditName? ==> FormAfter(form, c).name == c.name
    ensures c.EditPhone? ==> FormAfter(form, c).phone == c.phone
    ensures c.EditAddress? ==> FormAfter(form, c).address == c.address
    ensures c.EditName? ==> FormAfter(form, c).phone == form.phone && FormAfter(form, c).address == form.address
    ensures c.EditPhone? ==> FormAfter(form, c).name == form.name && FormAfter(form, c).address == form.address
    ensures c.EditAddress? ==> FormAfter(form, c).name == form.name && FormAfter(form, c).phone == form.phone
  {
  }

  /** Checkout is reached only from a non-empty cart and a filled-in form:
      no other control opens a URL or clears the cart. */
  lemma CheckoutNeedsItems(items: seq<CartItem>, form: CheckoutForm, encode: string -> string, c: Control)
    requires Rendered(items, c)
    ensures (exists k :: 0 <= k < |ControlEffects(items, form, encode, c)| &&
                         ControlEffects(items, form, encode, c)[k].OpenWindow?) ==> items != [] && FormComplete(form)
    ensures ClearCart in Dispatched(ControlEffects(items, form, encode, c)) ==> items != [] && FormComplete(form)
  {
    var effects := ControlEffects(items, form, encode, c);
    if !(c.Submit? && FormComplete(form)) {
      assert forall k :: 0 <= k < |effects| ==> !effects[k].OpenWindow? && effects[k] != Dispatch(ClearCart);
      assert |effects| <= 1;
      assert effects == [] || effects[1..] == [];
      assert ClearCart !in Dispatched(effects);
    }
  }

  /** One render of the cart modal. `items` is the cart the render was made
      from; `form` is the checkout form's state; `log` records every effect
      the modal has performed, oldest first. */
  class Modal {
    const items: seq<CartItem>
    const encode: string -> string
    var form: CheckoutForm
    var log: seq<Effect>

    /** Every command this modal has dispatched keeps quantities at least 1. */
    ghost predicate Valid()
      reads this
    {
      LogKeepsQuantitiesPositive(log)
    }

    constructor (items: seq<CartItem>, encode: string -> string)
      ensures this.items == items && this.encode == encode
      ensures form == CheckoutForm("", "", "") && log == []
      ensures Valid()
    {
      this.items := items;
      this.encode := encode;
      form := CheckoutForm("", "", "");
      log := [];
    }

    method HandleQuantityChange(productId: string, quantity: int)
      requires Valid()
      modifies this`log
      ensures Valid()
      ensures log == old(log) + [Dispatch(QuantityChange(productId, quantity))]
    {
      log := log + [Dispatch(QuantityChange(productId, quantity))];
    }

    method HandleCheckout()
      requires Valid()
      modifies this`log
      ensures Valid()
      ensures log == old(log) + CheckoutEffects(items, form, encode)
    {
      log := log + [PreventDefault];
      var message := Message(items, form);
      var url := WhatsAppUrl(message, encode);
      log := log + [OpenWindow(url, "_blank")];
      log := log + [Dispatch(ClearCart)];
      log := log + [Close];
    }

    /** The user acts on a control this render shows. */
    method Press(c: Control)
      requires Valid() && Rendered(items, c)
      modifies this`log, this`form
      ensures Valid()
      ensures log == old(log) + ControlEffects(items, old(form), encode, c)
      ensures form == FormAfter(old(form), c)
      ensures Dispatched(log) == Dispatched(old(log)) + Dispatched(ControlEffects(items, old(form), encode, c))
    {
      ghost var before := log;
      ghost var effects := ControlEffects(items, form, encode, c);
      match c {
        case CloseButton =>
          log := log + [Close];
        case Decrease(i) =>
          HandleQuantityChange(items[i].productId, items[i].quantity - 1);
        case Increase(i) =>
          HandleQuantityChange(items[i].productId, items[i].quantity + 1);
        case EditName(v) =>
          form := form.(name := v);
        case EditPhone(v) =>
          form := form.(phone := v);
        case EditAddress(v) =>
          form := form.(address := v);
        case Submit =>
          if FormComplete(form) {
            HandleCheckout();
          }
      }
      DispatchedAppend(before, effects);
    }
  }
}
