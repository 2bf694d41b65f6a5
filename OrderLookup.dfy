/** `check_order_number` and the demo order table `FAKE_ORDERS`: the customer's
    text is upper-cased and the table is scanned in insertion order for the
    first order id that occurs in it. */
module OrderLookup {
  import opened Wrappers
  import opened Text

  /** One row of the order table; every field is plain text. */
  datatype OrderRecord = OrderRecord(status: string, items: string, eta: string, location: string)

  /** The table in insertion order (Python dicts iterate in that order). */
  type OrderTable = seq<(string, OrderRecord)>

  /** The demo table, in the order the source declares it. */
  const FakeOrders: OrderTable := [
    ("#12345", OrderRecord("Out for Delivery", "Wireless Headphones", "Today by 6 PM", "Mombasa Distribution Center")),
    ("#67890", OrderRecord("Shipped", "Running Shoes", "Tomorrow", "Nairobi Hub")),
    ("#11111", OrderRecord("Processing", "Laptop Stand", "3-5 business days", "Warehouse")),
    ("#99999", OrderRecord("Delivered", "Phone Case", "Delivered on Nov 15", "Your doorstep"))
  ]

  /** The tracking summary shown for order `id` with record `rec`, as the
      fragments of its f-string. */
  function Summary(id: string, rec: OrderRecord): string {
    Concat(SummaryParts(id, rec))
  }

  function SummaryParts(id: string, rec: OrderRecord): seq<string> {
    [ "\U{1F4E6} **Order Found!** ", "Order " + id, "\n\n",
      "**Status:** " + rec.status + " \U{2705}", "\n",
      "**Items:** " + rec.items, "\n",
      "**Expected Delivery:** " + rec.eta, "\n",
      "**Current Location:** " + rec.location,
      "\n\nNeed anything else? I can help with returns, cancellations, or any other questions!" ]
  }

  /** The scan of the `for` loop from position `from` on: the index of the first
      entry whose id occurs in `text`, or None when none does. */
  function FirstMatchFrom(table: OrderTable, text: string, from: nat): (r: Option<nat>)
    requires from <= |table|
    ensures r.Some? ==> from <= r.value < |table| && Contains(text, table[r.value].0)
    ensures r.Some? ==> forall j :: from <= j < r.value ==> !Contains(text, table[j].0)
    ensures r.None? <==> forall j :: from <= j < |table| ==> !Contains(text, table[j].0)
    decreases |table| - from
  {
    if from == |table| then None
    else if Contains(text, table[from].0) then Some(from)
    else FirstMatchFrom(table, text, from + 1)
  }

  /** `check_order_number(user_input)` over `table`. */
  function CheckOrderNumber(table: OrderTable, input: string): (r: Option<string>)
    ensures r.None? <==> forall j :: 0 <= j < |table| ==> !Contains(Upper(input), table[j].0)
    ensures r.Some? ==>
      exists k :: 0 <= k < |table| && Contains(Upper(input), table[k].0)
        && (forall j :: 0 <= j < k ==> !Contains(Upper(input), table[j].0))
        && r.value == Summary(table[k].0, table[k].1)
  {
    match FirstMatchFrom(table, Upper(input), 0)
    case None => None
    case Some(k) => Some(Summary(table[k].0, table[k].1))
  }

  /** The converse of CheckOrderNumber's contract: when entry `k` is the first
      whose id occurs in the upper-cased input, its summary is the answer,
      whatever later entries also occur. */
  lemma FirstTableMatchWins(table: OrderTable, input: string, k: nat)
    requires k < |table| && Contains(Upper(input), table[k].0)
    requires forall j :: 0 <= j < k ==> !Contains(Upper(input), table[j].0)
    ensures CheckOrderNumber(table, input) == Some(Summary(table[k].0, table[k].1))
  {
  }

  /** The lookup sees the input only through its upper-cased form. */
  lemma LookupIgnoresCase(table: OrderTable, input: string)
    ensures CheckOrderNumber(table, input) == CheckOrderNumber(table, Upper(input))
  {
    UpperIdempotent(input);
  }

  /** An order id without lower-case letters is found in whatever case the
      surrounding text is written, as long as it occurs somewhere. */
  lemma CaselessIdIsFound(table: OrderTable, input: string, k: nat)
    requires k < |table| && Caseless(table[k].0) && Contains(input, table[k].0)
    ensures CheckOrderNumber(table, input).Some?
  {
    ContainsSurvivesUpper(input, table[k].0);
  }

  /** The summary quotes the table's own id and each field of the record
      verbatim, each on its labelled line. */
  lemma SummaryQuotesRecord(id: string, rec: OrderRecord)
    ensures Contains(Summary(id, rec), "Order " + id)
    ensures Contains(Summary(id, rec), "**Status:** " + rec.status + " \U{2705}")
    ensures Contains(Summary(id, rec), "**Items:** " + rec.items)
    ensures Contains(Summary(id, rec), "**Expected Delivery:** " + rec.eta)
    ensures Contains(Summary(id, rec), "**Current Location:** " + rec.location)
    ensures Contains(Summary(id, rec), id) && Contains(Summary(id, rec), rec.status)
    ensures Contains(Summary(id, rec), rec.items) && Contains(Summary(id, rec), rec.eta)
    ensures Contains(Summary(id, rec), rec.location)
  {
    var summary, parts := Summary(id, rec), SummaryParts(id, rec);
    ConcatContainsPart(parts, 1);
    ContainsEnd("Order ", id);
    ContainsTransitive(summary, parts[1], id);
    ConcatContainsPart(parts, 3);
    ContainsEnd("**Status:** ", rec.status);
    ContainsExtend("**Status:** " + rec.status, rec.status, " \U{2705}");
    ContainsTransitive(summary, parts[3], rec.status);
    ConcatContainsPart(parts, 5);
    ContainsEnd("**Items:** ", rec.items);
    ContainsTransitive(summary, parts[5], rec.items);
    ConcatContainsPart(parts, 7);
    ContainsEnd("**Expected Delivery:** ", rec.eta);
    ContainsTransitive(summary, parts[7], rec.eta);
    ConcatContainsPart(parts, 9);
    ContainsEnd("**Current Location:** ", rec.location);
    ContainsTransitive(summary, parts[9], rec.location);
  }

  /** Whenever a summary is returned, it is for an order whose id occurs in the
      upper-cased input, and it quotes that id and every field of its record. */
  lemma FoundSummaryQuotesMatch(table: OrderTable, input: string)
    requires CheckOrderNumber(table, input).Some?
    ensures var summary := CheckOrderNumber(table, input).value;
      exists k :: 0 <= k < |table| && Contains(Upper(input), table[k].0)
        && Contains(summary, table[k].0) && Contains(summary, table[k].1.status)
        && Contains(summary, table[k].1.items) && Contains(summary, table[k].1.eta)
        && Contains(summary, table[k].1.location)
  {
    var k := FirstMatchFrom(table, Upper(input), 0).value;
    SummaryQuotesRecord(table[k].0, table[k].1);
  }

  /** The Track Order quick action's text finds order #12345, the first row of
      the demo table. */
  lemma TrackOrderPhraseFindsFirstOrder()
    ensures CheckOrderNumber(FakeOrders, "Track my order #12345")
      == Some(Summary("#12345", FakeOrders[0].1))
  {
    var phrase := "Track my order #12345";
    assert OccursAt(phrase, "#12345", 15);
    ContainsSurvivesUpper(phrase, "#12345");
    FirstTableMatchWins(FakeOrders, phrase, 0);
  }

  /** The summary for #12345 names its status, items, arrival and location. */
  lemma FirstOrderSummaryContents()
    ensures Contains(Summary("#12345", FakeOrders[0].1), "Out for Delivery")
    ensures Contains(Summary("#12345", FakeOrders[0].1), "Wireless Headphones")
    ensures Contains(Summary("#12345", FakeOrders[0].1), "Today by 6 PM")
    ensures Contains(Summary("#12345", FakeOrders[0].1), "Mombasa Distribution Center")
  {
    SummaryQuotesRecord("#12345", FakeOrders[0].1);
  }
}
