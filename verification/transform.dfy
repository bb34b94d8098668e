/** The pure first half of process_order: reading the change event's fields
    with their defaults, dropping events without an order id, and building the
    result record with its computed total. */
module Transform {
  import opened Values

  /** The result record written to both sinks. `processedAt` is the ISO
      timestamp of processing, taken as an input. */
  datatype OrderResult = OrderResult(
    orderId: Value,
    customerId: Value,
    productId: Value,
    quantity: Value,
    price: Value,
    total: Value,
    status: Value,
    processedAt: string)

  const DefaultQuantity: Value := Int(0)
  const DefaultPrice: Value := Float(0.0)
  const DefaultStatus: Value := Str("PENDING")

  /** What the pure part of process_order leads to: an exception before any
      sink is touched (`.get` on a non-object, a `*` Python refuses), an early
      return for a falsy order id, or a record ready to be persisted. */
  datatype Prepared =
    | NotAMapping
    | BadOperands
    | MissingId
    | Ready(result: OrderResult)

  function OrderIdOf(fields: map<string, Value>): Value {
    Lookup(fields, "id", Null)
  }

  function QuantityOf(fields: map<string, Value>): Value {
    Lookup(fields, "quantity", DefaultQuantity)
  }

  function PriceOf(fields: map<string, Value>): Value {
    Lookup(fields, "price", DefaultPrice)
  }

  function StatusOf(fields: map<string, Value>): Value {
    Lookup(fields, "status", DefaultStatus)
  }

  function Prepare(data: Value, now: string): (p: Prepared)
    ensures p.NotAMapping? <==> !data.Object?
    ensures p.MissingId? <==> data.Object? && !Truthy(OrderIdOf(data.fields))
    ensures p.BadOperands? <==>
      data.Object? && Truthy(OrderIdOf(data.fields))
      && Mul(QuantityOf(data.fields), PriceOf(data.fields)).None?
    ensures p.Ready? ==> Truthy(p.result.orderId) && p.result.processedAt == now
    ensures p.Ready? ==> Mul(p.result.quantity, p.result.price) == Some(p.result.total)
  {
    if !data.Object? then NotAMapping
    else
      var fields := data.fields;
      var orderId := OrderIdOf(fields);
      var quantity := QuantityOf(fields);
      var price := PriceOf(fields);
      if !Truthy(orderId) then MissingId
      else
        match Mul(quantity, price)
        case None => BadOperands
        case Some(total) =>
          Ready(OrderResult(
            orderId,
            Lookup(fields, "customer_id", Null),
            Lookup(fields, "product_id", Null),
            quantity,
            price,
            total,
            StatusOf(fields),
            now))
  }

  /** The eight fields of the record, under the names the sinks use. */
  function Fields(r: OrderResult): map<string, Value> {
    map[
      "order_id" := r.orderId,
      "customer_id" := r.customerId,
      "product_id" := r.productId,
      "quantity" := r.quantity,
      "price" := r.price,
      "total" := r.total,
      "status" := r.status,
      "processed_at" := Str(r.processedAt)]
  }

  function ResultFieldNames(): set<string> {
    {"order_id", "customer_id", "product_id", "quantity", "price", "total", "status", "processed_at"}
  }

  /** The record carries exactly the eight result fields. */
  lemma FieldsNamed(r: OrderResult)
    ensures Fields(r).Keys == ResultFieldNames()
    ensures Fields(r)["order_id"] == r.orderId && Fields(r)["total"] == r.total
    ensures Fields(r)["status"] == r.status && Fields(r)["processed_at"] == Str(r.processedAt)
  {
  }

  /** Every field of a built record is the event's (or its default), and the
      total is `quantity * price` on them, whatever kinds of value they are. */
  lemma ReadyFieldsFromEvent(data: Value, now: string)
    requires Prepare(data, now).Ready?
    ensures data.Object?
    ensures var r := Prepare(data, now).result;
      && r.orderId == data.fields["id"]
      && r.customerId == Lookup(data.fields, "customer_id", Null)
      && r.productId == Lookup(data.fields, "product_id", Null)
      && r.quantity == QuantityOf(data.fields)
      && r.price == PriceOf(data.fields)
      && r.status == StatusOf(data.fields)
      && Mul(QuantityOf(data.fields), PriceOf(data.fields)) == Some(r.total)
  {
  }

  /** A numeric quantity and price give a record exactly when Python can
      multiply them (not an int beyond the float range times a float); its
      total is then their exact product. */
  lemma TotalIsProduct(data: Value, now: string)
    requires data.Object? && Truthy(OrderIdOf(data.fields))
    requires IsNumber(QuantityOf(data.fields)) && IsNumber(PriceOf(data.fields))
    ensures Prepare(data, now).Ready? <==> NumbersMultiply(QuantityOf(data.fields), PriceOf(data.fields))
    ensures Prepare(data, now).Ready? ==>
      var r := Prepare(data, now).result;
      && r.orderId == data.fields["id"]
      && r.customerId == Lookup(data.fields, "customer_id", Null)
      && r.productId == Lookup(data.fields, "product_id", Null)
      && r.quantity == QuantityOf(data.fields)
      && r.price == PriceOf(data.fields)
      && r.status == StatusOf(data.fields)
      && IsNumber(r.total)
      && AsNumber(r.total) == AsNumber(r.quantity) * AsNumber(r.price)
  {
  }

  /** An integer quantity too large for a float times a float price raises
      OverflowError before any sink is touched. */
  lemma HugeIntTimesFloatRaises(data: Value, now: string)
    requires data.Object? && Truthy(OrderIdOf(data.fields))
    requires QuantityOf(data.fields).Int? && QuantityOf(data.fields).i >= FloatLimit
    requires PriceOf(data.fields).Float?
    ensures Prepare(data, now) == BadOperands
  {
  }

  /** A string quantity times an integer price that fits builds a record whose
      total is the string repeated that many times. */
  lemma StringQuantityRepeats(data: Value, now: string)
    requires data.Object? && Truthy(OrderIdOf(data.fields))
    requires QuantityOf(data.fields).Str? && PriceOf(data.fields).Int?
    requires RepeatFits(QuantityOf(data.fields), PriceOf(data.fields).i)
    ensures Prepare(data, now).Ready?
    ensures Prepare(data, now).result.total
         == Str(Repeat(QuantityOf(data.fields).s, PriceOf(data.fields).i))
  {
  }

  /** Absent quantity, price and status fall back to 0, 0.0 and PENDING, and
      the total is then the float zero. */
  lemma DefaultsWhenAbsent(data: Value, now: string)
    requires data.Object? && Truthy(OrderIdOf(data.fields))
    requires "quantity" !in data.fields && "price" !in data.fields && "status" !in data.fields
    ensures Prepare(data, now).Ready?
    ensures var r := Prepare(data, now).result;
      r.quantity == Int(0) && r.price == Float(0.0) && r.total == Float(0.0)
      && r.status == Str("PENDING")
  {
  }

  /** A quantity given as a string is not converted: `"3" * 1.5` raises a
      TypeError before any sink is touched. */
  lemma StringQuantityTimesFloatRaises(data: Value, now: string)
    requires data.Object? && Truthy(OrderIdOf(data.fields))
    requires "quantity" in data.fields && data.fields["quantity"].Str?
    requires PriceOf(data.fields).Float?
    ensures Prepare(data, now) == BadOperands
  {
  }

  /** A repetition count beyond sys.maxsize makes `*` raise an
      OverflowError rather than build the repeated string. */
  lemma HugeCountRaises(data: Value, now: string)
    requires data.Object? && Truthy(OrderIdOf(data.fields))
    requires QuantityOf(data.fields).Str?
    requires PriceOf(data.fields).Int? && PriceOf(data.fields).i > MaxSize
    ensures Prepare(data, now) == BadOperands
  {
  }

  /** The defaults apply only to absent keys: a quantity present as null
      reaches `*` and makes Python raise a TypeError. */
  lemma NullQuantityRaises(data: Value, now: string)
    requires data.Object? && Truthy(OrderIdOf(data.fields))
    requires "quantity" in data.fields && data.fields["quantity"] == Null
    ensures Prepare(data, now) == BadOperands
  {
  }
}
