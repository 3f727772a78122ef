/** Mapping of the marketplace contract's plan and order structs into view models:
    the integer fields become decimal strings, everything else is copied. */
module Parsers {
  import opened Numerals
  import opened Types

  /** `BotblockMarket.PlanStructOutput`; the integer fields are unsigned on chain. */
  datatype PlanStruct = PlanStruct(
    contentCreator: string,
    expirationBlock: nat,
    planID: nat,
    paymentTokenAddress: string,
    price: nat,
    uri: string)

  /** `BotblockMarket.OrderStructOutput`; `status` is a small enum the struct already holds as a number. */
  datatype OrderStruct = OrderStruct(buyer: string, orderId: nat, plan: PlanStruct, status: nat)

  /** A numeric view-model field that reads back as `n`. */
  predicate Denotes(x: Scalar, n: nat) {
    x.Str? && IsCanonical(x.text) && ValueOf(x.text) == n
  }

  function ParsePlanStruct(plan: PlanStruct): (r: Plan)
    ensures r.contentCreator == plan.contentCreator
    ensures Denotes(r.expirationBlock, plan.expirationBlock)
    ensures r.planId.Some? && IsCanonical(r.planId.value) && ValueOf(r.planId.value) == plan.planID
    ensures r.paymentTokenAddress == plan.paymentTokenAddress
    ensures Denotes(r.price, plan.price)
    ensures r.uri == plan.uri
  {
    ValueOfToDecimal(plan.expirationBlock);
    ValueOfToDecimal(plan.planID);
    ValueOfToDecimal(plan.price);
    Plan(
      contentCreator := plan.contentCreator,
      expirationBlock := Str(ToDecimal(plan.expirationBlock)),
      planId := Some(ToDecimal(plan.planID)),
      paymentTokenAddress := plan.paymentTokenAddress,
      price := Str(ToDecimal(plan.price)),
      uri := plan.uri)
  }

  function ParseOrderStruct(order: OrderStruct): (r: Order)
    ensures r.buyer == order.buyer && r.status == order.status
    ensures IsCanonical(r.orderId) && ValueOf(r.orderId) == order.orderId
    ensures r.plan == ParsePlanStruct(order.plan)
  {
    ValueOfToDecimal(order.orderId);
    Order(
      buyer := order.buyer,
      orderId := ToDecimal(order.orderId),
      plan := ParsePlanStruct(order.plan),
      status := order.status)
  }

  /** Reads a view-model plan back into the struct it was mapped from, when its numeric
      fields are canonical decimal strings. */
  function PlanStructOf(p: Plan): (plan: Option<PlanStruct>) {
    if Denotes(p.expirationBlock, ValueOfText(p.expirationBlock))
       && p.planId.Some? && IsCanonical(p.planId.value)
       && Denotes(p.price, ValueOfText(p.price))
    then Some(PlanStruct(
      contentCreator := p.contentCreator,
      expirationBlock := ValueOfText(p.expirationBlock),
      planID := ValueOf(p.planId.value),
      paymentTokenAddress := p.paymentTokenAddress,
      price := ValueOfText(p.price),
      uri := p.uri))
    else None
  }

  function OrderStructOf(o: Order): (order: Option<OrderStruct>) {
    if IsCanonical(o.orderId) && PlanStructOf(o.plan).Some?
    then Some(OrderStruct(o.buyer, ValueOf(o.orderId), PlanStructOf(o.plan).value, o.status))
    else None
  }

  function ValueOfText(x: Scalar): (n: nat) {
    if x.Str? && AllDigits(x.text) then ValueOf(x.text) else 0
  }

  /** Mapping a plan struct and reading it back gives the struct unchanged. */
  lemma PlanRoundTrip(plan: PlanStruct)
    ensures PlanStructOf(ParsePlanStruct(plan)) == Some(plan)
  {
  }

  /** Conversely, every plan that reads back is exactly the mapping of what it reads back to:
      the mapper is a bijection onto plans with canonical numeric strings. */
  lemma PlanReadBack(p: Plan)
    requires PlanStructOf(p).Some?
    ensures ParsePlanStruct(PlanStructOf(p).value) == p
  {
    ToDecimalValueOf(p.expirationBlock.text);
    ToDecimalValueOf(p.planId.value);
    ToDecimalValueOf(p.price.text);
  }

  lemma OrderRoundTrip(order: OrderStruct)
    ensures OrderStructOf(ParseOrderStruct(order)) == Some(order)
  {
    PlanRoundTrip(order.plan);
  }

  lemma OrderReadBack(o: Order)
    requires OrderStructOf(o).Some?
    ensures ParseOrderStruct(OrderStructOf(o).value) == o
  {
    PlanReadBack(o.plan);
    ToDecimalValueOf(o.orderId);
  }

  /** Two structs with different plan ids map to plans with different `planId` strings. */
  lemma PlanIdsStayDistinct(a: PlanStruct, b: PlanStruct)
    ensures ParsePlanStruct(a).planId == ParsePlanStruct(b).planId <==> a.planID == b.planID
  {
    ToDecimalInjective(a.planID, b.planID);
  }
}
