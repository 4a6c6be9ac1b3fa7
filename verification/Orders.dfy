/** Order requests as the gate sees them, and the money they are priced in. */
module Orders {
  import opened Base

  const INR := "INR"

  /** Sub-units in one rupee: prices carry at most four decimals. */
  const RUPEE := 10_000

  /** An exact amount with a currency tag. Arithmetic across currencies fails. */
  datatype Money = Money(amount: int, currency: string) {
    predicate IsZero() { amount == 0 }

    predicate IsPositive() { amount > 0 }

    function Multiply(quantity: int): Money {
      Money(amount * quantity, currency)
    }

    function Add(other: Money): Option<Money> {
      if currency == other.currency then Some(Money(amount + other.amount, currency)) else None
    }

    function GreaterThan(other: Money): Option<bool> {
      if currency == other.currency then Some(amount > other.amount) else None
    }
  }

  /** The zero value doubles as "no price" and as "no override". */
  const ZERO_MONEY := Money(0, "")

  function Inr(amount: int): Money {
    Money(amount, INR)
  }

  /** What makes two orders the same order for the time-based duplicate rule. */
  datatype Signature = Signature(exchange: string, symbol: string, side: string, quantity: int)

  datatype Request = Request(
    email: string,
    tool: string,
    sig: Signature,
    price: Money,
    orderType: string,
    confirmed: bool,
    clientOrderId: string,
    variety: string)
  {
    function Notional(): Money {
      price.Multiply(sig.quantity)
    }

    /** What the order adds to the daily placed value; unpriced orders add nothing. */
    function Value(): int {
      if price.IsPositive() then Notional().amount else 0
    }

    /** Prices come from the tool boundary, which always quotes rupees. */
    predicate InRupees() {
      price.currency == INR
    }
  }

  /** The arguments of an order tool, already reduced to their typed defaults. */
  datatype ToolArgs = ToolArgs(
    sig: Signature,
    price: int,
    triggerPrice: int,
    orderType: string,
    confirm: bool,
    clientOrderId: string,
    variety: string)

  /** Stop-loss orders carry a trigger price instead of a price; everything else is what the
      caller says. */
  function BuildRequest(email: string, tool: string, args: ToolArgs): (req: Request)
    ensures req.InRupees() && req.email == email && req.sig == args.sig && req.clientOrderId == args.clientOrderId
    ensures req.confirmed == args.confirm && req.variety == args.variety
    ensures req.orderType == args.orderType && req.tool == tool
    ensures args.price != 0 ==> req.price == Inr(args.price)
    ensures args.price == 0 ==> req.price == Inr(args.triggerPrice)
  {
    var price := if Inr(args.price).IsZero() then Inr(args.triggerPrice) else Inr(args.price);
    Request(email, tool, args.sig, price, args.orderType, args.confirm, args.clientOrderId, args.variety)
  }

  const ORDER_TOOLS: set<string> :=
    {"place_order", "modify_order", "close_position", "close_all_positions",
     "place_gtt_order", "modify_gtt_order", "place_mf_order", "place_mf_sip"}

  predicate OrderTool(tool: string) {
    || tool == "place_order" || tool == "modify_order" || tool == "close_position" || tool == "close_all_positions"
    || tool == "place_gtt_order" || tool == "modify_gtt_order" || tool == "place_mf_order" || tool == "place_mf_sip"
  }

  /** These eight tools go through the gate, and no others. */
  lemma OrderToolsAreThese(tool: string)
    ensures tool in ORDER_TOOLS <==> OrderTool(tool)
  {
  }
}
