/** The view models shared by the pages and contexts (`Plan`, `Order`), and the
    shapes used for optional fields, outside calls and promise outcomes. */
module Types {
  import opened Numerals

  /** A field that may be `undefined`. */
  datatype Option<T> = None | Some(value: T)

  /** JavaScript truthiness of an optional boolean (`!!x`). */
  predicate Truthy(b: Option<bool>) {
    b == Some(true)
  }

  /** A field that holds either a string or a number: plans mapped from the chain carry
      strings, the plan drafted on the partner form carries numbers. */
  datatype Scalar = Str(text: string) | Num(n: nat)

  /** How JSX and template literals render a scalar. */
  function Display(x: Scalar): (t: string)
    ensures x.Num? ==> IsCanonical(t) && ValueOf(t) == x.n
    ensures x.Str? ==> t == x.text
  {
    match x
    case Str(text) => text
    case Num(n) => ValueOfToDecimal(n); ToDecimal(n)
  }

  /** The addresses of the payment tokens the pages know, as the subscribe page's token
      table spells them. */
  const DAI := "0x6B175474E89094C44Da98b954EedeAC495271d0F"
  const USDT := "0xdAC17F958D2ee523a2206206994597C13D831ec7"
  const USDC := "0x179522635726710Dd7D2035a81d856de4Aa7836c"
  const APE := "0x4d224452801ACEd8B2F0aebE155379bb5D594381"
  const KIT := "0x8337E43E0E25eeDFA47b403Bdfe3726b8C1BB59b"

  /** A content creator's offer; `planId` is absent on a plan that has not been stored on chain. */
  datatype Plan = Plan(
    contentCreator: string,
    expirationBlock: Scalar,
    planId: Option<string>,
    paymentTokenAddress: string,
    price: Scalar,
    uri: string)

  datatype Order = Order(buyer: string, orderId: string, plan: Plan, status: nat)

  /** The result of an awaited outside call: a value, or a rejection with its reason. */
  datatype Call<T> = Returns(value: T) | Throws(reason: string)

  /** How an async operation of the front end settles. */
  datatype Completion = Resolved | Rejected(reason: string)
}
