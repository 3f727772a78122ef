/** The subscribe page: the plan table (rows, duration text, token labels) and the
    purchase attempt with the notifications it raises. */
module Subscribe {
  import opened Types
  import opened Numerals
  import opened Parsers
  import opened Web3AuthContext

  /** `tokenAddressMap`: the label shown beside a price, keyed by the exact address text. */
  const TOKEN_ADDRESS_MAP: map<string, string> := map[
    DAI := "DAI",
    USDT := "USDT",
    USDC := "USDC",
    APE := "ApeCoin",
    KIT := "Keyko Innovation Token"]

  const LOGIN_REQUIRED := "Please log in before submitting a purchase"
  const PURCHASE_PENDING := "Wait some moments to complete the purhcase!"

  /** The label of a token address; an address outside the table has none. */
  function TokenLabel(address: string): (tokenName: Option<string>)
    ensures tokenName.Some? <==> address in {DAI, USDT, USDC, APE, KIT}
    ensures address == DAI ==> tokenName == Some("DAI")
    ensures address == USDT ==> tokenName == Some("USDT")
    ensures address == USDC ==> tokenName == Some("USDC")
    ensures address == APE ==> tokenName == Some("ApeCoin")
    ensures address == KIT ==> tokenName == Some("Keyko Innovation Token")
  {
    if address in TOKEN_ADDRESS_MAP then Some(TOKEN_ADDRESS_MAP[address]) else None
  }

  /** No two of the known tokens share a label. */
  lemma TokenLabelsDistinct(a: string, b: string)
    requires TokenLabel(a).Some? && TokenLabel(a) == TokenLabel(b)
    ensures a == b
  {
  }

  /** The Duration cell: the value, " Month", and an "s" unless the value is the string "1".
      A numeric 1 is not the string "1" and so reads "1 Months". */
  function DurationText(expirationBlock: Scalar): (t: string)
    ensures t == Display(expirationBlock) + " Month" || t == Display(expirationBlock) + " Months"
    ensures t == Display(expirationBlock) + " Month" <==> expirationBlock == Str("1")
  {
    Display(expirationBlock) + " Month" + (if expirationBlock != Str("1") then "s" else "")
  }

  /** For a plan mapped from the chain, the singular is used exactly for a duration of one. */
  lemma MappedDurationText(plan: PlanStruct)
    ensures DurationText(ParsePlanStruct(plan).expirationBlock)
      == ToDecimal(plan.expirationBlock) + " Month" + (if plan.expirationBlock == 1 then "" else "s")
  {
    ToDecimalInjective(plan.expirationBlock, 1);
  }

  /** The Price cell: the price, a space, and the token label or nothing. */
  function PriceText(plan: Plan): (t: string)
    ensures TokenLabel(plan.paymentTokenAddress).None? ==> t == Display(plan.price) + " "
    ensures TokenLabel(plan.paymentTokenAddress).Some? ==>
      t == Display(plan.price) + " " + TokenLabel(plan.paymentTokenAddress).value
  {
    var tokenName := TokenLabel(plan.paymentTokenAddress);
    Display(plan.price) + " " + (if tokenName.Some? then tokenName.value else "")
  }

  datatype Row = Row(website: string, creator: string, duration: string, price: string, plan: Plan)

  /** `s` begins with `p`. */
  predicate StartsWith(s: string, p: string) {
    |p| <= |s| && s[..|p|] == p
  }

  /** One table row: each cell shows its field of the plan, and the button buys that plan. */
  function RowOf(plan: Plan): (row: Row)
    ensures row.website == plan.uri && row.creator == plan.contentCreator && row.plan == plan
    ensures StartsWith(row.duration, Display(plan.expirationBlock) + " Month")
    ensures StartsWith(row.price, Display(plan.price) + " ")
  {
    Row(plan.uri, plan.contentCreator, DurationText(plan.expirationBlock), PriceText(plan), plan)
  }

  /** `plans.map((plan, index) => !!index && <tr/>)`: each position yields `false` for
      index 0 and a row otherwise. */
  function Cells(plans: seq<Plan>): (cells: seq<Option<Row>>)
    ensures |cells| == |plans|
    ensures forall i :: 0 <= i < |cells| ==> (cells[i].Some? <==> i != 0)
    ensures forall i :: 0 <= i < |cells| && cells[i].Some? ==> cells[i].value.plan == plans[i]
  {
    seq(|plans|, i requires 0 <= i < |plans| => if i != 0 then Some(RowOf(plans[i])) else None)
  }

  /** React draws the rows of a list and nothing for a `false` entry. */
  function Drawn(cells: seq<Option<Row>>): (rows: seq<Row>)
    ensures |rows| <= |cells|
    ensures forall k :: 0 <= k < |rows| ==> Some(rows[k]) in cells
  {
    if cells == [] then []
    else (if cells[0].Some? then [cells[0].value] else []) + Drawn(cells[1..])
  }

  lemma {:induction false} DrawnAllRows(cells: seq<Option<Row>>)
    requires forall i :: 0 <= i < |cells| ==> cells[i].Some?
    ensures |Drawn(cells)| == |cells|
    ensures forall k :: 0 <= k < |cells| ==> Drawn(cells)[k] == cells[k].value
  {
    if cells != [] {
      DrawnAllRows(cells[1..]);
    }
  }

  /** The table body; nothing is drawn before the plans are loaded. */
  function Rows(plans: Option<seq<Plan>>): (rows: seq<Row>)
    ensures plans.None? ==> rows == []
  {
    if plans.Some? then Drawn(Cells(plans.value)) else []
  }

  /** The table shows every plan but the first, in list order. */
  lemma RowsAreAllButFirst(plans: seq<Plan>)
    ensures |Rows(Some(plans))| == if |plans| == 0 then 0 else |plans| - 1
    ensures forall k :: 0 <= k < |Rows(Some(plans))| ==> Rows(Some(plans))[k] == RowOf(plans[k + 1])
  {
    var cells := Cells(plans);
    if |plans| > 0 {
      var rest := cells[1..];
      assert cells[0] == None;
      assert Drawn(cells) == Drawn(rest);
      assert forall i :: 0 <= i < |rest| ==> rest[i] == Some(RowOf(plans[i + 1]));
      DrawnAllRows(rest);
    }
  }

  /** Every plan but the first appears in the table, and the first one never does unless
      it is repeated later in the list. */
  lemma RowsSkipOnlyTheFirst(plans: seq<Plan>, i: nat)
    requires i < |plans|
    ensures 0 < i ==> exists k :: 0 <= k < |Rows(Some(plans))| && Rows(Some(plans))[k].plan == plans[i]
    ensures (exists k :: 0 <= k < |Rows(Some(plans))| && Rows(Some(plans))[k].plan == plans[0]) ==>
      exists j :: 0 < j < |plans| && plans[j] == plans[0]
  {
    RowsAreAllButFirst(plans);
    var rows := Rows(Some(plans));
    if 0 < i {
      assert rows[i - 1].plan == plans[i];
    }
    if exists k :: 0 <= k < |rows| && rows[k].plan == plans[0] {
      var k :| 0 <= k < |rows| && rows[k].plan == plans[0];
      assert plans[k + 1] == plans[0];
    }
  }

  /** What the page hands to the toast library and the purchase call. */
  datatype Effect =
    | ToastError(message: string)
    | ToastLoading(id: string, message: string)
    | ToastDismiss(id: string)
    | PurchasePlan(planId: string, price: Scalar, paymentTokenAddress: string)

  /** `plan.planId` is truthy: present and not empty. */
  predicate HasPlanId(plan: Plan) {
    plan.planId.Some? && plan.planId.value != ""
  }

  /** The effects of `handleOnPurchaseAttempt`; `toastId` is the id the toast library
      hands back for the loading toast. */
  function AttemptEffects(plan: Plan, isConnected: Option<bool>, toastId: string): (effects: seq<Effect>)
    ensures |effects| <= 3
    ensures effects == [] <==> !HasPlanId(plan)
    ensures forall k :: 0 <= k < |effects| && effects[k].PurchasePlan? ==>
      Truthy(isConnected) && effects[k].planId == plan.planId.value
    ensures forall k :: 0 <= k < |effects| && effects[k].ToastError? ==> !Truthy(isConnected)
  {
    if !HasPlanId(plan) then []
    else if !Truthy(isConnected) then [ToastError(LOGIN_REQUIRED)]
    else [ToastLoading(toastId, PURCHASE_PENDING),
          PurchasePlan(plan.planId.value, plan.price, plan.paymentTokenAddress),
          ToastDismiss(toastId)]
  }

  function PurchaseCalls(effects: seq<Effect>): (n: nat)
    ensures n <= |effects|
  {
    if effects == [] then 0
    else PurchaseCalls(effects[..|effects| - 1]) + (if effects[|effects| - 1].PurchasePlan? then 1 else 0)
  }

  function ErrorToasts(effects: seq<Effect>): (n: nat)
    ensures n <= |effects|
  {
    if effects == [] then 0
    else ErrorToasts(effects[..|effects| - 1]) + (if effects[|effects| - 1].ToastError? then 1 else 0)
  }

  lemma {:induction false} CountsAdd(a: seq<Effect>, b: seq<Effect>)
    ensures PurchaseCalls(a + b) == PurchaseCalls(a) + PurchaseCalls(b)
    ensures ErrorToasts(a + b) == ErrorToasts(a) + ErrorToasts(b)
    decreases |b|
  {
    if b == [] {
      assert a + b == a;
    } else {
      assert (a + b)[..|a + b| - 1] == a + b[..|b| - 1];
      assert (a + b)[|a + b| - 1] == b[|b| - 1];
      CountsAdd(a, b[..|b| - 1]);
    }
  }

  /** One attempt, appended to any history: a purchase call is added exactly when the plan
      has an id and the user is connected, an error toast exactly when the plan has an id and
      the user is not, and never both. */
  lemma {:induction false} AttemptOutcome(history: seq<Effect>, plan: Plan, isConnected: Option<bool>, toastId: string)
    ensures var after := history + AttemptEffects(plan, isConnected, toastId);
      && PurchaseCalls(after) == PurchaseCalls(history) + (if HasPlanId(plan) && Truthy(isConnected) then 1 else 0)
      && ErrorToasts(after) == ErrorToasts(history) + (if HasPlanId(plan) && !Truthy(isConnected) then 1 else 0)
  {
    var e := AttemptEffects(plan, isConnected, toastId);
    CountsAdd(history, e);
    if HasPlanId(plan) && Truthy(isConnected) {
      var e2, e1 := e[..2], e[..1];
      assert |e| == 3 && e[..|e| - 1] == e2 && e2[..|e2| - 1] == e1 && e1[..|e1| - 1] == [];
      assert PurchaseCalls(e1) == 0 && ErrorToasts(e1) == 0;
      assert PurchaseCalls(e2) == 1 && ErrorToasts(e2) == 0;
    } else if HasPlanId(plan) {
      assert e[..0] == [];
    }
  }

  /** In a connected attempt the loading toast opened first is the one dismissed right after
      the purchase call, without waiting for it. */
  lemma LoadingToastDismissedAfterCall(plan: Plan, toastId: string)
    requires HasPlanId(plan)
    ensures var e := AttemptEffects(plan, Some(true), toastId);
      |e| == 3 && e[0].ToastLoading? && e[1].PurchasePlan? && e[2] == ToastDismiss(e[0].id)
      && e[1] == PurchasePlan(plan.planId.value, plan.price, plan.paymentTokenAddress)
  {
  }

  class SubscribePage {
    var plans: Option<seq<Plan>>
    var effects: seq<Effect>

    constructor ()
      ensures plans.None? && effects == []
    {
      plans, effects := None, [];
    }

    /** The page's effect: fetch the plans only once the session holds a contract handle. */
    method FetchPlans(session: Web3AuthProvider, allPlans: seq<PlanStruct>)
      modifies this`plans
      ensures session.state.subsContract.None? ==> plans == old(plans)
      ensures session.state.subsContract.Some? ==> (plans.Some? && |plans.value| == |allPlans|
        && forall i :: 0 <= i < |allPlans| ==> plans.value[i] == ParsePlanStruct(allPlans[i]))
    {
      if session.state.subsContract.Some? {
        plans := session.GetPlans(allPlans);
      }
    }

    /** `handleOnPurchaseAttempt`: without a plan id nothing happens; when not connected one
        error toast; otherwise a loading toast, one purchase call, and the dismissal. */
    method HandleOnPurchaseAttempt(plan: Plan, isConnected: Option<bool>, toastId: string)
      modifies this`effects
      ensures effects == old(effects) + AttemptEffects(plan, isConnected, toastId)
    {
      if HasPlanId(plan) {
        if !Truthy(isConnected) {
          effects := effects + [ToastError(LOGIN_REQUIRED)];
          return;
        }
        effects := effects + [ToastLoading(toastId, PURCHASE_PENDING)];
        effects := effects + [PurchasePlan(plan.planId.value, plan.price, plan.paymentTokenAddress)];
        effects := effects + [ToastDismiss(toastId)];
      }
    }

    /** The "Buy access" button of a table row buys that row's plan, which is never the
        plan at index 0. */
    method ClickBuy(row: nat, isConnected: Option<bool>, toastId: string)
      requires plans.Some? && row + 1 < |plans.value|
      modifies this`effects
      ensures effects == old(effects) + AttemptEffects(plans.value[row + 1], isConnected, toastId)
    {
      RowsAreAllButFirst(plans.value);
      HandleOnPurchaseAttempt(Rows(plans)[row].plan, isConnected, toastId);
    }
  }
}
