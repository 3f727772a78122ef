/** The partner landing form: a content creator enters the website, the price, the payment
    token and a duration, and submits a draft plan that is stored in the session. */
module PartnerLanding {
  import opened Types
  import opened UrlPattern
  import opened Parsers
  import opened Web3AuthContext

  /** The plan `handleOnSubmit` drafts: the session's address (or the empty string) as creator,
      a duration of one whatever was selected, the form's price, token and website, and no plan
      id, so it cannot be read back as a plan stored on chain. */
  function Draft(address: Option<string>, price: nat, token: string, uri: string): (p: Plan)
    ensures address.Some? ==> p.contentCreator == address.value
    ensures address.None? ==> p.contentCreator == ""
    ensures p.expirationBlock == Num(1) && p.planId.None? && p.price == Num(price)
    ensures p.paymentTokenAddress == token && p.uri == uri
    ensures PlanStructOf(p).None?
  {
    Plan(
      contentCreator := if address.Some? then address.value else "",
      expirationBlock := Num(1),
      planId := None,
      paymentTokenAddress := token,
      price := Num(price),
      uri := uri)
  }

  class LandingForm {
    var uri: string
    var price: nat
    var paymentTokenAddress: string
    var duration: string
    var isLoading: bool
    var isValid: bool

    /** The stored website is either still empty or passed the URL check. */
    predicate Valid()
      reads this
    {
      uri == "" || UrlRegexTest(uri)
    }

    /** The form's initial state: no website, a price of one, the Keyko Innovation Token and a
        duration of one month. */
    constructor ()
      ensures uri == "" && price == 1 && paymentTokenAddress == KIT && duration == "1Month"
      ensures !isLoading && isValid
      ensures Valid()
    {
      uri, price, paymentTokenAddress, duration := "", 1, KIT, "1Month";
      isLoading, isValid := false, true;
    }

    /** `handleSetUrl`: an empty input only clears the error mark; any other input is checked
        and stored only when it passes, while a failing input keeps the previous website. */
    method HandleSetUrl(input: string)
      requires Valid()
      modifies this`uri, this`isValid
      ensures Valid()
      ensures input == "" ==> isValid && uri == old(uri)
      ensures input != "" ==> isValid == UrlRegexTest(input)
      ensures input != "" && UrlRegexTest(input) ==> uri == input
      ensures input != "" && !UrlRegexTest(input) ==> uri == old(uri)
    {
      if input == "" {
        isValid := true;
        return;
      }
      var isValidUrl := UrlRegexTest(input);
      isValid := isValidUrl;
      if isValidUrl {
        uri := input;
      }
    }

    method SetPrice(value: nat)
      modifies this`price
      ensures price == value
    {
      price := value;
    }

    method SetDuration(value: string)
      modifies this`duration
      ensures duration == value
    {
      duration := value;
    }

    method SetPaymentTokenAddress(value: string)
      modifies this`paymentTokenAddress
      ensures paymentTokenAddress == value
    {
      paymentTokenAddress := value;
    }

    /** `handleOnSubmit`: marks the form as loading and stores the draft plan in the session;
        nothing else in the session changes. */
    method HandleOnSubmit(session: Web3AuthProvider)
      requires Valid() && WellFormed(session.state)
      modifies this`isLoading, session
      ensures Valid() && WellFormed(session.state) && isLoading
      ensures session.state == old(session.state).(plan :=
        Some(Draft(old(session.state.address), price, paymentTokenAddress, uri)))
    {
      isLoading := true;
      var plan := Draft(session.state.address, price, paymentTokenAddress, uri);
      session.SetPlanData(plan);
    }

    /** Whether the Submit button is rendered: only for a connected user and a website that
        passed the check. */
    function SubmitShown(isConnected: Option<bool>): (shown: bool)
      requires Valid()
      reads this
      ensures shown ==> Truthy(isConnected) && UrlRegexTest(uri)
      ensures uri == "" ==> !shown
    {
      uri != "" && isValid && Truthy(isConnected)
    }

    /** A click on the Submit button: nothing happens unless it is rendered and enabled;
        otherwise the draft, whose website passed the check, is stored. */
    method ClickSubmit(session: Web3AuthProvider)
      requires Valid() && WellFormed(session.state)
      modifies this`isLoading, session
      ensures Valid() && WellFormed(session.state)
      ensures !old(SubmitShown(session.state.isConnected)) || old(isLoading) ==>
        isLoading == old(isLoading) && session.state == old(session.state)
      ensures old(SubmitShown(session.state.isConnected)) && !old(isLoading) ==>
        && isLoading
        && session.state == old(session.state).(plan :=
             Some(Draft(old(session.state.address), price, paymentTokenAddress, uri)))
        && UrlRegexTest(session.state.plan.value.uri)
    {
      if SubmitShown(session.state.isConnected) && !isLoading {
        HandleOnSubmit(session);
      }
    }

    /** A key released in the website or price input: Enter submits without looking at
        the website, its validity, the connection or the loading mark. */
    method KeyUp(key: string, session: Web3AuthProvider)
      requires Valid() && WellFormed(session.state)
      modifies this`isLoading, session
      ensures Valid() && WellFormed(session.state)
      ensures key != "Enter" ==> isLoading == old(isLoading) && session.state == old(session.state)
      ensures key == "Enter" ==>
        && isLoading
        && session.state == old(session.state).(plan :=
             Some(Draft(old(session.state.address), price, paymentTokenAddress, uri)))
    {
      if key == "Enter" {
        HandleOnSubmit(session);
      }
    }
  }

  /** The Enter key submits a draft even while the website is empty, which the Submit button
      would never do. */
  method EnterSubmitsEmptyWebsite(session: Web3AuthProvider) returns (form: LandingForm)
    requires WellFormed(session.state)
    modifies session
    ensures form.uri == "" && form.Valid() && !form.SubmitShown(session.state.isConnected)
    ensures session.state.plan.Some? && session.state.plan.value.uri == ""
    ensures session.state.plan.value.paymentTokenAddress == KIT
  {
    form := new LandingForm();
    form.KeyUp("Enter", session);
  }
}
