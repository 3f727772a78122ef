/** The robots context: fetches a site's robots.txt through the back-end service and
    keeps the text it received. The HTTP exchange itself is outside the model; its
    outcome is passed in. */
module RobotsContext {
  import opened Types
  import opened Numerals

  const ERROR_PREFIX := "An error occurred!\n"
  const STATUS_ERROR := "Failed to fetch robots.txt. Status code: "

  /** What the awaited GET produced: a response with its status and body, or a thrown
      error, given by the text `${error}` renders it as. */
  datatype HttpOutcome = Response(status: nat, data: string) | Failure(error: string)

  /** How the error axios throws for a rejected status renders: `AxiosError` is its name and
      the status code ends its message. */
  const AXIOS_STATUS_ERROR := "AxiosError: Request failed with status code "

  /** axios's default status check: only a 2xx status resolves the request. */
  predicate AxiosAccepts(status: nat) {
    200 <= status < 300
  }

  /** The text of the error axios throws for a status outside 2xx. */
  function AxiosErrorText(status: nat): (text: string) {
    AXIOS_STATUS_ERROR + ToDecimal(status)
  }

  /** The text of the `Error` thrown for a 2xx response whose status is not 200, as a
      template literal renders it. */
  function StatusErrorText(status: nat): (text: string) {
    "Error: " + STATUS_ERROR + ToDecimal(status)
  }

  /** The message of the error `getRobotsTxt` rejects with, when it rejects. */
  function FetchError(outcome: HttpOutcome): (message: Option<string>)
    ensures message.None? <==> outcome.Response? && outcome.status == 200
    ensures outcome.Failure? ==> message == Some(ERROR_PREFIX + outcome.error)
    ensures outcome.Response? && !AxiosAccepts(outcome.status) ==>
      message == Some(ERROR_PREFIX + AxiosErrorText(outcome.status))
    ensures outcome.Response? && AxiosAccepts(outcome.status) && outcome.status != 200 ==>
      message == Some(ERROR_PREFIX + StatusErrorText(outcome.status))
  {
    match outcome
    case Failure(error) => Some(ERROR_PREFIX + error)
    case Response(status, _) =>
      if !AxiosAccepts(status) then Some(ERROR_PREFIX + AxiosErrorText(status))
      else if status == 200 then None
      else Some(ERROR_PREFIX + StatusErrorText(status))
  }

  /** The status code can be read back from the end of the message of every status error,
      whether axios or the status check threw it. */
  lemma StatusRecoverable(status: nat)
    requires status != 200
    ensures var m := FetchError(Response(status, "")).value;
      var head := if AxiosAccepts(status) then "Error: " + STATUS_ERROR else AXIOS_STATUS_ERROR;
      var start := |ERROR_PREFIX| + |head|;
      && start < |m| && m[..start] == ERROR_PREFIX + head
      && IsCanonical(m[start..]) && ValueOf(m[start..]) == status
  {
    var m := FetchError(Response(status, "")).value;
    var head := if AxiosAccepts(status) then "Error: " + STATUS_ERROR else AXIOS_STATUS_ERROR;
    var start := |ERROR_PREFIX| + |head|;
    assert m == (ERROR_PREFIX + head) + ToDecimal(status);
    assert m[start..] == ToDecimal(status);
    ValueOfToDecimal(status);
  }

  /** A 404 is rejected by axios before the status check is reached. */
  lemma NotFoundRejectedByAxios()
    ensures FetchError(Response(404, "")) == Some(ERROR_PREFIX + AXIOS_STATUS_ERROR + "404")
  {
    assert ToDecimal(404) == "404" by {
      assert ToDecimal(4) == "4";
      assert ToDecimal(40) == "40";
    }
    assert AxiosErrorText(404) == AXIOS_STATUS_ERROR + "404";
    assert ERROR_PREFIX + (AXIOS_STATUS_ERROR + "404") == ERROR_PREFIX + AXIOS_STATUS_ERROR + "404";
  }

  class RobotsProvider {
    var originalRobotsTxt: Option<string>

    /** `useState()`: nothing fetched yet. */
    constructor ()
      ensures originalRobotsTxt.None?
    {
      originalRobotsTxt := None;
    }

    /** `getRobotsTxt`: status 200 stores the body and resolves; axios throws for a status
        outside 2xx, the status check throws for any other 2xx status, and every thrown error
        is re-thrown with the prefix, leaving the stored text as it was. */
    method GetRobotsTxt(outcome: HttpOutcome) returns (c: Completion)
      modifies this
      ensures outcome.Response? && outcome.status == 200 ==>
        c == Resolved && originalRobotsTxt == Some(outcome.data)
      ensures !(outcome.Response? && outcome.status == 200) ==>
        originalRobotsTxt == old(originalRobotsTxt) && c == Rejected(FetchError(outcome).value)
      ensures c.Rejected? ==> |c.reason| >= |ERROR_PREFIX| && c.reason[..|ERROR_PREFIX|] == ERROR_PREFIX
    {
      var thrown: string;
      if outcome.Failure? {
        thrown := outcome.error;
      } else if !AxiosAccepts(outcome.status) {
        thrown := AxiosErrorText(outcome.status);
      } else if outcome.status == 200 {
        originalRobotsTxt := Some(outcome.data);
        return Resolved;
      } else {
        var errMsg := STATUS_ERROR + ToDecimal(outcome.status);
        thrown := "Error: " + errMsg;
      }
      c := Rejected(ERROR_PREFIX + thrown);
    }
  }
}
