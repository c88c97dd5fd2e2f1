/** The AppError class of src/utils/appError.ts, built once and never updated. */
module AppErrors {
  import opened Wrappers
  import opened Strings

  datatype AppError = AppError(message: string, statusCode: int, status: string, isOperational: bool)

  /** The status code used when the constructor is given none. */
  const DefaultStatusCode: int := 500

  /**
    new AppError(message[, statusCode]): the code defaults to 500; the status
    is 'fail' when the decimal text of the code starts with '4' and 'error'
    otherwise; the error is always operational and keeps its message.
   */
  function NewAppError(message: string, statusCode: Option<int>): (e: AppError)
    ensures e.message == message && e.isOperational
    ensures statusCode.None? ==> e.statusCode == 500
    ensures statusCode.Some? ==> e.statusCode == statusCode.value
    ensures e.status == "fail" || e.status == "error"
  {
    var code := if statusCode.Some? then statusCode.value else DefaultStatusCode;
    AppError(message, code, if StartsWith(IntText(code), "4") then "fail" else "error", true)
  }

  /**
    The status is 'fail' exactly for non-negative codes whose leading decimal
    digit is 4: a prefix test on the text, not a range test.
   */
  lemma FailIffLeadingFour(message: string, code: int)
    ensures NewAppError(message, Some(code)).status == "fail" <==> code >= 0 && LeadingDigit(code) == 4
  {
    if code >= 0 {
      NatTextStart(code);
    }
  }

  /** Among three-digit codes, 'fail' is exactly the 4xx range. */
  lemma ThreeDigitCodes(message: string, code: int)
    requires 100 <= code < 1000
    ensures NewAppError(message, Some(code)).status == "fail" <==> 400 <= code < 500
  {
    FailIffLeadingFour(message, code);
    var tens := code / 10;
    assert 10 <= tens < 100 && tens / 10 == code / 100;
    assert LeadingDigit(code) == LeadingDigit(tens) == LeadingDigit(tens / 10) == code / 100;
  }

  /** 4, 40 and 4000 are classified 'fail' too, and a negative code never is. */
  lemma PrefixNotRange(message: string, code: int)
    ensures NewAppError(message, Some(4)).status == "fail"
    ensures NewAppError(message, Some(40)).status == "fail"
    ensures NewAppError(message, Some(4000)).status == "fail"
    ensures code < 0 ==> NewAppError(message, Some(code)).status == "error"
  {
    FailIffLeadingFour(message, 4);
    FailIffLeadingFour(message, 40);
    FailIffLeadingFour(message, 4000);
    FailIffLeadingFour(message, code);
  }

  /** With no code given the error is a 500 with status 'error'. */
  lemma DefaultIsServerError(message: string)
    ensures NewAppError(message, None).statusCode == 500
    ensures NewAppError(message, None).status == "error"
  {
    NatTextStart(500);
    assert LeadingDigit(500) == 5;
  }
}
