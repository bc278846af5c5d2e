/** The decisions main.go makes on its own: the mapping of the `eqs` flag's
    text to a plugin state, and its own copy of the cookie validator. */
module MainCli {
  import opened Results
  import opened GoStrings
  import opened CheckX
  import Checker

  /** getStatus: the state a status name selects. Matching is exact and
      case-sensitive; every other text, "UNKNOWN" included, selects Unknown. */
  function GetStatus(state: string): (r: State)
    ensures r == OK <==> state == "OK"
    ensures r == Warning <==> state == "WARNING"
    ensures r == Critical <==> state == "CRITICAL"
    ensures r == Unknown <==> state !in {"OK", "WARNING", "CRITICAL"}
  {
    if state == "OK" then OK
    else if state == "WARNING" then Warning
    else if state == "CRITICAL" then Critical
    else Unknown
  }

  /** getStatus reads back every state's printed name: it is a left inverse
      of State.Name. */
  lemma GetStatusReadsName(s: State)
    ensures GetStatus(s.Name()) == s
  {
  }

  /** Lower-case spellings and the empty text are not recognised. */
  lemma GetStatusCaseSensitive(s: State)
    ensures GetStatus(Lower(s.Name())) == Unknown
    ensures GetStatus("") == Unknown
  {
    var n := Lower(s.Name());
    assert n[0] != s.Name()[0] || s == Unknown;
  }

  /** main.go's cookie flag Validator, written out again in that file. */
  function ValidateCookie(value: string): (r: Outcome)
    ensures r.Pass? ==> Count(value, '=') == 1
  {
    if Count(value, '=') != 1 then Fail("there should be exactly one '=' in the cookie definition")
    else
      var i := IndexRune(value, '=');
      var cookieKey := value[..i];
      var cookieValue := value[i + 1..];
      if cookieKey == "" then Fail("cookie key cannot be empty")
      else if cookieValue == "" then Fail("cookie value cannot be empty")
      else if ByteLen(cookieValue) > 4096 then Fail("cookie value cannot be longer than 4096 characters")
      else Pass
  }

  /** The two copies of the cookie validator give the same verdict and the
      same error on every input, so main.go accepts exactly the well-formed
      cookie definitions too. */
  lemma CookieValidatorsAgree(value: string)
    ensures ValidateCookie(value) == Checker.ValidateCookie(value)
    ensures ValidateCookie(value).Pass? <==> Checker.WellFormedCookie(value)
  {
    Checker.CookieValidatorIff(value);
  }
}
