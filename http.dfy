/** The outcome of a backend endpoint: a value, or an HTTP error with its
    status code and detail text. */
module Http {
  import opened Text

  datatype Outcome<+T> = Ok(value: T) | Error(status: nat, detail: string)

  /** `str(e)` of an `HTTPException`: the status code, a colon and the
      detail, which is what the catch-all handlers put in their own detail. */
  function ExceptionText(status: nat, detail: string): string
  {
    NatToString(status) + ": " + detail
  }

  /** The text of a 400 error. */
  lemma BadRequestText(detail: string)
    ensures ExceptionText(400, detail) == "400: " + detail
  {
    assert NatToString(400) == "400" by {
      assert NatToString(4) == "4";
      assert NatToString(40) == "40";
    }
  }
}
