/**
 * The sticky "had error" flag (src/errors.rs). The process-wide static becomes one
 * object that the parser and the environment are handed by reference.
 */
module Errors {

  /**
   * The runtime error type the statement evaluator returns. Its definition is not
   * among the modelled files; it is kept as a message and a line.
   */
  datatype RuntimeError = RuntimeError(message: string, line: nat)

  /** One call of `report`: the line, the location text and the message. */
  datatype Report = Report(line: nat, location: string, message: string)

  class Diagnostics {
    /** HAD_ERROR */
    var hadError: bool
    /** Every report made so far, in order; the console formatting is not modelled. */
    var reports: seq<Report>

    /** The flag as it is at program start. */
    constructor ()
      ensures !hadError && reports == []
    {
      hadError := false;
      reports := [];
    }

    /** The flag is set exactly when something has been reported. */
    ghost predicate Valid()
      reads this
    {
      hadError <==> reports != []
    }

    /** `had_error`: a pure read of the flag, true exactly when something was reported. */
    function HadError(): (b: bool)
      reads this
      ensures b == hadError
      ensures Valid() ==> (b <==> reports != [])
    {
      hadError
    }

    /** `error`: report with an empty location. */
    method Error(line: nat, msg: string)
      requires Valid()
      modifies this
      ensures Valid() && HadError()
      ensures reports == old(reports) + [Report(line, "", msg)]
    {
      ReportAt(line, "", msg);
    }

    /** `report`: record the message and set the flag. */
    method ReportAt(line: nat, location: string, msg: string)
      requires Valid()
      modifies this
      ensures Valid() && HadError()
      ensures reports == old(reports) + [Report(line, location, msg)]
    {
      reports := reports + [Report(line, location, msg)];
      hadError := true;
    }
  }
}
