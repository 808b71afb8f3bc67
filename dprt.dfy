/**
 * The entry points of the real-time data reduction pipeline library: the
 * process-wide statics and the routines that read and write them, step by
 * step as the library does, each proved against the status model in DpRtSpec.
 */
module DpRt {
  import opened DpRtSpec

  const NUL: char := '\0'

  /**
   * What a `char *` out-parameter holds for an optional name: NULL for
   * None, and for Some(name) a buffer of |name| + 1 characters holding the
   * name followed by its terminating NUL.
   */
  ghost predicate Holds(buffer: array?<char>, name: Option<string>)
    reads buffer
  {
    match name
    case None => buffer == null
    case Some(s) =>
      buffer != null && buffer.Length == |s| + 1 &&
      buffer[..|s|] == s && buffer[|s|] == NUL
  }

  /** The library's statics, as one object: every routine reads and writes them in place. */
  class Library {
    var errorNumber: int
    var errorString: string
    var abort: bool

    function State(): Status
      reads this
    {
      Status(errorNumber, errorString, abort)
    }

    ghost predicate Valid()
      reads this
    {
      Consistent(State())
    }

    /** The statics as the program starts: no error, an empty message, not aborted. */
    constructor ()
      ensures State() == Initial && Valid()
    {
      errorNumber := 0;
      errorString := "";
      abort := false;
    }

    method SetAbort(value: bool)
      modifies this
      ensures State() == Step(old(State()), DpRtSpec.SetAbort(value))
      ensures abort == value
      ensures old(Valid()) ==> Valid()
    {
      abort := value;
    }

    method GetAbort() returns (value: bool)
      ensures value == abort
    {
      value := abort;
    }

    method GetErrorNumber() returns (number: int)
      ensures number == errorNumber
    {
      number := errorNumber;
    }

    /** Returns a copy of the error string; the caller's buffer is modelled as the result. */
    method GetErrorString() returns (message: string)
      ensures message == errorString
    {
      message := errorString;
    }

    /**
     * Allocates the output name for `input` when the allocation succeeds,
     * and copies the input into it with its terminating NUL.
     */
    static method CopyName(input: string, allocOk: bool) returns (buffer: array?<char>)
      ensures Holds(buffer, if allocOk then Some(input) else None)
      ensures buffer != null ==> fresh(buffer)
    {
      if !allocOk {
        return null;
      }
      buffer := new char[|input| + 1];
      forall i | 0 <= i < |input| {
        buffer[i] := input[i];
      }
      buffer[|input|] := NUL;
    }

    method CalibrateReduce(inputFilename: string, concurrentSetAbort: Option<bool>, allocOk: bool)
      returns (ok: bool, outputFilename: array?<char>, meanCounts: real, peakCounts: real)
      modifies this
      ensures var o := Calibrate(inputFilename, concurrentSetAbort, allocOk);
        ok == o.ok && State() == o.status &&
        Holds(outputFilename, o.result.outputFilename) &&
        meanCounts == o.result.meanCounts && peakCounts == o.result.peakCounts
      ensures State() == Step(old(State()), DpRtSpec.CalibrateReduce(inputFilename, concurrentSetAbort, allocOk))
      ensures outputFilename != null ==> fresh(outputFilename)
      ensures Valid()
    {
      errorNumber := 0;
      errorString := "";
      SetAbort(false);
      if concurrentSetAbort.Some? {
        // another thread's DpRt_Set_Abort between the reset and the checkpoint
        SetAbort(concurrentSetAbort.value);
      }
      var aborted := GetAbort();
      if aborted {
        meanCounts, peakCounts, outputFilename := 0.0, 0.0, null;
        errorNumber := Code(CalibrateAborted);
        errorString := ErrorMessage(CalibrateAborted, inputFilename);
        return false, outputFilename, meanCounts, peakCounts;
      }
      meanCounts, peakCounts := 1.0, 2.0;
      outputFilename := CopyName(inputFilename, allocOk);
      if outputFilename == null {
        meanCounts, peakCounts, outputFilename := 0.0, 0.0, null;
        errorNumber := Code(CalibrateAllocFailed);
        errorString := ErrorMessage(CalibrateAllocFailed, inputFilename);
        return false, outputFilename, meanCounts, peakCounts;
      }
      ok := true;
    }

    method ExposeReduce(inputFilename: string, concurrentSetAbort: Option<bool>, allocOk: bool)
      returns (ok: bool, outputFilename: array?<char>, seeing: real, counts: real, xPix: real, yPix: real)
      modifies this
      ensures var o := Expose(inputFilename, concurrentSetAbort, allocOk);
        ok == o.ok && State() == o.status &&
        Holds(outputFilename, o.result.outputFilename) &&
        seeing == o.result.seeing && counts == o.result.counts &&
        xPix == o.result.xPix && yPix == o.result.yPix
      ensures State() == Step(old(State()), DpRtSpec.ExposeReduce(inputFilename, concurrentSetAbort, allocOk))
      ensures outputFilename != null ==> fresh(outputFilename)
      ensures Valid()
    {
      errorNumber := 0;
      errorString := "";
      SetAbort(false);
      if concurrentSetAbort.Some? {
        SetAbort(concurrentSetAbort.value);
      }
      var aborted := GetAbort();
      if aborted {
        outputFilename, seeing, counts, xPix, yPix := null, 0.0, 0.0, 0.0, 0.0;
        errorNumber := Code(ExposeAborted);
        errorString := ErrorMessage(ExposeAborted, inputFilename);
        return false, outputFilename, seeing, counts, xPix, yPix;
      }
      seeing, counts, xPix, yPix := 1.0, 2.0, 3.0, 4.0;
      outputFilename := CopyName(inputFilename, allocOk);
      if outputFilename == null {
        outputFilename, seeing, counts, xPix, yPix := null, 0.0, 0.0, 0.0, 0.0;
        errorNumber := Code(ExposeAllocFailed);
        errorString := ErrorMessage(ExposeAllocFailed, inputFilename);
        return false, outputFilename, seeing, counts, xPix, yPix;
      }
      ok := true;
    }
  }
}
