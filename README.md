# libdprt: the real-time data reduction pipeline entry points

This project models `c/dprt.c`, the entry point of the real-time data
reduction pipeline library (revision 0.3). The library keeps three
process-wide statics:

- the error number, which is 0 when there is no error;
- the error string, which is empty when there is no error;
- the abort flag, which another thread sets to ask a running reduction to stop.

It offers two reduce routines. `DpRt_Calibrate_Reduce` yields mean and
peak counts. `DpRt_Expose_Reduce` yields seeing, counts and the brightest
object's x and y pixel. Both routines follow the same protocol:

- reset the error state and clear the abort flag;
- read the abort flag at one checkpoint, and on abort zero every
  out-parameter, set a site-specific error number and return FALSE;
- otherwise write fixed result values and allocate the output name;
- if the allocation fails, zero every out-parameter again, set a second
  site-specific error number and return FALSE;
- otherwise copy the input filename into the output name and return TRUE.

Accessors set the abort flag and read the flag, the error number and the
error string.

In this revision the routines are stubs: they read no image and compute no
statistics. Each success value is a constant (mean 1.0 and peak 2.0;
seeing 1.0, counts 2.0, x 3.0 and y 4.0). The model follows the code as
written. Image loading, statistics, configuration lookup and seeing
simulation are not in this file. The error messages keep the source's
text, including the calibration routine's allocation message, which names
`DpRt_Reduce` rather than `DpRt_Calibrate_Reduce`.

Two modules:

- `DpRtSpec` (`dprt_spec.dfy`) models the statics as a value `Status`.
  `Calibrate` and `Expose` give each routine's outcome as a function of
  three things: the input filename, what the abort checkpoint reads, and
  whether the allocation succeeds. `Step` and `Run` apply a sequence of
  library calls to the status. The lemmas about call sequences state the
  invariants the statics keep.
- `DpRt` (`dprt.dfy`) holds the class `Library`. Its fields are the three
  statics, and its methods follow the C routines statement by statement.
  Each method's postcondition ties its results and the new fields to
  `DpRtSpec`.

Nondeterminism comes in as parameters:

- `concurrentSetAbort` is the value, if any, that another thread stored with
  `DpRt_Set_Abort` after the routine cleared the flag and before the
  checkpoint. `None` is a purely sequential run, where the abort branch
  cannot be taken.
- `allocOk` is the outcome of `malloc`.

## Model

| member | source | states |
|---|---|---|
| `DpRtSpec.SiteOf` | c/dprt.c:22-25 | The error numbers are unique per failure site: each of the four codes 1-4 decodes to exactly one site, and no other number decodes to a site. |
| `DpRtSpec.Calibrate` | c/dprt.c:70-115 | TRUE exactly when the error number is 0, and exactly when the error string is empty. TRUE exactly when no abort is seen and the allocation succeeds. On failure, mean = peak = 0 and the output is NULL. On success, mean = 1.0, peak = 2.0 and the output name is the input. A failure's error number decodes to its site: aborted (1) or allocation (2). The abort flag ends as the checkpoint read it. In a sequential run it ends FALSE and the call fails only on allocation failure. |
| `DpRtSpec.Expose` | c/dprt.c:138-189 | The same protocol with seeing, counts, x and y. On failure these are all 0 and the output is NULL. On success they are 1.0, 2.0, 3.0, 4.0 and the output name is the input. The failure sites are aborted (3) and allocation (4). |
| `DpRtSpec.RunKeepsConsistent` | c/dprt.c:203-225 | Every sequence of library calls keeps the statics consistent: the error number is 0 or a defined failure code, and it is 0 exactly when the error string is empty. |
| `DpRtSpec.NonReducesKeepError` | c/dprt.c:198-225 | Setting the abort flag and calling the accessors never changes the error number or the error string. |
| `DpRtSpec.ReadsKeepStatus` | c/dprt.c:209-240 | The three getters have no side effects: any sequence of them leaves all three statics unchanged. |
| `DpRtSpec.LastReduceSetsError` | c/dprt.c:72-74 | Last error wins. After any call sequence, the error number and string are exactly those left by the last reduce call, whatever the state was before it. |
| `DpRtSpec.LastAbortWriteWins` | c/dprt.c:191-201 | The abort flag always holds the last value written to it: by `DpRt_Set_Abort`, or by a reduce call's reset followed by the checkpoint. |
| `DpRt.Library.constructor` | c/dprt.c:25-44 | The statics start as error number 0, an empty error string and the abort flag FALSE, which is a consistent state. |
| `DpRt.Library.SetAbort` | c/dprt.c:198-201 | Stores the value in the abort flag and changes nothing else. |
| `DpRt.Library.GetAbort` | c/dprt.c:237-240 | Returns the stored abort flag. |
| `DpRt.Library.GetErrorNumber` | c/dprt.c:209-212 | Returns the stored error number. |
| `DpRt.Library.GetErrorString` | c/dprt.c:222-225 | Returns a copy of the stored error string. |
| `DpRt.Library.CopyName` | c/dprt.c:98-112 | On a failed allocation the output name is NULL. On success it is a fresh buffer one character longer than the input filename, holding the input filename followed by NUL. |
| `DpRt.Library.CalibrateReduce` | c/dprt.c:70-115 | Resets the error state, clears the abort flag and then reads it at the checkpoint. Its return value, out-parameters and the new statics are those of `Calibrate`. A successful output buffer is fresh. The statics are consistent afterwards, whatever they were before. |
| `DpRt.Library.ExposeReduce` | c/dprt.c:138-189 | The same as `CalibrateReduce`, for the exposure routine and `Expose`. |

## Left out

- The `fprintf(stderr, ...)` diagnostics (c/dprt.c:80, c/dprt.c:149). They are logging only.
- The `volatile` cross-thread abort flag (c/dprt.c:44). Concurrency is not
  modelled. The write of another thread is represented by one value,
  `concurrentSetAbort`, which lands between the reset and the checkpoint.
  Writes after the checkpoint are not modelled.
- `malloc` itself. The model keeps only its success or failure.
- DpRt.Library.SetAbort: the C flag is an `int`, and any non-zero value counts
  as TRUE at the checkpoint. The model keeps only the truth value, as a
  `bool`.
- C string mechanics. Strings are sequences of characters.
- The fixed-size error string buffer (`DPRT_ERROR_STRING_LENGTH`). Its size
  comes from `dprt.h`, which is not part of this model. So an overflow of
  the message written with `sprintf` for a long filename is not modelled.
- DpRt.Library.GetErrorString: the copy goes into the caller's buffer in C. The
  model returns it as a result instead.
- The `double` outputs are modelled as `real`. They are only ever assigned
  the constants 0.0 to 4.0.
- `rcsid` and the revision log.
- Image reading, pixel statistics, configuration lookup and seeing
  simulation. None of it exists in this revision of `c/dprt.c`.
