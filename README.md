# PathSeries: a verified model

OpenSees' `PathSeries` is a time series that gives the load factor of a load pattern as
a function of pseudo-time. It holds a sampled path with a fixed time step `pathTimeIncr`
that starts at `startTime`. It also holds a scale factor `cFactor` and a flag `useLast`
that chooses between zero and the last sample once the path has run out. Between samples
the factor is interpolated linearly.

The series can be sent through a `Channel` and received again. The path travels under
its own database tag (`otherDbTag`), which is allocated once. A datastore keeps what it
was sent. The commit tag of the first send to a datastore is recorded in
`lastSendCommitTag`, and the path goes to a datastore only when `lastSendCommitTag` equals
the send's commit tag. A send at a later commit tag writes the header alone, and a
receiver then reads the path from (`otherDbTag`, `lastSendCommitTag`). A channel to
another process keeps nothing, so the path goes with every send. On receipt the path is
read only if the series does not hold one yet.

`lastSendCommitTag` is recorded before the header is written. If the header of the first
datastore send is lost, the series still counts as sent at that commit tag. Later sends at
other commit tags then write the header alone, and the path never reaches the datastore.

The model has six modules, one file each:

- `Wrappers` (`wrappers.dfy`): the `Option` type that stands for a pointer that may be null.
- `Vectors` (`vectors.dfy`): the two operations of `Vector` that the series uses. These
  are `fabs` of an entry and `Assemble`. `Assemble` adds one vector into another at an
  offset. The series only assembles into a new, zero-filled vector, where adding gives the
  same result as writing, so the model writes. The copy constructor is the same write at
  offset 0.
- `Channels` (`channel.dfy`): an abstract `Channel` class. It has a datastore flag, a
  counter that hands out fresh database tags, and a log of every vector written, each under
  a (database tag, commit tag) key. A key holds the vector written under it most recently.
  Every send and every receive may fail nondeterministically with result -1.
- `Interpolation` (`interpolation.dfy`): `getFactor` and `getDuration` as pure functions of
  a `Series` value. The value collects the fields these two read, with `None` standing for
  a null `thePath`. The lemmas about the two functions are in the same file.
- `TimeSeries` (`path_series.dfy`): the class `PathSeries`, whose fields are the fields of
  the source. The path is an `array?<real>`, and `null` means no path is held. The class
  has the default and the vector constructor (the file constructor is listed under
  "Left out"), `getCopy`, the peak loop, `sendSelf` and `recvSelf`. The C++
  double-to-int cast, which truncates toward zero, is written out as `TruncToInt`.
- `Transfer` (`transfer.dfy`): whole-protocol properties. Two methods send a series and
  receive it into a fresh one: one covers a first send to a datastore, the other a series whose path the
  datastore already holds. One method covers a lost first header. Two others send a series
  twice, once to a datastore and once to a transient channel.

Doubles are mathematical reals, and `floor` is `.Floor`. `getFactor` requires
`pathTimeIncr > 0`. The source divides by this value without checking it.

## Model

| member | source | states |
|---|---|---|
| `Vectors.Abs` | ops/PathSeries.cpp:219-225 | `fabs` of a sample is non-negative and is the sample or its negation |
| `Vectors.Assemble` | ops/PathSeries.cpp:69-73 | assembling a vector into a zero-filled one at an offset puts it at that offset and leaves every other slot as it was |
| `Channels.Lookup` | ops/PathSeries.cpp:326 | what a key holds: nothing iff nothing was written under it, otherwise a vector written under it with no later write under that key |
| `Channels.LookupPastOtherKey` | ops/PathSeries.cpp:264-275 | writing under one key does not change what another key holds |
| `Channels.LookupLatest` | ops/PathSeries.cpp:264-275 | after a write, its key holds the vector just written |
| `Channels.Channel.GetDbTag` | ops/PathSeries.cpp:247 | `getDbTag` hands out a positive tag that was never handed out before |
| `Channels.Channel.SendVector` | ops/PathSeries.cpp:264 | `sendVector` returns 0 and appends the write to the log, or returns -1 and writes nothing |
| `Channels.Channel.RecvVector` | ops/PathSeries.cpp:294 | `recvVector` returns 0 only when the vector held under the key has the buffer's size, and fills the buffer with that vector |
| `Interpolation.Duration` | ops/PathSeries.cpp:199-208 | `getDuration` is 0 when no path is held |
| `Interpolation.DurationAfterLastSample` | ops/PathSeries.cpp:207 | the duration lies one time step after the last sample's time, and so after `startTime` |
| `Interpolation.FactorQuickReturn` | ops/PathSeries.cpp:173-175 | before `startTime`, or when no path is held, the factor is 0 |
| `Interpolation.LowIndexNonNegative` | ops/PathSeries.cpp:174-179 | from `startTime` on, the position `incr` and the floor index `incr1` are non-negative |
| `Interpolation.LowIndexBrackets` | ops/PathSeries.cpp:178-179 | `incr1 <= incr < incr1 + 1` |
| `Interpolation.FactorBeyondEnd` | ops/PathSeries.cpp:185-190 | when `incr1 + 1 > size - 1`, the factor is 0 without `useLast` and `cFactor` times the last sample with it |
| `Interpolation.ScaledBlendBetween` | ops/PathSeries.cpp:195 | a blend `v1 + (v2 - v1) * f` with `0 <= f <= 1`, scaled by any factor, lies between the two scaled samples |
| `Interpolation.FactorInterpolates` | ops/PathSeries.cpp:178-196 | in the interpolation branch both indices are in range, the fraction is in [0, 1), the factor is the scaled blend of the two samples, and it lies between `cFactor*v1` and `cFactor*v2` |
| `Interpolation.PositionInCell` | ops/PathSeries.cpp:178-179 | a time in grid cell `i` has floor index `i` and fraction `(t - (startTime + i*pathTimeIncr)) / pathTimeIncr` |
| `Interpolation.FactorOnSegment` | ops/PathSeries.cpp:178-196 | between grid points `i` and `i + 1` the factor is the scaled straight line through samples `i` and `i + 1` |
| `Interpolation.FactorAtGridPoint` | ops/PathSeries.cpp:178-196 | at grid point `i` with `i < size - 1` the factor is exactly `cFactor * path[i]` |
| `Interpolation.FactorFromLastGridPoint` | ops/PathSeries.cpp:178-190 | from the last grid point on, that point included, the extrapolation policy alone gives the factor |
| `Interpolation.FactorPastDuration` | ops/PathSeries.cpp:170-208 | once `getDuration` has elapsed, the factor is the extrapolation policy's value |
| `Interpolation.MidpointExample` | ops/PathSeries.cpp:192-195 | for samples 0, 2, 4, 2, 0 one unit apart, the factor at 0.5 is 1 |
| `Interpolation.HoldLastExample` | ops/PathSeries.cpp:185-190 | with `useLast` set, a last sample of 4 and a factor of 2, the factor past the path is 8 |
| `TimeSeries.TruncToInt` | ops/PathSeries.cpp:303-305 | the double-to-int cast truncates toward zero: the result is within one unit of `x`, on the zero side |
| `TimeSeries.TruncOfInt` | ops/PathSeries.cpp:303-305 | an int stored in a header slot is read back unchanged |
| `TimeSeries.FlagOf` | ops/PathSeries.cpp:257-260 | `useLast` travels as 1 or 0, and reads back as true exactly when the slot is 1 |
| `TimeSeries.PathSeries.Default` | ops/PathSeries.cpp:49-54 | the default constructor holds no path, zero scalars, `otherDbTag == 0` and `lastSendCommitTag == -1` |
| `TimeSeries.PathSeries.constructor` | ops/PathSeries.cpp:56-84 | without `prependZero` the path equals the input, or no path is held when the input is empty; with it, the path has size n+1, a 0 in front and the input after it; the scalars are as given and the transfer tags are unset |
| `TimeSeries.PathSeries.GetCopy` | ops/PathSeries.cpp:164-168 | the copy is a new series with the same tag and scalars, a fresh copy of the path, and unset transfer tags |
| `TimeSeries.PathSeries.GetPeakFactor` | ops/PathSeries.cpp:210-231 | 0 when no path is held; otherwise `|path[k]| * cFactor` for a sample `k` whose absolute value no other sample exceeds |
| `TimeSeries.PathSeries.SendSelf` | ops/PathSeries.cpp:233-285 | `otherDbTag` is allocated only for a held path and only while it is 0; `lastSendCommitTag` is set only while it is -1 and only for a datastore; the 7-slot header is written first and nothing follows a failed header; the path follows under `otherDbTag` exactly when a path is held and either `lastSendCommitTag` equals this send's commit tag or the channel is not a datastore |
| `TimeSeries.PathSeries.RecvSelf` | ops/PathSeries.cpp:287-335 | a failed header read sets `cFactor` to 1 and changes nothing else; otherwise every scalar is taken from the header; a new path of the announced size is read from (`otherDbTag`, `lastSendCommitTag`) only when none is held and the size is positive; a path already held is kept |
| `Transfer.SendThenReceive` | ops/PathSeries.cpp:233-335 | a series with a path that was never sent to a datastore, sent to one and received into a fresh series, arrives with the same path, scalars and transfer tags, so it evaluates identically |
| `Transfer.ResendThenReceive` | ops/PathSeries.cpp:233-335 | a series whose path the datastore already holds at (`otherDbTag`, `lastSendCommitTag`), sent again at any commit tag and received into a fresh series, arrives with the same path, scalars and transfer tags; the transfer tags are not changed by the send |
| `Transfer.FirstHeaderLost` | ops/PathSeries.cpp:251-282 | when the header of the first datastore send fails, `lastSendCommitTag` is still set to that commit tag, a later send at another commit tag writes the header alone, and nothing is held at the key the path would be read from |
| `Transfer.SendTwiceToDatastore` | ops/PathSeries.cpp:251-282 | two datastore sends at different commit tags allocate at most one tag, keep the first commit tag, and write the path once; the second send writes only its header |
| `Transfer.SendTwiceToStream` | ops/PathSeries.cpp:270-282 | to a channel that is not a datastore, the path follows the header on every send |

## Left out

- The constructor that reads the path from a file (ops/PathSeries.cpp:86-156) is file I/O. Once the numbers are read, its count-then-fill logic is the vector constructor's.
- `Print` and every `opserr` diagnostic are output only.
- The destructor and allocation failure are left out. Every `new` succeeds in the model.
- IEEE double rounding is not modelled. Neither is the overflow of the `floor` → `int` conversion for very large times. Reals and ints are unbounded.
- `Interpolation.Factor` requires `pathTimeIncr > 0`. The source divides by the value unchecked, and a zero or negative step has no meaning.
- `TimeSeries.PathSeries.GetCopy` requires a held path, because the source dereferences a null `thePath` there.
- The `TimeSeries` base class is not part of this model. Its `getTag` becomes the constant field `tag`. Its `getDbTag` / `setDbTag` become the plain field `dbTag`, which callers set directly. The `FEM_ObjectBroker` argument of `recvSelf` is unused and dropped.
- `Channel`, its datastore implementations and `Vector` are not part of this model. The model reduces a channel to a log of keyed writes, and a channel to another process is read by key like a datastore. Its message order is not modelled.
- `Channels.Channel.GetDbTag` always returns a fresh positive tag. What a concrete channel returns is not modelled.
- `Channels.Channel.RecvVector` leaves the buffer's contents unspecified after a failed read. A concrete channel may write part of it.
- `TimeSeries.PathSeries.Default` leaves `useLast` and `startTime` unconstrained, as the source leaves them uninitialised.
- After a failed payload read (ops/PathSeries.cpp:326-331), `recvSelf` keeps the newly allocated array. The series then holds a path of the announced size whose contents that read left behind, and later receives skip the payload. `TimeSeries.PathSeries.RecvSelf` states this.
- Commit tag -1 is also the "never sent to a datastore" sentinel of `lastSendCommitTag`. A first datastore send at commit tag -1 therefore leaves the series looking unsent. `Transfer.SendTwiceToDatastore` requires the first commit tag not to be -1.
- Concurrency is not modelled. A series is driven by one caller at a time.
