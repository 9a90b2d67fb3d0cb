/**
 * The PathSeries time series of OpenSees: a load factor given by a sampled path, its
 * construction from an in-memory vector, its copy, its peak factor, and the sendSelf /
 * recvSelf protocol that moves it through a Channel without re-sending the path to a
 * datastore that already holds it.
 */
module TimeSeries {
  import opened Wrappers
  import opened Vectors
  import opened Channels
  import opened Interpolation

  /** The C++ conversion of a double to an int, which truncates toward zero. */
  function TruncToInt(x: real): (n: int)
    ensures x >= 0.0 ==> 0 <= n && n as real <= x < n as real + 1.0
    ensures x < 0.0 ==> n <= 0 && n as real - 1.0 < x <= n as real
  {
    if x >= 0.0 then x.Floor else -((-x).Floor)
  }

  /** An int stored in a header slot as a double comes back unchanged. */
  lemma TruncOfInt(n: int)
    ensures TruncToInt(n as real) == n
  {
    if n < 0 {
      assert -(n as real) == (-n) as real;
    }
  }

  /** How a bool is stored in a header slot: 1 for true, 0 for false. */
  function FlagOf(b: bool): (r: real)
    ensures (r == 1.0) == b
  {
    if b then 1.0 else 0.0
  }

  class PathSeries {
    /** The TimeSeries tag, passed on to copies. */
    const tag: int
    /** The database tag of the series itself, under which its header travels. */
    var dbTag: int
    /** The samples; null when the series holds no path. */
    var thePath: array?<real>
    var pathTimeIncr: real
    var cFactor: real
    /** The database tag the path travels under; 0 until one is allocated. */
    var otherDbTag: int
    /** The commit tag of the first send to a datastore; -1 until there has been one. */
    var lastSendCommitTag: int
    var useLast: bool
    var startTime: real

    /** A held path is never empty. */
    ghost predicate Valid()
      reads this
    {
      thePath != null ==> thePath.Length > 0
    }

    /** The samples held, if any. */
    function Path(): Option<seq<real>>
      reads this, thePath
    {
      if thePath == null then None else Some(thePath[..])
    }

    /** The fields that evaluation reads, as one value. */
    function View(): Series
      reads this, thePath
    {
      Series(Path(), pathTimeIncr, cFactor, useLast, startTime)
    }

    /** The default constructor, used before recvSelf fills the series in. */
    constructor Default()
      ensures Valid()
      ensures tag == 0 && dbTag == 0 && thePath == null
      ensures pathTimeIncr == 0.0 && cFactor == 0.0
      ensures otherDbTag == 0 && lastSendCommitTag == -1
    {
      tag := 0;
      dbTag := 0;
      thePath := null;
      pathTimeIncr := 0.0;
      cFactor := 0.0;
      otherDbTag := 0;
      lastSendCommitTag := -1;
    }

    /**
     * Construction from an in-memory vector: the path is a copy of `theLoadPath`, with a zero
     * placed in front when `prependZero` is set. A path of size 0 is dropped, leaving none.
     */
    constructor (tag: int, theLoadPath: seq<real>, theTimeIncr: real, theFactor: real,
                 last: bool, prependZero: bool, tStart: real)
      ensures Valid()
      ensures this.tag == tag && dbTag == 0
      ensures pathTimeIncr == theTimeIncr && cFactor == theFactor
      ensures useLast == last && startTime == tStart
      ensures otherDbTag == 0 && lastSendCommitTag == -1
      ensures thePath != null ==> fresh(thePath)
      ensures !prependZero ==> (thePath == null <==> |theLoadPath| == 0)
      ensures !prependZero && thePath != null ==> thePath[..] == theLoadPath
      ensures prependZero ==> thePath != null && thePath.Length == |theLoadPath| + 1
      ensures prependZero ==> thePath[0] == 0.0 && thePath[1..] == theLoadPath
    {
      var buffer: array<real>;
      if !prependZero {
        buffer := new real[|theLoadPath|](_ => 0.0);
        Assemble(buffer, theLoadPath, 0);
        assert buffer[..] == buffer[0..|theLoadPath|];
      } else {
        buffer := new real[1 + |theLoadPath|](_ => 0.0);
        Assemble(buffer, theLoadPath, 1);
        assert buffer[0] == buffer[..1][0];
        assert buffer[1..] == buffer[1..1 + |theLoadPath|];
      }
      this.tag := tag;
      dbTag := 0;
      thePath := if buffer.Length == 0 then null else buffer;
      pathTimeIncr := theTimeIncr;
      cFactor := theFactor;
      otherDbTag := 0;
      lastSendCommitTag := -1;
      useLast := last;
      startTime := tStart;
    }

    /** getCopy: a new series with the same tag, scalars and a copy of the path. */
    method GetCopy() returns (copy: PathSeries)
      requires Valid() && thePath != null
      ensures fresh(copy) && fresh(copy.thePath)
      ensures copy.Valid() && copy.tag == tag && copy.View() == View()
      ensures copy.otherDbTag == 0 && copy.lastSendCommitTag == -1
    {
      copy := new PathSeries(tag, thePath[..], pathTimeIncr, cFactor, useLast, false, startTime);
    }

    /**
     * getPeakFactor: the largest absolute sample, scaled. The result is the scaled
     * absolute value of a sample that no other sample exceeds in absolute value.
     */
    method GetPeakFactor() returns (r: real)
      requires Valid()
      ensures thePath == null ==> r == 0.0
      ensures thePath != null ==>
                exists k :: 0 <= k < thePath.Length && r == Abs(thePath[k]) * cFactor
                            && forall i :: 0 <= i < thePath.Length ==> Abs(thePath[i]) <= Abs(thePath[k])
    {
      if thePath == null {
        return 0.0;
      }
      var peak := Abs(thePath[0]);
      ghost var at := 0;
      var num := thePath.Length;
      var i := 1;
      while i < num
        invariant 1 <= i <= num
        invariant 0 <= at < i && peak == Abs(thePath[at])
        invariant forall j :: 0 <= j < i ==> Abs(thePath[j]) <= peak
      {
        var temp := Abs(thePath[i]);
        if temp > peak {
          peak := temp;
          at := i;
        }
        i := i + 1;
      }
      r := peak * cFactor;
    }

    /**
     * The seven-slot header sendSelf writes: cFactor, pathTimeIncr, the path size (-1 when
     * there is no path), the path's database tag (0 when there is no path),
     * lastSendCommitTag, useLast as 1 or 0, startTime.
     */
    function Header(): (h: seq<real>)
      reads this
    {
      [cFactor, pathTimeIncr,
       if thePath == null then -1.0 else thePath.Length as real,
       if thePath == null then 0.0 else otherDbTag as real,
       lastSendCommitTag as real, FlagOf(useLast), startTime]
    }

    /**
     * Whether sendSelf follows the header with the path: there is a path, and either
     * lastSendCommitTag equals this send's commit tag or the channel is not a datastore.
     */
    predicate PayloadDue(commitTag: int, toDatastore: bool)
      reads this
    {
      thePath != null && (lastSendCommitTag == commitTag || !toDatastore)
    }

    /**
     * sendSelf. The path's database tag is allocated on the first send of a held path and
     * kept; lastSendCommitTag records the commit tag of the first send to a datastore and is
     * kept. The header is written first; if that fails nothing else is written. The path
     * follows when PayloadDue holds. The result is 0 when every write succeeded.
     */
    method SendSelf(commitTag: int, theChannel: Channel) returns (result: int)
      requires Valid() && theChannel.Valid()
      modifies this`otherDbTag, this`lastSendCommitTag, theChannel`nextDbTag, theChannel`log
      ensures Valid() && theChannel.Valid()
      ensures otherDbTag == if thePath != null && old(otherDbTag) == 0 then old(theChannel.nextDbTag)
                            else old(otherDbTag)
      ensures thePath != null ==> otherDbTag != 0
      ensures theChannel.nextDbTag == if thePath != null && old(otherDbTag) == 0 then old(theChannel.nextDbTag) + 1
                                      else old(theChannel.nextDbTag)
      ensures lastSendCommitTag == if old(lastSendCommitTag) == -1 && theChannel.isDatastore then commitTag
                                   else old(lastSendCommitTag)
      ensures result == 0 || result == -1
      ensures var header := [Write(dbTag, commitTag, Header())];
              var payload := if PayloadDue(commitTag, theChannel.isDatastore)
                             then [Write(otherDbTag, commitTag, thePath[..])] else [];
              && (result == 0 ==> theChannel.log == old(theChannel.log) + header + payload)
              && (result != 0 ==> theChannel.log == old(theChannel.log)
                                  || (payload != [] && theChannel.log == old(theChannel.log) + header))
    {
      var data := [cFactor, pathTimeIncr, -1.0, 0.0, 0.0, 0.0, 0.0];

      if thePath != null {
        var size := thePath.Length;
        data := data[2 := size as real];
        if otherDbTag == 0 {
          otherDbTag := theChannel.GetDbTag();
        }
        data := data[3 := otherDbTag as real];
      }

      if lastSendCommitTag == -1 && theChannel.isDatastore {
        lastSendCommitTag := commitTag;
      }

      data := data[4 := lastSendCommitTag as real][5 := FlagOf(useLast)][6 := startTime];
      assert data == Header();
      ghost var before := theChannel.log;
      ghost var header := [Write(dbTag, commitTag, Header())];
      ghost var payload := if PayloadDue(commitTag, theChannel.isDatastore)
                           then [Write(otherDbTag, commitTag, thePath[..])] else [];
      result := theChannel.SendVector(dbTag, commitTag, data);
      if result < 0 {
        assert theChannel.log == before;
        return;
      }

      if lastSendCommitTag == commitTag || !theChannel.isDatastore {
        if thePath != null {
          result := theChannel.SendVector(otherDbTag, commitTag, thePath[..]);
          if result < 0 {
            assert theChannel.log == before + header && payload != [];
            return;
          }
          assert theChannel.log == before + header + payload;
        }
      }
      result := 0;
    }

    /** The scalar fields hold what `header` carries, converted back as recvSelf does. */
    ghost predicate HoldsHeader(header: seq<real>)
      requires |header| == 7
      reads this
    {
      && cFactor == header[0]
      && pathTimeIncr == header[1]
      && otherDbTag == TruncToInt(header[3])
      && lastSendCommitTag == TruncToInt(header[4])
      && useLast == (header[5] == 1.0)
      && startTime == header[6]
    }

    /**
     * recvSelf. If the header cannot be read, cFactor falls back to 1 and nothing else
     * changes. Otherwise every scalar is taken from the header; when no path is held yet
     * and the header announces a positive size, a path of that size is allocated and read
     * from (otherDbTag, lastSendCommitTag); a path already held is kept as it is.
     */
    method RecvSelf(commitTag: int, theChannel: Channel) returns (result: int)
      requires Valid()
      modifies this
      ensures Valid() && dbTag == old(dbTag)
      ensures result == 0 || result == -1
      ensures
        || (&& result == -1 && cFactor == 1.0
            && pathTimeIncr == old(pathTimeIncr) && useLast == old(useLast) && startTime == old(startTime)
            && otherDbTag == old(otherDbTag) && lastSendCommitTag == old(lastSendCommitTag)
            && thePath == old(thePath))
        || (var held := Lookup(theChannel.log, dbTag, commitTag);
            && held.Some? && |held.value| == 7 && HoldsHeader(held.value)
            && var size := TruncToInt(held.value[2]);
            if old(thePath) == null && size > 0 then
              && thePath != null && fresh(thePath) && thePath.Length == size
              && (result == 0 ==> Lookup(theChannel.log, otherDbTag, lastSendCommitTag) == Some(thePath[..]))
            else
              thePath == old(thePath) && result == 0)
    {
      var data := new real[7](_ => 0.0);
      result := theChannel.RecvVector(dbTag, commitTag, data);
      if result < 0 {
        cFactor := 1.0;
        return;
      }

      ghost var header := data[..];
      assert Lookup(theChannel.log, dbTag, commitTag) == Some(header);
      cFactor := data[0];
      pathTimeIncr := data[1];
      var size := TruncToInt(data[2]);
      otherDbTag := TruncToInt(data[3]);
      lastSendCommitTag := TruncToInt(data[4]);
      useLast := data[5] == 1.0;
      startTime := data[6];
      assert HoldsHeader(header);

      if thePath == null && size > 0 {
        var buffer := new real[size](_ => 0.0);
        thePath := buffer;
        result := theChannel.RecvVector(otherDbTag, lastSendCommitTag, buffer);
        if result < 0 {
          return;
        }
      }
      result := 0;
    }
  }
}
