/**
 * The side of an OpenSees Channel that a PathSeries sees. A channel is either a datastore,
 * which keeps every vector written to it under its database tag and commit tag, or a
 * transient channel to another process, which the peer reads under the same tags. It hands
 * out database tags, and every vector transfer may fail, reporting a negative result.
 */
module Channels {
  import opened Wrappers
  import opened Vectors

  /** One vector written through a channel under a database tag and a commit tag. */
  datatype Write = Write(dbTag: int, commitTag: int, data: seq<real>)

  /** The vector most recently written under (dbTag, commitTag), if any was. */
  function Lookup(log: seq<Write>, dbTag: int, commitTag: int): (r: Option<seq<real>>)
    ensures r.None? <==> forall k :: 0 <= k < |log| ==> log[k].dbTag != dbTag || log[k].commitTag != commitTag
    ensures r.Some? ==> exists k :: 0 <= k < |log| && log[k] == Write(dbTag, commitTag, r.value)
                          && forall j :: k < j < |log| ==> log[j].dbTag != dbTag || log[j].commitTag != commitTag
  {
    if log == [] then None
    else
      var w := log[|log| - 1];
      if w.dbTag == dbTag && w.commitTag == commitTag then Some(w.data)
      else Lookup(log[..|log| - 1], dbTag, commitTag)
  }

  /** A write under another key does not change what a key holds. */
  lemma LookupPastOtherKey(log: seq<Write>, w: Write, dbTag: int, commitTag: int)
    requires w.dbTag != dbTag || w.commitTag != commitTag
    ensures Lookup(log + [w], dbTag, commitTag) == Lookup(log, dbTag, commitTag)
  {
    assert (log + [w])[..|log|] == log;
  }

  /** A write under a key is what that key holds afterwards. */
  lemma LookupLatest(log: seq<Write>, w: Write)
    ensures Lookup(log + [w], w.dbTag, w.commitTag) == Some(w.data)
  {
  }

  class Channel {
    /** True for a datastore, false for a channel to another process. */
    const isDatastore: bool
    /** The next database tag getDbTag hands out. */
    var nextDbTag: int
    /** Every vector written so far, oldest first. */
    var log: seq<Write>

    ghost predicate Valid()
      reads this
    {
      nextDbTag > 0
    }

    constructor (isDatastore: bool)
      ensures Valid()
      ensures this.isDatastore == isDatastore && nextDbTag == 1 && log == []
    {
      this.isDatastore := isDatastore;
      nextDbTag := 1;
      log := [];
    }

    /** A positive database tag never handed out before. */
    method GetDbTag() returns (dbTag: int)
      requires Valid()
      modifies this`nextDbTag
      ensures Valid()
      ensures dbTag == old(nextDbTag) && dbTag > 0 && nextDbTag == dbTag + 1
    {
      dbTag := nextDbTag;
      nextDbTag := nextDbTag + 1;
    }

    /** Writes `data` under (dbTag, commitTag); on failure nothing is written. */
    method SendVector(dbTag: int, commitTag: int, data: seq<real>) returns (result: int)
      modifies this`log
      ensures result == 0 || result == -1
      ensures log == if result == 0 then old(log) + [Write(dbTag, commitTag, data)] else old(log)
    {
      var delivered: bool :| true;
      if delivered {
        log := log + [Write(dbTag, commitTag, data)];
        result := 0;
      } else {
        result := -1;
      }
    }

    /**
     * Fills `dst` with the vector held under (dbTag, commitTag). It fails when no vector of
     * the size of `dst` is held there, and may fail in any case; after a failure the contents
     * of `dst` are not known.
     */
    method RecvVector(dbTag: int, commitTag: int, dst: array<real>) returns (result: int)
      modifies dst
      ensures result == 0 || result == -1
      ensures result == 0 ==> Lookup(log, dbTag, commitTag) == Some(dst[..])
    {
      var held := Lookup(log, dbTag, commitTag);
      var delivered: bool :| true;
      if delivered && held.Some? && |held.value| == dst.Length {
        Assemble(dst, held.value, 0);
        assert dst[..] == dst[0..|held.value|];
        result := 0;
      } else {
        result := -1;
      }
    }
  }
}
