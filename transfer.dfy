/**
 * The transfer protocol of a PathSeries as a whole: a send followed by a receive into a
 * fresh series, and repeated sends to a datastore or to a transient channel.
 */
module Transfer {
  import opened Wrappers
  import opened Channels
  import opened TimeSeries

  /**
   * A series that holds a path and was never sent to a datastore, sent to one and received
   * into a default-constructed series with the same database tag, arrives whole: the
   * receiver evaluates exactly as the sender does and carries the same transfer tags. The
   * path's tag must differ from the sender's own tag: when it is still to be allocated, the
   * sender's tag must be one the datastore handed out earlier; when an earlier send to a
   * transient channel allocated it, the two must already differ.
   */
  method SendThenReceive(p: PathSeries, commitTag: int, theChannel: Channel)
    returns (q: PathSeries, sent: int, received: int)
    requires p.Valid() && theChannel.Valid() && theChannel.isDatastore
    requires p.thePath != null && p.lastSendCommitTag == -1
    requires if p.otherDbTag == 0 then p.dbTag < theChannel.nextDbTag else p.dbTag != p.otherDbTag
    modifies p`otherDbTag, p`lastSendCommitTag, theChannel`nextDbTag, theChannel`log
    ensures fresh(q) && q.Valid() && q.dbTag == p.dbTag
    ensures sent == 0 && received == 0 ==>
              && q.View() == p.View()
              && q.otherDbTag == p.otherDbTag
              && q.lastSendCommitTag == p.lastSendCommitTag == commitTag
  {
    ghost var before := theChannel.log;
    sent := p.SendSelf(commitTag, theChannel);
    q := new PathSeries.Default();
    q.dbTag := p.dbTag;
    if sent != 0 {
      received := q.RecvSelf(commitTag, theChannel);
      return;
    }
    var header := Write(p.dbTag, commitTag, p.Header());
    var payload := Write(p.otherDbTag, commitTag, p.thePath[..]);
    assert theChannel.log == before + [header] + [payload];
    LookupPastOtherKey(before + [header], payload, p.dbTag, commitTag);
    LookupLatest(before, header);
    LookupLatest(before + [header], payload);
    TruncOfInt(p.thePath.Length);
    TruncOfInt(p.otherDbTag);
    TruncOfInt(p.lastSendCommitTag);
    received := q.RecvSelf(commitTag, theChannel);
  }

  /**
   * A series whose path already reached the datastore, at (otherDbTag, lastSendCommitTag),
   * sent again and received into a default-constructed series with the same database tag,
   * also arrives whole. At a new commit tag only the header is written, and the receiver
   * reads the path that the first datastore send left; at the recorded commit tag the path
   * is written again under the same key.
   */
  method ResendThenReceive(p: PathSeries, commitTag: int, theChannel: Channel)
    returns (q: PathSeries, sent: int, received: int)
    requires p.Valid() && theChannel.Valid() && theChannel.isDatastore
    requires p.thePath != null && p.otherDbTag != 0 && p.lastSendCommitTag != -1
    requires p.dbTag != p.otherDbTag
    requires Lookup(theChannel.log, p.otherDbTag, p.lastSendCommitTag) == Some(p.thePath[..])
    modifies p`otherDbTag, p`lastSendCommitTag, theChannel`nextDbTag, theChannel`log
    ensures p.otherDbTag == old(p.otherDbTag) && p.lastSendCommitTag == old(p.lastSendCommitTag)
    ensures fresh(q) && q.Valid() && q.dbTag == p.dbTag
    ensures sent == 0 && received == 0 ==>
              && q.View() == p.View()
              && q.otherDbTag == p.otherDbTag
              && q.lastSendCommitTag == p.lastSendCommitTag
  {
    ghost var before := theChannel.log;
    sent := p.SendSelf(commitTag, theChannel);
    q := new PathSeries.Default();
    q.dbTag := p.dbTag;
    if sent != 0 {
      received := q.RecvSelf(commitTag, theChannel);
      return;
    }
    var header := Write(p.dbTag, commitTag, p.Header());
    LookupLatest(before, header);
    if commitTag == p.lastSendCommitTag {
      var payload := Write(p.otherDbTag, commitTag, p.thePath[..]);
      assert theChannel.log == before + [header] + [payload];
      LookupPastOtherKey(before + [header], payload, p.dbTag, commitTag);
      LookupLatest(before + [header], payload);
    } else {
      assert theChannel.log == before + [header];
      LookupPastOtherKey(before, header, p.otherDbTag, p.lastSendCommitTag);
    }
    TruncOfInt(p.thePath.Length);
    TruncOfInt(p.otherDbTag);
    TruncOfInt(p.lastSendCommitTag);
    received := q.RecvSelf(commitTag, theChannel);
  }

  /**
   * lastSendCommitTag is recorded before the header is written. When the header of the
   * first datastore send is lost, the series still counts as sent at that commit tag, so a
   * later send at another commit tag writes the header only, and the path never reaches
   * the key (otherDbTag, lastSendCommitTag) a receiver reads it from.
   */
  method FirstHeaderLost(p: PathSeries, first: int, second: int, theChannel: Channel)
    returns (r1: int, r2: int, ghost afterFirst: seq<Write>)
    requires p.Valid() && theChannel.Valid() && theChannel.isDatastore
    requires p.thePath != null && p.otherDbTag == 0 && p.lastSendCommitTag == -1
    requires first != -1 && first != second
    requires Lookup(theChannel.log, theChannel.nextDbTag, first).None?
    modifies p`otherDbTag, p`lastSendCommitTag, theChannel`nextDbTag, theChannel`log
    ensures p.otherDbTag == old(theChannel.nextDbTag) && p.lastSendCommitTag == first
    ensures r1 != 0 && afterFirst == old(theChannel.log) ==>
              && theChannel.log == afterFirst + (if r2 == 0 then [Write(p.dbTag, second, p.Header())] else [])
              && Lookup(theChannel.log, p.otherDbTag, p.lastSendCommitTag).None?
  {
    r1 := p.SendSelf(first, theChannel);
    afterFirst := theChannel.log;
    r2 := p.SendSelf(second, theChannel);
    if r1 != 0 && afterFirst == old(theChannel.log) && r2 == 0 {
      LookupPastOtherKey(afterFirst, Write(p.dbTag, second, p.Header()), p.otherDbTag, first);
    }
  }

  /**
   * Two sends of a series that holds a path to the same datastore at different commit
   * tags: the path's tag is allocated once, lastSendCommitTag keeps the first commit tag,
   * and the path is written once; the second send writes its header only.
   */
  method SendTwiceToDatastore(p: PathSeries, first: int, second: int, theChannel: Channel)
    returns (r1: int, r2: int)
    requires p.Valid() && theChannel.Valid() && theChannel.isDatastore
    requires p.thePath != null && p.lastSendCommitTag == -1
    requires first != -1 && first != second
    modifies p`otherDbTag, p`lastSendCommitTag, theChannel`nextDbTag, theChannel`log
    ensures p.lastSendCommitTag == first
    ensures theChannel.nextDbTag <= old(theChannel.nextDbTag) + 1
    ensures r1 == 0 && r2 == 0 ==>
              theChannel.log == old(theChannel.log)
                                + [Write(p.dbTag, first, p.Header()),
                                   Write(p.otherDbTag, first, p.thePath[..]),
                                   Write(p.dbTag, second, p.Header())]
  {
    r1 := p.SendSelf(first, theChannel);
    ghost var tag := p.otherDbTag;
    r2 := p.SendSelf(second, theChannel);
    assert p.otherDbTag == tag;
  }

  /**
   * Two sends of a series that holds a path to a transient channel: the path follows the
   * header every time, because such a channel keeps nothing between calls.
   */
  method SendTwiceToStream(p: PathSeries, first: int, second: int, theChannel: Channel)
    returns (r1: int, r2: int)
    requires p.Valid() && theChannel.Valid() && !theChannel.isDatastore
    requires p.thePath != null
    modifies p`otherDbTag, p`lastSendCommitTag, theChannel`nextDbTag, theChannel`log
    ensures p.lastSendCommitTag == old(p.lastSendCommitTag)
    ensures r1 == 0 && r2 == 0 ==>
              theChannel.log == old(theChannel.log)
                                + [Write(p.dbTag, first, p.Header()),
                                   Write(p.otherDbTag, first, p.thePath[..]),
                                   Write(p.dbTag, second, p.Header()),
                                   Write(p.otherDbTag, second, p.thePath[..])]
  {
    r1 := p.SendSelf(first, theChannel);
    r2 := p.SendSelf(second, theChannel);
  }
}
