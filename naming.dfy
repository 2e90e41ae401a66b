/**
 * The string conventions of the relay: the composite event name a publish
 * emits under, the key under which the socket manager files a room, and the
 * `room.split('/')[1]` that recovers a channel from such a key at cleanup.
 */
module Naming {
  import opened JsonValues

  /** `channel + ':' + eventName`: the per-channel event a publish emits. */
  function EventName(channel: string, eventName: string): (r: string)
    ensures |r| == |channel| + 1 + |eventName|
    ensures r[..|channel|] == channel && r[|channel|] == ':' && r[|channel| + 1..] == eventName
  {
    channel + ":" + eventName
  }

  /**
   * When the channel part holds no ':', the event name determines both of
   * its parts: two publishes under different (channel, eventName) pairs are
   * told apart by their receivers.
   */
  lemma EventNameInjective(c1: string, e1: string, c2: string, e2: string)
    requires ':' !in c1 && ':' !in c2
    requires EventName(c1, e1) == EventName(c2, e2)
    ensures c1 == c2 && e1 == e2
  {
  }

  /** Without that restriction two different publishes can share one event name. */
  lemma EventNameCollides()
    ensures EventName("a:b", "c") == EventName("a", "b:c")
  {
  }

  /**
   * The socket manager files `join(channel)` of the default namespace under
   * the namespace name (empty) followed by '/' and the channel.
   */
  function RoomKey(channel: string): (r: string)
    ensures |r| == |channel| + 1 && r[0] == '/' && r[1..] == channel
  {
    "/" + channel
  }

  /** The text of `s` before its first '/', or all of `s` when it has none. */
  function UpToSlash(s: string): (r: string)
    ensures |r| <= |s| && r == s[..|r|]
    ensures '/' !in r
    ensures |r| < |s| ==> s[|r|] == '/'
  {
    if s == [] then []
    else if s[0] == '/' then []
    else [s[0]] + UpToSlash(s[1..])
  }

  /** The text after the first '/' of `s`; `None` when `s` holds no '/'. */
  function AfterFirstSlash(s: string): (r: Option<string>)
    ensures r.None? <==> '/' !in s
    ensures r.Some? ==> exists i :: 0 <= i < |s| && s[i] == '/' && '/' !in s[..i] && r.value == s[i + 1..]
  {
    if s == [] then None
    else if s[0] == '/' then Some(s[1..])
    else
      var r := AfterFirstSlash(s[1..]);
      if r.Some? then
        ghost var i :| 0 <= i < |s[1..]| && s[1..][i] == '/' && '/' !in s[1..][..i] && r.value == s[1..][i + 1..];
        assert s[i + 1] == '/' && s[..i + 1] == [s[0]] + s[1..][..i] && r.value == s[i + 2..];
        r
      else
        assert s == [s[0]] + s[1..];
        r
  }

  /**
   * `s.split('/')[1]`: the segment between the first and the second '/'
   * (or the end); `None` (JavaScript's `undefined`) when `s` has no '/'.
   */
  function SecondSegment(s: string): (r: Option<string>)
    ensures r.None? <==> '/' !in s
    ensures r.Some? ==> exists i :: SegmentAt(s, i, r.value)
  {
    match AfterFirstSlash(s)
    case None => None
    case Some(rest) =>
      var seg := UpToSlash(rest);
      ghost var i :| 0 <= i < |s| && s[i] == '/' && '/' !in s[..i] && rest == s[i + 1..];
      assert s[i + 1..i + 1 + |seg|] == seg;
      assert SegmentAt(s, i, seg);
      Some(seg)
  }

  /**
   * `seg` is the segment of `s` that starts right after its first '/', at
   * index `i`, and runs up to the next '/' or the end of `s`.
   */
  ghost predicate SegmentAt(s: string, i: int, seg: string) {
    && 0 <= i < |s| && s[i] == '/' && '/' !in s[..i]
    && i + 1 + |seg| <= |s| && s[i + 1..i + 1 + |seg|] == seg && '/' !in seg
    && (i + 1 + |seg| == |s| || s[i + 1 + |seg|] == '/')
  }

  /**
   * The name the deferred cleanup looks up in `listening` for a room key.
   * An `undefined` segment is used as a property name, which JavaScript
   * spells "undefined".
   */
  function CleanupChannel(room: string): (r: string)
    ensures '/' !in room ==> r == "undefined"
    ensures '/' in room ==> SecondSegment(room) == Some(r) && '/' !in r
  {
    match SecondSegment(room)
    case Some(c) => c
    case None => "undefined"
  }

  /**
   * Cleanup of the room filed for `channel` looks up the part of the
   * channel name before its first '/': the channel itself when it holds no
   * '/', and a shorter, different name otherwise.
   */
  lemma CleanupChannelOfRoomKey(channel: string)
    ensures CleanupChannel(RoomKey(channel)) == UpToSlash(channel)
    ensures CleanupChannel(RoomKey(channel)) == channel <==> '/' !in channel
  {
  }

  /** The leading slash is removed: the room of "orders" is cleaned up as "orders". */
  lemma CleanupOfOrders()
    ensures CleanupChannel("/orders") == "orders"
  {
  }

  /** A channel named "a/b" is cleaned up as "a". */
  lemma CleanupOfNestedName()
    ensures CleanupChannel(RoomKey("a/b")) == "a"
  {
  }
}
