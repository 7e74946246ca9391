/**
 Reading a child's output while keeping only its first bytes: `read_capped` of
 crates/agent_mesh/src/executor.rs and `_read_capped_stream` of scripts/agent_node.py.
 */
module Capped {

  type Byte = b: int | 0 <= b < 256

  /** What one read of the stream returns. */
  datatype Event = Data(bytes: seq<Byte>) | Interrupted | Failed

  /** Everything the stream produces before it ends, fails, or returns an empty read. */
  function Total(events: seq<Event>): seq<Byte> {
    if events == [] then []
    else
      match events[0]
      case Data(bytes) => if bytes == [] then [] else bytes + Total(events[1..])
      case Interrupted => Total(events[1..])
      case Failed => []
  }

  function Min(a: nat, b: nat): nat { if a <= b then a else b }

  /** The first `cap` bytes, and whether there were more. */
  function Kept(total: seq<Byte>, cap: nat): seq<Byte> { total[..Min(cap, |total|)] }

  /** However the stream is cut into reads, the result is the capped prefix of all it produced. */
  method ReadCapped(events: seq<Event>, cap: nat) returns (kept: seq<Byte>, truncated: bool)
    ensures kept == Kept(Total(events), cap)
    ensures truncated <==> |Total(events)| > cap
  {
    kept, truncated := [], false;
    ghost var seen: seq<Byte> := [];
    var i := 0;
    while i < |events|
      invariant 0 <= i <= |events|
      invariant Total(events) == seen + Total(events[i..])
      invariant kept == Kept(seen, cap)
      invariant truncated <==> |seen| > cap
    {
      assert events[i..][1..] == events[i + 1..];
      match events[i] {
      case Data(bytes) =>
        if bytes == [] {
          assert Total(events) == seen;
          return;
        }
        var room := if cap >= |kept| then cap - |kept| else 0;
        if |bytes| <= room {
          kept := kept + bytes;
        } else {
          kept := kept + bytes[..room];
          truncated := true;
        }
        seen := seen + bytes;
      case Interrupted =>
      case Failed =>
        assert Total(events) == seen;
        return;
      }
      i := i + 1;
    }
    assert Total(events) == seen;
  }

  /** The Python reader has no interrupted reads, keeps a signed room, and may be given a negative cap. */
  method ReadCappedStream(chunks: seq<seq<Byte>>, cap: int) returns (kept: seq<Byte>, truncated: bool)
    ensures var total := Total(Events(chunks));
      && kept == Kept(total, if cap < 0 then 0 else cap)
      && (truncated <==> |total| > cap && total != [])
  {
    kept, truncated := [], false;
    ghost var seen: seq<Byte> := [];
    var i := 0;
    while i < |chunks|
      invariant 0 <= i <= |chunks|
      invariant Total(Events(chunks)) == seen + Total(Events(chunks[i..]))
      invariant kept == Kept(seen, if cap < 0 then 0 else cap)
      invariant truncated <==> |seen| > cap && seen != []
    {
      var chunk := chunks[i];
      assert Events(chunks[i..])[1..] == Events(chunks[i + 1..]);
      if chunk == [] {
        assert Total(Events(chunks)) == seen;
        return;
      }
      var room := cap - |kept|;
      if |chunk| <= room {
        kept := kept + chunk;
      } else {
        if room > 0 {
          kept := kept + chunk[..room];
        }
        truncated := true;
      }
      seen := seen + chunk;
      i := i + 1;
    }
    assert Total(Events(chunks)) == seen;
  }

  function Events(chunks: seq<seq<Byte>>): seq<Event> {
    seq(|chunks|, i requires 0 <= i < |chunks| => Data(chunks[i]))
  }
}
