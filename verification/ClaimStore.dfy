/** The claim directory as an object: exclusive creation, and pruning by age in one loop. */
module ClaimStore {
  import opened Watch

  class Claims {
    var files: map<Key, nat>

    /** True for exactly one caller per claim file; an existing file is left as it is. */
    method ClaimEvent(key: Key, now: nat) returns (won: bool)
      modifies this
      ensures won == (key !in old(files))
      ensures files == if won then old(files)[key := now] else old(files)
    {
      if key in files {
        return false;
      }
      files := files[key := now];
      return true;
    }

    /** Without interference, a prune removes exactly the files older than thirty days. */
    method Prune(now: nat)
      modifies this
      ensures files == map key | key in old(files) && old(files)[key] + 2_592_000 >= now :: old(files)[key]
    {
      var cutoff: int := now - RETENTION;
      var stale := files.Keys;
      while stale != {}
        invariant stale <= files.Keys <= old(files).Keys
        invariant forall key :: key in files ==> files[key] == old(files)[key] && (key in stale || files[key] >= cutoff)
        invariant forall key :: key in old(files) && old(files)[key] >= cutoff ==> key in files
        decreases |stale|
      {
        var key :| key in stale;
        stale := stale - {key};
        if files[key] < cutoff {
          files := files - {key};
        }
      }
    }

    /** The delivery loop of one pass: what it delivers is what it claimed, and all of it is claimed after. */
    method ClaimAll(events: seq<Key>, now: nat) returns (delivered: seq<Key>)
      modifies this
      ensures forall key :: key in delivered <==> key in events && key !in old(files)
      ensures forall i, j :: 0 <= i < j < |delivered| ==> delivered[i] != delivered[j]
      ensures files.Keys == old(files).Keys + set key | key in events
      ensures forall key :: key in old(files) ==> files[key] == old(files)[key]
    {
      delivered := [];
      for i := 0 to |events|
        invariant files.Keys == old(files).Keys + set key | key in events[..i]
        invariant forall key :: key in old(files) ==> files[key] == old(files)[key]
        invariant forall key :: key in delivered <==> key in events[..i] && key !in old(files)
        invariant forall a, b :: 0 <= a < b < |delivered| ==> delivered[a] != delivered[b]
      {
        assert events[..i + 1] == events[..i] + [events[i]];
        var won := ClaimEvent(events[i], now);
        if won {
          delivered := delivered + [events[i]];
        }
      }
      assert events[..|events|] == events;
    }
  }
}
