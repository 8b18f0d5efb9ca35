/** The photo operations as the service writes them: in-place changes of one account's row and store. */
module PhotoService {
  import opened Wrappers
  import opened ProfilePhoto

  /** The bytes of all chunks, in order. */
  function Joined(chunks: seq<seq<int>>): (data: seq<int>) {
    if chunks == [] then [] else Joined(chunks[..|chunks| - 1]) + chunks[|chunks| - 1]
  }

  lemma {:induction false} JoinedPrefixIsShorter(chunks: seq<seq<int>>, k: nat)
    requires k <= |chunks|
    ensures |Joined(chunks[..k])| <= |Joined(chunks)|
    decreases |chunks|
  {
    if k < |chunks| {
      assert chunks[..|chunks| - 1][..k] == chunks[..k];
      JoinedPrefixIsShorter(chunks[..|chunks| - 1], k);
    } else {
      assert chunks[..k] == chunks;
    }
  }

  /** Every byte of a chunk comes after all bytes of the chunks before it, in its place. */
  lemma {:induction false} JoinedInOrder(chunks: seq<seq<int>>, k: nat, j: nat)
    requires k < |chunks| && j < |chunks[k]|
    ensures |Joined(chunks[..k])| + j < |Joined(chunks)| && Joined(chunks)[|Joined(chunks[..k])| + j] == chunks[k][j]
    decreases |chunks|
  {
    var n := |chunks| - 1;
    if k < n {
      assert chunks[..n][..k] == chunks[..k];
      JoinedInOrder(chunks[..n], k, j);
    }
  }

  /** Reads a body chunk by chunk; rejects it exactly when it is longer than the limit. */
  method Collect(chunks: seq<seq<int>>) returns (data: Option<seq<int>>)
    ensures data == if |Joined(chunks)| <= 8_388_608 then Some(Joined(chunks)) else None
  {
    var buffer := [];
    for i := 0 to |chunks|
      invariant buffer == Joined(chunks[..i]) && |buffer| <= MAX_UPLOAD_BYTES
    {
      assert chunks[..i + 1][..i] == chunks[..i];
      if |buffer| + |chunks[i]| > MAX_UPLOAD_BYTES {
        JoinedPrefixIsShorter(chunks, i + 1);
        return None;
      }
      buffer := buffer + chunks[i];
    }
    assert chunks[..|chunks|] == chunks;
    return Some(buffer);
  }

  /** An upload alone, up to and including the call to the store. */
  lemma UpToStore(s: State, storage: string, put: Fate)
    requires s.active && s.callers == [Uploading(storage)]
    ensures var own := Reference(|s.made|, storage);
            Step(Step(Step(s, Look(0, true)), Draw(0)), Store(0, put)) ==
            s.(made := s.made + [own], store := if put.FailedUndone? then s.store else s.store + {own},
               callers := [if put.Fine? then Put(s.row, own) else Cleaning(storage, Some(own))])
  {
    assert Step(s, Look(0, true)).callers == [Looked(storage, s.row)];
    var own := Reference(|s.made|, storage);
    assert Step(Step(s, Look(0, true)), Draw(0)) == s.(made := s.made + [own], callers := [Drawn(s.row, own)]);
  }

  class Account {
    var active: bool
    var row: Snapshot
    var store: set<Reference>
    var made: seq<Reference>

    constructor (url: Url)
      requires !url.Version?
      ensures active && row == Snapshot(url, None) && store == {} && made == []
    {
      active, row, store, made := true, Snapshot(url, None), {}, [];
    }

    /** This account with one operation about to begin. */
    function With(p: Caller): State
      reads this
    {
      State(active, row, store, made, [p])
    }

    /** None is a persistence error. */
    method Swap(expected: Url, to: Snapshot, fate: Fate) returns (changed: Option<bool>)
      modifies this`row
      ensures row == if active && old(row).url == expected && !fate.FailedUndone? then to else old(row)
      ensures changed == if fate.Fine? then Some(active && old(row).url == expected) else None
    {
      var matches := active && row.url == expected;
      if matches && !fate.FailedUndone? {
        row := to;
      }
      return if fate.Fine? then Some(matches) else None;
    }

    method Cleanup(storage: string, target: Option<Reference>, fate: Fate)
      modifies this`store
      ensures store == if target.Some? && target.value.storage == storage && !fate.FailedUndone?
                       then old(store) - {target.value} else old(store)
    {
      if target.None? || target.value.storage != storage {
        return;
      }
      if !fate.FailedUndone? {
        store := store - {target.value};
      }
    }

    method Compensate(own: Reference, readable: bool, fate: Fate)
      modifies this`store
      ensures store == if readable && !(active && row.reference == Some(own)) && !fate.FailedUndone?
                       then old(store) - {own} else old(store)
    {
      if !readable || (active && row.reference == Some(own)) {
        return;
      }
      Cleanup(own.storage, Some(own), fate);
    }

    /** From the swap on; the row may have moved since `previous` was read. */
    method Settle(previous: Snapshot, own: Reference, swap: Fate, readable: bool, clean: Fate) returns (uploaded: bool)
      modifies this`row, this`store
      ensures var t := Settled(old(With(Put(previous, own))), 0, swap, readable, clean);
              row == t.row && store == t.store && made == t.made
      ensures uploaded <==> swap.Fine? && Matches(old(With(Done)), previous.url)
    {
      var changed := Swap(previous.url, Snapshot(Version(own.version), Some(own)), swap);
      if changed.None? {
        Compensate(own, readable, clean);
        return false;
      }
      if !changed.value {
        Cleanup(own.storage, Some(own), clean);
        return false;
      }
      Cleanup(own.storage, previous.reference, clean);
      return true;
    }

    /** `image` is None for a body that is too large or no picture. */
    method Upload(storage: string, image: Option<seq<int>>, put: Fate, swap: Fate, readable: bool, clean: Fate)
      returns (uploaded: bool)
      modifies this`row, this`store, this`made
      ensures image.None? ==> !uploaded && row == old(row) && store == old(store) && made == old(made)
      ensures image.Some? ==>
                var t := UploadAlone(old(With(Uploading(storage))), 0, put, swap, readable, clean);
                row == t.row && store == t.store && made == t.made
      ensures uploaded <==> active && image.Some? && put.Fine? && swap.Fine?
    {
      if !active {
        return false;
      }
      var previous := row;
      UpToStore(With(Uploading(storage)), storage, put);
      if image.None? {
        return false;
      }
      var own := Reference(|made|, storage);
      made := made + [own];
      if !put.FailedUndone? {
        store := store + {own};
      }
      if !put.Fine? {
        Cleanup(storage, Some(own), clean);
        return false;
      }
      uploaded := Settle(previous, own, swap, readable, clean);
    }

    method Delete(storage: string, swap: Fate, clean: Fate) returns (deleted: bool)
      modifies this`row, this`store
      ensures var t := DeleteAlone(old(With(Deleting(storage))), 0, swap, clean);
              row == t.row && store == t.store && made == t.made
      ensures deleted <==> active && swap.Fine?
    {
      if !active {
        return false;
      }
      var previous := row;
      var changed := Swap(previous.url, Snapshot(NoUrl, None), swap);
      if changed != Some(true) {
        return false;
      }
      Cleanup(storage, previous.reference, clean);
      return true;
    }
  }
}
