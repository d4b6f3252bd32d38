/** The in-memory private-key session (frontend/lib/store/privateKeyStore.ts). */
module PrivateKeyStore {
  import opened Wrappers
  import opened Seqs

  /**
   * `[...new Set(xs)]` continued from the already collected `acc`: each
   * element of `xs` is appended the first time it is seen.
   */
  function DedupFrom(xs: seq<string>, acc: seq<string>): (r: seq<string>)
    requires Distinct(acc)
    ensures Distinct(r)
    ensures acc <= r
    ensures forall u :: u in r <==> u in acc || u in xs
    decreases |xs|
  {
    if xs == [] then acc
    else
      var next := if xs[0] in acc then acc else acc + [xs[0]];
      assert Distinct(next);
      DedupFrom(xs[1..], next)
  }

  /** `[...new Set([...current, ...ids])]`. */
  function Union(current: seq<string>, ids: seq<string>): (r: seq<string>)
    ensures Distinct(r)
    ensures forall u :: u in r <==> u in current || u in ids
  {
    DedupFrom(current + ids, [])
  }

  lemma {:induction false} DedupFromAppend(a: seq<string>, b: seq<string>, acc: seq<string>)
    requires Distinct(acc)
    ensures DedupFrom(a + b, acc) == DedupFrom(b, DedupFrom(a, acc))
    decreases |a|
  {
    if a == [] {
      assert a + b == b;
    } else {
      assert (a + b)[0] == a[0] && (a + b)[1..] == a[1..] + b;
      var next := if a[0] in acc then acc else acc + [a[0]];
      DedupFromAppend(a[1..], b, next);
    }
  }

  lemma {:induction false} DedupFromDistinct(a: seq<string>, acc: seq<string>)
    requires Distinct(acc) && Distinct(acc + a)
    ensures DedupFrom(a, acc) == acc + a
    decreases |a|
  {
    if a != [] {
      assert (acc + a)[|acc|] == a[0];
      assert a[0] !in acc by {
        forall i | 0 <= i < |acc| ensures acc[i] != a[0] {
          assert (acc + a)[i] == acc[i];
        }
      }
      assert acc + a == (acc + [a[0]]) + a[1..];
      DedupFromDistinct(a[1..], acc + [a[0]]);
    }
  }

  lemma {:induction false} DedupFromAllSeen(xs: seq<string>, acc: seq<string>)
    requires Distinct(acc)
    requires forall x :: x in xs ==> x in acc
    ensures DedupFrom(xs, acc) == acc
    decreases |xs|
  {
    if xs != [] {
      DedupFromAllSeen(xs[1..], acc);
    }
  }

  /** Unlocking keeps the already unlocked ids first and in their order. */
  lemma UnionKeepsCurrentFirst(current: seq<string>, ids: seq<string>)
    requires Distinct(current)
    ensures current <= Union(current, ids)
  {
    assert [] + current == current;
    DedupFromDistinct(current, []);
    DedupFromAppend(current, ids, []);
  }

  /** Unlocking the same ids again changes nothing. */
  lemma UnionIdempotent(current: seq<string>, ids: seq<string>)
    ensures Union(Union(current, ids), ids) == Union(current, ids)
  {
    var u := Union(current, ids);
    assert [] + u == u;
    DedupFromDistinct(u, []);
    DedupFromAppend(u, ids, []);
    DedupFromAllSeen(ids, u);
  }

  class PrivateKeyStore {
    var activeKey: Option<string>
    var unlockedVoiceIds: seq<string>
    var unlockedCount: int

    /** The count mirrors the list, which never repeats an id. */
    ghost predicate Valid()
      reads this
    {
      unlockedCount == |unlockedVoiceIds| && Distinct(unlockedVoiceIds)
    }

    constructor ()
      ensures Valid()
      ensures activeKey == None && unlockedVoiceIds == [] && unlockedCount == 0
    {
      activeKey := None;
      unlockedVoiceIds := [];
      unlockedCount := 0;
    }

    method SetActiveKey(key: Option<string>)
      modifies this
      ensures activeKey == key
      ensures unlockedVoiceIds == old(unlockedVoiceIds) && unlockedCount == old(unlockedCount)
    {
      activeKey := key;
    }

    method AddUnlockedVoices(voiceIds: seq<string>)
      modifies this
      ensures Valid()
      ensures unlockedVoiceIds == Union(old(unlockedVoiceIds), voiceIds)
      ensures activeKey == old(activeKey)
    {
      unlockedVoiceIds := Union(unlockedVoiceIds, voiceIds);
      unlockedCount := |unlockedVoiceIds|;
    }

    method ClearSession()
      modifies this
      ensures Valid()
      ensures activeKey == None && unlockedVoiceIds == [] && unlockedCount == 0
    {
      activeKey := None;
      unlockedVoiceIds := [];
      unlockedCount := 0;
    }

    predicate IsVoiceUnlocked(voiceId: string): (b: bool)
      reads this
      ensures b <==> exists i :: 0 <= i < |unlockedVoiceIds| && unlockedVoiceIds[i] == voiceId
    {
      voiceId in unlockedVoiceIds
    }
  }

  /** A voice is unlocked after `addUnlockedVoices(ids)` iff it was before or is in `ids`. */
  lemma UnlockedAfterAdd(current: seq<string>, ids: seq<string>, v: string)
    ensures v in Union(current, ids) <==> v in current || v in ids
    ensures |Union(current, ids)| <= |current| + |ids|
  {
    DedupLength(current + ids, []);
  }

  lemma {:induction false} DedupLength(xs: seq<string>, acc: seq<string>)
    requires Distinct(acc)
    ensures |DedupFrom(xs, acc)| <= |acc| + |xs|
    decreases |xs|
  {
    if xs != [] {
      var next := if xs[0] in acc then acc else acc + [xs[0]];
      DedupLength(xs[1..], next);
    }
  }
}
