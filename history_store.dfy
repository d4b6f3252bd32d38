/** The generation history store (frontend/lib/store/historyStore.ts). */
module HistoryStore {
  import opened Wrappers
  import opened Models
  import opened Seqs

  /** JavaScript `xs.slice(0, end)` for an integer `end` (a negative end counts from the back). */
  function SliceTo<T>(xs: seq<T>, end: int): (r: seq<T>)
    ensures r <= xs
    ensures 0 <= end ==> |r| == if end < |xs| then end else |xs|
    ensures end < 0 ==> |r| == if |xs| + end < 0 then 0 else |xs| + end
  {
    if end >= |xs| then xs
    else if end >= 0 then xs[..end]
    else if |xs| + end <= 0 then []
    else xs[..|xs| + end]
  }

  /** The history after the length limit is applied. */
  function Capped(h: seq<HistoryEntry>, max: int): (r: seq<HistoryEntry>)
    ensures r <= h
    ensures 0 <= max ==> |r| <= max && (|h| <= max ==> r == h)
  {
    if |h| > max then SliceTo(h, max) else h
  }

  function ResultId(r: AudioResult): string { r.id }

  function EntryId(e: HistoryEntry): string { e.id }

  /**
   * `xs.filter(x => x.id !== id)`, for the session results (`idOf` is
   * `ResultId`) and the history records (`EntryId`) alike.
   */
  function WithoutId<T(==,!new)>(xs: seq<T>, idOf: T -> string, id: string): (r: seq<T>)
    ensures forall x :: x in r <==> x in xs && idOf(x) != id
    ensures |r| <= |xs|
  {
    if xs == [] then []
    else (if idOf(xs[0]) != id then [xs[0]] else []) + WithoutId(xs[1..], idOf, id)
  }

  /** `results.find(r => r.id === id)`, as the index of the first match. */
  function FindIndex(s: seq<AudioResult>, id: string): (r: Option<nat>)
    ensures r.None? <==> forall i :: 0 <= i < |s| ==> s[i].id != id
    ensures r.Some? ==> r.value < |s| && s[r.value].id == id
                        && forall j :: 0 <= j < r.value ==> s[j].id != id
  {
    if s == [] then None
    else if s[0].id == id then Some(0)
    else match FindIndex(s[1..], id)
      case None => None
      case Some(k) => Some(k + 1)
  }

  /** The truthy blob URLs of the results, in order: the ones that get revoked. */
  function LiveUrls(s: seq<AudioResult>): (r: seq<string>)
    ensures forall u :: u in r ==> u != ""
    ensures forall i :: 0 <= i < |s| && s[i].audioUrl != "" ==> s[i].audioUrl in r
  {
    if s == [] then []
    else (if s[0].audioUrl != "" then [s[0].audioUrl] else []) + LiveUrls(s[1..])
  }

  lemma {:induction false} LiveUrlsAppend(a: seq<AudioResult>, b: seq<AudioResult>)
    ensures LiveUrls(a + b) == LiveUrls(a) + LiveUrls(b)
  {
    if a == [] {
      assert a + b == b;
    } else {
      assert (a + b)[1..] == a[1..] + b;
      LiveUrlsAppend(a[1..], b);
    }
  }

  lemma {:induction false} LiveUrlsFromResults(s: seq<AudioResult>, u: string)
    requires u in LiveUrls(s)
    ensures exists i :: 0 <= i < |s| && s[i].audioUrl == u
  {
    if s[0].audioUrl == u {
      assert s[0].audioUrl == u;
    } else {
      LiveUrlsFromResults(s[1..], u);
      var i :| 0 <= i < |s[1..]| && s[1..][i].audioUrl == u;
      assert s[i + 1].audioUrl == u;
    }
  }

  /** No two results share a (truthy) blob URL. */
  predicate UrlsDistinct(s: seq<AudioResult>) {
    forall i, j :: 0 <= i < j < |s| && s[i].audioUrl != "" ==> s[i].audioUrl != s[j].audioUrl
  }

  lemma UrlsDistinctTail(s: seq<AudioResult>)
    requires UrlsDistinct(s) && s != []
    ensures UrlsDistinct(s[1..])
    ensures s[0].audioUrl != "" ==> forall y :: y in s[1..] ==> y.audioUrl != s[0].audioUrl
  {
    forall i, j | 0 <= i < j < |s[1..]| && s[1..][i].audioUrl != ""
      ensures s[1..][i].audioUrl != s[1..][j].audioUrl
    {
      assert s[1..][i] == s[i + 1] && s[1..][j] == s[j + 1];
    }
    forall y | y in s[1..] && s[0].audioUrl != "" ensures y.audioUrl != s[0].audioUrl {
      var k :| 0 <= k < |s[1..]| && s[1..][k] == y;
      assert s[k + 1] == y;
    }
  }

  lemma UrlsDistinctCons(x: AudioResult, rest: seq<AudioResult>)
    requires UrlsDistinct(rest)
    requires x.audioUrl != "" ==> forall y :: y in rest ==> y.audioUrl != x.audioUrl
    ensures UrlsDistinct([x] + rest)
  {
    var r := [x] + rest;
    forall i, j | 0 <= i < j < |r| && r[i].audioUrl != ""
      ensures r[i].audioUrl != r[j].audioUrl
    {
      if i == 0 {
        assert r[j] == rest[j - 1] && rest[j - 1] in rest;
      } else {
        assert r[i] == rest[i - 1] && r[j] == rest[j - 1];
      }
    }
  }

  lemma {:induction false} FilterKeepsUrlsDistinct(s: seq<AudioResult>, id: string)
    requires UrlsDistinct(s)
    ensures UrlsDistinct(WithoutId(s, ResultId, id))
  {
    if s != [] {
      UrlsDistinctTail(s);
      FilterKeepsUrlsDistinct(s[1..], id);
      var rest := WithoutId(s[1..], ResultId, id);
      if s[0].id != id {
        UrlsDistinctCons(s[0], rest);
      } else {
        assert WithoutId(s, ResultId, id) == rest;
      }
    }
  }

  /**
   * Blob-URL lifetime of session results `s`, given the URLs `minted` so far
   * and the `revoked` calls: each URL held is distinct and still live, and no
   * URL is revoked twice.
   */
  ghost predicate UrlsLive(s: seq<AudioResult>, minted: set<string>, revoked: seq<string>) {
    && UrlsDistinct(s)
    && (forall r :: r in s && r.audioUrl != "" ==> r.audioUrl in minted && r.audioUrl !in revoked)
    && Distinct(revoked)
    && (forall u :: u in revoked ==> u in minted)
  }

  /** The URL of a removed result is held by none of the results that stay. */
  lemma RemovedUrlNotKept(s: seq<AudioResult>, id: string, i: nat)
    requires UrlsDistinct(s) && i < |s| && s[i].id == id && s[i].audioUrl != ""
    ensures forall x :: x in WithoutId(s, ResultId, id) ==> x.audioUrl != s[i].audioUrl
  {
    forall x | x in WithoutId(s, ResultId, id) ensures x.audioUrl != s[i].audioUrl {
      var k :| 0 <= k < |s| && s[k] == x;
      assert k != i;
    }
  }

  /** Dropping results keeps the URL lifetime. */
  lemma FilterKeepsUrlsLive(s: seq<AudioResult>, id: string, minted: set<string>, revoked: seq<string>)
    requires UrlsLive(s, minted, revoked)
    ensures UrlsLive(WithoutId(s, ResultId, id), minted, revoked)
  {
    FilterKeepsUrlsDistinct(s, id);
  }

  /** Revoking a live URL that no result holds any more keeps the URL lifetime. */
  lemma RevokeKeepsUrlsLive(s: seq<AudioResult>, u: string, minted: set<string>, revoked: seq<string>)
    requires UrlsLive(s, minted, revoked)
    requires u in minted && u !in revoked
    requires forall x :: x in s ==> x.audioUrl != u
    ensures UrlsLive(s, minted, revoked + [u])
  {
    var after := revoked + [u];
    forall i, j | 0 <= i < j < |after| ensures after[i] != after[j] {
      if j == |revoked| { assert after[i] == revoked[i] && revoked[i] in revoked; }
    }
  }

  /**
   * The URLs `removeResult(id)` revokes: that of the first result with the id,
   * when there is one and its URL is truthy; otherwise none.
   */
  function RevokedBy(s: seq<AudioResult>, id: string): (r: seq<string>)
    ensures |r| <= 1
    ensures r != [] <==> exists i :: 0 <= i < |s| && s[i].id == id && s[i].audioUrl != "" && FindIndex(s, id) == Some(i)
    ensures r != [] ==> r[0] != "" && exists i :: 0 <= i < |s| && s[i].id == id && s[i].audioUrl == r[0]
  {
    match FindIndex(s, id)
    case Some(i) => if s[i].audioUrl != "" then [s[i].audioUrl] else []
    case None => []
  }

  /** `removeResult` keeps the URL lifetime, revoking the first match's URL if it has one. */
  lemma RemoveKeepsUrlsLive(s: seq<AudioResult>, id: string, minted: set<string>, revoked: seq<string>)
    requires UrlsLive(s, minted, revoked)
    ensures UrlsLive(WithoutId(s, ResultId, id), minted, revoked + RevokedBy(s, id))
  {
    FilterKeepsUrlsLive(s, id, minted, revoked);
    var found := FindIndex(s, id);
    if found.Some? && s[found.value].audioUrl != "" {
      var u := s[found.value].audioUrl;
      RemovedUrlNotKept(s, id, found.value);
      assert s[found.value] in s;
      RevokeKeepsUrlsLive(WithoutId(s, ResultId, id), u, minted, revoked);
    } else {
      assert revoked + [] == revoked;
    }
  }

  /** `partialize`: the persisted part of the state. */
  datatype PersistedHistory = PersistedHistory(history: seq<HistoryEntry>, maxHistoryItems: int)

  class HistoryStore {
    var sessionResults: seq<AudioResult>
    var history: seq<HistoryEntry>
    var maxHistoryItems: int
    /** Every blob URL the store has been handed. */
    ghost var minted: set<string>
    /** Every `URL.revokeObjectURL` call the store made, in order. */
    ghost var revoked: seq<string>

    /**
     * Blob-URL lifetime: each URL held by a session result is distinct and
     * still live, and no URL is revoked twice.
     */
    ghost predicate Valid()
      reads this
    {
      UrlsLive(sessionResults, minted, revoked)
    }

    constructor ()
      ensures Valid()
      ensures sessionResults == [] && history == [] && maxHistoryItems == 100
      ensures minted == {} && revoked == []
    {
      sessionResults := [];
      history := [];
      maxHistoryItems := 100;
      minted := {};
      revoked := [];
    }

    function Persisted(): (p: PersistedHistory)
      reads this
      ensures p.history == history && p.maxHistoryItems == maxHistoryItems
    {
      PersistedHistory(history, maxHistoryItems)
    }

    /** Each generated result carries a fresh object URL (or none). */
    method AddResult(result: AudioResult)
      requires Valid()
      requires result.audioUrl == "" || result.audioUrl !in minted
      modifies this
      ensures Valid()
      ensures sessionResults == [result] + old(sessionResults)
      ensures history == Capped([WithoutBlob(result)] + old(history), old(maxHistoryItems))
      ensures maxHistoryItems == old(maxHistoryItems) && revoked == old(revoked)
      ensures minted == old(minted) + (if result.audioUrl != "" then {result.audioUrl} else {})
    {
      var s := sessionResults;
      sessionResults := [result] + sessionResults;
      if result.audioUrl != "" {
        minted := minted + {result.audioUrl};
      }
      forall i, j | 0 <= i < j < |sessionResults| && sessionResults[i].audioUrl != ""
        ensures sessionResults[i].audioUrl != sessionResults[j].audioUrl
      {
        if i == 0 {
          assert sessionResults[j] == s[j - 1] && s[j - 1] in s;
        } else {
          assert sessionResults[i] == s[i - 1] && sessionResults[j] == s[j - 1];
        }
      }
      var entry := WithoutBlob(result);
      history := Capped([entry] + history, maxHistoryItems);
    }

    method RemoveResult(id: string)
      requires Valid()
      modifies this
      ensures Valid()
      ensures sessionResults == WithoutId(old(sessionResults), ResultId, id)
      ensures history == WithoutId(old(history), EntryId, id)
      ensures maxHistoryItems == old(maxHistoryItems) && minted == old(minted)
      ensures revoked == old(revoked) + RevokedBy(old(sessionResults), id)
    {
      var s := sessionResults;
      RemoveKeepsUrlsLive(s, id, minted, revoked);
      revoked := revoked + RevokedBy(s, id);
      sessionResults := WithoutId(s, ResultId, id);
      history := WithoutId(history, EntryId, id);
    }

    method ClearSessionResults()
      requires Valid()
      modifies this
      ensures Valid()
      ensures sessionResults == [] && revoked == old(revoked) + LiveUrls(old(sessionResults))
      ensures history == old(history) && maxHistoryItems == old(maxHistoryItems) && minted == old(minted)
    {
      var rs := sessionResults;
      var i := 0;
      while i < |rs|
        invariant 0 <= i <= |rs|
        invariant revoked == old(revoked) + LiveUrls(rs[..i])
        invariant Distinct(revoked)
        invariant forall u :: u in revoked ==> u in minted
        invariant sessionResults == rs && minted == old(minted) && history == old(history)
        invariant maxHistoryItems == old(maxHistoryItems)
        invariant forall k :: i <= k < |rs| && rs[k].audioUrl != "" ==> rs[k].audioUrl !in revoked
      {
        assert rs[..i + 1] == rs[..i] + [rs[i]];
        LiveUrlsAppend(rs[..i], [rs[i]]);
        if rs[i].audioUrl != "" {
          revoked := revoked + [rs[i].audioUrl];
        }
        i := i + 1;
      }
      assert rs[..i] == rs;
      sessionResults := [];
    }

    method ClearHistory()
      modifies this
      ensures history == [] && sessionResults == old(sessionResults)
      ensures maxHistoryItems == old(maxHistoryItems)
      ensures minted == old(minted) && revoked == old(revoked)
    {
      history := [];
    }

    /** The new limit applies at the next `AddResult`; nothing is trimmed now. */
    method SetMaxHistoryItems(max: int)
      modifies this
      ensures maxHistoryItems == max && history == old(history) && sessionResults == old(sessionResults)
      ensures minted == old(minted) && revoked == old(revoked)
    {
      maxHistoryItems := max;
    }
  }

  /** Removing a freshly added result undoes the addition (up to the cap). */
  lemma {:induction false} AddThenRemove(s: seq<AudioResult>, h: seq<HistoryEntry>, max: int, result: AudioResult)
    requires forall x :: x in s ==> x.id != result.id
    requires forall x :: x in h ==> x.id != result.id
    requires 1 <= max
    ensures WithoutId([result] + s, ResultId, result.id) == s
    ensures WithoutId(Capped([WithoutBlob(result)] + h, max), EntryId, result.id) == SliceTo(h, max - 1)
  {
    assert ([result] + s)[1..] == s;
    WithoutIdKeepsAll(s, ResultId, result.id);
    var w := WithoutBlob(result);
    var c := Capped([w] + h, max);
    assert c == [w] + SliceTo(h, max - 1);
    assert c[1..] == SliceTo(h, max - 1);
    WithoutIdKeepsAll(SliceTo(h, max - 1), EntryId, result.id);
  }

  lemma {:induction false} WithoutIdKeepsAll<T(!new)>(xs: seq<T>, idOf: T -> string, id: string)
    requires forall x :: x in xs ==> idOf(x) != id
    ensures WithoutId(xs, idOf, id) == xs
  {
    if xs != [] {
      assert forall x :: x in xs[1..] ==> x in xs;
      WithoutIdKeepsAll(xs[1..], idOf, id);
      assert xs == [xs[0]] + xs[1..];
    }
  }

  /** After any addition with a non-negative limit the history fits the limit. */
  lemma AddRespectsLimit(h: seq<HistoryEntry>, max: int, e: HistoryEntry)
    requires 0 <= max
    ensures |Capped([e] + h, max)| <= max
    ensures Capped([e] + h, max) == ([e] + h)[..if |h| + 1 < max then |h| + 1 else max]
  {
  }
}
