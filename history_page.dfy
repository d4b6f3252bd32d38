/** The history page's search and actions (frontend/app/history/page.tsx). */
module HistoryPage {
  import opened Seqs
  import opened Text
  import opened Models
  import HistoryStore

  /** An item matches a lower-cased query by its text, model id or voice. */
  predicate MatchesQuery(item: HistoryEntry, q: string) {
    Contains(Lower(item.text), q) || Contains(Lower(item.model.Id()), q) || Contains(Lower(item.voice), q)
  }

  /** `filteredHistory`: the whole history for a blank query, otherwise the matching items in order. */
  function FilteredHistory(history: seq<HistoryEntry>, query: string): (r: seq<HistoryEntry>)
    ensures IsBlank(query) ==> r == history
    ensures IsSubsequence(r, history)
    ensures !IsBlank(query) ==> forall x :: x in r <==> x in history && MatchesQuery(x, Lower(query))
  {
    SubsequenceReflexive(history);
    if IsBlank(query) then history
    else
      var q := Lower(query);
      Filter(history, (x: HistoryEntry) => MatchesQuery(x, q))
  }

  /** Searching the result again with the same query changes nothing. */
  lemma SearchIdempotent(history: seq<HistoryEntry>, query: string)
    ensures FilteredHistory(FilteredHistory(history, query), query) == FilteredHistory(history, query)
  {
    if !IsBlank(query) {
      var q := Lower(query);
      FilterKeepsAll(FilteredHistory(history, query), (x: HistoryEntry) => MatchesQuery(x, q));
    }
  }

  /** The clear button: `clearHistory()` only after the user confirms. */
  method HandleClear(confirmed: bool, store: HistoryStore.HistoryStore)
    modifies store
    ensures store.history == (if confirmed then [] else old(store.history))
    ensures store.sessionResults == old(store.sessionResults) && store.maxHistoryItems == old(store.maxHistoryItems)
    ensures store.minted == old(store.minted) && store.revoked == old(store.revoked)
  {
    if confirmed {
      store.ClearHistory();
    }
  }

  /** The delete button: `removeResult(item.id)`. */
  method HandleDelete(item: HistoryEntry, store: HistoryStore.HistoryStore)
    requires store.Valid()
    modifies store
    ensures store.Valid()
    ensures store.history == HistoryStore.WithoutId(old(store.history), HistoryStore.EntryId, item.id)
    ensures store.sessionResults == HistoryStore.WithoutId(old(store.sessionResults), HistoryStore.ResultId, item.id)
    ensures item in old(store.history) ==> item !in store.history
    ensures store.revoked == old(store.revoked) + HistoryStore.RevokedBy(old(store.sessionResults), item.id)
    ensures store.maxHistoryItems == old(store.maxHistoryItems) && store.minted == old(store.minted)
  {
    store.RemoveResult(item.id);
  }
}
