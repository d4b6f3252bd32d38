/** The voice library page's list logic (frontend/app/voices/page.tsx). */
module VoicesPage {
  import opened Wrappers
  import opened Seqs
  import opened Text
  import opened ApiTypes
  import opened UiStore

  /** A voice matches a lower-cased query by name, id or any emotion. */
  predicate MatchesQuery(v: VoiceInfo, q: string) {
    Contains(Lower(v.name), q) || Contains(Lower(v.id), q) || exists e :: e in v.emotions && Contains(Lower(e), q)
  }

  predicate OnTab(v: VoiceInfo, tab: VoicesTab) {
    tab == AllTab || v.backend == tab.Id()
  }

  /** `filteredVoices`: tab first, then the (untrimmed, lower-cased) query unless it is blank. */
  function FilteredVoices(voices: Option<seq<VoiceInfo>>, tab: VoicesTab, query: string): (r: seq<VoiceInfo>)
    ensures voices.None? ==> r == []
    ensures voices.Some? ==> IsSubsequence(r, voices.value)
    ensures forall v :: v in r <==>
      (voices.Some? && v in voices.value && OnTab(v, tab) && (IsBlank(query) || MatchesQuery(v, Lower(query))))
  {
    match voices
    case None => []
    case Some(vs) =>
      var byTab := if tab == AllTab then vs else Filter(vs, (v: VoiceInfo) => v.backend == tab.Id());
      SubsequenceReflexive(vs);
      if IsBlank(query) then byTab
      else
        var q := Lower(query);
        var r := Filter(byTab, (v: VoiceInfo) => MatchesQuery(v, q));
        SubsequenceTransitive(r, byTab, vs);
        r
  }

  /** No visibility rule applies: a private voice is listed like any other. */
  lemma PrivateVoicesListed(vs: seq<VoiceInfo>, v: VoiceInfo)
    requires v in vs && v.visibility == Private
    ensures v in FilteredVoices(Some(vs), AllTab, "")
  {
  }

  /** The voices of `vs` whose backend is `b`, in order. */
  function OfBackend(vs: seq<VoiceInfo>, b: string): seq<VoiceInfo> {
    if vs == [] then []
    else OfBackend(vs[..|vs| - 1], b) + if vs[|vs| - 1].backend == b then [vs[|vs| - 1]] else []
  }

  /** The voices of one backend, as the predicate `filter` is given. */
  function OnBackend(b: string): VoiceInfo -> bool {
    (v: VoiceInfo) => v.backend == b
  }

  lemma {:induction false} OfBackendIsFilter(vs: seq<VoiceInfo>, b: string)
    ensures OfBackend(vs, b) == Filter(vs, OnBackend(b))
    decreases |vs|
  {
    if vs != [] {
      var init := vs[..|vs| - 1];
      OfBackendIsFilter(init, b);
      assert vs == init + [vs[|vs| - 1]];
      FilterAppend(init, vs[|vs| - 1], OnBackend(b));
    }
  }

  /** A backend's group is the order-preserving filter of its voices. */
  lemma OfBackendCounts(vs: seq<VoiceInfo>, b: string)
    ensures OfBackend(vs, b) == Filter(vs, OnBackend(b))
    ensures forall x :: x in OfBackend(vs, b) <==> x in vs && x.backend == b
  {
    OfBackendIsFilter(vs, b);
  }

  lemma OfBackendSnoc(prefix: seq<VoiceInfo>, v: VoiceInfo, b: string)
    ensures OfBackend(prefix + [v], b) == OfBackend(prefix, b) + if v.backend == b then [v] else []
  {
    assert (prefix + [v])[..|prefix|] == prefix;
  }

  lemma {:induction false} NoGroupYet(prefix: seq<VoiceInfo>, b: string)
    requires forall j :: 0 <= j < |prefix| ==> prefix[j].backend != b
    ensures OfBackend(prefix, b) == []
    decreases |prefix|
  {
    if prefix != [] {
      NoGroupYet(prefix[..|prefix| - 1], b);
    }
  }

  /** The backends of `vs` in the order of their first appearance, each once. */
  function FirstSeen(vs: seq<VoiceInfo>): (r: seq<string>)
    ensures Distinct(r)
  {
    if vs == [] then []
    else
      var seen := FirstSeen(vs[..|vs| - 1]);
      var last := vs[|vs| - 1].backend;
      if last in seen then seen else seen + [last]
  }

  /** Every backend of `vs` appears in the key order, and nothing else does. */
  lemma {:induction false} FirstSeenCovers(vs: seq<VoiceInfo>)
    ensures forall b :: b in FirstSeen(vs) <==> exists j :: 0 <= j < |vs| && vs[j].backend == b
    decreases |vs|
  {
    if vs != [] {
      var init := vs[..|vs| - 1];
      FirstSeenCovers(init);
      assert forall j :: 0 <= j < |init| ==> init[j] == vs[j];
    }
  }

  /** The key order of the grouping is extended exactly when the voice opens a new group. */
  lemma FirstSeenStep(groups: map<string, seq<VoiceInfo>>, order: seq<string>, prefix: seq<VoiceInfo>, v: VoiceInfo)
    requires Grouped(groups, order, prefix) && order == FirstSeen(prefix)
    ensures FirstSeen(prefix + [v]) == if v.backend in groups then order else order + [v.backend]
  {
    assert (prefix + [v])[..|prefix|] == prefix;
    assert v.backend in groups <==> v.backend in order;
  }

  /** `groups` and `order` are the grouping of `prefix`: every group its backend's voices, the keys in creation order. */
  ghost predicate Grouped(groups: map<string, seq<VoiceInfo>>, order: seq<string>, prefix: seq<VoiceInfo>) {
    && (forall b :: b in groups ==> groups[b] == OfBackend(prefix, b) && groups[b] != [])
    && (forall j :: 0 <= j < |prefix| ==> prefix[j].backend in groups)
    && Distinct(order) && (forall b :: b in order <==> b in groups)
  }

  /** The group map after `v` joins its backend's group, created on first sight. */
  function Join(groups: map<string, seq<VoiceInfo>>, v: VoiceInfo): map<string, seq<VoiceInfo>> {
    groups[v.backend := (if v.backend in groups then groups[v.backend] else []) + [v]]
  }

  /** Each group after the step holds its backend's voices of the longer prefix. */
  lemma JoinKeepsGroups(groups: map<string, seq<VoiceInfo>>, prefix: seq<VoiceInfo>, v: VoiceInfo)
    requires forall b :: b in groups ==> groups[b] == OfBackend(prefix, b) && groups[b] != []
    requires forall j :: 0 <= j < |prefix| ==> prefix[j].backend in groups
    ensures forall b :: b in Join(groups, v) ==> Join(groups, v)[b] == OfBackend(prefix + [v], b) && Join(groups, v)[b] != []
  {
    var next := Join(groups, v);
    if v.backend !in groups {
      NoGroupYet(prefix, v.backend);
    }
    forall b | b in next ensures next[b] == OfBackend(prefix + [v], b) && next[b] != [] {
      OfBackendSnoc(prefix, v, b);
    }
  }

  /** Every voice of the longer prefix still has its group. */
  lemma JoinCovers(groups: map<string, seq<VoiceInfo>>, prefix: seq<VoiceInfo>, v: VoiceInfo)
    requires forall j :: 0 <= j < |prefix| ==> prefix[j].backend in groups
    ensures forall j :: 0 <= j < |prefix| + 1 ==> (prefix + [v])[j].backend in Join(groups, v)
  {
    forall j | 0 <= j < |prefix| + 1 ensures (prefix + [v])[j].backend in Join(groups, v) {
      if j < |prefix| {
        assert (prefix + [v])[j] == prefix[j];
      }
    }
  }

  /** One step of the `forEach`: the voice joins its backend's group, created on first sight. */
  lemma GroupedStep(groups: map<string, seq<VoiceInfo>>, order: seq<string>, prefix: seq<VoiceInfo>, v: VoiceInfo)
    requires Grouped(groups, order, prefix)
    ensures Grouped(Join(groups, v), if v.backend in groups then order else order + [v.backend], prefix + [v])
  {
    JoinKeepsGroups(groups, prefix, v);
    JoinCovers(groups, prefix, v);
  }

  /** One iteration of the `forEach` over `vs`, at index `i`. */
  lemma GroupedUpTo(groups: map<string, seq<VoiceInfo>>, order: seq<string>, vs: seq<VoiceInfo>, i: nat)
    requires i < |vs| && Grouped(groups, order, vs[..i]) && order == FirstSeen(vs[..i])
    ensures var b := vs[i].backend;
      var nextOrder := if b in groups then order else order + [b];
      && Grouped(Join(groups, vs[i]), nextOrder, vs[..i + 1])
      && nextOrder == FirstSeen(vs[..i + 1])
  {
    assert vs[..i + 1] == vs[..i] + [vs[i]];
    GroupedStep(groups, order, vs[..i], vs[i]);
    FirstSeenStep(groups, order, vs[..i], vs[i]);
  }

  /**
   * The `forEach` that builds `groups`: every voice lands in the group of its
   * backend, in input order; `order` lists the keys as they were created.
   */
  method GroupByBackend(vs: seq<VoiceInfo>) returns (groups: map<string, seq<VoiceInfo>>, order: seq<string>)
    ensures forall b :: b in groups ==> groups[b] == OfBackend(vs, b) && groups[b] != []
    ensures forall i :: 0 <= i < |vs| ==> vs[i].backend in groups
    ensures order == FirstSeen(vs) && forall b :: b in order <==> b in groups
  {
    groups := map[];
    order := [];
    var i := 0;
    while i < |vs|
      invariant 0 <= i <= |vs|
      invariant Grouped(groups, order, vs[..i])
      invariant order == FirstSeen(vs[..i])
    {
      var v := vs[i];
      GroupedUpTo(groups, order, vs, i);
      var group := [];
      if v.backend in groups {
        group := groups[v.backend];
      } else {
        order := order + [v.backend];
      }
      groups := groups[v.backend := group + [v]];
      i := i + 1;
    }
    assert vs[..i] == vs;
  }

  /** `groupedVoices`: one group keyed by the tab, or one group per backend on 'all'. */
  method GroupedVoices(filtered: seq<VoiceInfo>, tab: VoicesTab) returns (groups: map<string, seq<VoiceInfo>>, order: seq<string>)
    ensures tab != AllTab ==> groups == map[tab.Id() := filtered] && order == [tab.Id()]
    ensures tab == AllTab ==> forall b :: b in groups ==> groups[b] == OfBackend(filtered, b)
    ensures tab == AllTab ==> forall i :: 0 <= i < |filtered| ==> filtered[i].backend in groups
    ensures tab == AllTab ==> order == FirstSeen(filtered)
    ensures Distinct(order) && forall b :: b in order <==> b in groups
  {
    if tab != AllTab {
      return map[tab.Id() := filtered], [tab.Id()];
    }
    groups, order := GroupByBackend(filtered);
  }

  /** On a specific tab the single group is exactly that tab's filtered voices. */
  lemma TabGroupIsOfBackend(vs: seq<VoiceInfo>, tab: VoicesTab, query: string)
    requires tab != AllTab
    ensures forall v :: v in FilteredVoices(Some(vs), tab, query) ==> v.backend == tab.Id()
  {
  }

  /**
   * The IndexTTS tab filters on "indextts", while the gateway tags IndexTTS
   * voices "indextts-2.0": on gateway data that tab is always empty.
   */
  lemma IndexTabEmptyOnGatewayVoices(vs: seq<VoiceInfo>, query: string)
    requires forall v :: v in vs ==> v.backend == "qwen3-tts" || v.backend == "indextts-2.0"
    ensures FilteredVoices(Some(vs), IndexTab, query) == []
  {
    forall v | v in vs ensures !OnTab(v, IndexTab) {
      assert |IndexTab.Id()| == 8 && |"qwen3-tts"| == 9 && |"indextts-2.0"| == 12;
    }
    NoMemberMeansEmpty(FilteredVoices(Some(vs), IndexTab, query));
  }
}
