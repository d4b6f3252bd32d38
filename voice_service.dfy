/**
 * The voice service: the voices of all registered backends, or of one, each
 * tagged with its backend id, and the dispatch of an upload to its backend
 * (gateway/services/voice_service.py). What an adapter answers is a parameter.
 */
module VoiceService {
  import opened Wrappers
  import opened PyValues
  import opened Seqs
  import opened Adapters
  import opened AdapterRegistry
  import opened ApiTypes

  /** `VoicesResponse`. */
  datatype VoicesResponse = VoicesResponse(voices: seq<VoiceInfo>, total: int)

  /** What `adapter.list_voices()` returns, or the exception it raises. */
  type Listing = Adapter -> Outcome<seq<VoiceItem>>

  /** `VoiceInfo(...)` for a voice of backend `backend`; the visibility keeps its default. */
  function Tag(item: VoiceItem, backend: string): (v: VoiceInfo)
    ensures v.id == item.id && v.name == item.name && v.backend == backend
    ensures v.emotions == item.emotions && v.refText == item.refText && v.hasDefault == item.hasDefault
    ensures v.visibility == Public
  {
    VoiceInfo(item.id, item.name, backend, item.emotions, item.refText, item.hasDefault, Public)
  }

  function TagAll(items: seq<VoiceItem>, backend: string): (r: seq<VoiceInfo>)
    ensures |r| == |items|
    ensures forall i :: 0 <= i < |items| ==> r[i] == Tag(items[i], backend)
  {
    seq(|items|, i requires 0 <= i < |items| => Tag(items[i], backend))
  }

  lemma TagAllStep(items: seq<VoiceItem>, backend: string, j: nat)
    requires j < |items|
    ensures TagAll(items[..j + 1], backend) == TagAll(items[..j], backend) + [Tag(items[j], backend)]
  {
  }

  /** The voices one backend contributes: none when its adapter raises. */
  function Contribution(id: string, adapters: map<string, Adapter>, listing: Listing): seq<VoiceInfo>
    requires id in adapters
  {
    match listing(adapters[id])
    case Raise(_) => []
    case Ok(items) => TagAll(items, id)
  }

  /** The voices of the backends `ids`, backend after backend. */
  function AllVoices(ids: seq<string>, adapters: map<string, Adapter>, listing: Listing): seq<VoiceInfo>
    requires forall id :: id in ids ==> id in adapters
  {
    if ids == [] then []
    else AllVoices(ids[..|ids| - 1], adapters, listing) + Contribution(ids[|ids| - 1], adapters, listing)
  }

  /** The inner loop of `list_all_voices`: appends one backend's voices, tagged. */
  method AppendTagged(voices: seq<VoiceInfo>, items: seq<VoiceItem>, backend: string) returns (r: seq<VoiceInfo>)
    ensures r == voices + TagAll(items, backend)
  {
    r := voices;
    var j := 0;
    while j < |items|
      invariant 0 <= j <= |items|
      invariant r == voices + TagAll(items[..j], backend)
    {
      TagAllStep(items, backend, j);
      r := r + [Tag(items[j], backend)];
      j := j + 1;
    }
    assert items[..j] == items;
  }

  /**
   * `list_all_voices`: `reg` is what `AdapterFactory.get_all()` returns. The
   * voices of every adapter, in registry order, each tagged with its backend
   * id; `total` is their number.
   */
  method ListAllVoices(reg: Registry, listing: Listing) returns (response: VoicesResponse)
    requires reg.Valid()
    ensures response.voices == AllVoices(reg.ids, reg.adapters, listing)
    ensures response.total == |response.voices|
  {
    var voices: seq<VoiceInfo> := [];
    var i := 0;
    while i < |reg.ids|
      invariant 0 <= i <= |reg.ids|
      invariant voices == AllVoices(reg.ids[..i], reg.adapters, listing)
    {
      var id := reg.ids[i];
      AllVoicesStep(reg.ids, reg.adapters, listing, i);
      match listing(reg.adapters[id]) {
        case Raise(_) =>
        case Ok(items) =>
          voices := AppendTagged(voices, items, id);
      }
      i := i + 1;
    }
    assert reg.ids[..i] == reg.ids;
    response := VoicesResponse(voices, |voices|);
  }

  /** The listing of the first `i + 1` backends extends that of the first `i`. */
  lemma AllVoicesStep(ids: seq<string>, adapters: map<string, Adapter>, listing: Listing, i: nat)
    requires forall x :: x in ids ==> x in adapters
    requires i < |ids|
    ensures AllVoices(ids[..i + 1], adapters, listing) == AllVoices(ids[..i], adapters, listing) + Contribution(ids[i], adapters, listing)
  {
    assert ids[..i + 1][..i] == ids[..i];
  }

  /**
   * Every listed voice names a backend of the registry whose adapter
   * answered; an adapter that raises contributes nothing.
   */
  lemma {:induction false} AllVoicesTagged(ids: seq<string>, adapters: map<string, Adapter>, listing: Listing)
    requires forall id :: id in ids ==> id in adapters
    ensures forall v :: v in AllVoices(ids, adapters, listing) ==>
      v.backend in ids && listing(adapters[v.backend]).Ok?
    decreases |ids|
  {
    if ids != [] {
      var front := ids[..|ids| - 1];
      var last := ids[|ids| - 1];
      AllVoicesTagged(front, adapters, listing);
      forall v | v in AllVoices(ids, adapters, listing)
        ensures v.backend in ids && listing(adapters[v.backend]).Ok?
      {
        if v in AllVoices(front, adapters, listing) {
          assert v.backend in front;
        } else {
          var items := listing(adapters[last]).value;
          var k :| 0 <= k < |items| && TagAll(items, last)[k] == v;
        }
      }
    }
  }

  /**
   * `list_voices_by_backend`: an unknown backend, or an adapter that raises,
   * gives an empty list with total 0.
   */
  function ListVoicesByBackend(reg: Registry, backendId: string, listing: Listing): (response: VoicesResponse)
    ensures response.total == |response.voices|
    ensures backendId !in reg.adapters ==> response == VoicesResponse([], 0)
    ensures backendId in reg.adapters && listing(reg.adapters[backendId]).Raise? ==> response == VoicesResponse([], 0)
    ensures forall v :: v in response.voices ==> v.backend == backendId
  {
    if backendId !in reg.adapters then VoicesResponse([], 0)
    else
      match listing(reg.adapters[backendId])
      case Raise(_) => VoicesResponse([], 0)
      case Ok(items) => VoicesResponse(TagAll(items, backendId), |items|)
  }

  /** Keeping the voices of backend `id` from the listing of distinct backends leaves that backend's contribution. */
  lemma {:induction false} AllVoicesOfOneBackend(ids: seq<string>, adapters: map<string, Adapter>, listing: Listing, id: string)
    requires forall x :: x in ids ==> x in adapters
    requires Distinct(ids)
    ensures Filter(AllVoices(ids, adapters, listing), (v: VoiceInfo) => v.backend == id)
         == if id in ids then Contribution(id, adapters, listing) else []
    decreases |ids|
  {
    var p := (v: VoiceInfo) => v.backend == id;
    if ids != [] {
      var front := ids[..|ids| - 1];
      var last := ids[|ids| - 1];
      assert ids == front + [last];
      assert id in ids <==> id in front || id == last;
      DistinctInit(ids);
      AllVoicesOfOneBackend(front, adapters, listing, id);
      var part := Contribution(last, adapters, listing);
      assert AllVoices(ids, adapters, listing) == AllVoices(front, adapters, listing) + part;
      FilterConcat(AllVoices(front, adapters, listing), part, p);
      ContributionTagged(last, adapters, listing);
      if last == id {
        FilterKeepsAll(part, p);
      } else {
        FilterKeepsNone(part, p);
      }
    }
  }

  lemma ContributionTagged(id: string, adapters: map<string, Adapter>, listing: Listing)
    requires id in adapters
    ensures forall v :: v in Contribution(id, adapters, listing) ==> v.backend == id
  {
    var part := Contribution(id, adapters, listing);
    forall v | v in part ensures v.backend == id {
      var k :| 0 <= k < |part| && part[k] == v;
    }
  }

  /** One backend's listing is exactly its part of the listing of all backends. */
  lemma ByBackendIsPartOfAll(reg: Registry, listing: Listing, id: string)
    requires reg.Valid()
    ensures ListVoicesByBackend(reg, id, listing).voices
         == Filter(AllVoices(reg.ids, reg.adapters, listing), (v: VoiceInfo) => v.backend == id)
  {
    AllVoicesOfOneBackend(reg.ids, reg.adapters, listing, id);
  }

  /** The arguments `upload_voice` hands on to the adapter: the file, its name, the voice id and the extra keywords. */
  datatype UploadCall = UploadCall(content: Bytes, filename: string, voiceId: string, kwargs: Dict)

  /** What an adapter's `upload_voice` returns for a call, or the exception it raises. */
  type Uploader = (Adapter, UploadCall) -> Outcome<Dict>

  /**
   * `upload_voice`: an unknown backend fails with "后端不存在" before any
   * adapter is called; otherwise the adapter's result, or the failure it
   * raised, with the backend id added.
   */
  function UploadVoice(reg: Registry, backend: string, call: UploadCall, upload: Uploader): (r: Dict)
    ensures backend !in reg.adapters ==> r == map["success" := Bool(false), "message" := Str("后端不存在: " + backend)]
    ensures backend in reg.adapters ==> "backend" in r && r["backend"] == Str(backend)
    ensures backend in reg.adapters && upload(reg.adapters[backend], call).Raise? ==>
      r == map["success" := Bool(false), "message" := Str(upload(reg.adapters[backend], call).message),
               "backend" := Str(backend)]
    ensures backend in reg.adapters && upload(reg.adapters[backend], call).Ok? ==>
      r == upload(reg.adapters[backend], call).value["backend" := Str(backend)]
  {
    if backend !in reg.adapters then map["success" := Bool(false), "message" := Str("后端不存在: " + backend)]
    else
      match upload(reg.adapters[backend], call)
      case Ok(result) => result["backend" := Str(backend)]
      case Raise(message) => map["success" := Bool(false), "message" := Str(message), "backend" := Str(backend)]
  }

  /** The failure for an unknown backend is the one result without a `backend` key. */
  lemma UnknownBackendResultLacksBackend(reg: Registry, backend: string, call: UploadCall, upload: Uploader)
    ensures "backend" !in UploadVoice(reg, backend, call, upload) <==> backend !in reg.adapters
  {
    assert "backend"[0] != "success"[0] && "backend"[0] != "message"[0];
  }
}
