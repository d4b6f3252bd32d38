/**
 * The voice metadata store: one record per voice id, public or private, a
 * private voice being locked by the hash of its key
 * (gateway/services/metadata_service.py, gateway/utils/crypto.py). The JSON
 * file is the store's state: its `voices` dictionary as the ids in insertion
 * order and the record under each. PBKDF2 is an abstract hash function.
 */
module VoiceMetadata {
  import opened Wrappers
  import opened PyValues
  import opened Seqs

  /** `secrets.token_hex(16)`: 32 hexadecimal digits. */
  type Salt = s: string | |s| == 32 witness "00000000000000000000000000000000"

  /** A PBKDF2-HMAC-SHA256 digest as `.hex()` writes it: 64 hexadecimal digits. */
  type Digest = s: string | |s| == 64
    witness "0000000000000000000000000000000000000000000000000000000000000000"

  /** The key-hashing function, `H(key, salt)`. */
  type Hasher = (string, string) -> Digest

  /** `verify_key`: the key hashed with the stored salt is the stored hash. */
  predicate VerifyKey(h: Hasher, key: string, salt: Value, stored: Value) {
    salt.Str? && stored.Str? && h(key, salt.s) == stored.s
  }

  /** The names of the stored fields differ from one another (already in their first letters, or in their fifth). */
  lemma FieldNamesDiffer()
    ensures "key_salt" !in {"id", "backend", "visibility", "created_at"}
    ensures "key_hash" !in {"id", "backend", "visibility", "created_at", "key_salt"}
  {
    assert "key_salt"[0] != "id"[0] && "key_salt"[0] != "backend"[0] && "key_salt"[0] != "visibility"[0];
    assert "key_salt"[0] != "created_at"[0];
    assert "key_hash"[0] != "id"[0] && "key_hash"[0] != "backend"[0] && "key_hash"[0] != "visibility"[0];
    assert "key_hash"[0] != "created_at"[0] && "key_hash"[4] != "key_salt"[4];
  }

  /** A saved record: `{id, backend, visibility, created_at, **non-None kwargs}`, plus salt and hash for a locked private voice. */
  function NewRecord(voiceId: string, backend: string, visibility: string, privateKey: Option<string>,
                     extra: Dict, now: string, salt: Salt, h: Hasher): (r: Dict)
    requires "voice_id" !in extra && "backend" !in extra && "visibility" !in extra && "private_key" !in extra
    ensures "backend" in r && r["backend"] == Str(backend)
    ensures "visibility" in r && r["visibility"] == Str(visibility)
    ensures "id" in r && "created_at" in r
  {
    FieldNamesDiffer();
    var base := map["id" := Str(voiceId), "backend" := Str(backend), "visibility" := Str(visibility),
                    "created_at" := Str(now + "Z")];
    var meta := base + map k | k in extra && extra[k] != Null :: extra[k];
    if visibility == "private" && privateKey.Some? && privateKey.value != "" then
      meta["key_salt" := Str(salt)]["key_hash" := Str(h(privateKey.value, salt))]
    else meta
  }

  /** The salt and hash are stored exactly for a private voice saved with a non-empty key. */
  lemma RecordLockedIffPrivateWithKey(voiceId: string, backend: string, visibility: string, privateKey: Option<string>,
                                      extra: Dict, now: string, salt: Salt, h: Hasher)
    requires "voice_id" !in extra && "backend" !in extra && "visibility" !in extra && "private_key" !in extra
    requires "key_salt" !in extra && "key_hash" !in extra
    ensures var r := NewRecord(voiceId, backend, visibility, privateKey, extra, now, salt, h);
      && ("key_salt" in r <==> visibility == "private" && privateKey.Some? && privateKey.value != "")
      && ("key_hash" in r <==> "key_salt" in r)
      && ("key_salt" in r ==> r["key_salt"] == Str(salt) && r["key_hash"] == Str(h(privateKey.value, salt)))
  {
    FieldNamesDiffer();
  }

  /** A keyword argument that is `None` is not saved; any other one is, with its value. */
  lemma RecordKeepsNonNoneExtras(voiceId: string, backend: string, visibility: string, privateKey: Option<string>,
                                 extra: Dict, now: string, salt: Salt, h: Hasher, k: string)
    requires "voice_id" !in extra && "backend" !in extra && "visibility" !in extra && "private_key" !in extra
    requires k in extra && k != "key_salt" && k != "key_hash"
    ensures var r := NewRecord(voiceId, backend, visibility, privateKey, extra, now, salt, h);
      && (extra[k] != Null ==> k in r && r[k] == extra[k])
      && (extra[k] == Null && k !in {"id", "backend", "visibility", "created_at"} ==> k !in r)
  {
  }

  /** The records in the order of their ids. */
  function Records(ids: seq<string>, voices: map<string, Dict>): (rs: seq<Dict>)
    requires forall id :: id in ids ==> id in voices
    ensures |rs| == |ids|
    ensures forall i :: 0 <= i < |ids| ==> rs[i] == voices[ids[i]]
  {
    if ids == [] then [] else Records(ids[..|ids| - 1], voices) + [voices[ids[|ids| - 1]]]
  }

  /** `voice.get("visibility") == "public"`. */
  predicate IsPublic(v: Dict) {
    Get(v, "visibility") == Str("public")
  }

  /** A private voice whose stored salt and hash are present and match `key`. */
  predicate Unlocks(h: Hasher, key: string, v: Dict) {
    && Get(v, "visibility") == Str("private")
    && Truthy(Get(v, "key_salt")) && Truthy(Get(v, "key_hash"))
    && VerifyKey(h, key, Get(v, "key_salt"), Get(v, "key_hash"))
  }

  function UnlockedBy(h: Hasher, key: string): Dict -> bool {
    v => Unlocks(h, key, v)
  }

  /** `list_public_voices`: the records whose visibility is "public", in order. */
  function PublicVoices(ids: seq<string>, voices: map<string, Dict>): (r: seq<Dict>)
    requires forall id :: id in ids ==> id in voices
    ensures forall v :: v in r <==> (exists id :: id in ids && voices[id] == v) && IsPublic(v)
  {
    var rs := Records(ids, voices);
    assert forall v :: v in rs <==> exists id :: id in ids && voices[id] == v by {
      forall v | exists id :: id in ids && voices[id] == v
        ensures v in rs
      {
        var id :| id in ids && voices[id] == v;
        var i :| 0 <= i < |ids| && ids[i] == id;
        assert rs[i] == v;
      }
    }
    Filter(rs, IsPublic)
  }

  /** The private voices a key unlocks, in order. */
  function PrivateVoicesFor(ids: seq<string>, voices: map<string, Dict>, h: Hasher, key: string): seq<Dict>
    requires forall id :: id in ids ==> id in voices
  {
    Filter(Records(ids, voices), UnlockedBy(h, key))
  }

  /**
   * `verify_voice_access`: a voice without metadata or a public one is open;
   * a private one needs a non-empty key that matches its stored salt and hash;
   * anything else is refused.
   */
  function Access(voices: map<string, Dict>, h: Hasher, voiceId: string, key: Option<string>): (ok: bool)
    ensures ok <==> voiceId !in voices || IsPublic(voices[voiceId])
                    || (key.Some? && key.value != "" && Unlocks(h, key.value, voices[voiceId]))
  {
    if voiceId !in voices || Get(voices[voiceId], "visibility") == Str("public") then true
    else if Get(voices[voiceId], "visibility") == Str("private") then
      if key.None? || key.value == "" then false
      else
        var salt := Get(voices[voiceId], "key_salt");
        var stored := Get(voices[voiceId], "key_hash");
        if Truthy(salt) && Truthy(stored) then VerifyKey(h, key.value, salt, stored) else false
    else false
  }

  /** `get_all_voice_ids_with_visibility`: a record without a visibility counts as "public" here. */
  function VisibilityMap(voices: map<string, Dict>): (m: map<string, Value>)
    ensures m.Keys == voices.Keys
    ensures forall id :: id in m ==> m[id] == GetOr(voices[id], "visibility", Str("public"))
  {
    map id | id in voices :: GetOr(voices[id], "visibility", Str("public"))
  }

  /**
   * A record without a visibility shows as "public" in the visibility map,
   * yet `list_public_voices` leaves it out.
   */
  lemma MissingVisibilityDisagrees(ids: seq<string>, voices: map<string, Dict>, id: string)
    requires forall x :: x in ids ==> x in voices
    requires id in voices && "visibility" !in voices[id]
    ensures VisibilityMap(voices)[id] == Str("public")
    ensures voices[id] !in PublicVoices(ids, voices)
  {
  }

  /** For a private voice and a non-empty key, access is granted exactly when listing by that key shows the voice. */
  lemma {:induction false} AccessAgreesWithListing(ids: seq<string>, voices: map<string, Dict>, h: Hasher, id: string, key: string)
    requires forall x :: x in ids <==> x in voices
    requires id in voices && Get(voices[id], "visibility") == Str("private") && key != ""
    ensures Access(voices, h, id, Some(key)) <==> voices[id] in PrivateVoicesFor(ids, voices, h, key)
  {
    var rs := Records(ids, voices);
    var i :| 0 <= i < |ids| && ids[i] == id;
    assert rs[i] == voices[id];
  }

  /** One more record scanned: it is kept exactly when the key unlocks it. */
  lemma ScanStep(ids: seq<string>, voices: map<string, Dict>, h: Hasher, key: string, i: nat)
    requires forall x :: x in ids ==> x in voices
    requires i < |ids|
    ensures Filter(Records(ids[..i + 1], voices), UnlockedBy(h, key))
         == Filter(Records(ids[..i], voices), UnlockedBy(h, key)) + if Unlocks(h, key, voices[ids[i]]) then [voices[ids[i]]] else []
  {
    assert ids[..i + 1][..i] == ids[..i];
    FilterAppend(Records(ids[..i], voices), voices[ids[i]], UnlockedBy(h, key));
  }

  /** The outcome of `verify_key_and_list_voices`. */
  datatype KeyCheck = KeyCheck(valid: bool, voiceCount: nat, voiceIds: seq<Value>)

  /** `[v["id"] for v in voices]`. */
  function IdsOf(rs: seq<Dict>): (r: seq<Value>)
    ensures |r| == |rs|
    ensures forall i :: 0 <= i < |rs| ==> r[i] == Get(rs[i], "id")
  {
    if rs == [] then [] else IdsOf(rs[..|rs| - 1]) + [Get(rs[|rs| - 1], "id")]
  }

  /** The `_voices` dictionary of the metadata file, with the hash function the store uses. */
  class MetadataService {
    var ids: seq<string>
    var voices: map<string, Dict>
    const hash: Hasher

    ghost predicate Valid()
      reads this
    {
      Distinct(ids) && forall id :: id in ids <==> id in voices
    }

    /** A store whose file does not exist yet starts as `{"version": "1.0", "voices": {}}`. */
    constructor(h: Hasher)
      ensures Valid()
      ensures ids == [] && voices == map[] && hash == h
    {
      ids := [];
      voices := map[];
      hash := h;
    }

    /**
     * `save_voice_metadata`: writes or overwrites the entry for `voiceId` and
     * no other. `now` is the current UTC time, `salt` the fresh salt.
     */
    method SaveVoiceMetadata(voiceId: string, backend: string, visibility: string, privateKey: Option<string>,
                             extra: Dict, now: string, salt: Salt) returns (record: Dict)
      requires Valid()
      requires "voice_id" !in extra && "backend" !in extra && "visibility" !in extra && "private_key" !in extra
      modifies this
      ensures Valid()
      ensures record == NewRecord(voiceId, backend, visibility, privateKey, extra, now, salt, hash)
      ensures voices == old(voices)[voiceId := record]
      ensures ids == if voiceId in old(voices) then old(ids) else old(ids) + [voiceId]
    {
      record := NewRecord(voiceId, backend, visibility, privateKey, extra, now, salt, hash);
      if voiceId !in voices {
        ids := ids + [voiceId];
      }
      voices := voices[voiceId := record];
    }

    /** `get_voice_metadata`. */
    function GetVoiceMetadata(voiceId: string): (r: Option<Dict>)
      reads this
      ensures r.Some? <==> voiceId in voices
      ensures r.Some? ==> r.value == voices[voiceId]
    {
      if voiceId in voices then Some(voices[voiceId]) else None
    }

    /** `list_public_voices`. */
    function ListPublicVoices(): (r: seq<Dict>)
      requires Valid()
      reads this
      ensures forall v :: v in r ==> IsPublic(v)
      ensures forall id :: id in voices && IsPublic(voices[id]) ==> voices[id] in r
    {
      PublicVoices(ids, voices)
    }

    /** `list_private_voices_by_key`: scans the records in order and keeps those `key` unlocks. */
    method ListPrivateVoicesByKey(key: string) returns (accessible: seq<Dict>)
      requires Valid()
      ensures accessible == PrivateVoicesFor(ids, voices, hash, key)
      ensures forall v :: v in accessible ==> Get(v, "visibility") == Str("private")
    {
      accessible := [];
      var i := 0;
      while i < |ids|
        invariant 0 <= i <= |ids|
        invariant accessible == Filter(Records(ids[..i], voices), UnlockedBy(hash, key))
      {
        var voice := voices[ids[i]];
        ScanStep(ids, voices, hash, key, i);
        i := i + 1;
        if Get(voice, "visibility") != Str("private") {
          continue;
        }
        var salt := Get(voice, "key_salt");
        var stored := Get(voice, "key_hash");
        if Truthy(salt) && Truthy(stored) && VerifyKey(hash, key, salt, stored) {
          accessible := accessible + [voice];
        }
      }
      assert ids[..|ids|] == ids;
    }

    /** `verify_voice_access`. */
    function VerifyVoiceAccess(voiceId: string, key: Option<string>): (ok: bool)
      reads this
      ensures voiceId !in voices ==> ok
      ensures voiceId in voices && Get(voices[voiceId], "visibility") == Str("public") ==> ok
      ensures voiceId in voices && Get(voices[voiceId], "visibility") == Str("private") ==>
        var salt := Get(voices[voiceId], "key_salt");
        var stored := Get(voices[voiceId], "key_hash");
        (ok <==> key.Some? && key.value != "" && Truthy(salt) && Truthy(stored) && VerifyKey(hash, key.value, salt, stored))
      ensures voiceId in voices && Get(voices[voiceId], "visibility") !in {Str("public"), Str("private")} ==> !ok
    {
      Access(voices, hash, voiceId, key)
    }

    /** `verify_key_and_list_voices`: valid when at least one private voice matches the key. */
    method VerifyKeyAndListVoices(key: string) returns (r: KeyCheck)
      requires Valid()
      ensures var unlocked := PrivateVoicesFor(ids, voices, hash, key);
        && (r.valid <==> |unlocked| > 0)
        && r.voiceCount == |unlocked| == |r.voiceIds|
        && forall i :: 0 <= i < |unlocked| ==> r.voiceIds[i] == Get(unlocked[i], "id")
    {
      var unlocked := ListPrivateVoicesByKey(key);
      r := KeyCheck(|unlocked| > 0, |unlocked|, IdsOf(unlocked));
    }

    /** `delete_metadata`: removes the entry if there is one and says whether there was. */
    method DeleteMetadata(voiceId: string) returns (deleted: bool)
      requires Valid()
      modifies this
      ensures Valid()
      ensures deleted <==> voiceId in old(voices)
      ensures voices == old(voices) - {voiceId}
      ensures ids == Filter(old(ids), x => x != voiceId)
      ensures !deleted ==> ids == old(ids)
    {
      if voiceId in voices {
        FilterDistinct(ids, x => x != voiceId);
        ids := Filter(ids, x => x != voiceId);
        voices := voices - {voiceId};
        return true;
      }
      FilterKeepsAll(ids, x => x != voiceId);
      return false;
    }

    /** `get_all_voice_ids_with_visibility`. */
    function VoiceIdsWithVisibility(): (m: map<string, Value>)
      reads this
      ensures m.Keys == voices.Keys
      ensures forall id :: id in m ==> m[id] == GetOr(voices[id], "visibility", Str("public"))
    {
      VisibilityMap(voices)
    }
  }

  /**
   * The round trip: once a private voice is saved with a non-empty key, that
   * key opens it and lists it.
   */
  lemma SavedPrivateVoiceUnlocks(ids: seq<string>, voices: map<string, Dict>, h: Hasher,
                                 voiceId: string, backend: string, key: string, extra: Dict, now: string, salt: Salt)
    requires forall x :: x in ids <==> x in voices
    requires "voice_id" !in extra && "backend" !in extra && "visibility" !in extra && "private_key" !in extra
    requires key != ""
    ensures var record := NewRecord(voiceId, backend, "private", Some(key), extra, now, salt, h);
      var voices' := voices[voiceId := record];
      var ids' := if voiceId in voices then ids else ids + [voiceId];
      && Access(voices', h, voiceId, Some(key))
      && record in PrivateVoicesFor(ids', voices', h, key)
  {
    var record := NewRecord(voiceId, backend, "private", Some(key), extra, now, salt, h);
    var voices' := voices[voiceId := record];
    var ids' := if voiceId in voices then ids else ids + [voiceId];
    assert Get(record, "key_salt") == Str(salt) && Get(record, "key_hash") == Str(h(key, salt));
    assert Unlocks(h, key, record);
    AccessAgreesWithListing(ids', voices', h, voiceId, key);
  }
}
