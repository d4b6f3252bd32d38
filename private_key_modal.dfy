/** The private-key dialog (frontend/components/voices/PrivateKeyModal.tsx). */
module PrivateKeyModal {
  import opened Wrappers
  import PrivateKeyStore
  import opened Text

  const MinKeyLength := 4

  /** `!inputKey || inputKey.length < 4`, the length in UTF-16 code units. */
  predicate KeyTooShort(key: string) {
    key == "" || JsLength(key) < MinKeyLength
  }

  /** The Enter key and the unlock button fire only for keys of at least four code units. */
  predicate UnlockEnabled(key: string) {
    JsLength(key) >= MinKeyLength
  }

  /** Two characters above U+FFFF make four code units: such a key passes the guard. */
  lemma TwoAstralCharactersSuffice(a: char, b: char)
    requires a > '\U{FFFF}' && b > '\U{FFFF}'
    ensures !KeyTooShort([a, b]) && UnlockEnabled([a, b])
  {
    assert [b][1..] == [] && JsLength([b]) == 2;
    assert [a, b][1..] == [b] && JsLength([a, b]) == 4;
  }

  /** Whenever the key handler fires, the length guard inside `handleUnlock` passes. */
  lemma EnabledKeyPassesGuard(key: string)
    ensures UnlockEnabled(key) <==> !KeyTooShort(key)
  {
  }

  class KeyDialog {
    var inputKey: string
    var error: Option<string>
    var success: bool

    constructor ()
      ensures inputKey == "" && error == None && !success
    {
      inputKey := "";
      error := None;
      success := false;
    }

    /** Typing replaces the key and clears the error. */
    method HandleInput(value: string)
      modifies this
      ensures inputKey == value && error == None && success == old(success)
    {
      inputKey := value;
      error := None;
    }

    /**
     * `handleUnlock`. `reply` is the verification outcome (`valid`, or the
     * transport error's message); `called` says whether it was requested.
     */
    method HandleUnlock(reply: Outcome<bool>) returns (called: bool)
      modifies this
      ensures called <==> !KeyTooShort(old(inputKey))
      ensures !called ==> (error == Some("请输入至少 4 位密钥") && inputKey == old(inputKey) && success == old(success))
      ensures called && reply.Ok? && reply.value ==> (success && inputKey == "" && error == None)
      ensures called && reply.Ok? && !reply.value ==>
        (error == Some("密钥无效或未关联任何私人音色") && inputKey == old(inputKey) && success == old(success))
      ensures called && reply.Raise? ==> (error == Some(reply.message) && inputKey == old(inputKey) && success == old(success))
    {
      if KeyTooShort(inputKey) {
        error := Some("请输入至少 4 位密钥");
        return false;
      }
      called := true;
      error := None;
      match reply {
        case Ok(valid) =>
          if valid {
            success := true;
            inputKey := "";
          } else {
            error := Some("密钥无效或未关联任何私人音色");
          }
        case Raise(msg) =>
          error := Some(msg);
      }
    }

    /** The Enter key: `handleUnlock` only for a long enough key. */
    method HandleKeyDown(key: string, reply: Outcome<bool>) returns (called: bool)
      modifies this
      ensures called <==> key == "Enter" && UnlockEnabled(old(inputKey))
      ensures called ==> !KeyTooShort(old(inputKey))
      ensures !called ==> inputKey == old(inputKey) && error == old(error) && success == old(success)
    {
      called := false;
      if key == "Enter" && UnlockEnabled(inputKey) {
        called := HandleUnlock(reply);
      }
    }

    /** The delayed close after a success. */
    method AfterSuccessDelay() returns (closed: bool)
      modifies this
      ensures !success && closed && inputKey == old(inputKey) && error == old(error)
    {
      success := false;
      closed := true;
    }

    method HandleClearSession(store: PrivateKeyStore.PrivateKeyStore)
      modifies this, store
      ensures store.Valid() && store.activeKey == None && store.unlockedVoiceIds == [] && store.unlockedCount == 0
      ensures inputKey == "" && error == None && !success
    {
      store.ClearSession();
      inputKey := "";
      error := None;
      success := false;
    }

    method HandleClose() returns (closed: bool)
      modifies this
      ensures inputKey == "" && error == None && !success && closed
    {
      inputKey := "";
      error := None;
      success := false;
      closed := true;
    }
  }
}
