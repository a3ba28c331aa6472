/** The stateful parts of `SystemPromptCrypto` in
    frontend/vue-app/src/utils/crypto.js: the memoised key promise and the
    save and load of the system prompt under one `localStorage` key. The
    functions below give the effect of each operation on the state; the class
    performs them in place and is proved to agree with them. */
module PromptStorage {
  import opened Wrappers
  import opened PromptCipher

  const STORAGE_KEY := "ollama-webui-system-prompt"

  /** What the instance runs against: the browser functions,
      `window.location.origin`, and whether `localStorage.setItem(key, value)`
      succeeds on the current storage (it throws `QuotaExceededError` when the
      value does not fit). */
  datatype Env = Env(
    platform: Platform,
    origin: string,
    storeAccepts: (map<string, string>, string, string) -> bool)

  /** A settled `keyPromise`: `None` while it is still `null`. A rejected
      promise is truthy, so a failed derivation stays cached too. */
  type KeyCache = Option<Result<Key, string>>

  /** The instance field `keyPromise` and the page's `localStorage`. */
  datatype State = State(keyPromise: KeyCache, store: map<string, string>)

  /** The characters JavaScript's `String.prototype.trim` removes. */
  predicate IsJsSpace(c: char) {
    var n := c as int;
    (0x09 <= n <= 0x0D) || n == 0x20 || n == 0xA0 || n == 0x1680
    || (0x2000 <= n <= 0x200A) || n == 0x2028 || n == 0x2029
    || n == 0x202F || n == 0x205F || n == 0x3000 || n == 0xFEFF
  }

  /** `s.trim() === ''`: every character is whitespace. */
  predicate Blank(s: string) {
    forall i :: 0 <= i < |s| ==> IsJsSpace(s[i])
  }

  /** The cached key, once there is one, is the key of the page's origin:
      the salt is fixed, so every instance on the same origin derives the same
      key and can read what another one stored. */
  predicate KeyOk(env: Env, st: State) {
    st.keyPromise.None? || st.keyPromise == Some(DeriveDomainKey(env.platform, env.origin))
  }

  /** `getDomainKey`: derive on the first call, return the cached promise on
      every later one. */
  function DomainKeyStep(env: Env, st: State): (r: (Result<Key, string>, State))
    ensures r.1 == st.(keyPromise := Some(r.0))
    ensures st.keyPromise.Some? ==> r.0 == st.keyPromise.value
    ensures st.keyPromise.None? ==> r.0 == DeriveDomainKey(env.platform, env.origin)
    ensures KeyOk(env, st) ==> KeyOk(env, r.1) && r.0 == DeriveDomainKey(env.platform, env.origin)
  {
    match st.keyPromise
    case Some(k) => (k, st)
    case None =>
      var k := DeriveDomainKey(env.platform, env.origin);
      (k, st.(keyPromise := Some(k)))
  }

  /** `encrypt(plaintext)` with `iv` as the random IV. The guard runs before
      the key is asked for. */
  function EncryptStep(env: Env, st: State, plaintext: JsValue, iv: Iv): (r: (Result<string, string>, State))
    ensures PlaintextGuard(plaintext).Some? ==> r == (Failure("Invalid plaintext for encryption"), st)
    ensures r.1.store == st.store
    ensures r.0.Failure? ==>
      r.0.error == "Invalid plaintext for encryption" || r.0.error == "Failed to encrypt system prompt"
    ensures st.keyPromise.Some? ==> r.1.keyPromise == st.keyPromise
    ensures PlaintextGuard(plaintext).None? ==> r.1.keyPromise.Some?
    ensures KeyOk(env, st) ==> KeyOk(env, r.1)
  {
    match PlaintextGuard(plaintext)
    case Some(err) => (Failure(err), st)
    case None =>
      var (key, st1) := DomainKeyStep(env, st);
      (Seal(env.platform, key, iv, plaintext.s), st1)
  }

  /** `decrypt(encryptedData)`. The guard runs before the key is asked for. */
  function DecryptStep(env: Env, st: State, data: JsValue): (r: (Result<string, string>, State))
    ensures EncryptedGuard(data).Some? ==> r == (Failure("Invalid encrypted data for decryption"), st)
    ensures r.1.store == st.store
    ensures r.0.Failure? ==>
      r.0.error == "Invalid encrypted data for decryption" || r.0.error == "Failed to decrypt system prompt"
    ensures st.keyPromise.Some? ==> r.1.keyPromise == st.keyPromise
    ensures EncryptedGuard(data).None? ==> r.1.keyPromise.Some?
    ensures KeyOk(env, st) ==> KeyOk(env, r.1)
  {
    match EncryptedGuard(data)
    case Some(err) => (Failure(err), st)
    case None =>
      var (key, st1) := DomainKeyStep(env, st);
      (Open(env.platform, key, data.s), st1)
  }

  /** `saveSystemPrompt(systemPrompt)`. A falsy or blank prompt removes the
      key; a truthy value that is not a string has no `trim` and the
      `TypeError` is swallowed; otherwise the encryption is stored, and a
      failed encryption or a refused `setItem` is swallowed with storage left
      as it was. */
  function SaveStep(env: Env, st: State, prompt: JsValue, iv: Iv): (st': State)
    ensures st'.store - {STORAGE_KEY} == st.store - {STORAGE_KEY}
    ensures STORAGE_KEY in st'.store && st'.store != st.store ==> prompt.JsString? && !Blank(prompt.s)
    ensures st.keyPromise.Some? ==> st'.keyPromise == st.keyPromise
    ensures KeyOk(env, st) ==> KeyOk(env, st')
  {
    if !Truthy(prompt) then st.(store := st.store - {STORAGE_KEY})
    else if !prompt.JsString? then st
    else if Blank(prompt.s) then st.(store := st.store - {STORAGE_KEY})
    else
      var (r, st1) := EncryptStep(env, st, prompt, iv);
      match r
      case Success(blob) =>
        if env.storeAccepts(st1.store, STORAGE_KEY, blob) then st1.(store := st1.store[STORAGE_KEY := blob])
        else st1
      case Failure(_) => st1
  }

  /** `loadSystemPrompt()`. A missing or empty entry loads as `''`; an entry
      that fails to decrypt is removed and loads as `''`. */
  function LoadStep(env: Env, st: State): (r: (string, State))
    ensures r.1.store == st.store || r.1.store == st.store - {STORAGE_KEY}
    ensures r.1.store != st.store ==> r.0 == ""
    ensures st.keyPromise.Some? ==> r.1.keyPromise == st.keyPromise
    ensures KeyOk(env, st) ==> KeyOk(env, r.1)
  {
    if STORAGE_KEY !in st.store || st.store[STORAGE_KEY] == "" then ("", st)
    else
      var (d, st1) := DecryptStep(env, st, JsString(st.store[STORAGE_KEY]));
      match d
      case Success(prompt) => (prompt, st1)
      case Failure(_) => ("", st1.(store := st1.store - {STORAGE_KEY}))
  }

  /** Key derivation runs at most once: after the first `getDomainKey` the
      cache is set, and every later call returns the same key and changes
      nothing. */
  lemma KeyDerivedOnce(env: Env, st: State)
    ensures var (k, st1) := DomainKeyStep(env, st);
      st1.keyPromise == Some(k) && DomainKeyStep(env, st1) == (k, st1)
  {
  }

  /** A rejected key promise stays cached: every later encryption fails with
      the fixed message and leaves the state as it is. */
  lemma KeyFailureSticky(env: Env, st: State, s: string, iv: Iv)
    requires st.keyPromise.Some? && st.keyPromise.value.Failure?
    requires s != ""
    ensures EncryptStep(env, st, JsString(s), iv) == (Failure("Failed to encrypt system prompt"), st)
  {
  }

  /** The round trip of frontend/vue-app/src/test-crypto.js lines 26-34:
      `decrypt(encrypt(p)) == p` on the same instance, for every prompt that
      does not start with U+FEFF; one that does comes back without it. */
  lemma EncryptDecryptRoundTrip(env: Env, st: State, s: string, iv: Iv)
    requires Sound(env.platform)
    requires EncryptStep(env, st, JsString(s), iv).0.Success?
    ensures var (c, st1) := EncryptStep(env, st, JsString(s), iv);
      DecryptStep(env, st1, JsString(c.value)) == (Success(DropBom(s)), st1)
    ensures s[0] != BOM ==> var (c, st1) := EncryptStep(env, st, JsString(s), iv);
      DecryptStep(env, st1, JsString(c.value)) == (Success(s), st1)
  {
    var (c, st1) := EncryptStep(env, st, JsString(s), iv);
    OpenSeal(env.platform, st1.keyPromise.value, iv, s);
  }

  /** Saving a falsy or blank prompt removes the key and stores nothing, and
      a later load gives `''` (test-crypto.js lines 45-48). */
  lemma SaveBlankRemoves(env: Env, st: State, prompt: JsValue, iv: Iv)
    requires !Truthy(prompt) || (prompt.JsString? && Blank(prompt.s))
    ensures SaveStep(env, st, prompt, iv) == st.(store := st.store - {STORAGE_KEY})
    ensures LoadStep(env, SaveStep(env, st, prompt, iv)) == ("", SaveStep(env, st, prompt, iv))
  {
  }

  /** Saving a non-blank prompt stores its encryption under the key and
      nothing else; loading it back gives the prompt, less a leading U+FEFF,
      and changes nothing (test-crypto.js lines 38-41). */
  lemma SaveLoadRoundTrip(env: Env, st: State, s: string, iv: Iv)
    requires Sound(env.platform)
    requires !Blank(s)
    requires EncryptStep(env, st, JsString(s), iv).0.Success?
    requires env.storeAccepts(st.store, STORAGE_KEY, EncryptStep(env, st, JsString(s), iv).0.value)
    ensures var st' := SaveStep(env, st, JsString(s), iv);
      && st'.store == st.store[STORAGE_KEY := EncryptStep(env, st, JsString(s), iv).0.value]
      && LoadStep(env, st') == (DropBom(s), st')
      && (s[0] != BOM ==> LoadStep(env, st') == (s, st'))
  {
    assert s != "" by { assert !Blank(s); }
    var (c, st1) := EncryptStep(env, st, JsString(s), iv);
    EncryptDecryptRoundTrip(env, st, s, iv);
    OpenSeal(env.platform, st1.keyPromise.value, iv, s);
  }

  /** What one instance saved, a new instance on the same origin (a later
      page load, with `keyPromise` back to `null`) loads back, less a leading
      U+FEFF: the fixed salt makes both derive the same key. */
  lemma SaveThenFreshLoad(env: Env, st: State, s: string, iv: Iv)
    requires Sound(env.platform)
    requires KeyOk(env, st)
    requires !Blank(s)
    requires EncryptStep(env, st, JsString(s), iv).0.Success?
    requires env.storeAccepts(st.store, STORAGE_KEY, EncryptStep(env, st, JsString(s), iv).0.value)
    ensures LoadStep(env, State(None, SaveStep(env, st, JsString(s), iv).store)).0 == DropBom(s)
    ensures s[0] != BOM ==> LoadStep(env, State(None, SaveStep(env, st, JsString(s), iv).store)).0 == s
  {
    assert s != "" by { assert !Blank(s); }
    var (c, st1) := EncryptStep(env, st, JsString(s), iv);
    assert st1.keyPromise == Some(DeriveDomainKey(env.platform, env.origin));
    OpenSeal(env.platform, st1.keyPromise.value, iv, s);
  }

  /** When `setItem` refuses the encrypted prompt, saving leaves storage
      unchanged and the previously stored prompt stays. */
  lemma SaveQuotaExceededKeepsStore(env: Env, st: State, s: string, iv: Iv)
    requires !Blank(s)
    requires EncryptStep(env, st, JsString(s), iv).0.Success?
    requires !env.storeAccepts(st.store, STORAGE_KEY, EncryptStep(env, st, JsString(s), iv).0.value)
    ensures SaveStep(env, st, JsString(s), iv).store == st.store
  {
    assert s != "" by { assert !Blank(s); }
  }

  /** When encryption fails during save, storage is left unchanged. */
  lemma SaveFailureKeepsStore(env: Env, st: State, s: string, iv: Iv)
    requires !Blank(s)
    requires EncryptStep(env, st, JsString(s), iv).0.Failure?
    ensures SaveStep(env, st, JsString(s), iv).store == st.store
  {
    assert s != "" by { assert !Blank(s); }
  }

  /** A value that is truthy but not a string is not saved and not removed. */
  lemma SaveNonStringIgnored(env: Env, st: State, iv: Iv)
    ensures SaveStep(env, st, JsOther(true), iv) == st
  {
  }

  /** A missing key loads as `''` and changes nothing. */
  lemma LoadMissing(env: Env, st: State)
    requires STORAGE_KEY !in st.store
    ensures LoadStep(env, st) == ("", st)
  {
  }

  /** Corrupt data: when decryption fails, load gives `''`, removes the key
      and leaves every other storage entry as it was. */
  lemma LoadCorruptClears(env: Env, st: State)
    requires STORAGE_KEY in st.store && st.store[STORAGE_KEY] != ""
    requires DecryptStep(env, st, JsString(st.store[STORAGE_KEY])).0.Failure?
    ensures LoadStep(env, st).0 == ""
    ensures LoadStep(env, st).1.store == st.store - {STORAGE_KEY}
    ensures forall k :: k in st.store && k != STORAGE_KEY ==>
      k in LoadStep(env, st).1.store && LoadStep(env, st).1.store[k] == st.store[k]
  {
  }

  /** The class: the `keyPromise` field and `localStorage` as fields. */
  class SystemPromptCrypto {
    const env: Env
    var keyPromise: KeyCache
    var store: map<string, string>

    /** The fields as a value of `State`. */
    function Snapshot(): State
      reads this
    {
      State(keyPromise, store)
    }

    /** The cached key, if any, is the key of this page's origin. */
    predicate Valid()
      reads this
    {
      KeyOk(env, Snapshot())
    }

    constructor (env: Env, store: map<string, string>)
      ensures this.env == env && keyPromise == None && this.store == store
      ensures Valid()
    {
      this.env := env;
      this.keyPromise := None;
      this.store := store;
    }

    method GetDomainKey() returns (key: Result<Key, string>)
      requires Valid()
      modifies this
      ensures Valid()
      ensures (key, Snapshot()) == DomainKeyStep(env, old(Snapshot()))
    {
      if keyPromise.Some? {
        key := keyPromise.value;
        return;
      }
      keyPromise := Some(DeriveDomainKey(env.platform, env.origin));
      key := keyPromise.value;
    }

    method Encrypt(plaintext: JsValue, iv: Iv) returns (r: Result<string, string>)
      requires Valid()
      modifies this
      ensures Valid()
      ensures (r, Snapshot()) == EncryptStep(env, old(Snapshot()), plaintext, iv)
    {
      var guard := PlaintextGuard(plaintext);
      if guard.Some? {
        r := Failure(guard.value);
        return;
      }
      var key := GetDomainKey();
      if key.Failure? {
        r := Failure(ENCRYPT_FAILED);
        return;
      }
      var data := env.platform.encodeUtf8(plaintext.s);
      var encrypted := env.platform.aesGcmEncrypt(key.value, iv, data);
      if encrypted.None? {
        r := Failure(ENCRYPT_FAILED);
        return;
      }
      var combined := Combine(iv, encrypted.value);
      assert combined == iv + encrypted.value;
      var text := env.platform.toBase64(combined);
      if text.None? {
        r := Failure(ENCRYPT_FAILED);
        return;
      }
      r := Success(text.value);
    }

    method Decrypt(encryptedData: JsValue) returns (r: Result<string, string>)
      requires Valid()
      modifies this
      ensures Valid()
      ensures (r, Snapshot()) == DecryptStep(env, old(Snapshot()), encryptedData)
    {
      var guard := EncryptedGuard(encryptedData);
      if guard.Some? {
        r := Failure(guard.value);
        return;
      }
      var key := GetDomainKey();
      if key.Failure? {
        r := Failure(DECRYPT_FAILED);
        return;
      }
      var combined := env.platform.fromBase64(encryptedData.s);
      if combined.None? {
        r := Failure(DECRYPT_FAILED);
        return;
      }
      var (iv, encrypted) := SplitIv(combined.value);
      var decrypted := env.platform.aesGcmDecrypt(key.value, iv, encrypted);
      if decrypted.None? {
        r := Failure(DECRYPT_FAILED);
        return;
      }
      r := Success(env.platform.decodeUtf8(decrypted.value));
    }

    method SaveSystemPrompt(systemPrompt: JsValue, iv: Iv)
      requires Valid()
      modifies this
      ensures Valid()
      ensures Snapshot() == SaveStep(env, old(Snapshot()), systemPrompt, iv)
    {
      if !Truthy(systemPrompt) {
        store := store - {STORAGE_KEY};
        return;
      }
      if !systemPrompt.JsString? {
        return;
      }
      if Blank(systemPrompt.s) {
        store := store - {STORAGE_KEY};
        return;
      }
      var encrypted := Encrypt(systemPrompt, iv);
      if encrypted.Success? && env.storeAccepts(store, STORAGE_KEY, encrypted.value) {
        store := store[STORAGE_KEY := encrypted.value];
      }
    }

    method LoadSystemPrompt() returns (prompt: string)
      requires Valid()
      modifies this
      ensures Valid()
      ensures (prompt, Snapshot()) == LoadStep(env, old(Snapshot()))
    {
      if STORAGE_KEY !in store || store[STORAGE_KEY] == "" {
        prompt := "";
        return;
      }
      var decrypted := Decrypt(JsString(store[STORAGE_KEY]));
      if decrypted.Success? {
        prompt := decrypted.value;
      } else {
        store := store - {STORAGE_KEY};
        prompt := "";
      }
    }
  }
}
