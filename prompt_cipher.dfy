/** The stateless parts of `SystemPromptCrypto` in
    frontend/vue-app/src/utils/crypto.js: key derivation from the page origin,
    the input guards of `encrypt` and `decrypt`, and the IV-then-ciphertext
    framing of the stored blob. The browser's cryptography and encodings are
    parameters of the model (`Platform`); what the proofs need of them is the
    predicate `Sound`, taken as a hypothesis. */
module PromptCipher {
  import opened Wrappers
  import opened ByteSeq

  /** An AES-GCM key; the page never looks inside it. */
  type Key = Bytes

  const IV_LENGTH := 12

  /** The 12 random bytes of `crypto.getRandomValues(new Uint8Array(12))`. */
  type Iv = b: Bytes | |b| == IV_LENGTH witness [0, 0, 0, 0, 0, 0, 0, 0, 0, 0, 0, 0]

  /** PBKDF2 parameters of `_deriveDomainKey`. */
  const SALT := "ollama-webui-system-prompt"
  const ITERATIONS := 100000

  const KEY_DERIVATION_FAILED := "Crypto key derivation failed"
  const INVALID_PLAINTEXT := "Invalid plaintext for encryption"
  const ENCRYPT_FAILED := "Failed to encrypt system prompt"
  const INVALID_ENCRYPTED := "Invalid encrypted data for decryption"
  const DECRYPT_FAILED := "Failed to decrypt system prompt"

  /** The browser functions the class calls, each returning `None` where it
      rejects or throws. */
  datatype Platform = Platform(
    /** `importKey` of the password then `deriveKey` (PBKDF2, SHA-256, to AES-GCM 256). */
    pbkdf2: (Bytes, Bytes, nat) -> Option<Key>,
    /** `crypto.subtle.encrypt({name: 'AES-GCM', iv}, key, data)` */
    aesGcmEncrypt: (Key, Bytes, Bytes) -> Option<Bytes>,
    /** `crypto.subtle.decrypt({name: 'AES-GCM', iv}, key, data)` */
    aesGcmDecrypt: (Key, Bytes, Bytes) -> Option<Bytes>,
    /** `new TextEncoder().encode(s)` */
    encodeUtf8: string -> Bytes,
    /** `new TextDecoder().decode(b)` */
    decodeUtf8: Bytes -> string,
    /** `btoa(String.fromCharCode(...b))`; the spread passes every byte as
        its own argument, so past the engine's argument limit the call throws
        a `RangeError` and this is `None`. */
    toBase64: Bytes -> Option<string>,
    /** `atob(s)` then `charCodeAt` of each character */
    fromBase64: string -> Option<Bytes>)

  const BOM: char := '\U{FEFF}'

  /** What `new TextDecoder()` does to a leading byte order mark: with the
      default `ignoreBOM: false` it is consumed, not returned. */
  function DropBom(s: string): string {
    if |s| > 0 && s[0] == BOM then s[1..] else s
  }

  /** The assumed behaviour of the browser functions: AES-GCM decryption
      with the same key and IV undoes encryption, UTF-8 decoding undoes
      encoding except that a leading U+FEFF is dropped, and base64 decoding
      undoes an encoding that succeeded, which is non-empty for a non-empty
      byte string. None of this is proved here. */
  ghost predicate Sound(p: Platform) {
    && (forall k, iv, data :: p.aesGcmEncrypt(k, iv, data).Some? ==>
          p.aesGcmDecrypt(k, iv, p.aesGcmEncrypt(k, iv, data).value) == Some(data))
    && (forall s :: p.decodeUtf8(p.encodeUtf8(s)) == DropBom(s))
    && (forall b :: p.toBase64(b).Some? ==> p.fromBase64(p.toBase64(b).value) == Some(b))
    && (forall b :: p.toBase64(b).Some? && b != [] ==> p.toBase64(b).value != "")
  }

  /** A JavaScript argument: a string, or some other value with its truthiness. */
  datatype JsValue = JsString(s: string) | JsOther(truthy: bool)

  predicate Truthy(v: JsValue) {
    match v
    case JsString(s) => s != ""
    case JsOther(t) => t
  }

  /** `_deriveDomainKey`: PBKDF2 over the origin with the fixed salt; any
      failure becomes the one fixed message. */
  function DeriveDomainKey(p: Platform, origin: string): (k: Result<Key, string>)
    ensures k.Success? <==> p.pbkdf2(p.encodeUtf8(origin), p.encodeUtf8(SALT), ITERATIONS).Some?
    ensures k.Success? ==> Some(k.value) == p.pbkdf2(p.encodeUtf8(origin), p.encodeUtf8(SALT), ITERATIONS)
    ensures k.Failure? ==> k.error == "Crypto key derivation failed"
  {
    match p.pbkdf2(p.encodeUtf8(origin), p.encodeUtf8(SALT), ITERATIONS)
    case Some(key) => Success(key)
    case None => Failure(KEY_DERIVATION_FAILED)
  }

  /** The guard of `encrypt`: `!plaintext || typeof plaintext !== 'string'`. */
  function PlaintextGuard(v: JsValue): (err: Option<string>)
    ensures err.None? <==> v.JsString? && v.s != ""
    ensures err.Some? ==> err.value == "Invalid plaintext for encryption"
  {
    if !Truthy(v) || !v.JsString? then Some(INVALID_PLAINTEXT) else None
  }

  /** The guard of `decrypt`, the same test with its own message. */
  function EncryptedGuard(v: JsValue): (err: Option<string>)
    ensures err.None? <==> v.JsString? && v.s != ""
    ensures err.Some? ==> err.value == "Invalid encrypted data for decryption"
  {
    if !Truthy(v) || !v.JsString? then Some(INVALID_ENCRYPTED) else None
  }

  /** `combined.slice(0, 12)` and `combined.slice(12)`; `slice` clamps to the
      length, so a short blob gives a short IV and no ciphertext. */
  function SplitIv(blob: Bytes): (parts: (Bytes, Bytes))
    ensures parts.0 + parts.1 == blob
    ensures |parts.0| == if |blob| < IV_LENGTH then |blob| else IV_LENGTH
  {
    if |blob| < IV_LENGTH then (blob, []) else (blob[..IV_LENGTH], blob[IV_LENGTH..])
  }

  /** The split on decryption takes apart exactly what encryption framed. */
  lemma SplitFrame(iv: Iv, ct: Bytes)
    ensures SplitIv(iv + ct) == (iv, ct)
  {
    assert (iv + ct)[..IV_LENGTH] == iv;
    assert (iv + ct)[IV_LENGTH..] == ct;
  }

  /** `dst.set(src, offset)` of a `Uint8Array`: copies `src` in place from
      `offset` on and leaves the rest of `dst` alone. */
  method SetAt(dst: array<byte>, src: Bytes, offset: nat)
    requires offset + |src| <= dst.Length
    modifies dst
    ensures dst[..] == old(dst[..offset]) + src + old(dst[offset + |src|..])
  {
    for i := 0 to |src|
      invariant forall j :: 0 <= j < offset ==> dst[j] == old(dst[j])
      invariant forall j :: 0 <= j < i ==> dst[offset + j] == src[j]
      invariant forall j :: offset + |src| <= j < dst.Length ==> dst[j] == old(dst[j])
    {
      dst[offset + i] := src[i];
    }
    assert dst[..] == old(dst[..offset]) + src + old(dst[offset + |src|..]) by {
      forall j | 0 <= j < dst.Length
        ensures dst[j] == (old(dst[..offset]) + src + old(dst[offset + |src|..]))[j]
      {
        if j < offset {
        } else if j < offset + |src| {
          assert dst[offset + (j - offset)] == src[j - offset];
        }
      }
    }
  }

  /** Lines 90-92: a buffer of `iv.length + encrypted.byteLength` bytes holding
      the IV followed by the ciphertext. */
  method Combine(iv: Iv, ct: Bytes) returns (blob: Bytes)
    ensures |blob| == IV_LENGTH + |ct|
    ensures blob[..IV_LENGTH] == iv && blob[IV_LENGTH..] == ct
  {
    var combined := new byte[|iv| + |ct|];
    SetAt(combined, iv, 0);
    SetAt(combined, ct, |iv|);
    blob := combined[..];
  }

  /** The work inside the `try` of `encrypt`, once the key promise has
      settled to `key`; every failure becomes the one fixed message. */
  function Seal(p: Platform, key: Result<Key, string>, iv: Iv, plaintext: string): (r: Result<string, string>)
    ensures r.Success? <==>
      && key.Success?
      && p.aesGcmEncrypt(key.value, iv, p.encodeUtf8(plaintext)).Some?
      && p.toBase64(iv + p.aesGcmEncrypt(key.value, iv, p.encodeUtf8(plaintext)).value).Some?
    ensures r.Success? ==>
      Some(r.value) == p.toBase64(iv + p.aesGcmEncrypt(key.value, iv, p.encodeUtf8(plaintext)).value)
    ensures r.Failure? ==> r.error == "Failed to encrypt system prompt"
  {
    match key
    case Failure(_) => Failure(ENCRYPT_FAILED)
    case Success(k) =>
      match p.aesGcmEncrypt(k, iv, p.encodeUtf8(plaintext))
      case None => Failure(ENCRYPT_FAILED)
      case Some(ct) =>
        match p.toBase64(iv + ct)
        case None => Failure(ENCRYPT_FAILED)
        case Some(text) => Success(text)
  }

  /** The work inside the `try` of `decrypt`: base64-decode, split off the
      IV, decrypt, decode as UTF-8. */
  function Open(p: Platform, key: Result<Key, string>, data: string): (r: Result<string, string>)
    ensures r.Success? <==>
      && key.Success?
      && p.fromBase64(data).Some?
      && p.aesGcmDecrypt(key.value, SplitIv(p.fromBase64(data).value).0,
                         SplitIv(p.fromBase64(data).value).1).Some?
    ensures r.Success? ==>
      r.value == p.decodeUtf8(p.aesGcmDecrypt(key.value, SplitIv(p.fromBase64(data).value).0,
                                              SplitIv(p.fromBase64(data).value).1).value)
    ensures r.Failure? ==> r.error == "Failed to decrypt system prompt"
  {
    match key
    case Failure(_) => Failure(DECRYPT_FAILED)
    case Success(k) =>
      match p.fromBase64(data)
      case None => Failure(DECRYPT_FAILED)
      case Some(blob) =>
        var (iv, ct) := SplitIv(blob);
        match p.aesGcmDecrypt(k, iv, ct)
        case None => Failure(DECRYPT_FAILED)
        case Some(plain) => Success(p.decodeUtf8(plain))
  }

  /** Decryption with the same key undoes encryption up to a leading byte
      order mark, which the decoder drops, and the stored text is never
      empty, given the assumed behaviour of the browser functions. */
  lemma OpenSeal(p: Platform, key: Result<Key, string>, iv: Iv, plaintext: string)
    requires Sound(p)
    requires Seal(p, key, iv, plaintext).Success?
    ensures Seal(p, key, iv, plaintext).value != ""
    ensures Open(p, key, Seal(p, key, iv, plaintext).value) == Success(DropBom(plaintext))
    ensures plaintext == [] || plaintext[0] != BOM ==>
      Open(p, key, Seal(p, key, iv, plaintext).value) == Success(plaintext)
  {
    var ct := p.aesGcmEncrypt(key.value, iv, p.encodeUtf8(plaintext)).value;
    assert p.fromBase64(p.toBase64(iv + ct).value) == Some(iv + ct);
    assert iv + ct != [] by { assert |iv + ct| >= IV_LENGTH; }
    SplitFrame(iv, ct);
    assert p.aesGcmDecrypt(key.value, iv, ct) == Some(p.encodeUtf8(plaintext));
  }

  /** A plaintext that starts with U+FEFF does not come back as it went in:
      decryption returns it without the mark. */
  lemma LeadingBomLost(p: Platform, key: Result<Key, string>, iv: Iv, rest: string)
    requires Sound(p)
    requires Seal(p, key, iv, [BOM] + rest).Success?
    ensures Open(p, key, Seal(p, key, iv, [BOM] + rest).value) == Success(rest)
    ensures Open(p, key, Seal(p, key, iv, [BOM] + rest).value) != Success([BOM] + rest)
  {
    OpenSeal(p, key, iv, [BOM] + rest);
    assert ([BOM] + rest)[1..] == rest;
    assert |[BOM] + rest| != |rest|;
  }
}
