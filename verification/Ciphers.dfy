/**
  Keys resolved for a passphrase, and the ciphers built from them.  Key derivation and
  authenticated encryption are ideal: derivation is injective, and a token opens under the
  key that sealed it and under no other.
 */
module Ciphers {
  import opened Options

  type Salt = nat

  /** Master keys, and the keys derived from them for one agent. */
  datatype Key = Legacy | Salted(salt: Salt) | Derived(agent: nat, master: Key)

  datatype Token = Token(key: Key, plaintext: nat)

  datatype Failure = WrongKey(tried: Key) | WriteRefused

  function Open(key: Key, token: Token): Result<nat, Failure> {
    if token.key == key then Ok(token.plaintext) else Err(WrongKey(key))
  }

  /** _MasterKeys: `write` is absent when new writes are refused. */
  datatype MasterKeys = MasterKeys(write: Option<Key>, read: seq<Key>)

  /** _MasterKeys.map. */
  function MapKeys(keys: MasterKeys, derive: Key -> Key): MasterKeys {
    MasterKeys(if keys.write.None? then None else Some(derive(keys.write.value)),
               seq(|keys.read|, i requires 0 <= i < |keys.read| => derive(keys.read[i])))
  }

  /** The meaning of reading with a list of keys. */
  function DecryptWithAny(keys: seq<Key>, token: Token): Result<nat, Failure>
    requires keys != []
  {
    if token.key in keys then Ok(token.plaintext) else Err(WrongKey(keys[0]))
  }

  /** _decrypt_with_any: try every key in turn, and report the newest key's failure. */
  method TryEachCipher(keys: seq<Key>, token: Token) returns (r: Result<nat, Failure>)
    requires keys != []
    ensures r == DecryptWithAny(keys, token)
  {
    r := Open(keys[0], token);
    if r.Ok? {
      return;
    }
    var newest := r;
    var i := 1;
    while i < |keys|
      invariant 1 <= i <= |keys|
      invariant forall j :: 0 <= j < i ==> keys[j] != token.key
    {
      r := Open(keys[i], token);
      if r.Ok? {
        return;
      }
      i := i + 1;
    }
    r := newest;
  }

  /** AEADCipher, or _ReadFallbackCipher. */
  datatype Cipher = Plain(key: Key) | ReadFallback(writer: Option<Key>, readers: seq<Key>)

  /** _cipher_for. */
  function CipherFor(keys: MasterKeys): Cipher {
    if keys.write.Some? && keys.read == [keys.write.value] then Plain(keys.write.value)
    else ReadFallback(keys.write, keys.read)
  }

  function Encrypt(c: Cipher, plaintext: nat): Result<Token, Failure> {
    match c
    case Plain(key) => Ok(Token(key, plaintext))
    case ReadFallback(None, _) => Err(WriteRefused)
    case ReadFallback(Some(key), _) => Ok(Token(key, plaintext))
  }

  function Decrypt(c: Cipher, token: Token): Result<nat, Failure>
    requires c.ReadFallback? ==> c.readers != []
  {
    match c
    case Plain(key) => Open(key, token)
    case ReadFallback(_, readers) => DecryptWithAny(readers, token)
  }
}
