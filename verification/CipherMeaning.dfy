/** What ciphers and derived key sets can open. */
module CipherMeaning {
  import opened Options
  import opened Ciphers

  /** Whatever representation is chosen, a cipher reads with all read keys and writes with the write key. */
  lemma CipherMeansItsKeys(keys: MasterKeys, token: Token, plaintext: nat)
    requires keys.read != []
    ensures Decrypt(CipherFor(keys), token) == DecryptWithAny(keys.read, token)
    ensures match keys.write
            case None => Encrypt(CipherFor(keys), plaintext) == Err(WriteRefused)
            case Some(key) => Encrypt(CipherFor(keys), plaintext) == Ok(Token(key, plaintext))
  {
    if keys.write.Some? && keys.read == [keys.write.value] {
      assert token.key in keys.read <==> token.key == keys.write.value;
    }
  }

  /** A derived cipher opens exactly the derived forms of what the underived cipher opens. */
  lemma DerivationKeepsReading(keys: MasterKeys, agent: nat, token: Token)
    requires keys.read != []
    ensures var derived := MapKeys(keys, k => Derived(agent, k));
      (DecryptWithAny(derived.read, Token(Derived(agent, token.key), token.plaintext)) == Ok(token.plaintext))
      <==> (DecryptWithAny(keys.read, token) == Ok(token.plaintext))
  {
    var derived := MapKeys(keys, k => Derived(agent, k));
    if token.key in keys.read {
      var i :| 0 <= i < |keys.read| && keys.read[i] == token.key;
      assert derived.read[i] == Derived(agent, token.key);
    }
  }
}
