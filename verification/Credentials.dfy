/** Credential ciphertexts: an abstract keyed cipher whose plaintexts are bound to a channel and a kind. */
module Credentials {
  import opened Wrappers

  type Id = nat
  type Key = nat

  const MAX_BYTES := 16 * 1024

  datatype Kind = AccessToken | ChannelSecret

  datatype Envelope =
    | Envelope(version: int, channel: Id, kind: Kind, value: string)
    | Malformed

  /** Only the key a ciphertext was sealed with opens it; anything else is noise. */
  datatype Ciphertext = Sealed(key: Key, envelope: Envelope) | Noise

  datatype Pair = Pair(token: Ciphertext, secret: Ciphertext)

  function Utf8Size(s: string): nat {
    if |s| == 0 then 0
    else
      var c := s[0] as int;
      (if c < 0x80 then 1 else if c < 0x800 then 2 else if c < 0x1_0000 then 3 else 4) + Utf8Size(s[1..])
  }

  predicate ValidValue(s: string) {
    s != "" && Utf8Size(s) <= MAX_BYTES
  }

  /** The keyring parser refuses an empty ring. */
  predicate Keyring(keys: seq<Key>) {
    |keys| > 0
  }

  function Encrypt(keys: seq<Key>, channel: Id, kind: Kind, value: string): Option<Ciphertext>
    requires Keyring(keys)
  {
    if ValidValue(value) then Some(Sealed(keys[0], Envelope(1, channel, kind, value))) else None
  }

  function Decrypt(keys: seq<Key>, channel: Id, kind: Kind, c: Ciphertext): Option<string> {
    if && c.Sealed? && c.key in keys && c.envelope.Envelope?
       && c.envelope.version == 1 && c.envelope.channel == channel && c.envelope.kind == kind
       && ValidValue(c.envelope.value)
    then Some(c.envelope.value)
    else None
  }

  function Rotate(keys: seq<Key>, channel: Id, kind: Kind, c: Ciphertext): Option<Ciphertext>
    requires Keyring(keys)
  {
    var plain := Decrypt(keys, channel, kind, c);
    if plain.Some? then Encrypt(keys, channel, kind, plain.value) else None
  }

  /** A value is read exactly where it was sealed for, under a key of the ring, in the form every writer uses. */
  lemma DecryptsExactly(keys: seq<Key>, channel: Id, kind: Kind, c: Ciphertext, value: string)
    ensures Decrypt(keys, channel, kind, c) == Some(value) <==>
              ValidValue(value) && exists k :: k in keys && c == Sealed(k, Envelope(1, channel, kind, value))
    ensures Keyring(keys) && Decrypt(keys, channel, kind, c) == Some(value) ==>
              Encrypt(keys, channel, kind, value).Some? && Encrypt(keys, channel, kind, value) == Rotate(keys, channel, kind, c)
  {
  }

  /** Rotation changes the key and not the meaning, and says so exactly when there is a meaning. */
  lemma RotateKeepsThePlaintext(keys: seq<Key>, channel: Id, kind: Kind, c: Ciphertext)
    requires Keyring(keys)
    ensures Rotate(keys, channel, kind, c).Some? <==> Decrypt(keys, channel, kind, c).Some?
    ensures Rotate(keys, channel, kind, c).Some? ==>
              && Decrypt(keys[..1], channel, kind, Rotate(keys, channel, kind, c).value) == Decrypt(keys, channel, kind, c)
              && Decrypt(keys, channel, kind, Rotate(keys, channel, kind, c).value) == Decrypt(keys, channel, kind, c)
  {
    assert keys[..1][0] == keys[0];
  }

  /** A ciphertext of one channel or kind is unreadable in any other place. */
  lemma CiphertextsAreBound(keys: seq<Key>, channel: Id, kind: Kind, value: string, other: Id, otherKind: Kind)
    requires Keyring(keys) && Encrypt(keys, channel, kind, value).Some?
    ensures Decrypt(keys, other, otherKind, Encrypt(keys, channel, kind, value).value)
            == if other == channel && otherKind == kind then Some(value) else None
  {
  }

  datatype Readings = Readings(token: Option<string>, secret: Option<string>)
  {
    predicate Complete() {
      token.Some? && secret.Some?
    }
  }

  function ReadPair(keys: seq<Key>, channel: Id, p: Pair): Readings {
    Readings(Decrypt(keys, channel, AccessToken, p.token), Decrypt(keys, channel, ChannelSecret, p.secret))
  }

  lemma PrimaryReadsLess(keys: seq<Key>, channel: Id, p: Pair)
    requires Keyring(keys) && ReadPair(keys[..1], channel, p).Complete()
    ensures ReadPair(keys, channel, p) == ReadPair(keys[..1], channel, p)
  {
  }
}
