/**
 * The key pair that lives in three places: the private key with its mnemonic
 * in the keyring, the public key in the store, and a cached private key.
 * The keyring and the store hold the app tokens as well.
 */
module Keychain {
  import opened Wrappers
  import opened Codecs

  const KEY_NAME := "key"
  const PUB_NAME := "pub"
  const SEPARATOR := "___"

  /** A private key is 64 bytes whose second half is the public key. */
  predicate IsPrivate(b: Bytes) {
    |b| == 64
  }

  /** Reading a private key; an older form repeats the public key after it. */
  function Unmarshal(b: Bytes): (r: Option<Bytes>)
    ensures r.Some? ==> IsPrivate(r.value) && r.value <= b
  {
    if |b| == 96 then (if b[64..] == b[32..64] then Some(b[..64]) else None)
    else if IsPrivate(b) then Some(b)
    else None
  }

  function Pub(priv: Bytes): Bytes {
    if IsPrivate(priv) then priv[32..] else []
  }

  datatype AppToken = AppToken(key: string, secret: string, isMaster: bool, permissions: seq<string>)

  datatype Item = Text(text: string) | Token(token: AppToken)

  datatype Entry = PubKey(pub: Bytes) | TokenKey(key: string)

  datatype KeyPair = KeyPair(priv: Bytes, mnemonic: string)

  /** NoSeparator stands for the index out of range that the code runs into. */
  datatype Error = NotFound | BadHex | BadKey | NoSeparator | AlreadyExists | WriteFailed | RestoreFailed

  datatype State = State(ring: map<string, Item>, store: map<string, Entry>, cached: Option<Bytes>)

  // ---------------------------------------------------------------------
  // The text of a key pair
  // ---------------------------------------------------------------------

  function Print(priv: Bytes, mnemonic: string): string {
    EncodeHex(priv) + SEPARATOR + mnemonic
  }

  function Parse(text: string): Result<KeyPair, Error> {
    var parts := SplitOn(text, SEPARATOR);
    if |parts| < 2 then Err(NoSeparator)
    else
      var priv := DecodeHex(parts[0]);
      if priv.None? then Err(BadHex) else Ok(KeyPair(priv.value, parts[1]))
  }

  /** Printing and parsing gives back the key always, and the mnemonic up to a separator inside it. */
  lemma ParsePrint(priv: Bytes, mnemonic: string)
    ensures Parse(Print(priv, mnemonic)) == Ok(KeyPair(priv, SplitOn(mnemonic, SEPARATOR)[0]))
  {
    DecodeEncodeHex(priv);
    SplitAfter(EncodeHex(priv), SEPARATOR, mnemonic);
  }

  /** The round trip is exact precisely for the mnemonics that do not contain the separator. */
  lemma ParsePrintIff(priv: Bytes, mnemonic: string)
    ensures Parse(Print(priv, mnemonic)) == Ok(KeyPair(priv, mnemonic)) <==> !Contains(mnemonic, SEPARATOR)
  {
    ParsePrint(priv, mnemonic);
    SplitFirst(mnemonic, SEPARATOR);
  }

  lemma ParsePanicsIff(text: string)
    ensures Parse(text) == Err(NoSeparator) <==> !Contains(text, SEPARATOR)
  {
    SplitFirst(text, SEPARATOR);
  }

  /** The bytes that are read as a private key are the key itself, or the key with its public key repeated after it. */
  lemma UnmarshalIff(b: Bytes, priv: Bytes)
    ensures Unmarshal(b) == Some(priv) <==> IsPrivate(priv) && (b == priv || b == priv + Pub(priv))
    ensures IsPrivate(priv) ==> |Pub(priv)| == 32
  {
    if |b| == 96 {
      assert b == b[..64] + b[64..];
    }
    if IsPrivate(priv) {
      var longer := priv + Pub(priv);
      assert longer[..64] == priv && longer[64..] == Pub(priv) && longer[32..64] == priv[32..];
    }
  }

  /** How reading the text of a pair fails. */
  lemma ParseFailsIff(text: string)
    ensures Parse(text) == Err(BadHex) <==> Contains(text, SEPARATOR) && DecodeHex(SplitOn(text, SEPARATOR)[0]).None?
    ensures Parse(text).Ok? <==> Contains(text, SEPARATOR) && DecodeHex(SplitOn(text, SEPARATOR)[0]).Some?
  {
    SplitFirst(text, SEPARATOR);
  }

  // ---------------------------------------------------------------------
  // Operations on the state
  // ---------------------------------------------------------------------

  /** Storing a key pair when only the first writes, to the ring and to the store, succeed. */
  function PutKeys(s: State, priv: Bytes, mnemonic: string, writes: nat): State {
    if writes == 0 then s
    else
      var ring := s.ring[KEY_NAME := Text(Print(priv, mnemonic))];
      if writes == 1 then s.(ring := ring)
      else State(ring, s.store[PUB_NAME := PubKey(Pub(priv))], Some(priv))
  }

  function Delete(s: State, ringRemoves: bool, storeRemoves: bool): State {
    var ring := if ringRemoves then s.ring - {KEY_NAME} else s.ring;
    if storeRemoves then State(ring, s.store - {PUB_NAME}, None) else s.(ring := ring)
  }

  function StoredPub(s: State): Option<Bytes> {
    if KEY_NAME in s.ring && PUB_NAME in s.store && s.store[PUB_NAME].PubKey? then Some(s.store[PUB_NAME].pub) else None
  }

  function Retrieve(s: State): Result<KeyPair, Error> {
    if KEY_NAME in s.ring && s.ring[KEY_NAME].Text? then Parse(s.ring[KEY_NAME].text) else Err(NotFound)
  }

  /** The private key that GetStoredKeyPairInLibP2PFormat returns; the public key is the one inside it. */
  function LibP2P(s: State): Result<Bytes, Error> {
    if StoredPub(s).None? then Err(NotFound)
    else if s.cached.Some? then Ok(s.cached.value)
    else
      match Retrieve(s)
      case Err(NoSeparator) => Err(NoSeparator)
      case Err(_) => Err(NotFound)
      case Ok(pair) =>
        var priv := Unmarshal(pair.priv);
        if priv.Some? then Ok(priv.value) else Err(BadKey)
  }

  /** Reading the pair fills the cache. */
  function AfterRead(s: State): State {
    match LibP2P(s)
    case Ok(priv) => s.(cached := Some(priv))
    case Err(_) => s
  }

  // ---------------------------------------------------------------------
  // App tokens
  // ---------------------------------------------------------------------

  const TOKEN_PREFIX := "appToken_"
  const MASTER_KEY := "masterAppToken"
  const MASTER_NAME := TOKEN_PREFIX + MASTER_KEY

  function TokenName(key: string): string {
    TOKEN_PREFIX + key
  }

  predicate HasMaster(s: State) {
    MASTER_NAME in s.store || MASTER_NAME in s.ring
  }

  /** Storing a token when only the first writes succeed; a master token takes three. */
  function PutToken(s: State, token: AppToken, writes: nat): State {
    if writes == 0 || (token.isMaster && HasMaster(s)) then s
    else
      var ring := s.ring[TokenName(token.key) := Token(token)];
      if writes == 1 || !token.isMaster then s.(ring := ring)
      else
        var store := s.store[MASTER_NAME := TokenKey(token.key)];
        if writes == 2 then s.(ring := ring, store := store)
        else s.(ring := ring[MASTER_NAME := Token(token)], store := store)
  }

  function PutTokenResult(s: State, token: AppToken, writes: nat): Result<(), Error> {
    if token.isMaster && HasMaster(s) then Err(AlreadyExists)
    else if writes < (if token.isMaster then 3 else 1) then Err(WriteFailed)
    else Ok(())
  }

  function FindToken(s: State, key: string): Option<AppToken> {
    var name := TokenName(key);
    if name in s.ring && s.ring[name].Token? then Some(s.ring[name].token) else None
  }

  // ---------------------------------------------------------------------
  // The invariant
  // ---------------------------------------------------------------------

  /** The ring holds the given private key. */
  predicate RingHas(s: State, priv: Bytes) {
    KEY_NAME in s.ring && s.ring[KEY_NAME].Text?
    && Parse(s.ring[KEY_NAME].text).Ok? && Parse(s.ring[KEY_NAME].text).value.priv == priv
  }

  predicate RingFits(s: State, pub: Bytes) {
    KEY_NAME in s.ring && s.ring[KEY_NAME].Text?
    && Parse(s.ring[KEY_NAME].text).Ok?
    && IsPrivate(Parse(s.ring[KEY_NAME].text).value.priv) && Pub(Parse(s.ring[KEY_NAME].text).value.priv) == pub
  }

  /** What the ring holds can be read; a stored public key and a cached private key belong to the private key in it. */
  predicate Inv(s: State) {
    && (KEY_NAME in s.ring ==> s.ring[KEY_NAME].Text? && Parse(s.ring[KEY_NAME].text).Ok?)
    && (PUB_NAME in s.store ==> s.store[PUB_NAME].PubKey? && RingFits(s, s.store[PUB_NAME].pub))
    && (s.cached.Some? ==> IsPrivate(s.cached.value) && RingHas(s, s.cached.value))
  }

  /** While a public key is stored, signing, the returned pair and the stored public key go together. */
  lemma SamePair(s: State)
    requires Inv(s) && StoredPub(s).Some?
    ensures Retrieve(s).Ok? && LibP2P(s) == Ok(Retrieve(s).value.priv)
    ensures Pub(Retrieve(s).value.priv) == StoredPub(s).value
  {
  }

  /**
   * Storing a pair, complete or cut short, keeps the places together exactly when it
   * did not stop between ring and store over other keys.
   */
  lemma PutKeysKeepsIff(s: State, priv: Bytes, mnemonic: string, writes: nat)
    requires Inv(s) && IsPrivate(priv)
    ensures Inv(PutKeys(s, priv, mnemonic, writes)) <==>
      (writes == 1 ==>
        && (PUB_NAME in s.store ==> s.store[PUB_NAME].pub == Pub(priv))
        && (s.cached.Some? ==> s.cached.value == priv))
  {
    ParsePrint(priv, mnemonic);
  }

  /** Deleting keeps them together exactly unless the ring forgets a key that the store or the cache still knows. */
  lemma DeleteKeepsIff(s: State, ringRemoves: bool, storeRemoves: bool)
    requires Inv(s)
    ensures Inv(Delete(s, ringRemoves, storeRemoves)) <==>
      storeRemoves || !ringRemoves || (PUB_NAME !in s.store && s.cached.None?)
  {
  }

  /**
   * After a delete no key pair is stored, and yet a signature can be made, with
   * the same key as before, exactly when the removal from the ring failed.
   */
  lemma SignsAfterDeleteIff(s: State, ringRemoves: bool)
    requires Inv(s) && StoredPub(s).Some?
    ensures var after := Delete(s, ringRemoves, true);
      && StoredPub(after).None? && LibP2P(after) == Err(NotFound)
      && (Retrieve(after).Ok? <==> !ringRemoves)
      && (Retrieve(after).Ok? ==> Retrieve(after) == Retrieve(s))
  {
    SamePair(s);
  }

  // ---------------------------------------------------------------------
  // The keychain
  // ---------------------------------------------------------------------

  class KeyChain {
    var ring: map<string, Item>
    var store: map<string, Entry>
    var privKey: Option<Bytes>

    ghost function Snap(): State
      reads this
    {
      State(ring, store, privKey)
    }

    constructor (ring: map<string, Item>, store: map<string, Entry>)
      ensures Snap() == State(ring, store, None)
    {
      this.ring := ring;
      this.store := store;
      this.privKey := None;
    }

    method StoreKeyPair(priv: Bytes, pub: Bytes, mnemonic: string, writes: nat) returns (ok: bool)
      requires pub == Pub(priv)
      modifies this
      ensures ok <==> writes >= 2
      ensures Snap().(cached := None) == PutKeys(old(Snap()), priv, mnemonic, writes).(cached := None)
      ensures privKey == old(privKey)
    {
      if writes == 0 { return false; }
      ring := ring[KEY_NAME := Text(EncodeHex(priv) + SEPARATOR + mnemonic)];
      if writes == 1 { return false; }
      store := store[PUB_NAME := PubKey(pub)];
      ok := true;
    }

    method RetrieveKeyPair() returns (r: Result<KeyPair, Error>)
      ensures r == Retrieve(Snap())
    {
      if KEY_NAME !in ring || !ring[KEY_NAME].Text? { return Err(NotFound); }
      var parts := SplitOn(ring[KEY_NAME].text, SEPARATOR);
      if |parts| < 2 { return Err(NoSeparator); }
      var priv := DecodeHex(parts[0]);
      if priv.None? { return Err(BadHex); }
      r := Ok(KeyPair(priv.value, parts[1]));
    }

    method GetStoredPublicKey() returns (pub: Option<Bytes>)
      ensures pub == StoredPub(Snap())
    {
      if KEY_NAME !in ring { return None; }
      if PUB_NAME !in store || !store[PUB_NAME].PubKey? { return None; }
      pub := Some(store[PUB_NAME].pub);
    }

    /** Stores new keys, over any that are there. */
    method GenerateAndStoreKeyPair(priv: Bytes, mnemonic: string, writes: nat) returns (ok: bool)
      requires IsPrivate(priv)
      modifies this
      ensures ok <==> writes >= 2
      ensures Snap() == PutKeys(old(Snap()), priv, mnemonic, writes)
    {
      ok := StoreKeyPair(priv, Pub(priv), mnemonic, writes);
      if !ok { return; }
      privKey := Some(priv);
    }

    /** Refuses to replace a stored pair. */
    method GenerateKeyPair(priv: Bytes, writes: nat) returns (r: Result<(), Error>)
      requires IsPrivate(priv)
      modifies this
      ensures StoredPub(old(Snap())).Some? ==> r == Err(AlreadyExists) && Snap() == old(Snap())
      ensures StoredPub(old(Snap())).None? ==>
        (r.Ok? <==> writes >= 2) && Snap() == PutKeys(old(Snap()), priv, "", writes)
    {
      var pub := GetStoredPublicKey();
      if pub.Some? { return Err(AlreadyExists); }
      var ok := GenerateAndStoreKeyPair(priv, "", writes);
      r := if ok then Ok(()) else Err(WriteFailed);
    }

    method ImportExistingKeyPair(priv: Bytes, mnemonic: string, writes: nat) returns (ok: bool)
      requires IsPrivate(priv)
      modifies this
      ensures ok <==> writes >= 2
      ensures Snap() == PutKeys(old(Snap()), priv, mnemonic, writes)
    {
      ok := StoreKeyPair(priv, Pub(priv), mnemonic, writes);
      if !ok { return; }
      privKey := Some(priv);
    }

    /** A failing removal from the ring goes unnoticed. */
    method DeleteKeypair(ringRemoves: bool, storeRemoves: bool) returns (ok: bool)
      modifies this
      ensures ok == storeRemoves
      ensures Snap() == Delete(old(Snap()), ringRemoves, storeRemoves)
    {
      if ringRemoves { ring := ring - {KEY_NAME}; }
      if !storeRemoves { return false; }
      store := store - {PUB_NAME};
      privKey := None;
      ok := true;
    }

    method GetStoredKeyPairInLibP2PFormat() returns (r: Result<Bytes, Error>)
      modifies this
      ensures r == LibP2P(old(Snap())) && Snap() == AfterRead(old(Snap()))
    {
      var pub := GetStoredPublicKey();
      if pub.None? { return Err(NotFound); }
      if privKey.Some? { return Ok(privKey.value); }
      var pair := RetrieveKeyPair();
      if pair == Err(NoSeparator) { return Err(NoSeparator); }
      if pair.Err? { return Err(NotFound); }
      var priv := Unmarshal(pair.value.priv);
      if priv.None? { return Err(BadKey); }
      privKey := priv;
      r := Ok(priv.value);
    }

    /** A master token is refused when either the store or the ring knows one. */
    method StoreAppToken(token: AppToken, writes: nat) returns (r: Result<(), Error>)
      modifies this
      ensures r == PutTokenResult(old(Snap()), token, writes)
      ensures Snap() == PutToken(old(Snap()), token, writes)
    {
      if MASTER_NAME in store && token.isMaster { return Err(AlreadyExists); }
      if MASTER_NAME in ring && token.isMaster { return Err(AlreadyExists); }
      if writes == 0 { return Err(WriteFailed); }
      ring := ring[TOKEN_PREFIX + token.key := Token(token)];
      if token.isMaster {
        if writes == 1 { return Err(WriteFailed); }
        store := store[MASTER_NAME := TokenKey(token.key)];
        if writes == 2 { return Err(WriteFailed); }
        ring := ring[MASTER_NAME := Token(token)];
      }
      r := Ok(());
    }

    method GetAppToken(key: string) returns (token: Option<AppToken>)
      ensures token == FindToken(Snap(), key)
    {
      var name := TOKEN_PREFIX + key;
      if name !in ring || !ring[name].Token? { return None; }
      token := Some(ring[name].token);
    }

    /** The key a message is signed with. */
    method Sign() returns (r: Result<Bytes, Error>)
      ensures r == match Retrieve(Snap()) case Ok(pair) => Ok(pair.priv) case Err(e) => Err(e)
    {
      var pair := RetrieveKeyPair();
      match pair {
        case Ok(p) => r := Ok(p.priv);
        case Err(e) => r := Err(e);
      }
    }
  }

  // ---------------------------------------------------------------------
  // Runs
  // ---------------------------------------------------------------------

  datatype Op =
    | Generate(priv: Bytes)
    | Replace(priv: Bytes, mnemonic: string)
    | Remove(ringRemoves: bool)
    | Read
    | Restart
    | Wipe

  predicate WellFormed(op: Op) {
    match op
    case Generate(priv) => IsPrivate(priv)
    case Replace(priv, _) => IsPrivate(priv)
    case _ => true
  }

  /**
   * Replace is an import or a forced generation; all writes to the ring and the
   * store succeed, a removal from the ring may fail.
   */
  function After(s: State, op: Op): State {
    match op
    case Generate(priv) => if StoredPub(s).Some? then s else PutKeys(s, priv, "", 2)
    case Replace(priv, mnemonic) => PutKeys(s, priv, mnemonic, 2)
    case Remove(ringRemoves) => Delete(s, ringRemoves, true)
    case Read => AfterRead(s)
    case Restart => s.(cached := None)
    case Wipe => s.(store := map[])
  }

  function AfterAll(s: State, ops: seq<Op>): State {
    if ops == [] then s else After(AfterAll(s, ops[..|ops| - 1]), ops[|ops| - 1])
  }

  lemma StepKeeps(s: State, op: Op)
    requires Inv(s) && WellFormed(op)
    ensures Inv(After(s, op))
  {
    match op
    case Generate(priv) => PutKeysKeepsIff(s, priv, "", 2);
    case Replace(priv, mnemonic) => PutKeysKeepsIff(s, priv, mnemonic, 2);
    case Remove(ringRemoves) => DeleteKeepsIff(s, ringRemoves, true);
    case Read =>
      if LibP2P(s).Ok? {
        SamePair(s);
      }
    case _ =>
  }

  /** Over any such run, whenever a public key is stored, everything that reads a key reads the same pair. */
  lemma {:induction false} KeysStayTogether(s: State, ops: seq<Op>)
    requires Inv(s) && forall i :: 0 <= i < |ops| ==> WellFormed(ops[i])
    ensures Inv(AfterAll(s, ops))
    ensures Retrieve(AfterAll(s, ops)) != Err(NoSeparator)
    ensures var t := AfterAll(s, ops);
      StoredPub(t).Some? ==>
        Retrieve(t).Ok? && LibP2P(t) == Ok(Retrieve(t).value.priv) && Pub(Retrieve(t).value.priv) == StoredPub(t).value
  {
    if ops != [] {
      var before := ops[..|ops| - 1];
      KeysStayTogether(s, before);
      StepKeeps(AfterAll(s, before), ops[|ops| - 1]);
    }
    if StoredPub(AfterAll(s, ops)).Some? {
      SamePair(AfterAll(s, ops));
    }
  }

  // ---------------------------------------------------------------------
  // What each operation is for
  // ---------------------------------------------------------------------

  /** A read that succeeds is answered from the cache from then on, whatever becomes of the key in the ring. */
  lemma ReadFillsCache(s: State, item: Item)
    requires LibP2P(s).Ok?
    ensures LibP2P(AfterRead(s).(ring := s.ring[KEY_NAME := item])) == LibP2P(s)
    ensures AfterRead(s).ring == s.ring && AfterRead(s).store == s.store
  {
  }

  /** Generating stores a pair only when none is stored; replacing stores it always. */
  lemma GenerateTells(s: State, priv: Bytes, mnemonic: string)
    requires IsPrivate(priv)
    ensures StoredPub(s).Some? ==> After(s, Generate(priv)) == s
    ensures StoredPub(s).None? ==> var t := After(s, Generate(priv));
      StoredPub(t) == Some(Pub(priv)) && Retrieve(t) == Ok(KeyPair(priv, "")) && LibP2P(t) == Ok(priv)
    ensures var t := After(s, Replace(priv, mnemonic));
      && StoredPub(t) == Some(Pub(priv)) && LibP2P(t) == Ok(priv)
      && Retrieve(t) == Ok(KeyPair(priv, SplitOn(mnemonic, SEPARATOR)[0]))
  {
    ParsePrint(priv, "");
    ParsePrint(priv, mnemonic);
  }

  /** A restart forgets the cached key and nothing else; a wiped store makes the pair unknown, not unreadable. */
  lemma RestartTells(s: State)
    ensures var t := After(s, Restart);
      t.cached.None? && StoredPub(t) == StoredPub(s) && Retrieve(t) == Retrieve(s)
    ensures var t := After(s, Wipe);
      StoredPub(t).None? && LibP2P(t) == Err(NotFound) && Retrieve(t) == Retrieve(s)
  {
  }
}
