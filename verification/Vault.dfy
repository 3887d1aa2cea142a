/** Backing up the key pair to the vault or a local file, and recovering it on any device. */
module Vault {
  import opened Wrappers
  import opened Codecs
  import opened Keychain

  /** The vault's value is cut and its key checked before the mnemonic is looked at. */
  function ParseVault(value: string): Result<KeyPair, Error> {
    var parts := SplitOn(value, SEPARATOR);
    var priv := DecodeHex(parts[0]);
    if priv.None? then Err(BadHex)
    else if Unmarshal(priv.value).None? then Err(BadKey)
    else if |parts| < 2 then Err(NoSeparator)
    else Ok(KeyPair(Unmarshal(priv.value).value, parts[1]))
  }

  /** What a backup of a keychain prints. */
  function Backup(s: State): Result<string, Error> {
    match LibP2P(s)
    case Err(e) => Err(e)
    case Ok(priv) =>
      match Retrieve(s)
      case Err(e) => Err(e)
      case Ok(pair) => Ok(Print(priv, pair.mnemonic))
  }

  /** How the outside world answers a recovery. */
  datatype Luck = Luck(writes: nat, restores: bool, ringRemoves: bool, storeRemoves: bool)

  /** The keys are imported first and deleted again when the database cannot be restored. */
  function Recover(s: State, priv: Bytes, mnemonic: string, luck: Luck): State {
    var imported := PutKeys(s, priv, mnemonic, luck.writes);
    if luck.writes < 2 || luck.restores then imported else Delete(imported, luck.ringRemoves, luck.storeRemoves)
  }

  function Outcome(luck: Luck): Result<(), Error> {
    if luck.writes < 2 then Err(WriteFailed) else if luck.restores then Ok(()) else Err(RestoreFailed)
  }

  class Space {
    const keychain: KeyChain

    constructor (keychain: KeyChain)
      ensures this.keychain == keychain
    {
      this.keychain := keychain;
    }

    /** Session tokens are fetched first and the value is stored in the vault last; both may fail. */
    method BackupKeysByPassphrase(hasTokens: bool, stores: bool) returns (r: Result<string, Error>)
      modifies keychain
      ensures !hasTokens ==> r == Err(NotFound) && keychain.Snap() == old(keychain.Snap())
      ensures hasTokens ==> keychain.Snap() == AfterRead(old(keychain.Snap()))
      ensures hasTokens && (stores || Backup(old(keychain.Snap())).Err?) ==> r == Backup(old(keychain.Snap()))
      ensures hasTokens && !stores && Backup(old(keychain.Snap())).Ok? ==> r == Err(WriteFailed)
    {
      if !hasTokens { return Err(NotFound); }
      var priv := keychain.GetStoredKeyPairInLibP2PFormat();
      if priv.Err? { return Err(priv.error); }
      var pair := keychain.RetrieveKeyPair();
      if pair.Err? { return Err(pair.error); }
      if !stores { return Err(WriteFailed); }
      r := Ok(EncodeHex(priv.value) + SEPARATOR + pair.value.mnemonic);
    }

    /** Uses the first of the items retrieved from the vault. */
    method RecoverKeysByPassphrase(items: seq<string>, luck: Luck) returns (r: Result<(), Error>)
      modifies keychain
      ensures items == [] ==> r == Err(NotFound) && keychain.Snap() == old(keychain.Snap())
      ensures items != [] ==>
        match ParseVault(items[0])
        case Err(e) => r == Err(e) && keychain.Snap() == old(keychain.Snap())
        case Ok(pair) =>
          && r == Outcome(luck)
          && keychain.Snap() == Recover(old(keychain.Snap()), pair.priv, pair.mnemonic, luck)
    {
      if items == [] { return Err(NotFound); }
      var parts := SplitOn(items[0], SEPARATOR);
      var priv := DecodeHex(parts[0]);
      if priv.None? { return Err(BadHex); }
      var key := Unmarshal(priv.value);
      if key.None? { return Err(BadKey); }
      if |parts| < 2 { return Err(NoSeparator); }
      r := ImportAndRestore(key.value, parts[1], luck);
    }

    /** Imports the keys and restores the database, and deletes the keys again when that fails. */
    method ImportAndRestore(priv: Bytes, mnemonic: string, luck: Luck) returns (r: Result<(), Error>)
      requires IsPrivate(priv)
      modifies keychain
      ensures r == Outcome(luck)
      ensures keychain.Snap() == Recover(old(keychain.Snap()), priv, mnemonic, luck)
    {
      var ok := keychain.ImportExistingKeyPair(priv, mnemonic, luck.writes);
      if !ok { return Err(WriteFailed); }
      if !luck.restores {
        var _ := keychain.DeleteKeypair(luck.ringRemoves, luck.storeRemoves);
        return Err(RestoreFailed);
      }
      r := Ok(());
    }

    /** Writing the backup file may fail. */
    method CreateLocalKeysBackup(writes: bool) returns (r: Result<string, Error>)
      modifies keychain
      ensures r == match LibP2P(old(keychain.Snap()))
                   case Ok(priv) => if writes then Ok(EncodeHex(priv)) else Err(WriteFailed)
                   case Err(e) => Err(e)
      ensures keychain.Snap() == AfterRead(old(keychain.Snap()))
    {
      var priv := keychain.GetStoredKeyPairInLibP2PFormat();
      match priv {
        case Ok(p) => r := if writes then Ok(EncodeHex(p)) else Err(WriteFailed);
        case Err(e) => r := Err(e);
      }
    }

    /** A local backup carries no mnemonic. */
    method RecoverKeysByLocalBackup(text: string, luck: Luck) returns (r: Result<(), Error>)
      modifies keychain
      ensures match LocalKey(text)
              case Err(e) => r == Err(e) && keychain.Snap() == old(keychain.Snap())
              case Ok(key) => r == Outcome(luck) && keychain.Snap() == Recover(old(keychain.Snap()), key, "", luck)
    {
      var priv := DecodeHex(text);
      if priv.None? { return Err(BadHex); }
      var key := Unmarshal(priv.value);
      if key.None? { return Err(BadKey); }
      r := ImportAndRestore(key.value, "", luck);
    }
  }

  /** The key in a local backup. */
  function LocalKey(text: string): Result<Bytes, Error> {
    var priv := DecodeHex(text);
    if priv.None? then Err(BadHex)
    else if Unmarshal(priv.value).None? then Err(BadKey)
    else Ok(Unmarshal(priv.value).value)
  }

  /** Parsing a printed value gives the pair back exactly when the mnemonic does not contain the separator. */
  lemma ParseVaultPrintIff(priv: Bytes, mnemonic: string)
    requires IsPrivate(priv)
    ensures ParseVault(Print(priv, mnemonic)) == Ok(KeyPair(priv, mnemonic)) <==> !Contains(mnemonic, SEPARATOR)
  {
    DecodeEncodeHex(priv);
    SplitAfter(EncodeHex(priv), SEPARATOR, mnemonic);
    SplitFirst(mnemonic, SEPARATOR);
  }

  /** The index out of range is met exactly on the bare hexadecimal form of a private key, in either form. */
  lemma VaultPanicsIff(value: string)
    ensures ParseVault(value) == Err(NoSeparator) <==>
      !Contains(value, SEPARATOR) && DecodeHex(value).Some? && Unmarshal(DecodeHex(value).value).Some?
  {
    SplitFirst(value, SEPARATOR);
  }

  /** A mnemonic that was read from a keychain never contains the separator. */
  lemma ReadMnemonicIsFree(s: State)
    requires Retrieve(s).Ok?
    ensures !Contains(Retrieve(s).value.mnemonic, SEPARATOR)
  {
    SecondPartFree(s.ring[KEY_NAME].text, SEPARATOR);
  }

  /**
   * Whatever mnemonic a device was set up with, a vault backup made on it and
   * recovered on any other device gives that device the same key, mnemonic
   * and public key.
   */
  lemma BackupThenRecover(s: State, t: State, luck: Luck)
    requires Inv(s) && StoredPub(s).Some? && luck.writes >= 2 && luck.restores
    ensures Backup(s).Ok? && ParseVault(Backup(s).value) == Retrieve(s)
    ensures var pair := Retrieve(s).value;
      var after := Recover(t, pair.priv, pair.mnemonic, luck);
      && Retrieve(after) == Retrieve(s) && LibP2P(after) == Ok(pair.priv) && StoredPub(after) == StoredPub(s)
  {
    SamePair(s);
    ReadMnemonicIsFree(s);
    var pair := Retrieve(s).value;
    ParseVaultPrintIff(pair.priv, pair.mnemonic);
    ParsePrintIff(pair.priv, pair.mnemonic);
  }

  /** A local backup gives the same key but an empty mnemonic. */
  lemma LocalBackupThenRecover(s: State, t: State, luck: Luck)
    requires Inv(s) && StoredPub(s).Some? && luck.writes >= 2 && luck.restores
    ensures var priv := Retrieve(s).value.priv;
      && LibP2P(s) == Ok(priv) && LocalKey(EncodeHex(priv)) == Ok(priv)
      && Retrieve(Recover(t, priv, "", luck)) == Ok(KeyPair(priv, ""))
      && StoredPub(Recover(t, priv, "", luck)) == StoredPub(s)
  {
    SamePair(s);
    var priv := Retrieve(s).value.priv;
    DecodeEncodeHex(priv);
    ParsePrint(priv, "");
  }

  /**
   * After a recovery whose restore failed no public key is stored and nothing
   * is cached, even when the ring kept the imported key; the keys that were
   * there before are lost.
   */
  lemma FailedRestoreForgets(s: State, priv: Bytes, mnemonic: string, luck: Luck)
    requires Inv(s) && IsPrivate(priv) && luck.writes >= 2 && !luck.restores && luck.storeRemoves
    ensures var after := Recover(s, priv, mnemonic, luck);
      && Inv(after) && StoredPub(after).None? && after.cached.None?
      && (Retrieve(after).Ok? <==> !luck.ringRemoves)
      && (Retrieve(after).Ok? ==> Retrieve(after).value.priv == priv)
  {
    PutKeysKeepsIff(s, priv, mnemonic, luck.writes);
    DeleteKeepsIff(PutKeys(s, priv, mnemonic, luck.writes), luck.ringRemoves, luck.storeRemoves);
    ParsePrint(priv, mnemonic);
  }

  /**
   * What the result of a recovery says: after a success the keyring, the store
   * and the cache hold the recovered pair; after a failed restore the store
   * and the cache are empty when the removal worked; and after a failed write
   * neither has changed.
   */
  lemma OutcomeTells(s: State, priv: Bytes, mnemonic: string, luck: Luck)
    requires IsPrivate(priv)
    ensures var after := Recover(s, priv, mnemonic, luck);
      match Outcome(luck)
      case Ok(_) =>
        && Retrieve(after) == Ok(KeyPair(priv, SplitOn(mnemonic, SEPARATOR)[0]))
        && StoredPub(after) == Some(Pub(priv)) && after.cached == Some(priv)
      case Err(RestoreFailed) => luck.storeRemoves ==> StoredPub(after).None? && after.cached.None?
      case Err(_) => after.store == s.store && after.cached == s.cached
  {
    ParsePrint(priv, mnemonic);
  }
}
