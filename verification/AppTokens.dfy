/** App tokens: how they are made and written, and the master token that is written once. */
module AppTokens {
  import opened Wrappers
  import opened Codecs
  import opened Keychain
  import Paths

  const TOKEN_KEY_LENGTH := 20
  const TOKEN_SECRET_LENGTH := 30

  /** A new token from random bytes. */
  function GenerateRandomToken(k: Bytes, s: Bytes, isMaster: bool, permissions: seq<string>): AppToken {
    AppToken(EncodeBase64(k), EncodeBase64(s), isMaster, permissions)
  }

  function AccessToken(token: AppToken): string {
    token.key + "." + token.secret
  }

  /** The two parts before the second dot; None for text without a dot. */
  function KeyAndSecret(accessToken: string): Option<(string, string)> {
    var parts := Paths.Split(accessToken, '.');
    if |parts| < 2 then None else Some((parts[0], parts[1]))
  }

  lemma {:induction false} SplitJoined(key: string, rest: string)
    requires '.' !in key
    ensures Paths.Split(key + "." + rest, '.') == [key] + Paths.Split(rest, '.')
  {
    var s := key + "." + rest;
    if key == "" {
      assert s[1..] == rest;
    } else {
      assert s[1..] == key[1..] + "." + rest;
      SplitJoined(key[1..], rest);
      assert [key[0]] + key[1..] == key;
    }
  }

  lemma SplitWhole(s: string)
    ensures Paths.Split(s, '.')[0] == s <==> '.' !in s
  {
    if '.' !in s {
      Paths.SplitFree(s, '.');
    }
  }

  /** An access token parses back exactly when neither the key nor the secret holds a dot. */
  lemma AccessTokenRoundTripIff(token: AppToken)
    ensures KeyAndSecret(AccessToken(token)) == Some((token.key, token.secret)) <==>
      '.' !in token.key && '.' !in token.secret
  {
    if '.' !in token.key {
      SplitJoined(token.key, token.secret);
      SplitWhole(token.secret);
    }
  }

  /**
   * Generated tokens have keys of 27 and secrets of 40 characters that hold
   * exactly the random bytes, are what was asked for, parse back, and do not
   * clash with the master entry.
   */
  lemma GeneratedTokens(k: Bytes, s: Bytes, isMaster: bool, permissions: seq<string>)
    requires |k| == TOKEN_KEY_LENGTH && |s| == TOKEN_SECRET_LENGTH
    ensures var token := GenerateRandomToken(k, s, isMaster, permissions);
      && |token.key| == 27 && |token.secret| == 40
      && KeyAndSecret(AccessToken(token)) == Some((token.key, token.secret))
      && DecodeBase64(token.key) == Some(k) && DecodeBase64(token.secret) == Some(s)
      && token.isMaster == isMaster && token.permissions == permissions
      && TokenName(token.key) != MASTER_NAME
  {
    Base64Shape(k);
    Base64Shape(s);
    DecodeEncodeBase64(k);
    DecodeEncodeBase64(s);
    var token := GenerateRandomToken(k, s, isMaster, permissions);
    AccessTokenRoundTripIff(token);
    assert |TokenName(token.key)| == |TOKEN_PREFIX| + 27 && |MASTER_NAME| == |TOKEN_PREFIX| + 14;
  }

  /** Tokens made from different random bytes have different keys or different secrets, as their bytes have. */
  lemma GeneratedTokensDiffer(k: Bytes, s: Bytes, k': Bytes, s': Bytes, isMaster: bool, isMaster': bool,
                              permissions: seq<string>, permissions': seq<string>)
    ensures var a, b := GenerateRandomToken(k, s, isMaster, permissions),
                        GenerateRandomToken(k', s', isMaster', permissions');
      (a.key == b.key <==> k == k') && (a.secret == b.secret <==> s == s')
  {
    DecodeEncodeBase64(k);
    DecodeEncodeBase64(s);
    DecodeEncodeBase64(k');
    DecodeEncodeBase64(s');
  }

  // ---------------------------------------------------------------------
  // Runs
  // ---------------------------------------------------------------------

  datatype TokenOp = Store(token: AppToken, writes: nat) | Keys(op: Op)

  function AfterOp(s: State, op: TokenOp): State {
    match op
    case Store(token, writes) => PutToken(s, token, writes)
    case Keys(o) => After(s, o)
  }

  function AfterOps(s: State, ops: seq<TokenOp>): State {
    if ops == [] then s else AfterOp(AfterOps(s, ops[..|ops| - 1]), ops[|ops| - 1])
  }

  /** How often a store writes the master entry of the ring. */
  function MasterSetsIn(s: State, op: TokenOp): nat {
    match op
    case Store(token, writes) =>
      if token.isMaster && HasMaster(s) then 0
      else
        (if TokenName(token.key) == MASTER_NAME && writes >= 1 then 1 else 0)
        + (if token.isMaster && writes >= 3 then 1 else 0)
    case Keys(_) => 0
  }

  function MasterSets(s: State, ops: seq<TokenOp>): nat {
    if ops == [] then 0
    else MasterSets(s, ops[..|ops| - 1]) + MasterSetsIn(AfterOps(s, ops[..|ops| - 1]), ops[|ops| - 1])
  }

  predicate NoClash(ops: seq<TokenOp>) {
    forall i :: 0 <= i < |ops| ==> ops[i].Store? ==> ops[i].token.key != MASTER_KEY
  }

  lemma TokenNameInjective(a: string, b: string)
    requires TokenName(a) == TokenName(b)
    ensures a == b
  {
    assert TokenName(a)[|TOKEN_PREFIX|..] == a && TokenName(b)[|TOKEN_PREFIX|..] == b;
  }

  lemma NamesApart(key: string)
    ensures TokenName(key) != KEY_NAME && MASTER_NAME != KEY_NAME
  {
    assert TokenName(key)[0] == 'a' && KEY_NAME[0] == 'k' && MASTER_NAME[0] == 'a';
  }

  /** No operation on keys touches the master entry of the ring. */
  lemma KeysLeaveMaster(s: State, op: Op)
    ensures MASTER_NAME in After(s, op).ring <==> MASTER_NAME in s.ring
    ensures MASTER_NAME in s.ring ==> After(s, op).ring[MASTER_NAME] == s.ring[MASTER_NAME]
  {
    NamesApart("");
  }

  /**
   * A token that is stored changes an existing master entry exactly when it is no
   * master token and carries the reserved key.
   */
  lemma StoreChangesMasterIff(s: State, token: AppToken, writes: nat)
    requires MASTER_NAME in s.ring
    ensures MASTER_NAME in PutToken(s, token, writes).ring
    ensures PutToken(s, token, writes).ring[MASTER_NAME] != s.ring[MASTER_NAME] <==>
      !token.isMaster && token.key == MASTER_KEY && writes > 0 && Token(token) != s.ring[MASTER_NAME]
  {
    if TokenName(token.key) == MASTER_NAME {
      TokenNameInjective(token.key, MASTER_KEY);
    }
  }

  lemma StepMaster(s: State, op: TokenOp)
    requires op.Store? ==> op.token.key != MASTER_KEY
    ensures MasterSetsIn(s, op) <= 1
    ensures MASTER_NAME in s.ring ==>
      && MasterSetsIn(s, op) == 0
      && MASTER_NAME in AfterOp(s, op).ring && AfterOp(s, op).ring[MASTER_NAME] == s.ring[MASTER_NAME]
    ensures MASTER_NAME !in s.ring ==> (MasterSetsIn(s, op) == 1 <==> MASTER_NAME in AfterOp(s, op).ring)
  {
    match op
    case Keys(o) => KeysLeaveMaster(s, o);
    case Store(token, writes) =>
      if TokenName(token.key) == MASTER_NAME {
        TokenNameInjective(token.key, MASTER_KEY);
      }
  }

  /**
   * Over any run of token stores, whose writes may fail, of key generations,
   * imports and deletions, restarts and store wipes, the master entry of the
   * ring is written at most once.
   */
  lemma {:induction false} MasterWrittenOnce(s: State, ops: seq<TokenOp>)
    requires NoClash(ops) && MASTER_NAME !in s.ring
    ensures MasterSets(s, ops) <= 1
    ensures MasterSets(s, ops) == 1 <==> MASTER_NAME in AfterOps(s, ops).ring
  {
    if ops != [] {
      MasterWrittenOnce(s, ops[..|ops| - 1]);
      StepMaster(AfterOps(s, ops[..|ops| - 1]), ops[|ops| - 1]);
    }
  }

  /** Once it is written it stays as it is, and every later master store is refused. */
  lemma {:induction false} MasterStays(s: State, ops: seq<TokenOp>, token: AppToken, writes: nat)
    requires NoClash(ops) && MASTER_NAME in s.ring
    ensures MASTER_NAME in AfterOps(s, ops).ring && AfterOps(s, ops).ring[MASTER_NAME] == s.ring[MASTER_NAME]
    ensures token.isMaster ==>
      && PutTokenResult(AfterOps(s, ops), token, writes) == Err(AlreadyExists)
      && PutToken(AfterOps(s, ops), token, writes) == AfterOps(s, ops)
  {
    if ops != [] {
      MasterStays(s, ops[..|ops| - 1], token, writes);
      StepMaster(AfterOps(s, ops[..|ops| - 1]), ops[|ops| - 1]);
    }
  }

  // ---------------------------------------------------------------------
  // Tokens and key pairs in one ring and store
  // ---------------------------------------------------------------------

  /** Storing a token, wherever it stops, leaves the key pair as it was. */
  lemma PutTokenLeavesKeys(s: State, token: AppToken, writes: nat)
    ensures var after := PutToken(s, token, writes);
      && after.cached == s.cached
      && (KEY_NAME in after.ring <==> KEY_NAME in s.ring)
      && (KEY_NAME in s.ring ==> after.ring[KEY_NAME] == s.ring[KEY_NAME])
      && (PUB_NAME in after.store <==> PUB_NAME in s.store)
      && (PUB_NAME in s.store ==> after.store[PUB_NAME] == s.store[PUB_NAME])
  {
    NamesApart(token.key);
    assert MASTER_NAME[0] == 'a' && PUB_NAME[0] == 'p';
  }

  /**
   * Over any run of token stores, whose writes may fail, and of operations on
   * keys, while a public key is stored everything that reads a key reads the
   * same pair, and reading never runs out of range.
   */
  lemma {:induction false} KeysStayTogetherWithTokens(s: State, ops: seq<TokenOp>)
    requires Inv(s) && forall i :: 0 <= i < |ops| && ops[i].Keys? ==> WellFormed(ops[i].op)
    ensures var t := AfterOps(s, ops);
      && Inv(t) && Retrieve(t) != Err(NoSeparator)
      && (StoredPub(t).Some? ==>
            Retrieve(t).Ok? && LibP2P(t) == Ok(Retrieve(t).value.priv)
            && Pub(Retrieve(t).value.priv) == StoredPub(t).value)
  {
    if ops != [] {
      var n := |ops| - 1;
      KeysStayTogetherWithTokens(s, ops[..n]);
      match ops[n]
      case Store(token, writes) => PutTokenLeavesKeys(AfterOps(s, ops[..n]), token, writes);
      case Keys(op) => StepKeeps(AfterOps(s, ops[..n]), op);
    }
    if StoredPub(AfterOps(s, ops)).Some? {
      SamePair(AfterOps(s, ops));
    }
  }

  /** A stored token is found under its key, and the keys keep together. */
  lemma StoredTokenIsFound(s: State, token: AppToken, writes: nat)
    requires PutTokenResult(s, token, writes).Ok?
    ensures FindToken(PutToken(s, token, writes), token.key) == Some(token)
    ensures Inv(s) ==> Inv(PutToken(s, token, writes))
  {
    PutTokenLeavesKeys(s, token, writes);
  }

  /**
   * What the result of a store says: a success is exactly a token that the
   * ring then holds and, for a master token, a master entry in the ring as
   * well, where there was none.
   */
  lemma StoreResultTells(s: State, token: AppToken, writes: nat)
    requires token.key != MASTER_KEY && FindToken(s, token.key) != Some(token)
    ensures var after := PutToken(s, token, writes);
      PutTokenResult(s, token, writes).Ok? <==>
        && FindToken(after, token.key) == Some(token)
        && (token.isMaster ==> MASTER_NAME in after.ring && after.ring[MASTER_NAME] == Token(token)
                               && MASTER_NAME in after.store && after.store[MASTER_NAME] == TokenKey(token.key))
    ensures PutTokenResult(s, token, writes) == Err(AlreadyExists) <==> token.isMaster && HasMaster(s)
  {
    if TokenName(token.key) == MASTER_NAME {
      TokenNameInjective(token.key, MASTER_KEY);
    }
  }

  /**
   * How far a first master store comes decides what is left: the token is
   * found after the first write, further master stores are refused after the
   * second, and the master entry is there after the third.
   */
  lemma CutMasterStore(s: State, token: AppToken, writes: nat, other: AppToken, writes': nat)
    requires token.isMaster && other.isMaster && token.key != MASTER_KEY && !HasMaster(s)
    ensures var after := PutToken(s, token, writes);
      && (writes >= 1 ==> FindToken(after, token.key) == Some(token))
      && (PutTokenResult(after, other, writes') == Err(AlreadyExists) <==> writes >= 2)
      && (MASTER_NAME in after.ring <==> writes >= 3)
  {
    if TokenName(token.key) == MASTER_NAME {
      TokenNameInjective(token.key, MASTER_KEY);
    }
  }

  /** It is found over any such run, until a store of the same key or, for the reserved key, of a master token. */
  lemma {:induction false} TokenStays(s: State, ops: seq<TokenOp>, key: string)
    requires FindToken(s, key).Some?
    requires forall i :: 0 <= i < |ops| && ops[i].Store? ==>
      ops[i].token.key != key && (key == MASTER_KEY ==> !ops[i].token.isMaster)
    ensures FindToken(AfterOps(s, ops), key) == FindToken(s, key)
  {
    if ops != [] {
      var n := |ops| - 1;
      TokenStays(s, ops[..n], key);
      NamesApart(key);
      if ops[n].Store? {
        if TokenName(ops[n].token.key) == TokenName(key) { TokenNameInjective(ops[n].token.key, key); }
        if MASTER_NAME == TokenName(key) { TokenNameInjective(MASTER_KEY, key); }
      }
    }
  }

  /** All tokens that are stored are generated ones, from key bytes other than those given. */
  ghost predicate OthersGenerated(ops: seq<TokenOp>, k: Bytes) {
    forall i :: 0 <= i < |ops| && ops[i].Store? ==> IsFromOther(ops[i].token, k)
  }

  ghost predicate IsFromOther(token: AppToken, k: Bytes) {
    exists k', s, isMaster, permissions ::
      |k'| == TOKEN_KEY_LENGTH && k' != k && token == GenerateRandomToken(k', s, isMaster, permissions)
  }

  /**
   * A generated token that was stored goes on being found, with its secret and
   * its permissions, over any run in which the other tokens that are stored
   * come from other key bytes, whichever of their writes fail.
   */
  lemma GeneratedTokenStays(s: State, ops: seq<TokenOp>, k: Bytes, secret: Bytes, isMaster: bool,
                            permissions: seq<string>, writes: nat)
    requires |k| == TOKEN_KEY_LENGTH && |secret| == TOKEN_SECRET_LENGTH && OthersGenerated(ops, k)
    ensures var token := GenerateRandomToken(k, secret, isMaster, permissions);
      PutTokenResult(s, token, writes).Ok? ==>
        FindToken(AfterOps(PutToken(s, token, writes), ops), token.key) == Some(token)
  {
    var token := GenerateRandomToken(k, secret, isMaster, permissions);
    if PutTokenResult(s, token, writes).Ok? {
      StoredTokenIsFound(s, token, writes);
      GeneratedTokens(k, secret, isMaster, permissions);
      forall i | 0 <= i < |ops| && ops[i].Store? ensures ops[i].token.key != token.key {
        assert IsFromOther(ops[i].token, k);
        var k', s', m, ps :| |k'| == TOKEN_KEY_LENGTH && k' != k && ops[i].token == GenerateRandomToken(k', s', m, ps);
        GeneratedTokensDiffer(k, secret, k', s', isMaster, m, permissions, ps);
      }
      TokenStays(PutToken(s, token, writes), ops, token.key);
    }
  }
}
