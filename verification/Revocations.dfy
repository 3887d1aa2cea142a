/**
 * What a revocation does to the records of its recipient: the query for them
 * compares the bucket of a record with the bucket key of a path.
 */
module Revocations {
  import opened Wrappers
  import opened Sharing
  import opened SharingRuns

  /** The query of DeleteReceivedFiles: it compares the bucket of a record with the bucket key of a path. */
  predicate Matches(r: Received, user: User, path: FullPath, key: string) {
    r.holder == user && r.dbId == path.dbId && r.bucket == path.bucketKey && r.path == path.path && r.key == key
  }

  predicate MatchesAny(r: Received, user: User, paths: seq<FullPath>, keys: seq<string>)
    requires |paths| == |keys|
  {
    exists i :: 0 <= i < |paths| && Matches(r, user, paths[i], keys[i])
  }

  function DeleteReceived(records: seq<Received>, user: User, paths: seq<FullPath>, keys: seq<string>): seq<Received>
    requires |paths| == |keys|
  {
    if records == [] then []
    else
      (if MatchesAny(records[0], user, paths, keys) then [] else [records[0]])
      + DeleteReceived(records[1..], user, paths, keys)
  }

  // Whatever keys travel, the places of files do: every record and every path
  // of a message names the mirror slug and the bucket key of some owner.

  ghost predicate IsOwned(o: Owners, bucket: string, bucketKey: string) {
    bucket == MIRROR_SLUG && exists u :: u in o && o[u].bucketKey == bucketKey
  }

  ghost predicate PathsOwned(o: Owners, ps: seq<FullPath>) {
    forall i :: 0 <= i < |ps| ==> IsOwned(o, ps[i].bucket, ps[i].bucketKey)
  }

  ghost predicate WriteOwned(o: Owners, x: Write) {
    match x
    case WriteReceived(p, _, _, _, _) => IsOwned(o, p.bucket, p.bucketKey)
    case Deliver(_, body) => PathsOwned(o, body.paths)
    case _ => true
  }

  ghost predicate PlanOwned(o: Owners, plan: seq<Write>) {
    forall k :: 0 <= k < |plan| ==> WriteOwned(o, plan[k])
  }

  ghost predicate PlacesInv(o: Owners, s: State) {
    && (forall r :: r in s.world.records ==> IsOwned(o, r.bucket, r.bucketKey))
    && (forall m :: m in s.world.mail ==> PathsOwned(o, m.body.paths))
    && (forall c :: 0 <= c < |s.calls| ==> PlanOwned(o, s.calls[c].plan))
  }

  lemma SharePlanOwned(o: Owners, rs: seq<Resolved>, recipients: seq<User>)
    requires PathsOwned(o, PathsOf(rs))
    ensures PlanOwned(o, SharePlan(rs, recipients)) && PlanOwned(o, UnsharePlan(rs, recipients))
  {
  }

  lemma BeginOwned(o: Owners, s: State, user: User, request: Request)
    requires PlacesInv(o, s) && user in o
    ensures var plan := PlanFor(o[user], s.world, user, request); plan.Some? ==> PlanOwned(o, plan.value)
  {
    match request
    case Share(paths, recipients) =>
      if AllResolve(o[user], s.world.records, user, paths) {
        SharePlanOwned(o, ResolveAll(o[user], s.world.records, user, paths), recipients);
      }
    case Unshare(paths, recipients) =>
      if AllResolve(o[user], s.world.records, user, paths) {
        SharePlanOwned(o, ResolveAll(o[user], s.world.records, user, paths), recipients);
      }
    case Handle(id, accept) =>
      if CanHandle(s.world, user, id) {
        assert s.world.mail[id] in s.world.mail;
      }
  }

  lemma AdvanceOwned(o: Owners, s: State, c: nat)
    requires PlacesInv(o, s) && CanStep(s, c)
    ensures PlacesInv(o, Apply(o, s, Advance(c)))
  {
    var x := s.calls[c].plan[s.calls[c].next];
    assert WriteOwned(o, x);
  }

  lemma StepOwned(o: Owners, s: State, a: Action)
    requires PlacesInv(o, s) && Enabled(o, s, a)
    ensures PlacesInv(o, Apply(o, s, a))
  {
    match a
    case Begin(user, request) => BeginOwned(o, s, user, request);
    case Advance(c) => AdvanceOwned(o, s, c);
    case Skip(c) => assert PlanOwned(o, s.calls[c].plan);
    case Abort(c) => assert PlanOwned(o, s.calls[c].plan);
  }

  /** In every run, whatever is shared with whom, no file changes its place. */
  lemma {:induction false} PlacesStay(o: Owners, run: seq<State>, acts: seq<Action>, k: nat)
    requires IsRun(o, run, acts) && k <= |acts|
    ensures PlacesInv(o, run[k])
  {
    if k > 0 {
      PlacesStay(o, run, acts, k - 1);
      StepOwned(o, run[k - 1], acts[k - 1]);
    }
  }

  lemma {:induction false} DeletedIff(records: seq<Received>, user: User, paths: seq<FullPath>, keys: seq<string>,
                                      r: Received)
    requires |paths| == |keys|
    ensures r in DeleteReceived(records, user, paths, keys) <==> r in records && !MatchesAny(r, user, paths, keys)
  {
    if records != [] {
      DeletedIff(records[1..], user, paths, keys, r);
      assert records == [records[0]] + records[1..];
    }
  }

  lemma {:induction false} DeletesNothing(records: seq<Received>, user: User, paths: seq<FullPath>, keys: seq<string>)
    requires |paths| == |keys| && forall r :: r in records ==> !MatchesAny(r, user, paths, keys)
    ensures DeleteReceived(records, user, paths, keys) == records
  {
    if records != [] {
      DeletesNothing(records[1..], user, paths, keys);
    }
  }

  /**
   * In every run, a revocation removes a record of its recipient if and only
   * if one of its paths has the record's database, path and key, and a bucket
   * key that is the mirror slug itself.
   */
  lemma RevocationDeletesIff(o: Owners, run: seq<State>, acts: seq<Action>, m: Mail, r: Received)
    requires IsRun(o, run, acts)
    requires m in run[|acts|].world.mail && m.body.Revoke?
    requires r in run[|acts|].world.records && r.holder == m.to
    ensures |m.body.paths| == |m.body.keys|
    ensures r !in DeleteReceived(run[|acts|].world.records, m.to, m.body.paths, m.body.keys) <==>
      exists i :: 0 <= i < |m.body.paths| && m.body.paths[i].bucketKey == MIRROR_SLUG
        && m.body.paths[i].dbId == r.dbId && m.body.paths[i].path == r.path && m.body.keys[i] == r.key
  {
    RunOrder(o, run, acts, |acts|);
    assert MailBacked(run[|acts|].world, m);
    PlacesStay(o, run, acts, |acts|);
    assert r.bucket == MIRROR_SLUG;
    var paths, keys := m.body.paths, m.body.keys;
    DeletedIff(run[|acts|].world.records, m.to, paths, keys, r);
    forall i | 0 <= i < |paths|
      ensures Matches(r, m.to, paths[i], keys[i]) <==>
        paths[i].bucketKey == MIRROR_SLUG && paths[i].dbId == r.dbId && paths[i].path == r.path && keys[i] == r.key
    {
    }
  }

  /** So no revocation that is sent in any run removes a record, unless a bucket's key is the mirror slug. */
  lemma RevocationKeepsRecords(o: Owners, run: seq<State>, acts: seq<Action>, m: Mail)
    requires IsRun(o, run, acts)
    requires forall u :: u in o ==> o[u].bucketKey != MIRROR_SLUG
    requires m in run[|acts|].world.mail && m.body.Revoke?
    ensures |m.body.paths| == |m.body.keys|
    ensures DeleteReceived(run[|acts|].world.records, m.to, m.body.paths, m.body.keys) == run[|acts|].world.records
  {
    RunOrder(o, run, acts, |acts|);
    assert MailBacked(run[|acts|].world, m);
    PlacesStay(o, run, acts, |acts|);
    assert PathsOwned(o, m.body.paths);
    forall r | r in run[|acts|].world.records ensures !MatchesAny(r, m.to, m.body.paths, m.body.keys) {
      assert IsOwned(o, r.bucket, r.bucketKey);
    }
    DeletesNothing(run[|acts|].world.records, m.to, m.body.paths, m.body.keys);
  }
}
