/**
 * Which encryption keys travel with shared files and name them at the hub:
 * along any chain of shares and reshares they are the keys of the owners'
 * buckets, as long as each call either names its own files without another's
 * database and reshares only files that were accepted, or begins with a file
 * that was rejected and therefore comes to no role and no message; a call to
 * anyone that does neither sends a wrong key.
 */
module SharingKeys {
  import opened Wrappers
  import opened Sharing
  import opened SharingRuns
  import opened SharingRoles

  /** Databases are told apart by their ids and no two buckets have the same key. */
  ghost predicate ValidOwners(o: Owners) {
    && (forall u :: u in o ==> o[u].dbId != "" && o[u].encryptionKey != "")
    && (forall u, v :: u in o && v in o && u != v ==>
         o[u].dbId != o[v].dbId && o[u].encryptionKey != o[v].encryptionKey)
  }

  /** The place of a file is the bucket of some owner, and the key is that bucket's key. */
  ghost predicate Opens(o: Owners, dbId: string, bucket: string, bucketKey: string, key: string) {
    bucket == MIRROR_SLUG && exists u :: u in o && o[u] == OwnBucket(dbId, bucketKey, key)
  }

  ghost predicate PathOpens(o: Owners, p: FullPath, key: string) {
    Opens(o, p.dbId, p.bucket, p.bucketKey, key)
  }

  /** The same without a key: what a rejected record keeps. */
  ghost predicate Locates(o: Owners, dbId: string, bucket: string, bucketKey: string) {
    exists key :: Opens(o, dbId, bucket, bucketKey, key)
  }

  ghost predicate RecordRight(o: Owners, r: Received) {
    && Locates(o, r.dbId, r.bucket, r.bucketKey)
    && if r.accepted then Opens(o, r.dbId, r.bucket, r.bucketKey, r.key) else r.key == ""
  }

  ghost predicate BodyRight(o: Owners, body: Body) {
    && |body.paths| == |body.keys|
    && forall i :: 0 <= i < |body.paths| ==> PathOpens(o, body.paths[i], body.keys[i])
  }

  ghost predicate WriteRight(o: Owners, x: Write) {
    match x
    case WriteSent(_, _) => true
    case PushRoles(p, key, _, _) => PathOpens(o, p, key)
    case Deliver(_, body) => BodyRight(o, body)
    case WriteReceived(p, key, _, accepted, _) =>
      Locates(o, p.dbId, p.bucket, p.bucketKey) && if accepted then PathOpens(o, p, key) else key == ""
  }

  ghost predicate WorldRight(o: Owners, w: World) {
    && (forall r :: r in w.records ==> RecordRight(o, r))
    && (forall m :: m in w.mail ==> BodyRight(o, m.body))
    && (forall p :: p in w.pushes ==> PathOpens(o, p.file, p.key))
  }

  ghost predicate PlanRight(o: Owners, plan: seq<Write>) {
    forall k :: 0 <= k < |plan| ==> WriteRight(o, plan[k])
  }

  ghost predicate KeysInv(o: Owners, s: State) {
    && WorldRight(o, s.world)
    && forall c :: 0 <= c < |s.calls| ==> PlanRight(o, s.calls[c].plan)
  }

  // ---------------------------------------------------------------------
  // Resolving one path
  // ---------------------------------------------------------------------

  /** The caller's own file without another's database, or a received file that was accepted. */
  predicate ProperPath(own: OwnBucket, records: seq<Received>, user: User, p: FullPath) {
    if InPersonalBucket(p) then p.dbId == "" || p.dbId == own.dbId
    else
      var r := Find(records, user, p.dbId, p.bucket, p.path);
      r.Some? && r.value.accepted
  }

  /** A path that resolves comes with the key of the bucket it names exactly when it is proper. */
  lemma ResolveRightIff(o: Owners, records: seq<Received>, user: User, p: FullPath)
    requires ValidOwners(o) && user in o && forall r :: r in records ==> RecordRight(o, r)
    requires Resolve(o[user], records, user, p).Some?
    ensures var x := Resolve(o[user], records, user, p).value;
      PathOpens(o, x.path, x.key) <==> ProperPath(o[user], records, user, p)
  {
    var x := Resolve(o[user], records, user, p).value;
    var own := o[user];
    if InPersonalBucket(p) {
      if PathOpens(o, x.path, x.key) {
        var u :| u in o && o[u] == OwnBucket(x.path.dbId, own.bucketKey, own.encryptionKey);
        assert u == user;
      } else {
        assert OwnBucket(x.path.dbId, own.bucketKey, own.encryptionKey) != own;
      }
    } else {
      var r := Find(records, user, p.dbId, p.bucket, p.path).value;
      assert RecordRight(o, r);
      var key :| Opens(o, r.dbId, r.bucket, r.bucketKey, key);
      assert x.path.dbId == r.dbId;
    }
  }

  predicate ProperPaths(own: OwnBucket, records: seq<Received>, user: User, ps: seq<FullPath>) {
    forall i :: 0 <= i < |ps| ==> ProperPath(own, records, user, ps[i])
  }

  /** The keys of a list of resolved paths are all right exactly when all the paths are proper. */
  lemma AllRightIff(o: Owners, records: seq<Received>, user: User, ps: seq<FullPath>)
    requires ValidOwners(o) && user in o && forall r :: r in records ==> RecordRight(o, r)
    requires AllResolve(o[user], records, user, ps)
    ensures var rs := ResolveAll(o[user], records, user, ps);
      BodyRight(o, Invite(PathsOf(rs), KeysOf(rs))) <==> ProperPaths(o[user], records, user, ps)
  {
    var rs := ResolveAll(o[user], records, user, ps);
    var body := Invite(PathsOf(rs), KeysOf(rs));
    forall i | 0 <= i < |ps|
      ensures PathOpens(o, body.paths[i], body.keys[i]) <==> ProperPath(o[user], records, user, ps[i])
    {
      ResolveRightIff(o, records, user, ps[i]);
      assert Some(rs[i]) == Resolve(o[user], records, user, ps[i]);
    }
    assert |body.paths| == |ps|;
  }

  /** The path names a received file that was rejected. */
  predicate IsRejected(own: OwnBucket, records: seq<Received>, user: User, p: FullPath) {
    && !InPersonalBucket(p)
    && var r := Find(records, user, p.dbId, p.bucket, p.path);
       r.Some? && !r.value.accepted
  }

  predicate FirstIsRejected(own: OwnBucket, records: seq<Received>, user: User, ps: seq<FullPath>) {
    ps != [] && IsRejected(own, records, user, ps[0])
  }

  /** A call lacks the key for its first role push exactly when its first path names a rejected file. */
  lemma KeylessIff(o: Owners, records: seq<Received>, user: User, ps: seq<FullPath>)
    requires ValidOwners(o) && user in o && forall r :: r in records ==> RecordRight(o, r)
    requires AllResolve(o[user], records, user, ps)
    ensures Keyless(ResolveAll(o[user], records, user, ps)) <==> FirstIsRejected(o[user], records, user, ps)
  {
    if ps != [] {
      assert Some(ResolveAll(o[user], records, user, ps)[0]) == Resolve(o[user], records, user, ps[0]);
    }
  }

  // ---------------------------------------------------------------------
  // The keys under which roles are pushed
  // ---------------------------------------------------------------------

  /** The last of the first paths, up to the i-th, that is no rejected file. */
  function LastKeyed(own: OwnBucket, records: seq<Received>, user: User, ps: seq<FullPath>, i: nat): (j: nat)
    requires i < |ps|
    ensures j <= i
  {
    if i == 0 || !IsRejected(own, records, user, ps[i]) then i else LastKeyed(own, records, user, ps, i - 1)
  }

  lemma {:induction false} ContextKeyIs(o: Owners, records: seq<Received>, user: User, ps: seq<FullPath>, i: nat)
    requires ValidOwners(o) && user in o && forall r :: r in records ==> RecordRight(o, r)
    requires AllResolve(o[user], records, user, ps) && !FirstIsRejected(o[user], records, user, ps) && i < |ps|
    ensures var rs, j := ResolveAll(o[user], records, user, ps), LastKeyed(o[user], records, user, ps, i);
      && !IsRejected(o[user], records, user, ps[j])
      && ContextKey(rs, i + 1) == rs[j].key != ""
  {
    var rs := ResolveAll(o[user], records, user, ps);
    assert Some(rs[i]) == Resolve(o[user], records, user, ps[i]);
    if IsRejected(o[user], records, user, ps[i]) {
      ContextKeyIs(o, records, user, ps, i - 1);
    }
  }

  /** The database of the bucket whose key comes with a path that is no rejected file. */
  function KeyDatabase(own: OwnBucket, p: FullPath): string {
    if InPersonalBucket(p) then own.dbId else p.dbId
  }

  lemma KeyIsOf(o: Owners, records: seq<Received>, user: User, p: FullPath) returns (u: User)
    requires ValidOwners(o) && user in o && forall r :: r in records ==> RecordRight(o, r)
    requires Resolve(o[user], records, user, p).Some? && !IsRejected(o[user], records, user, p)
    ensures u in o && o[u].dbId == KeyDatabase(o[user], p)
    ensures o[u].encryptionKey == Resolve(o[user], records, user, p).value.key
  {
    if InPersonalBucket(p) {
      u := user;
    } else {
      var r := Find(records, user, p.dbId, p.bucket, p.path).value;
      assert RecordRight(o, r);
      u :| u in o && o[u] == OwnBucket(r.dbId, r.bucketKey, r.key);
    }
  }

  /**
   * The role for the i-th path is pushed under the key of the bucket that the
   * path names exactly when the last path up to it that is no rejected file
   * comes with the key of the same database.
   */
  lemma PushKeyRightIff(o: Owners, records: seq<Received>, user: User, ps: seq<FullPath>, i: nat)
    requires ValidOwners(o) && user in o && forall r :: r in records ==> RecordRight(o, r)
    requires AllResolve(o[user], records, user, ps) && !FirstIsRejected(o[user], records, user, ps) && i < |ps|
    ensures var rs := ResolveAll(o[user], records, user, ps);
      PathOpens(o, rs[i].path, ContextKey(rs, i + 1)) <==>
        KeyDatabase(o[user], ps[LastKeyed(o[user], records, user, ps, i)]) == rs[i].path.dbId
  {
    var own, rs, j := o[user], ResolveAll(o[user], records, user, ps), LastKeyed(o[user], records, user, ps, i);
    ContextKeyIs(o, records, user, ps, i);
    assert Some(rs[i]) == Resolve(own, records, user, ps[i]) && Some(rs[j]) == Resolve(own, records, user, ps[j]);
    var u := KeyIsOf(o, records, user, ps[j]);
    if PathOpens(o, rs[i].path, ContextKey(rs, i + 1)) {
      var v :| v in o && o[v] == OwnBucket(rs[i].path.dbId, rs[i].path.bucketKey, rs[j].key);
      assert v == u;
    } else if o[u].dbId == rs[i].path.dbId {
      var _ := OwnerOf(o, records, user, ps[i]);
      assert false;
    }
  }

  /** The owner of a resolved path that names its own database. */
  lemma OwnerOf(o: Owners, records: seq<Received>, user: User, p: FullPath) returns (v: User)
    requires ValidOwners(o) && user in o && forall r :: r in records ==> RecordRight(o, r)
    requires Resolve(o[user], records, user, p).Some?
    requires InPersonalBucket(p) ==> Resolve(o[user], records, user, p).value.path.dbId == o[user].dbId
    ensures var x := Resolve(o[user], records, user, p).value.path;
      x.bucket == MIRROR_SLUG && v in o && o[v].dbId == x.dbId && o[v].bucketKey == x.bucketKey
  {
    if InPersonalBucket(p) {
      v := user;
    } else {
      var r := Find(records, user, p.dbId, p.bucket, p.path).value;
      assert RecordRight(o, r);
      var key :| Opens(o, r.dbId, r.bucket, r.bucketKey, key);
      v :| v in o && o[v] == OwnBucket(r.dbId, r.bucketKey, key);
    }
  }

  // ---------------------------------------------------------------------
  // What a call sends
  // ---------------------------------------------------------------------

  /** When all keys that were resolved are right, so are those under which roles are pushed. */
  lemma {:induction false} ContextRight(o: Owners, rs: seq<Resolved>, i: nat)
    requires ValidOwners(o) && BodyRight(o, Invite(PathsOf(rs), KeysOf(rs))) && i < |rs|
    ensures ContextKey(rs, i + 1) == rs[i].key && PathOpens(o, rs[i].path, rs[i].key)
  {
    var body := Invite(PathsOf(rs), KeysOf(rs));
    assert PathOpens(o, body.paths[i], body.keys[i]);
  }

  lemma SharePlanRight(o: Owners, rs: seq<Resolved>, recipients: seq<User>)
    requires ValidOwners(o) && BodyRight(o, Invite(PathsOf(rs), KeysOf(rs)))
    ensures PlanRight(o, SharePlan(rs, recipients))
  {
    var body := Invite(PathsOf(rs), KeysOf(rs));
    var plan := SharePlan(rs, recipients);
    forall k | 0 <= k < |plan| ensures WriteRight(o, plan[k]) {
      if |rs| <= k < 2 * |rs| {
        assert plan[k] == RoleWrites(rs, Admin, recipients)[k - |rs|];
        ContextRight(o, rs, k - |rs|);
      } else if k >= 2 * |rs| {
        assert plan[k] == Deliveries(recipients, body)[k - 2 * |rs|];
      }
    }
  }

  lemma UnsharePlanRight(o: Owners, rs: seq<Resolved>, recipients: seq<User>)
    requires ValidOwners(o) && BodyRight(o, Invite(PathsOf(rs), KeysOf(rs)))
    ensures PlanRight(o, UnsharePlan(rs, recipients))
  {
    var body := Revoke(PathsOf(rs), KeysOf(rs));
    var plan := UnsharePlan(rs, recipients);
    SameBody(o, Invite(PathsOf(rs), KeysOf(rs)), body);
    forall k | 0 <= k < |plan| ensures WriteRight(o, plan[k]) {
      if k < |rs| {
        assert plan[k] == RoleWrites(rs, Revoked, recipients)[k];
        ContextRight(o, rs, k);
      } else {
        assert plan[k] == Deliveries(recipients, body)[k - |rs|];
      }
    }
  }

  /** The messages of a plan hold only right keys. */
  ghost predicate MessagesRight(o: Owners, plan: seq<Write>) {
    forall k :: 0 <= k < |plan| && plan[k].Deliver? ==> BodyRight(o, plan[k].body)
  }

  lemma PlanTells(rs: seq<Resolved>, recipients: seq<User>)
    requires recipients != []
    ensures SharePlan(rs, recipients)[2 * |rs|] == Deliver(recipients[0], Invite(PathsOf(rs), KeysOf(rs)))
    ensures UnsharePlan(rs, recipients)[|rs|] == Deliver(recipients[0], Revoke(PathsOf(rs), KeysOf(rs)))
  {
  }

  /**
   * The messages that a share or an unshare plans hold only right keys if and
   * only if it has no recipients, or begins with a rejected file, or names
   * proper paths only.
   */
  lemma SendRightIff(o: Owners, w: World, user: User, request: Request)
    requires ValidOwners(o) && user in o && forall r :: r in w.records ==> RecordRight(o, r)
    requires !request.Handle? && AllResolve(o[user], w.records, user, request.paths)
    ensures var plan := PlanFor(o[user], w, user, request);
      (plan.Some? ==> MessagesRight(o, plan.value)) <==>
        request.recipients == [] || FirstIsRejected(o[user], w.records, user, request.paths)
        || ProperPaths(o[user], w.records, user, request.paths)
  {
    var rs := ResolveAll(o[user], w.records, user, request.paths);
    AllRightIff(o, w.records, user, request.paths);
    KeylessIff(o, w.records, user, request.paths);
    if !Keyless(rs) {
      SharePlanSends(o, rs, request.recipients);
    }
  }

  lemma SharePlanSends(o: Owners, rs: seq<Resolved>, recipients: seq<User>)
    ensures MessagesRight(o, SharePlan(rs, recipients)) <==>
      recipients == [] || BodyRight(o, Invite(PathsOf(rs), KeysOf(rs)))
    ensures MessagesRight(o, UnsharePlan(rs, recipients)) <==>
      recipients == [] || BodyRight(o, Invite(PathsOf(rs), KeysOf(rs)))
  {
    var invite, revoke := Invite(PathsOf(rs), KeysOf(rs)), Revoke(PathsOf(rs), KeysOf(rs));
    if recipients != [] { PlanTells(rs, recipients); }
    if BodyRight(o, revoke) { SameBody(o, revoke, invite); }
    if BodyRight(o, invite) { SameBody(o, invite, revoke); }
  }

  /** A call that begins with a rejected file fails, and leaves no role, no message and no received record. */
  lemma RejectedFirstSendsNothing(o: Owners, w: World, user: User, request: Request, luck: Luck)
    requires ValidOwners(o) && user in o && forall r :: r in w.records ==> RecordRight(o, r)
    requires !request.Handle? && FirstIsRejected(o[user], w.records, user, request.paths)
    ensures !Succeeds(o[user], w, user, request, luck)
    ensures Leaves(o[user], w, user, request, luck) == w.(sent := Leaves(o[user], w, user, request, luck).sent)
  {
    if AllResolve(o[user], w.records, user, request.paths) {
      KeylessIff(o, w.records, user, request.paths);
      var rs := ResolveAll(o[user], w.records, user, request.paths);
      RecordsOnly(w, user, Cut(SentWrites(rs), luck.budget));
    }
  }

  lemma {:induction false} RecordsOnly(w: World, user: User, xs: seq<Write>)
    requires forall i :: 0 <= i < |xs| ==> xs[i].WriteSent?
    ensures PerformAll(w, user, xs) == w.(sent := PerformAll(w, user, xs).sent)
  {
    if xs != [] {
      RecordsOnly(w, user, xs[..|xs| - 1]);
    }
  }

  // ---------------------------------------------------------------------
  // Whole runs
  // ---------------------------------------------------------------------

  /** A share or an unshare that begins names proper paths only. */
  ghost predicate ProperStep(o: Owners, s: State, a: Action) {
    a.Begin? && !a.request.Handle? && a.user in o ==> ProperPaths(o[a.user], s.world.records, a.user, a.request.paths)
  }

  /** The same, or it begins with a rejected file. */
  ghost predicate SafeStep(o: Owners, s: State, a: Action) {
    ProperStep(o, s, a) || FirstIsRejected(o[a.user], s.world.records, a.user, a.request.paths)
  }

  lemma AnswerRight(o: Owners, m: Mail, id: nat, accept: bool)
    requires BodyRight(o, m.body)
    ensures PlanRight(o, ReceivedWrites(m, id, accept) + Replies(m, accept))
  {
    var plan := ReceivedWrites(m, id, accept) + Replies(m, accept);
    forall k | 0 <= k < |plan| ensures WriteRight(o, plan[k]) {
      if k < |m.body.paths| {
        assert PathOpens(o, m.body.paths[k], m.body.keys[k]);
      } else {
        SameBody(o, m.body, Reply(m.body.paths, m.body.keys));
      }
    }
  }

  lemma SameBody(o: Owners, body: Body, body': Body)
    requires BodyRight(o, body) && body'.paths == body.paths && body'.keys == body.keys
    ensures BodyRight(o, body')
  {
    forall i | 0 <= i < |body'.paths| ensures PathOpens(o, body'.paths[i], body'.keys[i]) {
      assert PathOpens(o, body.paths[i], body.keys[i]);
    }
  }

  lemma PerformRight(o: Owners, w: World, user: User, x: Write)
    requires WorldRight(o, w) && WriteRight(o, x)
    ensures WorldRight(o, Perform(w, user, x))
  {
  }

  lemma BeginRight(o: Owners, s: State, user: User, request: Request)
    requires ValidOwners(o) && KeysInv(o, s) && user in o && SafeStep(o, s, Begin(user, request))
    ensures var plan := PlanFor(o[user], s.world, user, request); plan.Some? ==> PlanRight(o, plan.value)
  {
    if request.Handle? {
      if CanHandle(s.world, user, request.id) {
        AnswerRight(o, s.world.mail[request.id], request.id, request.accept);
      }
    } else if AllResolve(o[user], s.world.records, user, request.paths) {
      var rs := ResolveAll(o[user], s.world.records, user, request.paths);
      KeylessIff(o, s.world.records, user, request.paths);
      if !Keyless(rs) {
        AllRightIff(o, s.world.records, user, request.paths);
        SharePlanRight(o, rs, request.recipients);
        UnsharePlanRight(o, rs, request.recipients);
      }
    }
  }

  lemma StepRight(o: Owners, s: State, a: Action)
    requires ValidOwners(o) && KeysInv(o, s) && Enabled(o, s, a) && SafeStep(o, s, a)
    ensures KeysInv(o, Apply(o, s, a))
  {
    match a
    case Begin(user, request) => BeginRight(o, s, user, request);
    case Advance(c) =>
      assert WriteRight(o, s.calls[c].plan[s.calls[c].next]);
      PerformRight(o, s.world, s.calls[c].user, s.calls[c].plan[s.calls[c].next]);
    case _ =>
  }

  /**
   * In every run whose shares and unshares name proper paths or begin with a
   * rejected file, at every moment and along any chain of reshares: every key
   * in a message, every key under which a role was pushed and the key of every
   * accepted record is the key of the bucket of the owner whose database the
   * path names; rejected records hold no key.
   */
  lemma {:induction false} KeysFollowOwners(o: Owners, run: seq<State>, acts: seq<Action>, k: nat)
    requires ValidOwners(o) && IsRun(o, run, acts) && k <= |acts|
    requires forall i :: 0 <= i < k ==> SafeStep(o, run[i], acts[i])
    ensures KeysInv(o, run[k])
  {
    if k > 0 {
      KeysFollowOwners(o, run, acts, k - 1);
      StepRight(o, run[k - 1], acts[k - 1]);
    }
  }

  /**
   * After such a run, a further share or unshare plans only messages with
   * right keys if and only if it has no recipients, begins with a rejected
   * file or names proper paths only.
   */
  lemma NextShareRightIff(o: Owners, run: seq<State>, acts: seq<Action>, user: User, request: Request)
    requires ValidOwners(o) && IsRun(o, run, acts) && user in o && !request.Handle?
    requires forall i :: 0 <= i < |acts| ==> SafeStep(o, run[i], acts[i])
    requires AllResolve(o[user], run[|acts|].world.records, user, request.paths)
    ensures var w := run[|acts|].world;
      var plan := PlanFor(o[user], w, user, request);
      (plan.Some? ==> MessagesRight(o, plan.value)) <==>
        request.recipients == [] || FirstIsRejected(o[user], w.records, user, request.paths)
        || ProperPaths(o[user], w.records, user, request.paths)
  {
    KeysFollowOwners(o, run, acts, |acts|);
    SendRightIff(o, run[|acts|].world, user, request);
  }

  lemma {:induction false} AllRight(o: Owners, w: World, user: User, xs: seq<Write>)
    requires WorldRight(o, w) && PlanRight(o, xs)
    ensures WorldRight(o, PerformAll(w, user, xs))
  {
    if xs != [] {
      var n := |xs| - 1;
      AllRight(o, w, user, xs[..n]);
      assert WriteRight(o, xs[n]);
      PerformRight(o, PerformAll(w, user, xs[..n]), user, xs[n]);
    }
  }

  lemma {:induction false} AllDelivered(w: World, user: User, xs: seq<Write>, k: nat)
    requires k < |xs| && xs[k].Deliver?
    ensures Mail(user, xs[k].to, xs[k].body) in PerformAll(w, user, xs).mail
  {
    var n := |xs| - 1;
    if k < n {
      AllDelivered(w, user, xs[..n], k);
    }
  }

  /**
   * A share or an unshare that reports success and has a recipient keeps all
   * keys in records, messages and role pushes right if and only if it named
   * proper paths only.
   */
  lemma SuccessRightIff(o: Owners, w: World, user: User, request: Request, luck: Luck)
    requires ValidOwners(o) && user in o && WorldRight(o, w)
    requires !request.Handle? && request.recipients != []
    ensures Succeeds(o[user], w, user, request, luck) ==>
      (WorldRight(o, Leaves(o[user], w, user, request, luck)) <==>
       ProperPaths(o[user], w.records, user, request.paths))
  {
    if !Succeeds(o[user], w, user, request, luck) { return; }
    var plan := PlanFor(o[user], w, user, request).value;
    assert Cut(plan, luck.budget) == plan;
    var rs := ResolveAll(o[user], w.records, user, request.paths);
    KeylessIff(o, w.records, user, request.paths);
    AllRightIff(o, w.records, user, request.paths);
    if ProperPaths(o[user], w.records, user, request.paths) {
      SharePlanRight(o, rs, request.recipients);
      UnsharePlanRight(o, rs, request.recipients);
      AllRight(o, w, user, plan);
    } else {
      SharePlanSends(o, rs, request.recipients);
      var k :| 0 <= k < |plan| && plan[k].Deliver? && !BodyRight(o, plan[k].body);
      AllDelivered(w, user, plan, k);
    }
  }

  /** The role that was last pushed for the very item that the path names under the key. */
  function RoleOn(pushes: seq<RolePush>, p: FullPath, key: string, u: User): Option<Role> {
    if pushes == [] then None
    else
      var last := pushes[|pushes| - 1];
      if last.file == p && last.key == key && u in last.members then Some(last.role)
      else RoleOn(pushes[..|pushes| - 1], p, key, u)
  }

  /** Buckets are told apart by their keys on the hub. */
  ghost predicate ApartOnHub(o: Owners) {
    forall u, v :: u in o && v in o && u != v ==> o[u].bucketKey != o[v].bucketKey
  }

  lemma {:induction false} RightPushesName(o: Owners, pushes: seq<RolePush>, p: FullPath, key: string, u: User)
    requires ApartOnHub(o) && PathOpens(o, p, key) && forall x :: x in pushes ==> PathOpens(o, x.file, x.key)
    ensures RoleOf(pushes, p.bucketKey, p.path, u) == RoleOn(pushes, p, key, u)
  {
    if pushes != [] {
      var n := |pushes| - 1;
      var last := pushes[n];
      RightPushesName(o, pushes[..n], p, key, u);
      assert PathOpens(o, last.file, last.key);
      if last.file.bucketKey == p.bucketKey && last.file.path == p.path {
        var v :| v in o && o[v] == OwnBucket(last.file.dbId, last.file.bucketKey, last.key);
        var v' :| v' in o && o[v'] == OwnBucket(p.dbId, p.bucketKey, key);
        assert v == v';
        assert last.file == p;
      }
    }
  }

  /**
   * So in such a run the role for a bucket and a path, which the laws about
   * roles and messages speak of, is always the role for the item that the hub
   * knows under the owner's key.
   */
  lemma RolesAreForTheFile(o: Owners, run: seq<State>, acts: seq<Action>, k: nat, p: FullPath, key: string, u: User)
    requires ValidOwners(o) && ApartOnHub(o) && IsRun(o, run, acts) && k <= |acts| && PathOpens(o, p, key)
    requires forall i :: 0 <= i < k ==> SafeStep(o, run[i], acts[i])
    ensures RoleOf(run[k].world.pushes, p.bucketKey, p.path, u) == RoleOn(run[k].world.pushes, p, key, u)
  {
    KeysFollowOwners(o, run, acts, k);
    RightPushesName(o, run[k].world.pushes, p, key, u);
  }

  // ---------------------------------------------------------------------
  // Sent records
  // ---------------------------------------------------------------------

  ghost predicate SentInv(o: Owners, s: State) {
    && (forall r :: r in s.world.sent ==> Opens(o, r.dbId, r.bucket, r.bucketKey, r.key))
    && forall c, k :: 0 <= c < |s.calls| && 0 <= k < |s.calls[c].plan| ==> SentRight(o, s.calls[c].plan[k])
  }

  ghost predicate SentRight(o: Owners, x: Write) {
    x.WriteSent? ==> PathOpens(o, x.path, x.key)
  }

  lemma BeginSent(o: Owners, s: State, user: User, request: Request, k: nat)
    requires ValidOwners(o) && KeysInv(o, s) && user in o && ProperStep(o, s, Begin(user, request))
    requires var plan := PlanFor(o[user], s.world, user, request); plan.Some? && k < |plan.value|
    ensures SentRight(o, PlanFor(o[user], s.world, user, request).value[k])
  {
    var x := PlanFor(o[user], s.world, user, request).value[k];
    if request.Share? && x.WriteSent? {
      var rs := ResolveAll(o[user], s.world.records, user, request.paths);
      AllRightIff(o, s.world.records, user, request.paths);
      assert x == SentWrites(rs)[k];
      ContextRight(o, rs, k);
    }
  }

  lemma StepSent(o: Owners, s: State, a: Action)
    requires ValidOwners(o) && KeysInv(o, s) && SentInv(o, s) && Enabled(o, s, a) && ProperStep(o, s, a)
    ensures SentInv(o, Apply(o, s, a))
  {
    match a
    case Begin(user, request) =>
      var plan := PlanFor(o[user], s.world, user, request);
      if plan.Some? {
        forall k: nat | k < |plan.value| ensures SentRight(o, plan.value[k]) {
          BeginSent(o, s, user, request, k);
        }
      }
    case Advance(c) =>
      assert SentRight(o, s.calls[c].plan[s.calls[c].next]);
    case _ =>
  }

  /** When all paths of a run are proper, the sent records hold the owners' keys as well. */
  lemma {:induction false} SentFollowOwners(o: Owners, run: seq<State>, acts: seq<Action>, k: nat)
    requires ValidOwners(o) && IsRun(o, run, acts) && k <= |acts|
    requires forall i :: 0 <= i < k ==> ProperStep(o, run[i], acts[i])
    ensures KeysInv(o, run[k]) && SentInv(o, run[k])
  {
    if k > 0 {
      SentFollowOwners(o, run, acts, k - 1);
      StepRight(o, run[k - 1], acts[k - 1]);
      StepSent(o, run[k - 1], acts[k - 1]);
    }
  }

  /** The sent record behind a path holds exactly the bucket key and the key that are given. */
  predicate HasSentWith(sent: seq<Sent>, from: User, p: FullPath, key: string) {
    Sent(from, p.dbId, p.bucket, p.path, p.bucketKey, key) in sent
  }

  /**
   * In every run of proper calls, behind each path of an invitation stands a
   * sent record of its sender with the very bucket key and key that the
   * invitation holds.
   */
  lemma InvitationsMatchSent(o: Owners, run: seq<State>, acts: seq<Action>, k: nat, m: Mail, i: nat)
    requires ValidOwners(o) && IsRun(o, run, acts) && k <= |acts|
    requires forall j :: 0 <= j < k ==> ProperStep(o, run[j], acts[j])
    requires m in run[k].world.mail && m.body.Invite? && i < |m.body.paths|
    ensures |m.body.paths| == |m.body.keys|
    ensures HasSentWith(run[k].world.sent, m.from, m.body.paths[i], m.body.keys[i])
  {
    var w, p := run[k].world, m.body.paths[i];
    SentFollowOwners(o, run, acts, k);
    MessagesFollowRoles(o, run, acts, k, m, i);
    assert BodyRight(o, m.body);
    var r :| r in w.sent && r.from == m.from && r.dbId == p.dbId && r.bucket == p.bucket && r.path == p.path;
    OneOpener(o, p.dbId, p.bucket, r.bucketKey, r.key, p.bucketKey, m.body.keys[i]);
    assert r == Sent(m.from, p.dbId, p.bucket, p.path, p.bucketKey, m.body.keys[i]);
  }

  lemma OneOpener(o: Owners, dbId: string, bucket: string, bucketKey: string, key: string,
                  bucketKey': string, key': string)
    requires ValidOwners(o) && Opens(o, dbId, bucket, bucketKey, key) && Opens(o, dbId, bucket, bucketKey', key')
    ensures bucketKey == bucketKey' && key == key'
  {
    var u :| u in o && o[u] == OwnBucket(dbId, bucketKey, key);
    var v :| v in o && o[v] == OwnBucket(dbId, bucketKey', key');
    assert u == v;
  }
}
