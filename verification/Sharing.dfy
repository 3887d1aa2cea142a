/**
 * Sharing files with other users: the records, roles and messages that a
 * share, an unshare and the handling of an invitation write, and in what order.
 */
module Sharing {
  import opened Wrappers

  type User = string

  datatype FullPath = FullPath(dbId: string, bucket: string, path: string, bucketKey: string)

  /** A user's personal bucket as it is known on the hub. */
  datatype OwnBucket = OwnBucket(dbId: string, bucketKey: string, encryptionKey: string)

  const PERSONAL_SLUG := "personal"
  const MIRROR_SLUG := "personal_mirror"

  datatype Received = Received(
    holder: User, dbId: string, bucket: string, path: string, invitation: nat,
    bucketKey: string, key: string, sharedBy: User, accepted: bool)

  datatype Sent = Sent(from: User, dbId: string, bucket: string, path: string, bucketKey: string, key: string)

  datatype Role = Admin | Revoked

  /** A role given or taken at the hub, for the item that the path names under this encryption key. */
  datatype RolePush = RolePush(from: User, file: FullPath, key: string, role: Role, members: set<User>)

  datatype Body =
    | Invite(paths: seq<FullPath>, keys: seq<string>)
    | Revoke(paths: seq<FullPath>, keys: seq<string>)
    | Reply(paths: seq<FullPath>, keys: seq<string>)

  /** A message; its place in the hub's list is its id. */
  datatype Mail = Mail(from: User, to: User, body: Body)

  /** Everything that is written: received and sent records of all users, role pushes and messages. */
  datatype World = World(records: seq<Received>, sent: seq<Sent>, pushes: seq<RolePush>, mail: seq<Mail>)

  datatype Write =
    | WriteSent(path: FullPath, key: string)
    | PushRoles(path: FullPath, key: string, role: Role, members: set<User>)
    | Deliver(to: User, body: Body)
    | WriteReceived(path: FullPath, key: string, invitation: nat, accepted: bool, inviter: User)

  // ---------------------------------------------------------------------
  // Writes
  // ---------------------------------------------------------------------

  predicate IsFor(r: Received, holder: User, dbId: string, bucket: string, path: string) {
    r.holder == holder && r.dbId == dbId && r.bucket == bucket && r.path == path
  }

  function Find(records: seq<Received>, holder: User, dbId: string, bucket: string, path: string): (r: Option<Received>)
    ensures r.Some? ==> r.value in records && IsFor(r.value, holder, dbId, bucket, path)
    ensures r.None? ==> forall x :: x in records ==> !IsFor(x, holder, dbId, bucket, path)
  {
    if records == [] then None
    else if IsFor(records[0], holder, dbId, bucket, path) then Some(records[0])
    else Find(records[1..], holder, dbId, bucket, path)
  }

  predicate HasSent(sent: seq<Sent>, from: User, path: FullPath) {
    exists s :: s in sent && s.from == from && s.dbId == path.dbId && s.bucket == path.bucket && s.path == path.path
  }

  /** One write on behalf of a user; records that exist already are left as they are. */
  function Perform(w: World, user: User, x: Write): World {
    match x
    case WriteSent(p, key) =>
      if HasSent(w.sent, user, p) then w
      else w.(sent := w.sent + [Sent(user, p.dbId, p.bucket, p.path, p.bucketKey, key)])
    case PushRoles(p, key, role, members) =>
      w.(pushes := w.pushes + [RolePush(user, p, key, role, members)])
    case Deliver(to, body) => w.(mail := w.mail + [Mail(user, to, body)])
    case WriteReceived(p, key, id, accepted, inviter) =>
      if Find(w.records, user, p.dbId, p.bucket, p.path).Some? then w
      else
        w.(records := w.records + [Received(user, p.dbId, p.bucket, p.path, id, p.bucketKey, key, inviter, accepted)])
  }

  function PerformAll(w: World, user: User, xs: seq<Write>): World {
    if xs == [] then w
    else Perform(PerformAll(w, user, xs[..|xs| - 1]), user, xs[|xs| - 1])
  }

  lemma PerformMore(w: World, user: User, xs: seq<Write>, x: Write)
    ensures PerformAll(w, user, xs + [x]) == Perform(PerformAll(w, user, xs), user, x)
  {
    assert (xs + [x])[..|xs|] == xs;
  }

  lemma NoWrites(w: World, user: User)
    ensures PerformAll(w, user, []) == w
  {
  }

  lemma OneWrite(w: World, user: User, x: Write)
    ensures PerformAll(w, user, [x]) == Perform(w, user, x)
  {
    assert [x][..0] == [];
  }

  lemma PerformNext(w: World, user: User, xs: seq<Write>, i: nat)
    requires i < |xs|
    ensures PerformAll(w, user, xs[..i + 1]) == Perform(PerformAll(w, user, xs[..i]), user, xs[i])
  {
    assert xs[..i + 1] == xs[..i] + [xs[i]];
    PerformMore(w, user, xs[..i], xs[i]);
  }

  lemma {:induction false} PerformTwo(w: World, user: User, xs: seq<Write>, ys: seq<Write>)
    ensures PerformAll(w, user, xs + ys) == PerformAll(PerformAll(w, user, xs), user, ys)
    decreases |ys|
  {
    if ys == [] {
      assert xs + ys == xs;
    } else {
      var n := |ys| - 1;
      PerformTwo(w, user, xs, ys[..n]);
      PerformMore(w, user, xs + ys[..n], ys[n]);
      assert xs + ys[..n] + [ys[n]] == xs + ys;
    }
  }

  // ---------------------------------------------------------------------
  // Resolving the paths of a call
  // ---------------------------------------------------------------------

  datatype Resolved = Resolved(path: FullPath, key: string)

  predicate InPersonalBucket(p: FullPath) {
    p.bucket == "" || p.bucket == PERSONAL_SLUG
  }

  /** A path of the user's own bucket, or else of a file received before; nothing when there is no such file. */
  function Resolve(own: OwnBucket, records: seq<Received>, user: User, p: FullPath): Option<Resolved> {
    var dbId := if p.dbId == "" then own.dbId else p.dbId;
    if InPersonalBucket(p) then
      Some(Resolved(FullPath(dbId, MIRROR_SLUG, p.path, own.bucketKey), own.encryptionKey))
    else
      var r := Find(records, user, p.dbId, p.bucket, p.path);
      if r.None? then None
      else Some(Resolved(FullPath(dbId, r.value.bucket, p.path, r.value.bucketKey), r.value.key))
  }

  predicate AllResolve(own: OwnBucket, records: seq<Received>, user: User, ps: seq<FullPath>) {
    forall i :: 0 <= i < |ps| ==> Resolve(own, records, user, ps[i]).Some?
  }

  function ResolveAll(own: OwnBucket, records: seq<Received>, user: User, ps: seq<FullPath>): (rs: seq<Resolved>)
    requires AllResolve(own, records, user, ps)
    ensures |rs| == |ps|
    ensures forall i :: 0 <= i < |ps| ==> Some(rs[i]) == Resolve(own, records, user, ps[i])
  {
    seq(|ps|, i requires 0 <= i < |ps| => Resolve(own, records, user, ps[i]).value)
  }

  // ---------------------------------------------------------------------
  // What each call writes, in order
  // ---------------------------------------------------------------------

  function PathsOf(rs: seq<Resolved>): (ps: seq<FullPath>)
    ensures |ps| == |rs| && forall i :: 0 <= i < |rs| ==> ps[i] == rs[i].path
  {
    seq(|rs|, i requires 0 <= i < |rs| => rs[i].path)
  }

  function KeysOf(rs: seq<Resolved>): (keys: seq<string>)
    ensures |keys| == |rs| && forall i :: 0 <= i < |rs| ==> keys[i] == rs[i].key
  {
    seq(|rs|, i requires 0 <= i < |rs| => rs[i].key)
  }

  function SentWrites(rs: seq<Resolved>): (xs: seq<Write>)
    ensures |xs| == |rs| && forall i :: 0 <= i < |rs| ==> xs[i] == WriteSent(rs[i].path, rs[i].key)
  {
    seq(|rs|, i requires 0 <= i < |rs| => WriteSent(rs[i].path, rs[i].key))
  }

  function Members(recipients: seq<User>): set<User> {
    set u | u in recipients
  }

  /**
   * The encryption key in the context once the first i paths have been gone
   * through: an empty key leaves the one of the path before it in place.
   */
  function ContextKey(rs: seq<Resolved>, i: nat): string
    requires i <= |rs|
  {
    if i == 0 then ""
    else if rs[i - 1].key != "" then rs[i - 1].key
    else ContextKey(rs, i - 1)
  }

  /** The first role push finds no key in its context. */
  predicate Keyless(rs: seq<Resolved>) {
    rs != [] && rs[0].key == ""
  }

  lemma {:induction false} ContextHasKey(rs: seq<Resolved>, i: nat)
    requires !Keyless(rs) && 0 < i <= |rs|
    ensures ContextKey(rs, i) != ""
  {
    if i > 1 {
      ContextHasKey(rs, i - 1);
    }
  }

  function RoleWrites(rs: seq<Resolved>, role: Role, recipients: seq<User>): (xs: seq<Write>)
    ensures |xs| == |rs|
    ensures forall i :: 0 <= i < |rs| ==>
      xs[i] == PushRoles(rs[i].path, ContextKey(rs, i + 1), role, Members(recipients))
  {
    seq(|rs|, i requires 0 <= i < |rs| => PushRoles(rs[i].path, ContextKey(rs, i + 1), role, Members(recipients)))
  }

  function Deliveries(recipients: seq<User>, body: Body): (xs: seq<Write>)
    ensures |xs| == |recipients| && forall i :: 0 <= i < |recipients| ==> xs[i] == Deliver(recipients[i], body)
  {
    seq(|recipients|, i requires 0 <= i < |recipients| => Deliver(recipients[i], body))
  }

  function SharePlan(rs: seq<Resolved>, recipients: seq<User>): seq<Write> {
    SentWrites(rs) + RoleWrites(rs, Admin, recipients) + Deliveries(recipients, Invite(PathsOf(rs), KeysOf(rs)))
  }

  function UnsharePlan(rs: seq<Resolved>, recipients: seq<User>): seq<Write> {
    RoleWrites(rs, Revoked, recipients) + Deliveries(recipients, Revoke(PathsOf(rs), KeysOf(rs)))
  }

  datatype Status = Pending | Accepted | Rejected

  predicate Answers(r: Received, user: User, id: nat) {
    r.holder == user && r.invitation == id
  }

  /** The status parseMessage derives: that of the last record found for the invitation. */
  function StatusOf(records: seq<Received>, user: User, id: nat): Status {
    if records == [] then Pending
    else
      var last := records[|records| - 1];
      if Answers(last, user, id) then (if last.accepted then Accepted else Rejected)
      else StatusOf(records[..|records| - 1], user, id)
  }

  function ReceivedWrites(mail: Mail, id: nat, accept: bool): (xs: seq<Write>)
    requires |mail.body.paths| == |mail.body.keys|
    ensures |xs| == |mail.body.paths|
    ensures forall i :: 0 <= i < |xs| ==>
      xs[i] == WriteReceived(mail.body.paths[i], if accept then mail.body.keys[i] else "", id, accept, mail.from)
  {
    seq(|mail.body.paths|, i requires 0 <= i < |mail.body.paths| =>
      WriteReceived(mail.body.paths[i], if accept then mail.body.keys[i] else "", id, accept, mail.from))
  }

  datatype Request =
    | Share(paths: seq<FullPath>, recipients: seq<User>)
    | Unshare(paths: seq<FullPath>, recipients: seq<User>)
    | Handle(id: nat, accept: bool)

  /** An accepted invitation is sent back to the inviter, once all its records are made. */
  function Replies(mail: Mail, accept: bool): seq<Write> {
    if accept then [Deliver(mail.from, Reply(mail.body.paths, mail.body.keys))] else []
  }

  predicate CanHandle(w: World, user: User, id: nat) {
    && id < |w.mail| && w.mail[id].to == user && w.mail[id].body.Invite?
    && StatusOf(w.records, user, id) == Pending
    && |w.mail[id].body.paths| == |w.mail[id].body.keys|
  }

  /** A share or an unshare whose first role push fails for want of a key. */
  predicate LacksKey(own: OwnBucket, w: World, user: User, request: Request) {
    && !request.Handle? && AllResolve(own, w.records, user, request.paths)
    && Keyless(ResolveAll(own, w.records, user, request.paths))
  }

  /**
   * The writes of a call; None when it fails before it writes anything.  A
   * share whose first path has no key comes as far as its sent records.
   */
  function PlanFor(own: OwnBucket, w: World, user: User, request: Request): Option<seq<Write>> {
    match request
    case Share(paths, recipients) =>
      if !AllResolve(own, w.records, user, paths) then None
      else
        var rs := ResolveAll(own, w.records, user, paths);
        Some(if Keyless(rs) then SentWrites(rs) else SharePlan(rs, recipients))
    case Unshare(paths, recipients) =>
      if !AllResolve(own, w.records, user, paths) then None
      else
        var rs := ResolveAll(own, w.records, user, paths);
        if Keyless(rs) then None else Some(UnsharePlan(rs, recipients))
    case Handle(id, accept) =>
      if CanHandle(w, user, id) then Some(ReceivedWrites(w.mail[id], id, accept) + Replies(w.mail[id], accept))
      else None
  }

  // ---------------------------------------------------------------------
  // The calls of one user
  // ---------------------------------------------------------------------

  /** After the first i writes, where those in failing fail and the others are made all the same. */
  function PerformSome(w: World, user: User, xs: seq<Write>, failing: set<nat>, i: nat): World
    requires i <= |xs|
  {
    if i == 0 then w
    else
      var before := PerformSome(w, user, xs, failing, i - 1);
      if i - 1 in failing then before else Perform(before, user, xs[i - 1])
  }

  /**
   * How the services answer a call: how many paths can be looked up, how many
   * writes of a share or an unshare succeed, which received records cannot be
   * created, and whether the reply to an inviter can be sent.
   */
  datatype Luck = Luck(lookups: nat, budget: nat, failing: set<nat>, replies: bool)

  function Cut(xs: seq<Write>, budget: nat): seq<Write> {
    if budget < |xs| then xs[..budget] else xs
  }

  predicate AllMade(failing: set<nat>, n: nat) {
    forall i: nat :: i < n ==> i !in failing
  }

  /** What an answer to an invitation leaves. */
  function Answered(w: World, user: User, id: nat, accept: bool, luck: Luck): World
    requires CanHandle(w, user, id)
  {
    var mail := w.mail[id];
    var n := |mail.body.paths|;
    var made := PerformSome(w, user, ReceivedWrites(mail, id, accept), luck.failing, n);
    if AllMade(luck.failing, n) && luck.replies then PerformAll(made, user, Replies(mail, accept)) else made
  }

  /** What a call leaves, wherever it stops. */
  function Leaves(own: OwnBucket, w: World, user: User, request: Request, luck: Luck): World {
    var plan := PlanFor(own, w, user, request);
    if plan.None? then w
    else if request.Handle? then Answered(w, user, request.id, request.accept, luck)
    else if luck.lookups < |request.paths| then w
    else PerformAll(w, user, Cut(plan.value, luck.budget))
  }

  /** Whether the call reports success. */
  predicate Succeeds(own: OwnBucket, w: World, user: User, request: Request, luck: Luck) {
    var plan := PlanFor(own, w, user, request);
    && plan.Some?
    && if request.Handle? then
         AllMade(luck.failing, |w.mail[request.id].body.paths|) && (request.accept ==> luck.replies)
       else |request.paths| <= luck.lookups && |plan.value| <= luck.budget && !LacksKey(own, w, user, request)
  }

  /** What a budget pays for of two lists of writes, one after the other. */
  lemma PlanPrefix(w: World, user: User, xs: seq<Write>, ys: seq<Write>, budget: nat)
    ensures PerformAll(w, user, Cut(xs + ys, budget)) ==
      if budget < |xs| then PerformAll(w, user, Cut(xs, budget))
      else PerformAll(PerformAll(w, user, xs), user, Cut(ys, budget - |xs|))
  {
    if budget < |xs| {
      assert Cut(xs + ys, budget) == Cut(xs, budget);
    } else {
      PerformTwo(w, user, xs, Cut(ys, budget - |xs|));
      assert Cut(xs + ys, budget) == xs + Cut(ys, budget - |xs|);
    }
  }

  lemma SharePlanSplit(w: World, user: User, rs: seq<Resolved>, recipients: seq<User>, budget: nat)
    ensures var first := SentWrites(rs);
      var rest := RoleWrites(rs, Admin, recipients) + Deliveries(recipients, Invite(PathsOf(rs), KeysOf(rs)));
      && |SharePlan(rs, recipients)| == |first| + |rest|
      && PerformAll(w, user, Cut(SharePlan(rs, recipients), budget)) ==
           if budget < |first| then PerformAll(w, user, Cut(first, budget))
           else PerformAll(PerformAll(w, user, first), user, Cut(rest, budget - |first|))
  {
    var first := SentWrites(rs);
    var rest := RoleWrites(rs, Admin, recipients) + Deliveries(recipients, Invite(PathsOf(rs), KeysOf(rs)));
    assert SharePlan(rs, recipients) == first + rest;
    PlanPrefix(w, user, first, rest, budget);
  }

  class Daemon {
    const user: User
    const own: OwnBucket
    var world: World

    constructor (user: User, own: OwnBucket, world: World)
      ensures this.user == user && this.own == own && this.world == world
    {
      this.user := user;
      this.own := own;
      this.world := world;
    }

    /** Both slices are filled index by index, and given up at the first path that cannot be resolved. */
    method ResolveFullPaths(paths: seq<FullPath>, lookups: nat) returns (ok: bool, rs: seq<Resolved>)
      ensures ok <==> AllResolve(own, world.records, user, paths) && |paths| <= lookups
      ensures ok ==> rs == ResolveAll(own, world.records, user, paths)
    {
      rs := [];
      var i := 0;
      while i < |paths|
        invariant 0 <= i <= |paths| && |rs| == i <= lookups
        invariant forall j :: 0 <= j < i ==> Resolve(own, world.records, user, paths[j]) == Some(rs[j])
      {
        if i == lookups { return false, []; }
        var r := Resolve(own, world.records, user, paths[i]);
        if r.None? { return false, []; }
        rs := rs + [r.value];
        i := i + 1;
      }
      ok := true;
      assert rs == ResolveAll(own, world.records, user, paths);
    }

    /**
     * One record per path.  The budget of a call is the number of its writes
     * that succeed; the write after them fails and ends the call.
     */
    method RecordSentFiles(rs: seq<Resolved>, budget: nat) returns (ok: bool, left: nat)
      modifies `world
      ensures ok <==> |rs| <= budget
      ensures ok ==> left == budget - |rs|
      ensures world == PerformAll(old(world), user, Cut(SentWrites(rs), budget))
    {
      ghost var xs := SentWrites(rs);
      left := budget;
      var i := 0;
      assert xs[..0] == [];
      while i < |rs|
        invariant 0 <= i <= |rs| && left == budget - i
        invariant world == PerformAll(old(world), user, xs[..i])
      {
        if left == 0 { return false, 0; }
        PerformNext(old(world), user, xs, i);
        var p := rs[i].path;
        if !HasSent(world.sent, user, p) {
          world := world.(sent := world.sent + [Sent(user, p.dbId, p.bucket, p.path, p.bucketKey, rs[i].key)]);
        }
        left, i := left - 1, i + 1;
      }
      assert xs[..i] == xs;
      ok := true;
    }

    /**
     * Pushes the role of all recipients, path by path.  Each path puts its key
     * into the one context, unless the key is empty; a push without a key in
     * the context fails.
     */
    method ManageShareFilesViaPublicKey(rs: seq<Resolved>, recipients: seq<User>, role: Role, budget: nat)
      returns (ok: bool, left: nat)
      modifies `world
      ensures ok <==> |rs| <= budget && !Keyless(rs)
      ensures ok ==> left == budget - |rs|
      ensures world ==
        if Keyless(rs) then old(world)
        else PerformAll(old(world), user, Cut(RoleWrites(rs, role, recipients), budget))
    {
      ghost var xs := RoleWrites(rs, role, recipients);
      left := budget;
      var i, contextKey := 0, "";
      assert xs[..0] == [];
      while i < |rs|
        invariant 0 <= i <= |rs| && left == budget - i
        invariant contextKey == ContextKey(rs, i) && (i > 0 ==> !Keyless(rs))
        invariant world == PerformAll(old(world), user, xs[..i])
      {
        var roles: set<User>, j := {}, 0;
        while j < |recipients|
          invariant 0 <= j <= |recipients| && roles == Members(recipients[..j])
        {
          assert recipients[..j + 1] == recipients[..j] + [recipients[j]];
          roles, j := roles + {recipients[j]}, j + 1;
        }
        assert recipients[..j] == recipients;
        if rs[i].key != "" { contextKey := rs[i].key; }
        if contextKey == "" {
          if i > 0 { ContextHasKey(rs, i + 1); }
          return false, 0;
        }
        if left == 0 { return false, 0; }
        PerformNext(old(world), user, xs, i);
        world := world.(pushes := world.pushes + [RolePush(user, rs[i].path, contextKey, role, roles)]);
        left, i := left - 1, i + 1;
      }
      assert xs[..i] == xs;
      ok := true;
    }

    /** Sends the same message to every recipient. */
    method SendToAll(recipients: seq<User>, body: Body, budget: nat) returns (ok: bool, left: nat)
      modifies `world
      ensures ok <==> |recipients| <= budget
      ensures ok ==> left == budget - |recipients|
      ensures world == PerformAll(old(world), user, Cut(Deliveries(recipients, body), budget))
    {
      ghost var xs := Deliveries(recipients, body);
      left := budget;
      var i := 0;
      assert xs[..0] == [];
      while i < |recipients|
        invariant 0 <= i <= |recipients| && left == budget - i
        invariant world == PerformAll(old(world), user, xs[..i])
      {
        if left == 0 { return false, 0; }
        PerformNext(old(world), user, xs, i);
        world := world.(mail := world.mail + [Mail(user, recipients[i], body)]);
        left, i := left - 1, i + 1;
      }
      assert xs[..i] == xs;
      ok := true;
    }

    /** The roles of all files, then the message about them to every recipient. */
    method PushAndTell(rs: seq<Resolved>, recipients: seq<User>, role: Role, body: Body, budget: nat) returns (ok: bool)
      modifies `world
      ensures var xs := RoleWrites(rs, role, recipients) + Deliveries(recipients, body);
        && (ok <==> |xs| <= budget && !Keyless(rs))
        && world == if Keyless(rs) then old(world) else PerformAll(old(world), user, Cut(xs, budget))
    {
      PlanPrefix(world, user, RoleWrites(rs, role, recipients), Deliveries(recipients, body), budget);
      var left;
      ok, left := ManageShareFilesViaPublicKey(rs, recipients, role, budget);
      if !ok { return; }
      ok, left := SendToAll(recipients, body, left);
    }

    /** Sent records, then roles, then invitations; a failing write leaves the writes before it. */
    method ShareFilesViaPublicKey(paths: seq<FullPath>, recipients: seq<User>, luck: Luck) returns (ok: bool)
      modifies `world
      ensures ok <==> Succeeds(own, old(world), user, Share(paths, recipients), luck)
      ensures world == Leaves(own, old(world), user, Share(paths, recipients), luck)
    {
      var rs;
      ok, rs := ResolveFullPaths(paths, luck.lookups);
      if !ok { return; }
      SharePlanSplit(world, user, rs, recipients, luck.budget);
      var left;
      ok, left := RecordSentFiles(rs, luck.budget);
      if !ok { return; }
      ok := PushAndTell(rs, recipients, Admin, Invite(PathsOf(rs), KeysOf(rs)), left);
    }

    /** Roles first, then the messages that revoke the invitations. */
    method UnshareFilesViaPublicKey(paths: seq<FullPath>, recipients: seq<User>, luck: Luck) returns (ok: bool)
      modifies `world
      ensures ok <==> Succeeds(own, old(world), user, Unshare(paths, recipients), luck)
      ensures world == Leaves(own, old(world), user, Unshare(paths, recipients), luck)
    {
      var rs;
      ok, rs := ResolveFullPaths(paths, luck.lookups);
      if !ok { return; }
      ok := PushAndTell(rs, recipients, Revoked, Revoke(PathsOf(rs), KeysOf(rs)), luck.budget);
    }

    /** Accepts or rejects an invitation, and tells the inviter of an acceptance. */
    method HandleSharedFilesInvitation(id: nat, accept: bool, luck: Luck) returns (ok: bool)
      modifies `world
      ensures ok <==> Succeeds(own, old(world), user, Handle(id, accept), luck)
      ensures world == Leaves(own, old(world), user, Handle(id, accept), luck)
    {
      if id >= |world.mail| || world.mail[id].to != user || !world.mail[id].body.Invite? { return false; }
      if StatusOf(world.records, user, id) != Pending { return false; }
      var mail := world.mail[id];
      if |mail.body.paths| != |mail.body.keys| { return false; }
      ok := CreateReceivedFiles(mail, id, accept, luck.failing);
      if !ok { return; }
      NoWrites(world, user);
      if accept {
        if !luck.replies { return false; }
        OneWrite(world, user, Deliver(mail.from, Reply(mail.body.paths, mail.body.keys)));
        world := world.(mail := world.mail + [Mail(user, mail.from, Reply(mail.body.paths, mail.body.keys))]);
      }
    }

    /** One record per path of the invitation, going on past those that cannot be created. */
    method CreateReceivedFiles(mail: Mail, id: nat, accept: bool, failing: set<nat>) returns (ok: bool)
      requires |mail.body.paths| == |mail.body.keys|
      modifies `world
      ensures ok <==> AllMade(failing, |mail.body.paths|)
      ensures world == PerformSome(old(world), user, ReceivedWrites(mail, id, accept), failing, |mail.body.paths|)
    {
      ghost var plan := ReceivedWrites(mail, id, accept);
      ok := true;
      var i := 0;
      while i < |mail.body.paths|
        invariant 0 <= i <= |plan|
        invariant ok <==> AllMade(failing, i)
        invariant world == PerformSome(old(world), user, plan, failing, i)
      {
        var key := if accept then mail.body.keys[i] else "";
        var p := mail.body.paths[i];
        if i in failing {
          ok := false;
        } else if Find(world.records, user, p.dbId, p.bucket, p.path).None? {
          var record := Received(user, p.dbId, p.bucket, p.path, id, p.bucketKey, key, mail.from, accept);
          world := world.(records := world.records + [record]);
        }
        i := i + 1;
      }
    }
  }
}
