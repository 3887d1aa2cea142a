/**
 * Any number of users share, unshare and answer invitations at the same time.
 * A step is one write of one call, a write that fails, or the start of a call.
 */
module SharingRuns {
  import opened Wrappers
  import opened Sharing

  type Owners = map<User, OwnBucket>

  datatype Task = Sending | Handling(id: nat, accept: bool)

  /** A call that has performed, or for a record passed over, the first writes of its plan. */
  datatype Call = Call(user: User, task: Task, plan: seq<Write>, next: nat)

  datatype State = State(world: World, calls: seq<Call>)

  datatype Action =
    | Begin(user: User, request: Request)
    | Advance(c: nat)
    | Skip(c: nat)
    | Abort(c: nat)

  const START := State(World([], [], [], []), [])

  predicate CanStep(s: State, c: nat) {
    c < |s.calls| && s.calls[c].next < |s.calls[c].plan|
  }

  predicate AtRecord(call: Call) {
    call.next < |call.plan| && call.plan[call.next].WriteReceived?
  }

  /** The creation of received records goes on after a failure; any other write that fails ends its call. */
  predicate Enabled(o: Owners, s: State, a: Action) {
    match a
    case Begin(user, _) => user in o
    case Advance(c) => CanStep(s, c)
    case Skip(c) => CanStep(s, c) && AtRecord(s.calls[c])
    case Abort(c) => CanStep(s, c) && !AtRecord(s.calls[c])
  }

  function TaskOf(request: Request): Task {
    match request
    case Handle(id, accept) => Handling(id, accept)
    case _ => Sending
  }

  /** A record that could not be created leaves the inviter without a reply. */
  function WithoutReply(plan: seq<Write>): seq<Write> {
    if plan != [] && plan[|plan| - 1].Deliver? then plan[..|plan| - 1] else plan
  }

  function Apply(o: Owners, s: State, a: Action): State
    requires Enabled(o, s, a)
  {
    match a
    case Begin(user, request) =>
      var plan := PlanFor(o[user], s.world, user, request);
      if plan.None? then s
      else s.(calls := s.calls + [Call(user, TaskOf(request), plan.value, 0)])
    case Advance(c) =>
      var call := s.calls[c];
      State(Perform(s.world, call.user, call.plan[call.next]), s.calls[c := call.(next := call.next + 1)])
    case Skip(c) =>
      var call := s.calls[c];
      s.(calls := s.calls[c := call.(plan := WithoutReply(call.plan), next := call.next + 1)])
    case Abort(c) => s.(calls := s.calls[c := s.calls[c].(plan := s.calls[c].plan[..s.calls[c].next])])
  }

  ghost predicate IsRun(o: Owners, run: seq<State>, acts: seq<Action>) {
    && |run| == |acts| + 1
    && run[0] == START
    && forall i :: 0 <= i < |acts| ==> Enabled(o, run[i], acts[i]) && run[i + 1] == Apply(o, run[i], acts[i])
  }

  // ---------------------------------------------------------------------
  // The order of writes
  // ---------------------------------------------------------------------

  predicate HasPush(pushes: seq<RolePush>, from: User, path: FullPath, role: Role, to: User) {
    exists p :: p in pushes && p.from == from && p.file == path && p.role == role && to in p.members
  }

  /** Whoever sent the message had written what the message promises. */
  predicate MailBacked(w: World, m: Mail) {
    && |m.body.paths| == |m.body.keys|
    && forall i :: 0 <= i < |m.body.paths| ==> PathBacked(w, m, m.body.paths[i])
  }

  predicate PathBacked(w: World, m: Mail, path: FullPath) {
    && (m.body.Invite? ==> HasSent(w.sent, m.from, path) && HasPush(w.pushes, m.from, path, Admin, m.to))
    && (m.body.Revoke? ==> HasPush(w.pushes, m.from, path, Revoked, m.to))
  }

  predicate SentBefore(plan: seq<Write>, d: nat, path: FullPath) {
    exists k :: 0 <= k < d && k < |plan| && plan[k].WriteSent? && plan[k].path == path
  }

  predicate IsPushOf(x: Write, path: FullPath, role: Role, to: User) {
    x.PushRoles? && x.path == path && x.role == role && to in x.members
  }

  predicate PushedBefore(plan: seq<Write>, d: nat, path: FullPath, role: Role, to: User) {
    exists k :: 0 <= k < d && k < |plan| && IsPushOf(plan[k], path, role, to)
  }

  predicate DeliveryBacked(plan: seq<Write>, d: nat, to: User, body: Body) {
    && |body.paths| == |body.keys|
    && forall i :: 0 <= i < |body.paths| ==>
         && (body.Invite? ==> SentBefore(plan, d, body.paths[i]) && PushedBefore(plan, d, body.paths[i], Admin, to))
         && (body.Revoke? ==> PushedBefore(plan, d, body.paths[i], Revoked, to))
  }

  predicate PlanBacked(plan: seq<Write>) {
    forall d :: 0 <= d < |plan| && plan[d].Deliver? ==> DeliveryBacked(plan, d, plan[d].to, plan[d].body)
  }

  predicate Done(w: World, user: User, x: Write) {
    match x
    case WriteSent(p, _) => HasSent(w.sent, user, p)
    case PushRoles(p, key, role, members) => RolePush(user, p, key, role, members) in w.pushes
    case _ => true
  }

  predicate IsAnswer(x: Write) {
    x.WriteReceived? || (x.Deliver? && x.body.Reply?)
  }

  predicate CallInv(w: World, call: Call) {
    && call.next <= |call.plan|
    && PlanBacked(call.plan)
    && (call.task.Sending? ==> forall k :: 0 <= k < call.next ==> Done(w, call.user, call.plan[k]))
    && (call.task.Handling? ==> forall k :: 0 <= k < |call.plan| ==> IsAnswer(call.plan[k]))
    && (call.task.Sending? ==> forall k :: 0 <= k < |call.plan| ==> !call.plan[k].WriteReceived?)
  }

  predicate OrderInv(s: State) {
    && (forall m :: m in s.world.mail ==> MailBacked(s.world, m))
    && (forall c :: 0 <= c < |s.calls| ==> CallInv(s.world, s.calls[c]))
  }

  predicate Grows(w: World, w': World) {
    w.records <= w'.records && w.sent <= w'.sent && w.pushes <= w'.pushes && w.mail <= w'.mail
  }

  lemma PerformGrows(w: World, user: User, x: Write)
    ensures Grows(w, Perform(w, user, x))
    ensures Done(Perform(w, user, x), user, x)
  {
    var w' := Perform(w, user, x);
    match x
    case WriteSent(p, key) =>
      if !HasSent(w.sent, user, p) {
        var r := Sent(user, p.dbId, p.bucket, p.path, p.bucketKey, key);
        assert w'.sent[|w.sent|] == r;
        assert r in w'.sent;
      }
    case PushRoles(p, key, role, members) =>
      assert w'.pushes[|w.pushes|] == RolePush(user, p, key, role, members);
    case _ =>
  }

  lemma SentStays(sent: seq<Sent>, sent': seq<Sent>, from: User, path: FullPath)
    requires sent <= sent' && HasSent(sent, from, path)
    ensures HasSent(sent', from, path)
  {
    var r :| r in sent && r.from == from && r.dbId == path.dbId && r.bucket == path.bucket && r.path == path.path;
    assert r in sent';
  }

  lemma PushStays(pushes: seq<RolePush>, pushes': seq<RolePush>, from: User, path: FullPath, role: Role, to: User)
    requires pushes <= pushes' && HasPush(pushes, from, path, role, to)
    ensures HasPush(pushes', from, path, role, to)
  {
    var p :| p in pushes && p.from == from && p.file == path && p.role == role && to in p.members;
    assert p in pushes';
  }

  lemma MailStaysBacked(w: World, w': World, m: Mail)
    requires Grows(w, w') && MailBacked(w, m)
    ensures MailBacked(w', m)
  {
    forall i | 0 <= i < |m.body.paths| ensures PathBacked(w', m, m.body.paths[i]) {
      var path := m.body.paths[i];
      assert PathBacked(w, m, path);
      if m.body.Invite? {
        SentStays(w.sent, w'.sent, m.from, path);
        PushStays(w.pushes, w'.pushes, m.from, path, Admin, m.to);
      } else if m.body.Revoke? {
        PushStays(w.pushes, w'.pushes, m.from, path, Revoked, m.to);
      }
    }
  }

  lemma CallStays(w: World, w': World, call: Call)
    requires Grows(w, w') && CallInv(w, call)
    ensures CallInv(w', call)
  {
    if call.task.Sending? {
      forall k | 0 <= k < call.next ensures Done(w', call.user, call.plan[k]) {
        assert Done(w, call.user, call.plan[k]);
        match call.plan[k]
        case WriteSent(p, _) => SentStays(w.sent, w'.sent, call.user, p);
        case _ =>
      }
    }
  }

  lemma SharePlanBacked(rs: seq<Resolved>, recipients: seq<User>)
    ensures PlanBacked(SharePlan(rs, recipients))
  {
    var plan := SharePlan(rs, recipients);
    var body := Invite(PathsOf(rs), KeysOf(rs));
    forall d | 0 <= d < |plan| && plan[d].Deliver? ensures DeliveryBacked(plan, d, plan[d].to, plan[d].body) {
      var to := plan[d].to;
      assert plan[d] == Deliveries(recipients, body)[d - 2 * |rs|];
      assert to in Members(recipients);
      forall i | 0 <= i < |rs|
        ensures SentBefore(plan, d, body.paths[i]) && PushedBefore(plan, d, body.paths[i], Admin, to)
      {
        assert plan[i] == SentWrites(rs)[i];
        assert plan[|rs| + i] == RoleWrites(rs, Admin, recipients)[i];
        assert IsPushOf(plan[|rs| + i], body.paths[i], Admin, to);
      }
    }
  }

  lemma UnsharePlanBacked(rs: seq<Resolved>, recipients: seq<User>)
    ensures PlanBacked(UnsharePlan(rs, recipients))
  {
    var plan := UnsharePlan(rs, recipients);
    var body := Revoke(PathsOf(rs), KeysOf(rs));
    forall d | 0 <= d < |plan| && plan[d].Deliver? ensures DeliveryBacked(plan, d, plan[d].to, plan[d].body) {
      var to := plan[d].to;
      assert plan[d] == Deliveries(recipients, body)[d - |rs|];
      assert to in Members(recipients);
      forall i | 0 <= i < |rs| ensures PushedBefore(plan, d, body.paths[i], Revoked, to) {
        assert plan[i] == RoleWrites(rs, Revoked, recipients)[i];
        assert IsPushOf(plan[i], body.paths[i], Revoked, to);
      }
    }
  }

  lemma AdvanceOrder(o: Owners, s: State, c: nat)
    requires OrderInv(s) && CanStep(s, c)
    ensures OrderInv(Apply(o, s, Advance(c)))
  {
    var call := s.calls[c];
    var x, s' := call.plan[call.next], Apply(o, s, Advance(c));
    PerformGrows(s.world, call.user, x);
    forall m | m in s'.world.mail ensures MailBacked(s'.world, m) {
      if m in s.world.mail {
        MailStaysBacked(s.world, s'.world, m);
      } else {
        MailStaysBacked(s.world, s'.world, m);
      }
    }
    forall b | 0 <= b < |s'.calls| ensures CallInv(s'.world, s'.calls[b]) {
      CallStays(s.world, s'.world, s.calls[b]);
    }
  }

  lemma {:induction false} CutOrder(w: World, call: Call, n: nat)
    requires CallInv(w, call) && call.next <= n <= |call.plan|
    ensures CallInv(w, call.(plan := call.plan[..n]))
  {
    var plan := call.plan[..n];
    forall d | 0 <= d < |plan| && plan[d].Deliver? ensures DeliveryBacked(plan, d, plan[d].to, plan[d].body) {
      BackedInPrefix(call.plan, n, d);
    }
  }

  lemma BackedInPrefix(plan: seq<Write>, n: nat, d: nat)
    requires d < n <= |plan| && plan[d].Deliver? && PlanBacked(plan)
    ensures DeliveryBacked(plan[..n], d, plan[d].to, plan[d].body)
  {
    var to, body := plan[d].to, plan[d].body;
    assert DeliveryBacked(plan, d, to, body);
    forall i | 0 <= i < |body.paths| && !body.Reply?
      ensures body.Invite? ==> SentBefore(plan[..n], d, body.paths[i])
      ensures PushedBefore(plan[..n], d, body.paths[i], if body.Invite? then Admin else Revoked, to)
    {
      var path, role := body.paths[i], if body.Invite? then Admin else Revoked;
      assert PushedBefore(plan, d, path, role, to);
      var k :| 0 <= k < d && IsPushOf(plan[k], path, role, to);
      assert plan[..n][k] == plan[k];
      if body.Invite? {
        assert SentBefore(plan, d, path);
        var j :| 0 <= j < d && plan[j].WriteSent? && plan[j].path == path;
        assert plan[..n][j] == plan[j];
      }
    }
  }

  lemma SkipOrder(o: Owners, s: State, c: nat)
    requires OrderInv(s) && Enabled(o, s, Skip(c))
    ensures OrderInv(Apply(o, s, Skip(c)))
  {
    var call := s.calls[c];
    assert CallInv(s.world, call);
    assert call.task.Handling?;
    var n := |WithoutReply(call.plan)|;
    CutOrder(s.world, call, n);
    assert call.plan[..n] == WithoutReply(call.plan);
  }

  lemma AnswerBacked(mail: Mail, id: nat, accept: bool)
    requires |mail.body.paths| == |mail.body.keys|
    ensures var plan := ReceivedWrites(mail, id, accept) + Replies(mail, accept);
      PlanBacked(plan) && forall k :: 0 <= k < |plan| ==> IsAnswer(plan[k])
  {
  }

  lemma SharePlanSends(rs: seq<Resolved>, recipients: seq<User>, k: nat)
    ensures k < |SharePlan(rs, recipients)| ==> !SharePlan(rs, recipients)[k].WriteReceived?
    ensures k < |UnsharePlan(rs, recipients)| ==> !UnsharePlan(rs, recipients)[k].WriteReceived?
  {
  }

  lemma SendsOnly(rs: seq<Resolved>, recipients: seq<User>)
    ensures forall k: nat :: k < |SharePlan(rs, recipients)| ==> !SharePlan(rs, recipients)[k].WriteReceived?
    ensures forall k: nat :: k < |UnsharePlan(rs, recipients)| ==> !UnsharePlan(rs, recipients)[k].WriteReceived?
  {
    forall k: nat
      ensures k < |SharePlan(rs, recipients)| ==> !SharePlan(rs, recipients)[k].WriteReceived?
      ensures k < |UnsharePlan(rs, recipients)| ==> !UnsharePlan(rs, recipients)[k].WriteReceived?
    {
      SharePlanSends(rs, recipients, k);
    }
  }

  lemma BeginOrder(o: Owners, s: State, user: User, request: Request)
    requires OrderInv(s) && user in o && PlanFor(o[user], s.world, user, request).Some?
    ensures CallInv(s.world, Call(user, TaskOf(request), PlanFor(o[user], s.world, user, request).value, 0))
  {
    match request
    case Share(paths, recipients) =>
      var rs := ResolveAll(o[user], s.world.records, user, paths);
      if Keyless(rs) {
        assert PlanBacked(SentWrites(rs));
      } else {
        SharePlanBacked(rs, recipients);
        SendsOnly(rs, recipients);
      }
    case Unshare(paths, recipients) =>
      var rs := ResolveAll(o[user], s.world.records, user, paths);
      UnsharePlanBacked(rs, recipients);
      SendsOnly(rs, recipients);
    case Handle(id, accept) => AnswerBacked(s.world.mail[id], id, accept);
  }

  lemma StepOrder(o: Owners, s: State, a: Action)
    requires OrderInv(s) && Enabled(o, s, a)
    ensures OrderInv(Apply(o, s, a))
  {
    match a
    case Begin(user, request) =>
      if PlanFor(o[user], s.world, user, request).Some? {
        BeginOrder(o, s, user, request);
      }
    case Advance(c) => AdvanceOrder(o, s, c);
    case Skip(c) => SkipOrder(o, s, c);
    case Abort(c) => CutOrder(s.world, s.calls[c], s.calls[c].next);
  }

  lemma {:induction false} RunOrder(o: Owners, run: seq<State>, acts: seq<Action>, k: nat)
    requires IsRun(o, run, acts) && k <= |acts|
    ensures OrderInv(run[k])
  {
    if k > 0 {
      RunOrder(o, run, acts, k - 1);
      StepOrder(o, run[k - 1], acts[k - 1]);
    }
  }

  /**
   * At every moment of every run, whatever fails and however calls overlap: an
   * invitation is in a mailbox only if its sender has recorded each file as
   * sent and pushed the admin role of that recipient for it, and a revocation
   * only if its sender has pushed the removal of the role.
   */
  lemma MessagesFollowRoles(o: Owners, run: seq<State>, acts: seq<Action>, k: nat, m: Mail, i: nat)
    requires IsRun(o, run, acts) && k <= |acts| && m in run[k].world.mail && i < |m.body.paths|
    ensures m.body.Invite? ==>
      && HasSent(run[k].world.sent, m.from, m.body.paths[i])
      && HasPush(run[k].world.pushes, m.from, m.body.paths[i], Admin, m.to)
    ensures m.body.Revoke? ==> HasPush(run[k].world.pushes, m.from, m.body.paths[i], Revoked, m.to)
  {
    RunOrder(o, run, acts, k);
    assert PathBacked(run[k].world, m, m.body.paths[i]);
  }

  // ---------------------------------------------------------------------
  // One record per file
  // ---------------------------------------------------------------------

  predicate SameFile(r: Received, q: Received) {
    IsFor(r, q.holder, q.dbId, q.bucket, q.path)
  }

  predicate OnePerFile(records: seq<Received>) {
    forall i, j :: 0 <= i < j < |records| ==> !SameFile(records[i], records[j])
  }

  lemma PerformOnePerFile(w: World, user: User, x: Write)
    requires OnePerFile(w.records)
    ensures OnePerFile(Perform(w, user, x).records)
  {
    if x.WriteReceived? && Perform(w, user, x) != w {
      assert forall i :: 0 <= i < |w.records| ==> w.records[i] in w.records;
    }
  }

  /** Whatever fails and however calls overlap, no user ever holds two records of one file. */
  lemma {:induction false} RecordsOnePerFile(o: Owners, run: seq<State>, acts: seq<Action>, k: nat)
    requires IsRun(o, run, acts) && k <= |acts|
    ensures OnePerFile(run[k].world.records)
  {
    if k > 0 {
      RecordsOnePerFile(o, run, acts, k - 1);
    }
  }

  /** So the record that a query finds does not depend on the order in which the store returns them. */
  lemma FindIgnoresOrder(records: seq<Received>, found: seq<Received>, user: User, p: FullPath)
    requires OnePerFile(records)
    requires forall r :: r in found <==> r in records
    ensures Find(found, user, p.dbId, p.bucket, p.path) == Find(records, user, p.dbId, p.bucket, p.path)
  {
    var a, b := Find(found, user, p.dbId, p.bucket, p.path), Find(records, user, p.dbId, p.bucket, p.path);
    if a.Some? && b.Some? && a != b {
      var i :| 0 <= i < |records| && records[i] == a.value;
      var j :| 0 <= j < |records| && records[j] == b.value;
      assert SameFile(records[i], records[j]) && SameFile(records[j], records[i]);
      assert false;
    }
  }

  // ---------------------------------------------------------------------
  // One call on its own
  // ---------------------------------------------------------------------

  lemma Extend(o: Owners, run: seq<State>, acts: seq<Action>, a: Action) returns (run': seq<State>, acts': seq<Action>)
    requires IsRun(o, run, acts) && Enabled(o, run[|acts|], a)
    ensures IsRun(o, run', acts') && run' == run + [Apply(o, run[|acts|], a)] && acts' == acts + [a]
  {
    run', acts' := run + [Apply(o, run[|acts|], a)], acts + [a];
  }

  /** At most the last write of the plan is a message. */
  predicate OneReply(plan: seq<Write>) {
    WithoutReply(WithoutReply(plan)) == WithoutReply(plan)
  }

  predicate AnyFails(failing: set<nat>, n: nat) {
    exists k: nat :: k < n && k in failing
  }

  /** Call c, which has not written yet, carried up to its n-th write, with the records in failing passed over. */
  lemma {:induction false} Carry(o: Owners, run: seq<State>, acts: seq<Action>, c: nat, failing: set<nat>, n: nat)
    returns (run': seq<State>, acts': seq<Action>)
    requires IsRun(o, run, acts)
    requires var s := run[|acts|];
      && c < |s.calls| && s.calls[c].next == 0 && n <= |s.calls[c].plan|
      && (AnyFails(failing, n) ==> n <= |WithoutReply(s.calls[c].plan)| && OneReply(s.calls[c].plan))
      && forall k: nat :: k < n && k in failing ==> s.calls[c].plan[k].WriteReceived?
    ensures IsRun(o, run', acts') && run <= run' && acts <= acts'
    ensures forall i :: |acts| <= i < |acts'| ==> !acts'[i].Begin?
    ensures var s, s', call := run[|acts|], run'[|acts'|], run[|acts|].calls[c];
      && s'.world == PerformSome(s.world, call.user, call.plan, failing, n)
      && s'.calls == s.calls[c :=
           Call(call.user, call.task, if AnyFails(failing, n) then WithoutReply(call.plan) else call.plan, n)]
    decreases n
  {
    if n == 0 {
      run', acts' := run, acts;
    } else {
      var s := run[|acts|];
      var run1, acts1 := Carry(o, run, acts, c, failing, n - 1);
      CarryStep(o, s, run1[|acts1|], c, failing, n);
      run', acts' := Extend(o, run1, acts1, if n - 1 in failing then Skip(c) else Advance(c));
    }
  }

  lemma CarryStep(o: Owners, s: State, t: State, c: nat, failing: set<nat>, n: nat)
    requires c < |s.calls| == |t.calls| && 0 < n <= |s.calls[c].plan|
    requires AnyFails(failing, n) ==> n <= |WithoutReply(s.calls[c].plan)| && OneReply(s.calls[c].plan)
    requires n - 1 in failing ==> s.calls[c].plan[n - 1].WriteReceived?
    requires var call := s.calls[c];
      && t.world == PerformSome(s.world, call.user, call.plan, failing, n - 1)
      && t.calls == s.calls[c :=
           Call(call.user, call.task, if AnyFails(failing, n - 1) then WithoutReply(call.plan) else call.plan, n - 1)]
    ensures var a, call := if n - 1 in failing then Skip(c) else Advance(c), s.calls[c];
      && Enabled(o, t, a)
      && Apply(o, t, a).world == PerformSome(s.world, call.user, call.plan, failing, n)
      && Apply(o, t, a).calls == s.calls[c :=
           Call(call.user, call.task, if AnyFails(failing, n) then WithoutReply(call.plan) else call.plan, n)]
  {
    var call := s.calls[c];
    assert AnyFails(failing, n) <==> AnyFails(failing, n - 1) || n - 1 in failing;
  }

  predicate Ended(call: Call) {
    call.next == |call.plan|
  }

  predicate AllEnded(s: State) {
    forall c :: 0 <= c < |s.calls| ==> Ended(s.calls[c])
  }

  /** The end of a call: the step after its last write that succeeds, when there is one more write, ends it. */
  lemma CutShort(o: Owners, run: seq<State>, acts: seq<Action>, c: nat) returns (run': seq<State>, acts': seq<Action>)
    requires IsRun(o, run, acts) && c < |run[|acts|].calls|
    requires var call := run[|acts|].calls[c]; call.next <= |call.plan| && !AtRecord(call)
    ensures IsRun(o, run', acts') && run <= run' && acts <= acts'
    ensures forall i :: |acts| <= i < |acts'| ==> !acts'[i].Begin?
    ensures run'[|acts'|].world == run[|acts|].world
    ensures var calls, calls' := run[|acts|].calls, run'[|acts'|].calls;
      |calls'| == |calls| && Ended(calls'[c]) && forall b :: 0 <= b < |calls| && b != c ==> calls'[b] == calls[b]
  {
    if CanStep(run[|acts|], c) {
      run', acts' := Extend(o, run, acts, Abort(c));
    } else {
      run', acts' := run, acts;
    }
  }

  lemma {:induction false} SomeIsAll(w: World, user: User, xs: seq<Write>, n: nat)
    requires n <= |xs|
    ensures PerformSome(w, user, xs, {}, n) == PerformAll(w, user, xs[..n])
  {
    if n == 0 {
      assert xs[..0] == [];
    } else {
      SomeIsAll(w, user, xs, n - 1);
      PerformNext(w, user, xs, n - 1);
    }
  }

  lemma {:induction false} SomeOfPrefix(w: World, user: User, xs: seq<Write>, ys: seq<Write>, failing: set<nat>, n: nat)
    requires n <= |xs|
    ensures PerformSome(w, user, xs + ys, failing, n) == PerformSome(w, user, xs, failing, n)
  {
    if n > 0 {
      SomeOfPrefix(w, user, xs, ys, failing, n - 1);
    }
  }

  /** How many writes of its plan a call gets through before it ends. */
  function Writes(w: World, request: Request, plan: seq<Write>, luck: Luck): nat
    requires request.Handle? ==> request.id < |w.mail|
  {
    if request.Handle? then
      var n := |w.mail[request.id].body.paths|;
      if AllMade(luck.failing, n) && luck.replies then |plan| else n
    else |Cut(plan, luck.budget)|
  }

  /** The records that a call passes over. */
  function Passed(w: World, request: Request, luck: Luck): set<nat>
    requires request.Handle? ==> request.id < |w.mail|
  {
    if request.Handle? then set k | k in luck.failing && k < |w.mail[request.id].body.paths| else {}
  }

  lemma LeavesIsSome(own: OwnBucket, w: World, user: User, request: Request, luck: Luck)
    requires PlanFor(own, w, user, request).Some?
    requires !request.Handle? ==> |request.paths| <= luck.lookups
    ensures var plan := PlanFor(own, w, user, request).value;
      && Writes(w, request, plan, luck) <= |plan|
      && Leaves(own, w, user, request, luck) ==
           PerformSome(w, user, plan, Passed(w, request, luck), Writes(w, request, plan, luck))
  {
    var plan := PlanFor(own, w, user, request).value;
    if request.Handle? {
      AnswerIsSome(w, user, request.id, request.accept, luck);
    } else {
      SomeIsAll(w, user, plan, |Cut(plan, luck.budget)|);
      assert plan[..|Cut(plan, luck.budget)|] == Cut(plan, luck.budget);
    }
  }

  lemma {:induction false} SameFailing(w: World, user: User, xs: seq<Write>, f: set<nat>, g: set<nat>, n: nat)
    requires n <= |xs| && forall k: nat :: k < n ==> (k in f <==> k in g)
    ensures PerformSome(w, user, xs, f, n) == PerformSome(w, user, xs, g, n)
  {
    if n > 0 {
      SameFailing(w, user, xs, f, g, n - 1);
    }
  }

  lemma AnswerIsSome(w: World, user: User, id: nat, accept: bool, luck: Luck)
    requires CanHandle(w, user, id)
    ensures var xs, ys := ReceivedWrites(w.mail[id], id, accept), Replies(w.mail[id], accept);
      var n := if AllMade(luck.failing, |xs|) && luck.replies then |xs + ys| else |xs|;
      Answered(w, user, id, accept, luck) ==
        PerformSome(w, user, xs + ys, Passed(w, Handle(id, accept), luck), n)
  {
    var xs, ys := ReceivedWrites(w.mail[id], id, accept), Replies(w.mail[id], accept);
    var passed := Passed(w, Handle(id, accept), luck);
    SomeOfPrefix(w, user, xs, ys, passed, |xs|);
    SameFailing(w, user, xs, luck.failing, passed, |xs|);
    var made := PerformSome(w, user, xs, luck.failing, |xs|);
    if accept {
      OneWrite(made, user, ys[0]);
      assert (xs + ys)[|xs|] == ys[0];
    } else {
      NoWrites(made, user);
      assert xs + ys == xs;
    }
  }

  /** What a method of a daemon leaves, wherever it stops, is where a run of the system can go. */
  lemma CallIsSteps(o: Owners, run: seq<State>, acts: seq<Action>, user: User, request: Request, luck: Luck)
    returns (run': seq<State>, acts': seq<Action>)
    requires IsRun(o, run, acts) && user in o && AllEnded(run[|acts|])
    ensures IsRun(o, run', acts') && run <= run' && acts <= acts' && AllEnded(run'[|acts'|])
    ensures forall i :: |acts| <= i < |acts'| && acts'[i].Begin? ==> i == |acts| && acts'[i] == Begin(user, request)
    ensures run'[|acts'|].world == Leaves(o[user], run[|acts|].world, user, request, luck)
  {
    var w := run[|acts|].world;
    var plan := PlanFor(o[user], w, user, request);
    if plan.None? || (!request.Handle? && luck.lookups < |request.paths|) {
      run', acts' := run, acts;
    } else {
      LeavesIsSome(o[user], w, user, request, luck);
      PassedCarries(o[user], w, user, request, luck);
      var run1, acts1 := Extend(o, run, acts, Begin(user, request));
      run', acts' := BegunCall(o, run1, acts1, Passed(w, request, luck), Writes(w, request, plan.value, luck));
    }
  }

  /** The last call, which has just begun, carried up to its n-th write and then ended. */
  lemma BegunCall(o: Owners, run: seq<State>, acts: seq<Action>, passed: set<nat>, n: nat)
    returns (run': seq<State>, acts': seq<Action>)
    requires IsRun(o, run, acts) && run[|acts|].calls != []
    requires var calls := run[|acts|].calls;
      var c := |calls| - 1;
      && (forall b :: 0 <= b < c ==> Ended(calls[b])) && calls[c].next == 0 && n <= |calls[c].plan|
      && (AnyFails(passed, n) ==> n <= |WithoutReply(calls[c].plan)| && OneReply(calls[c].plan))
      && (forall k: nat :: k < n && k in passed ==> calls[c].plan[k].WriteReceived?)
      && (forall k: nat :: n <= k < |calls[c].plan| ==> !calls[c].plan[k].WriteReceived?)
    ensures IsRun(o, run', acts') && run <= run' && acts <= acts' && AllEnded(run'[|acts'|])
    ensures forall i :: |acts| <= i < |acts'| ==> !acts'[i].Begin?
    ensures var s := run[|acts|];
      var call := s.calls[|s.calls| - 1];
      run'[|acts'|].world == PerformSome(s.world, call.user, call.plan, passed, n)
  {
    var c := |run[|acts|].calls| - 1;
    run', acts' := Carry(o, run, acts, c, passed, n);
    run', acts' := CutShort(o, run', acts', c);
  }

  lemma PassedCarries(own: OwnBucket, w: World, user: User, request: Request, luck: Luck)
    requires PlanFor(own, w, user, request).Some?
    ensures var plan := PlanFor(own, w, user, request).value;
      var passed, n := Passed(w, request, luck), Writes(w, request, plan, luck);
      && n <= |plan|
      && (AnyFails(passed, n) ==> n <= |WithoutReply(plan)| && OneReply(plan))
      && (forall k: nat :: k < n && k in passed ==> plan[k].WriteReceived?)
      && (forall k: nat :: n <= k < |plan| ==> !plan[k].WriteReceived?)
  {
    match request
    case Share(paths, recipients) => SendsOnly(ResolveAll(own, w.records, user, paths), recipients);
    case Unshare(paths, recipients) => SendsOnly(ResolveAll(own, w.records, user, paths), recipients);
    case Handle(_, _) =>
  }
}
