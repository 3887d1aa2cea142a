/** Reachable cases in which sharing does something its users would not expect. */
module SharingCases {
  import opened Wrappers
  import opened Sharing
  import opened SharingRuns
  import SharingKeys
  import Revocations
  import Invitations
  import opened SharingRoles
  import opened SharingOverlaps

  const OWNERS: Owners := map[
    "alice" := OwnBucket("dbA", "bucketA", "keyA"),
    "bob" := OwnBucket("dbB", "bucketB", "keyB"),
    "carol" := OwnBucket("dbC", "bucketC", "keyC")]

  /** Nothing fails. */
  const FAIR := Luck(2, 5, {}, true)

  /** Alice's own file, as she names it and as it is shared. */
  const OWN_FILE := FullPath("", "", "f", "")
  const SHARED_FILE := FullPath("dbA", MIRROR_SLUG, "f", "bucketA")

  lemma OneFile(x: Resolved)
    ensures PathsOf([x]) == [x.path] && KeysOf([x]) == [x.key]
  {
  }

  /** A share of one file with one user, with nothing failing. */
  lemma ShareOne(own: OwnBucket, w: World, user: User, p: FullPath, x: Resolved, to: User)
    requires Resolve(own, w.records, user, p) == Some(x) && x.key != ""
    ensures var after := Leaves(own, w, user, Share([p], [to]), FAIR);
      && after.records == w.records
      && after.pushes == w.pushes + [RolePush(user, x.path, x.key, Admin, {to})]
      && after.mail == w.mail + [Mail(user, to, Invite([x.path], [x.key]))]
  {
    assert AllResolve(own, w.records, user, [p]);
    var rs := ResolveAll(own, w.records, user, [p]);
    assert Some(rs[0]) == Resolve(own, w.records, user, [p][0]);
    assert rs == [x];
    OneFile(x);
    assert Members([to]) == {to};
    var a, b := WriteSent(x.path, x.key), PushRoles(x.path, x.key, Admin, {to});
    var c := Deliver(to, Invite([x.path], [x.key]));
    assert SharePlan(rs, [to]) == [a] + [b] + [c];
    OneWrite(w, user, a);
    PerformMore(w, user, [a], b);
    PerformMore(w, user, [a] + [b], c);
  }

  lemma FirstWrite(w: World, user: User, xs: seq<Write>)
    requires |xs| >= 1
    ensures PerformSome(w, user, xs, {}, 1) == Perform(w, user, xs[0])
  {
    assert PerformSome(w, user, xs, {}, 0) == w;
  }

  /** An answer to an invitation to one file, with nothing failing. */
  lemma AnswerOne(own: OwnBucket, w: World, user: User, id: nat, accept: bool)
    requires CanHandle(w, user, id) && |w.mail[id].body.paths| == 1
    ensures var after, body := Leaves(own, w, user, Handle(id, accept), FAIR), w.mail[id].body;
      var p, key := body.paths[0], if accept then body.keys[0] else "";
      && Succeeds(own, w, user, Handle(id, accept), FAIR)
      && after.records == Perform(w, user, WriteReceived(p, key, id, accept, w.mail[id].from)).records
      && after.mail == w.mail + (if accept then [Mail(user, w.mail[id].from, Reply(body.paths, body.keys))] else [])
  {
    var mail := w.mail[id];
    var made := PerformSome(w, user, ReceivedWrites(mail, id, accept), FAIR.failing, 1);
    FirstWrite(w, user, ReceivedWrites(mail, id, accept));
    if accept {
      OneWrite(made, user, Replies(mail, accept)[0]);
    } else {
      NoWrites(made, user);
    }
  }

  /** The run in which alice shares a file with bob and bob rejects it. */
  lemma BobRejects() returns (run: seq<State>, acts: seq<Action>)
    ensures IsRun(OWNERS, run, acts) && AllEnded(run[|acts|])
    ensures run[|acts|].world.records ==
      [Received("bob", "dbA", MIRROR_SLUG, "f", 0, "bucketA", "", "alice", false)]
    ensures |run[|acts|].world.mail| == 1
  {
    run, acts := [START], [];
    var x := Resolved(SHARED_FILE, "keyA");
    ShareOne(OWNERS["alice"], START.world, "alice", OWN_FILE, x, "bob");
    run, acts := CallIsSteps(OWNERS, run, acts, "alice", Share([OWN_FILE], ["bob"]), FAIR);
    var w := run[|acts|].world;
    assert w.mail[0] == Mail("alice", "bob", Invite([SHARED_FILE], ["keyA"]));
    AnswerOne(OWNERS["bob"], w, "bob", 0, false);
    run, acts := CallIsSteps(OWNERS, run, acts, "bob", Handle(0, false), FAIR);
  }

  lemma AlicesPlace()
    ensures SharingKeys.Opens(OWNERS, "dbA", MIRROR_SLUG, "bucketA", "keyA")
    ensures SharingKeys.ValidOwners(OWNERS)
  {
    assert "alice" in OWNERS && OWNERS["alice"] == OwnBucket("dbA", "bucketA", "keyA");
  }

  /** A file that was rejected cannot be shared on by itself: no message leaves and the call fails. */
  lemma RejectedFileIsRefused() returns (run: seq<State>, acts: seq<Action>)
    ensures IsRun(OWNERS, run, acts)
    ensures var w, request := run[|acts|].world, Share([FullPath("dbA", MIRROR_SLUG, "f", "")], ["carol"]);
      && PlanFor(OWNERS["bob"], w, "bob", request).Some?
      && forall luck: Luck ::
           && !Succeeds(OWNERS["bob"], w, "bob", request, luck)
           && Leaves(OWNERS["bob"], w, "bob", request, luck).mail == w.mail
  {
    run, acts := BobRejects();
    var w, request := run[|acts|].world, Share([FullPath("dbA", MIRROR_SLUG, "f", "")], ["carol"]);
    assert Resolve(OWNERS["bob"], w.records, "bob", request.paths[0]).Some?;
    AlicesPlace();
    forall luck: Luck
      ensures !Succeeds(OWNERS["bob"], w, "bob", request, luck)
        && Leaves(OWNERS["bob"], w, "bob", request, luck).mail == w.mail
    {
      SharingKeys.RejectedFirstSendsNothing(OWNERS, w, "bob", request, luck);
    }
  }

  const OTHER_FILE := FullPath("dbA", MIRROR_SLUG, "g", "bucketA")

  lemma TwoFilePlan(x: Resolved, y: Resolved, to: User)
    requires x.key != ""
    ensures var key := if y.key != "" then y.key else x.key;
      SharePlan([x, y], [to]) == [
        WriteSent(x.path, x.key), WriteSent(y.path, y.key),
        PushRoles(x.path, x.key, Admin, {to}), PushRoles(y.path, key, Admin, {to}),
        Deliver(to, Invite([x.path, y.path], [x.key, y.key]))]
  {
    var rs := [x, y];
    assert Members([to]) == {to};
    assert PathsOf(rs) == [x.path, y.path] && KeysOf(rs) == [x.key, y.key];
    assert ContextKey(rs, 1) == x.key && ContextKey(rs, 2) == if y.key != "" then y.key else x.key;
  }

  lemma FiveWrites(w: World, user: User, a: Write, b: Write, c: Write, d: Write, e: Write)
    ensures PerformAll(w, user, [a, b, c, d, e]) ==
      Perform(Perform(Perform(Perform(Perform(w, user, a), user, b), user, c), user, d), user, e)
  {
    OneWrite(w, user, a);
    PerformMore(w, user, [a], b);
    PerformMore(w, user, [a, b], c);
    PerformMore(w, user, [a, b, c], d);
    PerformMore(w, user, [a, b, c, d], e);
    assert [a] + [b] == [a, b] && [a, b] + [c] == [a, b, c] && [a, b, c] + [d] == [a, b, c, d]
      && [a, b, c, d] + [e] == [a, b, c, d, e];
  }

  /** A share of two files with one user, with nothing failing, when the first has a key. */
  lemma ShareTwo(own: OwnBucket, w: World, user: User, p: FullPath, q: FullPath, x: Resolved, y: Resolved, to: User)
    requires Resolve(own, w.records, user, p) == Some(x) && Resolve(own, w.records, user, q) == Some(y) && x.key != ""
    ensures var after := Leaves(own, w, user, Share([p, q], [to]), FAIR);
      var key := if y.key != "" then y.key else x.key;
      && after.records == w.records
      && after.pushes ==
           w.pushes + [RolePush(user, x.path, x.key, Admin, {to}), RolePush(user, y.path, key, Admin, {to})]
      && after.mail == w.mail + [Mail(user, to, Invite([x.path, y.path], [x.key, y.key]))]
  {
    var rs := ResolveAll(own, w.records, user, [p, q]);
    assert Some(rs[0]) == Resolve(own, w.records, user, [p, q][0]);
    assert Some(rs[1]) == Resolve(own, w.records, user, [p, q][1]);
    assert rs == [x, y];
    TwoFilePlan(x, y, to);
    var plan := SharePlan([x, y], [to]);
    FiveWrites(w, user, plan[0], plan[1], plan[2], plan[3], plan[4]);
  }

  const BOBS_RECORDS := [
    Received("bob", "dbA", MIRROR_SLUG, "f", 0, "bucketA", "keyA", "alice", true),
    Received("bob", "dbA", MIRROR_SLUG, "g", 2, "bucketA", "", "alice", false)]

  lemma BobResolves(p: FullPath, q: FullPath)
    requires p == FullPath("dbA", MIRROR_SLUG, "f", "") && q == FullPath("dbA", MIRROR_SLUG, "g", "")
    ensures Resolve(OWNERS["bob"], BOBS_RECORDS, "bob", p) == Some(Resolved(SHARED_FILE, "keyA"))
    ensures Resolve(OWNERS["bob"], BOBS_RECORDS, "bob", q) == Some(Resolved(OTHER_FILE, ""))
  {
    var r := Received("bob", "dbA", MIRROR_SLUG, "g", 2, "bucketA", "", "alice", false);
    assert BOBS_RECORDS[1..] == [r] && !IsFor(BOBS_RECORDS[0], "bob", q.dbId, q.bucket, q.path);
    assert Find([r], "bob", q.dbId, q.bucket, q.path) == Some(r);
  }

  /** Bob has accepted alice's file f and rejected her file g. */
  lemma BobTakesOne() returns (run: seq<State>, acts: seq<Action>)
    ensures IsRun(OWNERS, run, acts) && AllEnded(run[|acts|])
    ensures run[|acts|].world.records == BOBS_RECORDS
  {
    run, acts := BobAccepts();
    var p := FullPath("", "", "g", "");
    ShareOne(OWNERS["alice"], run[|acts|].world, "alice", p, Resolved(OTHER_FILE, "keyA"), "bob");
    run, acts := CallIsSteps(OWNERS, run, acts, "alice", Share([p], ["bob"]), FAIR);
    var w := run[|acts|].world;
    assert w.mail[2] == Mail("alice", "bob", Invite([OTHER_FILE], ["keyA"]));
    Invitations.StatusIff(w.records, "bob", 2);
    AnswerOne(OWNERS["bob"], w, "bob", 2, false);
    run, acts := CallIsSteps(OWNERS, run, acts, "bob", Handle(2, false), FAIR);
  }

  /**
   * A rejected file can be shared on behind an accepted one: its role is
   * pushed under the other file's key, and the invitation carries an empty key.
   */
  lemma RejectedFileIsReshared() returns (run: seq<State>, acts: seq<Action>)
    ensures IsRun(OWNERS, run, acts)
    ensures Mail("bob", "carol", Invite([SHARED_FILE, OTHER_FILE], ["keyA", ""])) in run[|acts|].world.mail
    ensures RolePush("bob", OTHER_FILE, "keyA", Admin, {"carol"}) in run[|acts|].world.pushes
    ensures !SharingKeys.PathOpens(OWNERS, OTHER_FILE, "")
  {
    run, acts := BobTakesOne();
    var w := run[|acts|].world;
    var p, q := FullPath("dbA", MIRROR_SLUG, "f", ""), FullPath("dbA", MIRROR_SLUG, "g", "");
    BobResolves(p, q);
    ShareTwo(OWNERS["bob"], w, "bob", p, q, Resolved(SHARED_FILE, "keyA"), Resolved(OTHER_FILE, ""), "carol");
    run, acts := CallIsSteps(OWNERS, run, acts, "bob", Share([p, q], ["carol"]), FAIR);
    var w' := run[|acts|].world;
    assert w'.mail[|w.mail|] in w'.mail && w'.pushes[|w.pushes| + 1] in w'.pushes;
  }

  /** Naming another user's database with one's personal bucket sends one's own key for it. */
  lemma ForeignDatabaseIsShared() returns (run: seq<State>, acts: seq<Action>)
    ensures IsRun(OWNERS, run, acts)
    ensures var p := FullPath("dbA", MIRROR_SLUG, "f", "bucketB");
      Mail("bob", "carol", Invite([p], ["keyB"])) in run[|acts|].world.mail
  {
    run, acts := [START], [];
    var p := FullPath("dbA", PERSONAL_SLUG, "f", "");
    var x := Resolved(FullPath("dbA", MIRROR_SLUG, "f", "bucketB"), "keyB");
    ShareOne(OWNERS["bob"], START.world, "bob", p, x, "carol");
    run, acts := CallIsSteps(OWNERS, run, acts, "bob", Share([p], ["carol"]), FAIR);
    assert run[|acts|].world.mail[0] == Mail("bob", "carol", Invite([x.path], ["keyB"]));
  }

  /** A second invitation to a rejected file can be accepted with success, and the file stays rejected. */
  lemma AcceptHasNoEffect() returns (run: seq<State>, acts: seq<Action>, w: World)
    ensures IsRun(OWNERS, run, acts) && w in Worlds(run)
    ensures Succeeds(OWNERS["bob"], w, "bob", Handle(1, true), FAIR)
    ensures run[|acts|].world == Leaves(OWNERS["bob"], w, "bob", Handle(1, true), FAIR)
    ensures w.mail[1].body.paths == [SHARED_FILE]
    ensures Invitations.HasRejected(run[|acts|].world, "bob", SHARED_FILE)
  {
    run, acts := BobRejects();
    var x := Resolved(SHARED_FILE, "keyA");
    ShareOne(OWNERS["alice"], run[|acts|].world, "alice", OWN_FILE, x, "bob");
    run, acts := CallIsSteps(OWNERS, run, acts, "alice", Share([OWN_FILE], ["bob"]), FAIR);
    w := run[|acts|].world;
    var n := |acts|;
    assert w.mail[1] == Mail("alice", "bob", Invite([SHARED_FILE], ["keyA"]));
    Invitations.StatusIff(w.records, "bob", 1);
    AnswerOne(OWNERS["bob"], w, "bob", 1, true);
    run, acts := CallIsSteps(OWNERS, run, acts, "bob", Handle(1, true), FAIR);
    assert Worlds(run)[n] == run[n].world == w;
  }

  /** The sent record and the role are written, and the invitation is not. */
  const CUT := Luck(1, 2, {}, true)

  const SHARE_WITH_BOB := Share([OWN_FILE], ["bob"])

  /** A share by alice of her file with bob, in any world, pushes his role; cut after that it does not tell him. */
  lemma AlicePushes(w: World)
    ensures PushesRole(OWNERS["alice"], w, "alice", SHARE_WITH_BOB, CUT, "bucketA", "f", "bob")
    ensures !TellsUser(OWNERS["alice"], w, "alice", SHARE_WITH_BOB, CUT, "bucketA", "f", "bob")
    ensures TellsUser(OWNERS["alice"], w, "alice", SHARE_WITH_BOB, FAIR, "bucketA", "f", "bob")
  {
    var rs := ResolveAll(OWNERS["alice"], w.records, "alice", [OWN_FILE]);
    assert Some(rs[0]) == Resolve(OWNERS["alice"], w.records, "alice", [OWN_FILE][0]);
    assert rs[0].path == SHARED_FILE;
    assert MentionsBefore(rs, 1, "bucketA", "f");
    assert ["bob"][..0] == [] && ["bob"][..1] == ["bob"];
  }

  /** After one share that was cut short bob has a role that no message announced. */
  lemma CutShareIsSilent()
    ensures var cs := [Past("alice", SHARE_WITH_BOB, CUT)];
      && Known(OWNERS, cs)
      && RoleOf(AfterAll(OWNERS, cs).pushes, "bucketA", "f", "bob") == Some(Admin)
      && LastWord(AfterAll(OWNERS, cs).mail, "bucketA", "f", "bob") == None
  {
    var c := Past("alice", SHARE_WITH_BOB, CUT);
    assert [c][..0] == [];
    AlicePushes(AfterAll(OWNERS, []));
    assert LastTold(OWNERS, [], "bucketA", "f", "bob") == None;
    RoleAndWord(OWNERS, [c], "bucketA", "f", "bob");
  }

  /** After a share and a second one cut short they agree, though the call that set the role announced nothing. */
  lemma RepeatedShareAgrees()
    ensures var cs := [Past("alice", SHARE_WITH_BOB, FAIR), Past("alice", SHARE_WITH_BOB, CUT)];
      && Known(OWNERS, cs)
      && LastPush(OWNERS, cs, "bucketA", "f", "bob") == Some(1)
      && LastTold(OWNERS, cs, "bucketA", "f", "bob") == Some(0)
      && RoleOf(AfterAll(OWNERS, cs).pushes, "bucketA", "f", "bob") ==
           LastWord(AfterAll(OWNERS, cs).mail, "bucketA", "f", "bob") == Some(Admin)
  {
    var c, d := Past("alice", SHARE_WITH_BOB, FAIR), Past("alice", SHARE_WITH_BOB, CUT);
    assert [c, d][..1] == [c] && [c][..0] == [];
    AlicePushes(AfterAll(OWNERS, [c]));
    AlicePushes(AfterAll(OWNERS, []));
    assert LastTold(OWNERS, [c], "bucketA", "f", "bob") == Some(0);
    RoleAndWord(OWNERS, [c, d], "bucketA", "f", "bob");
  }

  const UNSHARE_WITH_BOB := Unshare([OWN_FILE], ["bob"])

  lemma AliceResolves(w: World)
    ensures AllResolve(OWNERS["alice"], w.records, "alice", [OWN_FILE])
    ensures ResolveAll(OWNERS["alice"], w.records, "alice", [OWN_FILE]) == [Resolved(SHARED_FILE, "keyA")]
  {
    var rs := ResolveAll(OWNERS["alice"], w.records, "alice", [OWN_FILE]);
    assert Some(rs[0]) == Resolve(OWNERS["alice"], w.records, "alice", [OWN_FILE][0]);
  }

  const SENT_WRITE := WriteSent(SHARED_FILE, "keyA")
  const GRANT_WRITE := PushRoles(SHARED_FILE, "keyA", Admin, {"bob"})
  const TAKE_WRITE := PushRoles(SHARED_FILE, "keyA", Revoked, {"bob"})
  const INVITE_WRITE := Deliver("bob", Invite([SHARED_FILE], ["keyA"]))
  const REVOKE_WRITE := Deliver("bob", Revoke([SHARED_FILE], ["keyA"]))

  lemma AlicePlans(w: World)
    ensures PlanFor(OWNERS["alice"], w, "alice", SHARE_WITH_BOB) == Some([SENT_WRITE, GRANT_WRITE, INVITE_WRITE])
    ensures PlanFor(OWNERS["alice"], w, "alice", UNSHARE_WITH_BOB) == Some([TAKE_WRITE, REVOKE_WRITE])
  {
    AliceResolves(w);
    var x := Resolved(SHARED_FILE, "keyA");
    OneFile(x);
    assert Members(["bob"]) == {"bob"};
    assert SharePlan([x], ["bob"]) == [SENT_WRITE, GRANT_WRITE, INVITE_WRITE];
    assert UnsharePlan([x], ["bob"]) == [TAKE_WRITE, REVOKE_WRITE];
  }

  /** Alice has begun a share and an unshare of the same file with bob. */
  lemma TwoCallsBegun() returns (run: seq<State>, acts: seq<Action>)
    ensures IsRun(OWNERS, run, acts)
    ensures run[|acts|] == State(START.world, [
      Call("alice", Sending, [SENT_WRITE, GRANT_WRITE, INVITE_WRITE], 0),
      Call("alice", Sending, [TAKE_WRITE, REVOKE_WRITE], 0)])
  {
    AlicePlans(START.world);
    run, acts := [START], [];
    run, acts := Extend(OWNERS, run, acts, Begin("alice", SHARE_WITH_BOB));
    run, acts := Extend(OWNERS, run, acts, Begin("alice", UNSHARE_WITH_BOB));
  }

  /** The share has pushed its role, the unshare has then pushed its own and sent its message. */
  lemma UnshareOvertakes() returns (run: seq<State>, acts: seq<Action>)
    ensures IsRun(OWNERS, run, acts)
    ensures run[|acts|].world.pushes ==
      [RolePush("alice", SHARED_FILE, "keyA", Admin, {"bob"}), RolePush("alice", SHARED_FILE, "keyA", Revoked, {"bob"})]
    ensures run[|acts|].world.mail == [Mail("alice", "bob", Revoke([SHARED_FILE], ["keyA"]))]
    ensures run[|acts|].calls == [
      Call("alice", Sending, [SENT_WRITE, GRANT_WRITE, INVITE_WRITE], 2),
      Call("alice", Sending, [TAKE_WRITE, REVOKE_WRITE], 2)]
  {
    run, acts := TwoCallsBegun();
    run, acts := Extend(OWNERS, run, acts, Advance(0));
    run, acts := Extend(OWNERS, run, acts, Advance(0));
    run, acts := Extend(OWNERS, run, acts, Advance(1));
    run, acts := Extend(OWNERS, run, acts, Advance(1));
  }

  /** The plan of a share or an unshare of one file was not cut short. */
  predicate Uncut(call: Call) {
    call.plan == [SENT_WRITE, GRANT_WRITE, INVITE_WRITE] || call.plan == [TAKE_WRITE, REVOKE_WRITE]
  }

  /** Two calls that overlap and both succeed can leave bob without the role that his last message announces. */
  lemma OverlapDisagrees() returns (run: seq<State>, acts: seq<Action>)
    ensures IsRun(OWNERS, run, acts) && AllEnded(run[|acts|])
    ensures forall c :: 0 <= c < |run[|acts|].calls| ==> Uncut(run[|acts|].calls[c])
    ensures RoleOf(run[|acts|].world.pushes, "bucketA", "f", "bob") == Some(Revoked)
    ensures LastWord(run[|acts|].world.mail, "bucketA", "f", "bob") == Some(Admin)
  {
    run, acts := UnshareOvertakes();
    var w := run[|acts|].world;
    run, acts := Extend(OWNERS, run, acts, Advance(0));
    var first := RolePush("alice", SHARED_FILE, "keyA", Admin, {"bob"});
    RoleAfterPush([first], RolePush("alice", SHARED_FILE, "keyA", Revoked, {"bob"}), "bucketA", "f", "bob");
    assert w.pushes == [first] + [RolePush("alice", SHARED_FILE, "keyA", Revoked, {"bob"})];
    WordAfterMail(w.mail, Mail("alice", "bob", Invite([SHARED_FILE], ["keyA"])), "bucketA", "f", "bob");
    assert [SHARED_FILE][0] == SHARED_FILE;
  }

  /** The run in which alice shares her file with bob and bob accepts it. */
  lemma BobAccepts() returns (run: seq<State>, acts: seq<Action>)
    ensures IsRun(OWNERS, run, acts) && AllEnded(run[|acts|])
    ensures run[|acts|].world.records ==
      [Received("bob", "dbA", MIRROR_SLUG, "f", 0, "bucketA", "keyA", "alice", true)]
    ensures |run[|acts|].world.mail| == 2
  {
    run, acts := [START], [];
    ShareOne(OWNERS["alice"], START.world, "alice", OWN_FILE, Resolved(SHARED_FILE, "keyA"), "bob");
    run, acts := CallIsSteps(OWNERS, run, acts, "alice", SHARE_WITH_BOB, FAIR);
    var w := run[|acts|].world;
    assert w.mail[0] == Mail("alice", "bob", Invite([SHARED_FILE], ["keyA"]));
    AnswerOne(OWNERS["bob"], w, "bob", 0, true);
    run, acts := CallIsSteps(OWNERS, run, acts, "bob", Handle(0, true), FAIR);
  }

  /** An unshare of one file with one user, with nothing failing. */
  lemma UnshareOne(w: World)
    ensures var after := Leaves(OWNERS["alice"], w, "alice", UNSHARE_WITH_BOB, FAIR);
      after.records == w.records && after.mail == w.mail + [Mail("alice", "bob", Revoke([SHARED_FILE], ["keyA"]))]
  {
    AlicePlans(w);
    OneWrite(w, "alice", TAKE_WRITE);
    PerformMore(w, "alice", [TAKE_WRITE], REVOKE_WRITE);
    assert [TAKE_WRITE, REVOKE_WRITE] == [TAKE_WRITE] + [REVOKE_WRITE];
  }

  /** Alice takes back a file that bob had accepted, and the deletion this asks for leaves him its record and key. */
  lemma RevokedFileIsKept() returns (run: seq<State>, acts: seq<Action>, m: Mail)
    ensures IsRun(OWNERS, run, acts)
    ensures m in run[|acts|].world.mail && m == Mail("alice", "bob", Revoke([SHARED_FILE], ["keyA"]))
    ensures Revocations.DeleteReceived(run[|acts|].world.records, "bob", m.body.paths, m.body.keys) ==
      [Received("bob", "dbA", MIRROR_SLUG, "f", 0, "bucketA", "keyA", "alice", true)]
  {
    run, acts := BobAccepts();
    UnshareOne(run[|acts|].world);
    run, acts := CallIsSteps(OWNERS, run, acts, "alice", UNSHARE_WITH_BOB, FAIR);
    m := Mail("alice", "bob", Revoke([SHARED_FILE], ["keyA"]));
    assert run[|acts|].world.mail[2] == m;
    Revocations.RevocationKeepsRecords(OWNERS, run, acts, m);
  }

  /** A second invitation to an accepted file can be accepted with success, stays pending, and can then be rejected. */
  lemma AcceptStaysPending() returns (run: seq<State>, acts: seq<Action>, w: World)
    ensures IsRun(OWNERS, run, acts) && w in Worlds(run)
    ensures Succeeds(OWNERS["bob"], w, "bob", Handle(2, true), FAIR)
    ensures run[|acts|].world == Leaves(OWNERS["bob"], w, "bob", Handle(2, true), FAIR)
    ensures StatusOf(run[|acts|].world.records, "bob", 2) == Pending
    ensures Succeeds(OWNERS["bob"], run[|acts|].world, "bob", Handle(2, false), FAIR)
  {
    run, acts := BobAccepts();
    ShareOne(OWNERS["alice"], run[|acts|].world, "alice", OWN_FILE, Resolved(SHARED_FILE, "keyA"), "bob");
    run, acts := CallIsSteps(OWNERS, run, acts, "alice", SHARE_WITH_BOB, FAIR);
    w := run[|acts|].world;
    var n := |acts|;
    assert w.mail[2] == Mail("alice", "bob", Invite([SHARED_FILE], ["keyA"]));
    Invitations.StatusIff(w.records, "bob", 2);
    AnswerOne(OWNERS["bob"], w, "bob", 2, true);
    run, acts := CallIsSteps(OWNERS, run, acts, "bob", Handle(2, true), FAIR);
    assert Worlds(run)[n] == run[n].world == w;
    Invitations.SuccessStaysPendingIff(OWNERS["bob"], w, "bob", 2, true, FAIR);
  }

  const SHARE_BOTH := Share([OWN_FILE, FullPath("", "", "g", "")], ["bob"])

  const TAKE_BOTH := [
    WriteReceived(SHARED_FILE, "keyA", 0, true, "alice"), WriteReceived(OTHER_FILE, "keyA", 0, true, "alice"),
    Deliver("alice", Reply([SHARED_FILE, OTHER_FILE], ["keyA", "keyA"]))]
  const REFUSE_BOTH := [
    WriteReceived(SHARED_FILE, "", 0, false, "alice"), WriteReceived(OTHER_FILE, "", 0, false, "alice")]

  /** Alice has shared two files with bob in one invitation. */
  lemma BothShared() returns (run: seq<State>, acts: seq<Action>)
    ensures IsRun(OWNERS, run, acts) && run[|acts|].world.records == []
    ensures run[|acts|].world.mail == [Mail("alice", "bob", Invite([SHARED_FILE, OTHER_FILE], ["keyA", "keyA"]))]
  {
    run, acts := [START], [];
    ShareTwo(OWNERS["alice"], START.world, "alice", OWN_FILE, FullPath("", "", "g", ""),
             Resolved(SHARED_FILE, "keyA"), Resolved(OTHER_FILE, "keyA"), "bob");
    run, acts := CallIsSteps(OWNERS, run, acts, "alice", SHARE_BOTH, FAIR);
  }

  lemma BobsPlans(w: World)
    requires w.records == []
    requires w.mail == [Mail("alice", "bob", Invite([SHARED_FILE, OTHER_FILE], ["keyA", "keyA"]))]
    ensures PlanFor(OWNERS["bob"], w, "bob", Handle(0, true)) == Some(TAKE_BOTH)
    ensures PlanFor(OWNERS["bob"], w, "bob", Handle(0, false)) == Some(REFUSE_BOTH)
  {
    var mail := w.mail[0];
    assert CanHandle(w, "bob", 0);
    assert ReceivedWrites(mail, 0, true) + Replies(mail, true) == TAKE_BOTH;
    assert ReceivedWrites(mail, 0, false) + Replies(mail, false) == REFUSE_BOTH;
  }

  /** Bob has begun to accept and to reject one invitation to two files. */
  lemma BobIsOfTwoMinds() returns (run: seq<State>, acts: seq<Action>, n: nat)
    ensures IsRun(OWNERS, run, acts) && run[|acts|].world.records == []
    ensures n + 2 == |run[|acts|].calls|
    ensures run[|acts|].calls[n] == Call("bob", Handling(0, true), TAKE_BOTH, 0)
    ensures run[|acts|].calls[n + 1] == Call("bob", Handling(0, false), REFUSE_BOTH, 0)
  {
    run, acts := BothShared();
    n := |run[|acts|].calls|;
    BobsPlans(run[|acts|].world);
    run, acts := Extend(OWNERS, run, acts, Begin("bob", Handle(0, true)));
    run, acts := Extend(OWNERS, run, acts, Begin("bob", Handle(0, false)));
  }

  lemma DisagreeingRecords(r: Received, q: Received)
    requires Answers(r, "bob", 0) && Answers(q, "bob", 0) && r.accepted && !q.accepted
    ensures !Invitations.Agree([r, q]) && multiset([r, q]) == multiset([q, r])
    ensures StatusOf([r, q], "bob", 0) == Rejected && StatusOf([q, r], "bob", 0) == Accepted
  {
    assert [r, q][0] == r && [r, q][1] == q;
    assert Invitations.SameAnswer([r, q][0], [r, q][1]);
  }

  /**
   * An accept and a reject of one invitation that overlap leave records that
   * disagree, and the status then depends on the order in which they are found.
   */
  lemma OpposedAnswersDisagree() returns (run: seq<State>, acts: seq<Action>, found: seq<Received>)
    ensures IsRun(OWNERS, run, acts) && !Invitations.Agree(run[|acts|].world.records)
    ensures multiset(found) == multiset(run[|acts|].world.records)
    ensures StatusOf(run[|acts|].world.records, "bob", 0) == Rejected && StatusOf(found, "bob", 0) == Accepted
  {
    var n;
    run, acts, n := BobIsOfTwoMinds();
    run, acts := Extend(OWNERS, run, acts, Advance(n));
    run, acts := Extend(OWNERS, run, acts, Advance(n + 1));
    run, acts := Extend(OWNERS, run, acts, Advance(n + 1));
    var accepted := Received("bob", "dbA", MIRROR_SLUG, "f", 0, "bucketA", "keyA", "alice", true);
    var rejected := Received("bob", "dbA", MIRROR_SLUG, "g", 0, "bucketA", "", "alice", false);
    assert run[|acts|].world.records == [accepted, rejected];
    found := [rejected, accepted];
    DisagreeingRecords(accepted, rejected);
  }

  function Worlds(run: seq<State>): (worlds: seq<World>)
    ensures |worlds| == |run| && forall i :: 0 <= i < |run| ==> worlds[i] == run[i].world
  {
    seq(|run|, i requires 0 <= i < |run| => run[i].world)
  }
}
