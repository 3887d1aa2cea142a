/**
 * Where received files come from: in every run, behind each record stands an
 * invitation that somebody sent to its holder, and behind each reply the
 * invitation that it answers.
 */
module SharingOrigins {
  import opened Wrappers
  import opened Sharing
  import opened SharingRuns

  /** Path i of the invitation is the one that is recorded, with its key when the answer was an accept. */
  predicate Names(m: Mail, i: nat, p: FullPath, key: string, accepted: bool) {
    && i < |m.body.paths| == |m.body.keys|
    && m.body.paths[i] == p && key == if accepted then m.body.keys[i] else ""
  }

  /** Message id is an invitation from the inviter to the user that names the file. */
  predicate IsInvited(mail: seq<Mail>, user: User, p: FullPath, key: string, id: nat, accepted: bool, inviter: User) {
    && id < |mail| && mail[id].to == user && mail[id].from == inviter && mail[id].body.Invite?
    && exists i :: 0 <= i < |mail[id].body.paths| && Names(mail[id], i, p, key, accepted)
  }

  predicate RecordInvited(mail: seq<Mail>, r: Received) {
    IsInvited(mail, r.holder, FullPath(r.dbId, r.bucket, r.path, r.bucketKey), r.key, r.invitation, r.accepted,
              r.sharedBy)
  }

  /** The message answers an invitation that was sent the other way, with the same paths and keys. */
  predicate RepliesTo(mail: seq<Mail>, from: User, to: User, body: Body) {
    exists id :: 0 <= id < |mail| && mail[id] == Mail(to, from, Invite(body.paths, body.keys))
  }

  predicate WriteInvited(mail: seq<Mail>, user: User, x: Write) {
    && (x.WriteReceived? ==> IsInvited(mail, user, x.path, x.key, x.invitation, x.accepted, x.inviter))
    && (x.Deliver? && x.body.Reply? ==> RepliesTo(mail, user, x.to, x.body))
  }

  predicate WorldInvited(w: World) {
    && (forall r :: r in w.records ==> RecordInvited(w.mail, r))
    && (forall m :: m in w.mail && m.body.Reply? ==> RepliesTo(w.mail, m.from, m.to, m.body))
  }

  predicate CallInvited(mail: seq<Mail>, call: Call) {
    forall k :: 0 <= k < |call.plan| ==> WriteInvited(mail, call.user, call.plan[k])
  }

  predicate OriginInv(s: State) {
    WorldInvited(s.world) && forall c :: 0 <= c < |s.calls| ==> CallInvited(s.world.mail, s.calls[c])
  }

  // ---------------------------------------------------------------------
  // Mailboxes only grow
  // ---------------------------------------------------------------------

  lemma InvitedStays(mail: seq<Mail>, mail': seq<Mail>, user: User, x: Write)
    requires mail <= mail' && WriteInvited(mail, user, x)
    ensures WriteInvited(mail', user, x)
  {
  }

  lemma RecordStays(mail: seq<Mail>, mail': seq<Mail>, r: Received)
    requires mail <= mail' && RecordInvited(mail, r)
    ensures RecordInvited(mail', r)
  {
  }

  lemma ReplyStays(mail: seq<Mail>, mail': seq<Mail>, from: User, to: User, body: Body)
    requires mail <= mail' && RepliesTo(mail, from, to, body)
    ensures RepliesTo(mail', from, to, body)
  {
  }

  lemma PerformInvited(w: World, user: User, x: Write)
    requires WorldInvited(w) && WriteInvited(w.mail, user, x)
    ensures WorldInvited(Perform(w, user, x))
  {
    var w' := Perform(w, user, x);
    forall r | r in w'.records ensures RecordInvited(w'.mail, r) {
      if r in w.records { RecordStays(w.mail, w'.mail, r); }
    }
    forall m | m in w'.mail && m.body.Reply? ensures RepliesTo(w'.mail, m.from, m.to, m.body) {
      if m in w.mail {
        ReplyStays(w.mail, w'.mail, m.from, m.to, m.body);
      } else {
        ReplyStays(w.mail, w'.mail, user, x.to, x.body);
      }
    }
  }

  // ---------------------------------------------------------------------
  // Runs
  // ---------------------------------------------------------------------

  lemma AnswerInvited(w: World, user: User, id: nat, accept: bool)
    requires CanHandle(w, user, id)
    ensures CallInvited(w.mail, Call(user, Handling(id, accept),
                                     ReceivedWrites(w.mail[id], id, accept) + Replies(w.mail[id], accept), 0))
  {
    var m := w.mail[id];
    var xs, ys := ReceivedWrites(m, id, accept), Replies(m, accept);
    forall k | 0 <= k < |xs + ys| ensures WriteInvited(w.mail, user, (xs + ys)[k]) {
      if k < |xs| {
        assert Names(m, k, xs[k].path, xs[k].key, accept);
      } else {
        assert w.mail[id] == Mail(m.from, user, Invite(m.body.paths, m.body.keys));
      }
    }
  }

  lemma BeginInvited(o: Owners, s: State, user: User, request: Request)
    requires user in o && PlanFor(o[user], s.world, user, request).Some?
    ensures CallInvited(s.world.mail, Call(user, TaskOf(request), PlanFor(o[user], s.world, user, request).value, 0))
  {
    match request
    case Handle(id, accept) => AnswerInvited(s.world, user, id, accept);
    case Share(paths, recipients) => SendsOnly(ResolveAll(o[user], s.world.records, user, paths), recipients);
    case Unshare(paths, recipients) => SendsOnly(ResolveAll(o[user], s.world.records, user, paths), recipients);
  }

  lemma StepInvited(o: Owners, s: State, a: Action)
    requires OriginInv(s) && Enabled(o, s, a)
    ensures OriginInv(Apply(o, s, a))
  {
    match a
    case Begin(user, request) =>
      if PlanFor(o[user], s.world, user, request).Some? {
        BeginInvited(o, s, user, request);
      }
    case Advance(c) => AdvanceInvited(o, s, c);
    case Skip(c) => assert CallInvited(s.world.mail, s.calls[c]);
    case Abort(c) => assert CallInvited(s.world.mail, s.calls[c]);
  }

  lemma AdvanceInvited(o: Owners, s: State, c: nat)
    requires OriginInv(s) && CanStep(s, c)
    ensures OriginInv(Apply(o, s, Advance(c)))
  {
    var call, s' := s.calls[c], Apply(o, s, Advance(c));
    assert WriteInvited(s.world.mail, call.user, call.plan[call.next]);
    PerformInvited(s.world, call.user, call.plan[call.next]);
    PerformGrows(s.world, call.user, call.plan[call.next]);
    forall b | 0 <= b < |s'.calls| ensures CallInvited(s'.world.mail, s'.calls[b]) {
      forall k | 0 <= k < |s.calls[b].plan|
        ensures WriteInvited(s'.world.mail, s.calls[b].user, s.calls[b].plan[k])
      {
        assert CallInvited(s.world.mail, s.calls[b]);
        InvitedStays(s.world.mail, s'.world.mail, s.calls[b].user, s.calls[b].plan[k]);
      }
    }
  }

  lemma {:induction false} RunInvited(o: Owners, run: seq<State>, acts: seq<Action>, k: nat)
    requires IsRun(o, run, acts) && k <= |acts|
    ensures OriginInv(run[k])
  {
    if k > 0 {
      RunInvited(o, run, acts, k - 1);
      StepInvited(o, run[k - 1], acts[k - 1]);
    }
  }

  /**
   * At every moment of every run: whoever holds a record was sent, by the user
   * it names as inviter, the invitation it names; the invitation names the
   * file and its bucket, and holds the key of the record when it was accepted.
   */
  lemma RecordsComeFromInvitations(o: Owners, run: seq<State>, acts: seq<Action>, k: nat, r: Received)
    returns (i: nat)
    requires IsRun(o, run, acts) && k <= |acts| && r in run[k].world.records
    ensures r.invitation < |run[k].world.mail|
    ensures var m := run[k].world.mail[r.invitation];
      && m.to == r.holder && m.from == r.sharedBy && m.body.Invite?
      && i < |m.body.paths| == |m.body.keys|
      && m.body.paths[i] == FullPath(r.dbId, r.bucket, r.path, r.bucketKey)
      && r.key == if r.accepted then m.body.keys[i] else ""
  {
    RunInvited(o, run, acts, k);
    assert RecordInvited(run[k].world.mail, r);
    var p := FullPath(r.dbId, r.bucket, r.path, r.bucketKey);
    var m := run[k].world.mail[r.invitation];
    i :| 0 <= i < |m.body.paths| && Names(m, i, p, r.key, r.accepted);
  }

  /** And every reply answers an invitation with the same files that was sent the other way. */
  lemma RepliesAnswerInvitations(o: Owners, run: seq<State>, acts: seq<Action>, k: nat, m: Mail)
    requires IsRun(o, run, acts) && k <= |acts| && m in run[k].world.mail && m.body.Reply?
    ensures Mail(m.to, m.from, Invite(m.body.paths, m.body.keys)) in run[k].world.mail
  {
    RunInvited(o, run, acts, k);
    assert RepliesTo(run[k].world.mail, m.from, m.to, m.body);
  }

  // ---------------------------------------------------------------------
  // When calls succeed
  // ---------------------------------------------------------------------

  /** A share reports success exactly when all paths resolve, the first with a key, and no lookup or write fails. */
  lemma ShareSucceedsIff(own: OwnBucket, w: World, user: User, ps: seq<FullPath>, recipients: seq<User>, luck: Luck)
    ensures Succeeds(own, w, user, Share(ps, recipients), luck) <==>
      && (forall i :: 0 <= i < |ps| ==> Resolve(own, w.records, user, ps[i]).Some?)
      && (ps != [] ==> Resolve(own, w.records, user, ps[0]).value.key != "")
      && luck.lookups >= |ps| && luck.budget >= 2 * |ps| + |recipients|
    ensures Succeeds(own, w, user, Unshare(ps, recipients), luck) <==>
      && (forall i :: 0 <= i < |ps| ==> Resolve(own, w.records, user, ps[i]).Some?)
      && (ps != [] ==> Resolve(own, w.records, user, ps[0]).value.key != "")
      && luck.lookups >= |ps| && luck.budget >= |ps| + |recipients|
  {
    if AllResolve(own, w.records, user, ps) {
      var rs := ResolveAll(own, w.records, user, ps);
      assert ps != [] ==> Some(rs[0]) == Resolve(own, w.records, user, ps[0]);
      assert |SharePlan(rs, recipients)| == 2 * |ps| + |recipients|;
      assert |UnsharePlan(rs, recipients)| == |ps| + |recipients|;
    }
  }

  /**
   * An answer reports success exactly when the message is an invitation to the
   * user that has no record yet, no creation of a record fails and, for an
   * accept, the reply is sent.
   */
  lemma AnswerSucceedsIff(own: OwnBucket, w: World, user: User, id: nat, accept: bool, luck: Luck)
    ensures Succeeds(own, w, user, Handle(id, accept), luck) <==>
      && id < |w.mail| && w.mail[id].to == user && w.mail[id].body.Invite?
      && StatusOf(w.records, user, id) == Pending
      && |w.mail[id].body.paths| == |w.mail[id].body.keys|
      && (forall k: nat :: k < |w.mail[id].body.paths| ==> k !in luck.failing)
      && (accept ==> luck.replies)
  {
  }
}
