/**
 * Answering invitations: the records one answer leaves behind agree with each
 * other, so the status read from them is well defined.  An invitation that has
 * a record is not answered again; an answer leaves one exactly when it creates
 * a record for a file of which the user had none, and otherwise the invitation
 * stays pending.
 */
module Invitations {
  import opened Wrappers
  import opened Sharing
  import opened SharingRuns

  /** The status of each message, from the records found for all of them. */
  method ParseStatuses(found: seq<Received>, user: User, ids: seq<nat>) returns (statuses: seq<Status>)
    requires forall i :: 0 <= i < |found| ==> found[i].holder == user
    ensures |statuses| == |ids|
    ensures forall i :: 0 <= i < |ids| ==> statuses[i] == StatusOf(found, user, ids[i])
  {
    var fsmap: map<nat, Received> := map[];
    var i := 0;
    assert found[..0] == [];
    while i < |found|
      invariant 0 <= i <= |found|
      invariant forall id :: StatusIn(fsmap, id) == StatusOf(found[..i], user, id)
    {
      assert found[..i + 1][..i] == found[..i];
      fsmap := fsmap[found[i].invitation := found[i]];
      i := i + 1;
    }
    assert found[..i] == found;
    statuses := [];
    var j := 0;
    while j < |ids|
      invariant 0 <= j <= |ids| && |statuses| == j
      invariant forall k :: 0 <= k < j ==> statuses[k] == StatusOf(found, user, ids[k])
    {
      statuses := statuses + [StatusIn(fsmap, ids[j])];
      j := j + 1;
    }
  }

  function StatusIn(fsmap: map<nat, Received>, id: nat): Status {
    if id !in fsmap then Pending else if fsmap[id].accepted then Accepted else Rejected
  }

  // ---------------------------------------------------------------------
  // Records of one invitation agree
  // ---------------------------------------------------------------------

  predicate SameAnswer(r: Received, q: Received) {
    r.holder == q.holder && r.invitation == q.invitation
  }

  predicate Agree(records: seq<Received>) {
    forall i, j :: 0 <= i < |records| && 0 <= j < |records| && SameAnswer(records[i], records[j]) ==>
      records[i].accepted == records[j].accepted
  }

  predicate Unfinished(call: Call) {
    call.next < |call.plan|
  }

  predicate AllAnswer(records: seq<Received>, user: User, id: nat, accept: bool) {
    forall r :: r in records && Answers(r, user, id) ==> r.accepted == accept
  }

  predicate PlanAnswers(plan: seq<Write>, id: nat, accept: bool) {
    forall k :: 0 <= k < |plan| && plan[k].WriteReceived? ==> plan[k].invitation == id && plan[k].accepted == accept
  }

  predicate NoReceived(plan: seq<Write>) {
    forall k :: 0 <= k < |plan| ==> !plan[k].WriteReceived?
  }

  predicate AnswerInv(w: World, call: Call) {
    && call.next <= |call.plan|
    && match call.task
       case Handling(id, accept) =>
         && PlanAnswers(call.plan, id, accept)
         && (Unfinished(call) ==> AllAnswer(w.records, call.user, id, accept))
       case Sending => NoReceived(call.plan)
  }

  /** The call is about to answer the invitation in this way. */
  predicate Answering(call: Call, user: User, id: nat, accept: bool) {
    call.task == Handling(id, accept) && Unfinished(call) && call.user == user
  }

  /** Two calls of one user are about to answer the same invitation, one by accepting and one by rejecting it. */
  predicate Opposed(call: Call, other: Call) {
    && call.task.Handling? && Unfinished(call)
    && Answering(other, call.user, call.task.id, !call.task.accept)
  }

  predicate AgreeInv(s: State) {
    && Agree(s.world.records)
    && (forall c :: 0 <= c < |s.calls| ==> AnswerInv(s.world, s.calls[c]))
    && (forall b, c :: 0 <= b < |s.calls| && 0 <= c < |s.calls| ==> !Opposed(s.calls[b], s.calls[c]))
  }

  /** No user starts to accept an invitation while rejecting the same one is under way, or the other way round. */
  predicate UnopposedStep(s: State, a: Action) {
    a.Begin? && a.request.Handle? ==>
      forall c :: 0 <= c < |s.calls| ==> !Answering(s.calls[c], a.user, a.request.id, !a.request.accept)
  }

  lemma {:induction false} StatusIff(records: seq<Received>, user: User, id: nat)
    ensures StatusOf(records, user, id) == Pending <==> forall r :: r in records ==> !Answers(r, user, id)
    ensures StatusOf(records, user, id) == Accepted ==> exists r :: r in records && Answers(r, user, id) && r.accepted
    ensures StatusOf(records, user, id) == Rejected ==> exists r :: r in records && Answers(r, user, id) && !r.accepted
  {
    if records != [] {
      var n := |records| - 1;
      StatusIff(records[..n], user, id);
      assert forall r :: r in records <==> r in records[..n] || r == records[n];
    }
  }

  /** When records of one invitation disagree, the one that is found last decides. */
  lemma {:induction false} LastDecides(records: seq<Received>, user: User, id: nat, i: nat)
    requires i < |records| && Answers(records[i], user, id)
    requires forall j :: i < j < |records| ==> !Answers(records[j], user, id)
    ensures StatusOf(records, user, id) == if records[i].accepted then Accepted else Rejected
  {
    var n := |records| - 1;
    if i < n {
      LastDecides(records[..n], user, id, i);
    }
  }

  /** The status does not depend on the order in which the records are found. */
  lemma StatusIgnoresOrder(records: seq<Received>, found: seq<Received>, user: User, id: nat)
    requires Agree(records)
    requires forall r :: Answers(r, user, id) ==> (r in found <==> r in records)
    ensures StatusOf(found, user, id) == StatusOf(records, user, id)
  {
    StatusIff(records, user, id);
    StatusIff(found, user, id);
  }

  lemma BeginAgrees(o: Owners, s: State, user: User, request: Request)
    requires AgreeInv(s) && user in o && UnopposedStep(s, Begin(user, request))
    ensures AgreeInv(Apply(o, s, Begin(user, request)))
  {
    match request
    case Handle(id, accept) =>
      StatusIff(s.world.records, user, id);
    case Share(paths, recipients) =>
      if AllResolve(o[user], s.world.records, user, paths) {
        var rs := ResolveAll(o[user], s.world.records, user, paths);
        NothingReceived(SentWrites(rs), RoleWrites(rs, Admin, recipients),
                        Deliveries(recipients, Invite(PathsOf(rs), KeysOf(rs))));
      }
    case Unshare(paths, recipients) =>
      if AllResolve(o[user], s.world.records, user, paths) {
        var rs := ResolveAll(o[user], s.world.records, user, paths);
        NothingReceived([], RoleWrites(rs, Revoked, recipients),
                        Deliveries(recipients, Revoke(PathsOf(rs), KeysOf(rs))));
        assert [] + RoleWrites(rs, Revoked, recipients) == RoleWrites(rs, Revoked, recipients);
      }
  }

  lemma NothingReceived(xs: seq<Write>, ys: seq<Write>, zs: seq<Write>)
    requires NoReceived(xs) && NoReceived(ys) && NoReceived(zs)
    ensures NoReceived(xs + ys + zs)
  {
  }

  lemma RecordAdded(w: World, call: Call)
    requires AnswerInv(w, call) && Unfinished(call) && Agree(w.records)
    ensures var w' := Perform(w, call.user, call.plan[call.next]);
      && Agree(w'.records)
      && (forall r :: r in w'.records ==> r in w.records || Answering(call, r.holder, r.invitation, r.accepted))
      && AnswerInv(w', call.(next := call.next + 1))
  {
    var x := call.plan[call.next];
    var w' := Perform(w, call.user, x);
    if x.WriteReceived? && w' != w {
      var n := |w.records|;
      var id, accept := call.task.id, call.task.accept;
      assert forall i :: 0 <= i < n ==> w'.records[i] == w.records[i] && w.records[i] in w.records;
      assert w'.records[n].accepted == accept && Answers(w'.records[n], call.user, id);
    }
  }

  lemma AdvanceAgrees(o: Owners, s: State, c: nat)
    requires AgreeInv(s) && CanStep(s, c)
    ensures AgreeInv(Apply(o, s, Advance(c)))
  {
    var call, s' := s.calls[c], Apply(o, s, Advance(c));
    RecordAdded(s.world, call);
    forall b | 0 <= b < |s'.calls| ensures AnswerInv(s'.world, s'.calls[b]) {
      if b != c && s.calls[b].task.Handling? && Unfinished(s.calls[b]) {
        var other := s.calls[b];
        assert !Opposed(other, call);
        assert AllAnswer(s.world.records, other.user, other.task.id, other.task.accept);
      }
    }
  }

  lemma StepAgrees(o: Owners, s: State, a: Action)
    requires AgreeInv(s) && Enabled(o, s, a) && UnopposedStep(s, a)
    ensures AgreeInv(Apply(o, s, a))
  {
    match a
    case Begin(user, request) => BeginAgrees(o, s, user, request);
    case Advance(c) => AdvanceAgrees(o, s, c);
    case _ =>
  }

  /**
   * When no user accepts and rejects one invitation at the same time, all
   * records of one invitation agree at every moment, whichever creations fail
   * and whatever other answers overlap.
   */
  lemma {:induction false} RecordsAgree(o: Owners, run: seq<State>, acts: seq<Action>, k: nat)
    requires IsRun(o, run, acts) && k <= |acts|
    requires forall i :: 0 <= i < k ==> UnopposedStep(run[i], acts[i])
    ensures AgreeInv(run[k])
  {
    if k > 0 {
      RecordsAgree(o, run, acts, k - 1);
      StepAgrees(o, run[k - 1], acts[k - 1]);
    }
  }

  lemma StepGrows(o: Owners, s: State, a: Action)
    requires Enabled(o, s, a)
    ensures Grows(s.world, Apply(o, s, a).world)
  {
    match a
    case Advance(c) => PerformGrows(s.world, s.calls[c].user, s.calls[c].plan[s.calls[c].next]);
    case _ =>
  }

  lemma {:induction false} RecordsStay(o: Owners, run: seq<State>, acts: seq<Action>, k: nat, m: nat)
    requires IsRun(o, run, acts) && k <= m <= |acts|
    ensures run[k].world.records <= run[m].world.records
    ensures run[k].world.mail <= run[m].world.mail
    decreases m
  {
    if k < m {
      RecordsStay(o, run, acts, k, m - 1);
      StepGrows(o, run[m - 1], acts[m - 1]);
    }
  }

  /**
   * Once an invitation has a record its status never changes again, and every
   * later accept or reject of it fails before it writes anything.
   */
  lemma AnsweredOnce(o: Owners, run: seq<State>, acts: seq<Action>, k: nat, m: nat, user: User, id: nat, accept: bool)
    requires IsRun(o, run, acts) && k <= m <= |acts| && user in o
    requires forall i :: 0 <= i < m ==> UnopposedStep(run[i], acts[i])
    requires exists r :: r in run[k].world.records && Answers(r, user, id)
    ensures StatusOf(run[m].world.records, user, id) == StatusOf(run[k].world.records, user, id) != Pending
    ensures PlanFor(o[user], run[m].world, user, Handle(id, accept)).None?
  {
    RecordsStay(o, run, acts, k, m);
    RecordsAgree(o, run, acts, m);
    StatusIff(run[k].world.records, user, id);
    StatusIff(run[m].world.records, user, id);
  }

  // ---------------------------------------------------------------------
  // When an accept takes effect
  // ---------------------------------------------------------------------

  lemma {:induction false} FindAfter(records: seq<Received>, x: Received, user: User, p: FullPath)
    ensures Find(records + [x], user, p.dbId, p.bucket, p.path) ==
      var r := Find(records, user, p.dbId, p.bucket, p.path);
      if r.Some? then r else if IsFor(x, user, p.dbId, p.bucket, p.path) then Some(x) else None
  {
    if records == [] {
      assert (records + [x])[1..] == [];
    } else {
      assert (records + [x])[1..] == records[1..] + [x];
      FindAfter(records[1..], x, user, p);
    }
  }

  predicate HasAccepted(w: World, user: User, p: FullPath) {
    var r := Find(w.records, user, p.dbId, p.bucket, p.path);
    r.Some? && r.value.accepted
  }

  predicate HasRejected(w: World, user: User, p: FullPath) {
    var r := Find(w.records, user, p.dbId, p.bucket, p.path);
    r.Some? && !r.value.accepted
  }

  lemma AcceptOne(w: World, user: User, x: Write, p: FullPath)
    requires x.WriteReceived? && x.accepted
    ensures var after := Perform(w, user, x);
      && (HasRejected(after, user, p) <==> HasRejected(w, user, p))
      && (HasAccepted(w, user, p) || (x.path == p && !HasRejected(w, user, p)) ==> HasAccepted(after, user, p))
  {
    var q := x.path;
    var r := Received(user, q.dbId, q.bucket, q.path, x.invitation, q.bucketKey, x.key, x.inviter, x.accepted);
    FindAfter(w.records, r, user, p);
    FindAfter(w.records, r, user, q);
  }

  predicate IsAccept(plan: seq<Write>) {
    forall k :: 0 <= k < |plan| ==> plan[k].WriteReceived? && plan[k].accepted
  }

  /** Rejections outlive an accept; other files of the first i paths end up accepted. */
  lemma {:induction false} AcceptSome(w: World, user: User, plan: seq<Write>, i: nat, p: FullPath)
    requires i <= |plan| && IsAccept(plan)
    ensures var after := PerformSome(w, user, plan, {}, i);
      && (HasRejected(after, user, p) <==> HasRejected(w, user, p))
      && (HasAccepted(w, user, p) ==> HasAccepted(after, user, p))
      && (forall j :: 0 <= j < i && plan[j].path == p ==> HasAccepted(after, user, p) || HasRejected(w, user, p))
  {
    if i > 0 {
      AcceptSome(w, user, plan, i - 1, p);
      AcceptOne(PerformSome(w, user, plan, {}, i - 1), user, plan[i - 1], p);
    }
  }

  lemma RepliesKeepRecords(w: World, user: User, mail: Mail, accept: bool)
    ensures PerformAll(w, user, Replies(mail, accept)).records == w.records
  {
    if accept {
      OneWrite(w, user, Replies(mail, accept)[0]);
    }
  }

  /**
   * An accept that reports success leaves every file of the invitation
   * accepted exactly when the user had not rejected one of them in an earlier
   * invitation; such a file stays rejected, without its key.
   */
  lemma AcceptTakesEffectIff(own: OwnBucket, w: World, user: User, id: nat, luck: Luck)
    requires Succeeds(own, w, user, Handle(id, true), luck)
    ensures var paths, after := w.mail[id].body.paths, Leaves(own, w, user, Handle(id, true), luck);
      (forall i :: 0 <= i < |paths| ==> HasAccepted(after, user, paths[i])) <==>
      (forall i :: 0 <= i < |paths| ==> !HasRejected(w, user, paths[i]))
  {
    var mail := w.mail[id];
    var plan := ReceivedWrites(mail, id, true);
    var made := PerformSome(w, user, plan, luck.failing, |plan|);
    SameFailing(w, user, plan, luck.failing, {}, |plan|);
    RepliesKeepRecords(made, user, mail, true);
    forall i | 0 <= i < |plan|
      ensures HasAccepted(made, user, mail.body.paths[i]) <==> !HasRejected(w, user, mail.body.paths[i])
    {
      assert plan[i].path == mail.body.paths[i];
      AcceptSome(w, user, plan, |plan|, mail.body.paths[i]);
    }
  }

  // ---------------------------------------------------------------------
  // When an answer is recorded
  // ---------------------------------------------------------------------

  /** The first i records of the answer include one of a file of which the user had no record. */
  predicate AnyNew(w: World, user: User, plan: seq<Write>, failing: set<nat>, i: nat)
    requires i <= |plan| && forall k :: 0 <= k < |plan| ==> plan[k].WriteReceived?
  {
    exists k: nat :: k < i && k !in failing && IsNew(w, user, plan[k].path)
  }

  predicate IsNew(w: World, user: User, p: FullPath) {
    Find(w.records, user, p.dbId, p.bucket, p.path).None?
  }

  predicate IsRecorded(w: World, user: User, id: nat) {
    exists r :: r in w.records && Answers(r, user, id)
  }

  /** All records that were added are of the invitation. */
  predicate OnlyAnswers(w: World, after: World, user: User, id: nat) {
    && w.records <= after.records
    && forall r :: r in after.records ==> r in w.records || Answers(r, user, id)
  }

  lemma RecordOne(w: World, before: World, user: User, x: Write, id: nat)
    requires x.WriteReceived? && x.invitation == id
    requires OnlyAnswers(w, before, user, id)
    ensures var after := Perform(before, user, x);
      && OnlyAnswers(w, after, user, id)
      && (IsRecorded(after, user, id) <==> IsRecorded(before, user, id) || IsNew(w, user, x.path))
  {
    var p, after := x.path, Perform(before, user, x);
    if Find(before.records, user, p.dbId, p.bucket, p.path).None? {
      assert after.records[|before.records|] in after.records;
      assert Answers(after.records[|before.records|], user, id);
      if !IsNew(w, user, p) {
        assert false;
      }
    } else if IsNew(w, user, p) {
      var r := Find(before.records, user, p.dbId, p.bucket, p.path).value;
      assert r in before.records && Answers(r, user, id);
    }
  }

  lemma AnyNewNext(w: World, user: User, plan: seq<Write>, failing: set<nat>, i: nat)
    requires 0 < i <= |plan| && forall k :: 0 <= k < |plan| ==> plan[k].WriteReceived?
    ensures AnyNew(w, user, plan, failing, i) <==>
      AnyNew(w, user, plan, failing, i - 1) || (i - 1 !in failing && IsNew(w, user, plan[i - 1].path))
  {
  }

  lemma {:induction false} RecordSome(w: World, user: User, plan: seq<Write>, id: nat, failing: set<nat>, i: nat)
    requires i <= |plan| && forall k :: 0 <= k < |plan| ==> plan[k].WriteReceived? && plan[k].invitation == id
    requires !IsRecorded(w, user, id)
    ensures var after := PerformSome(w, user, plan, failing, i);
      && OnlyAnswers(w, after, user, id)
      && (IsRecorded(after, user, id) <==> AnyNew(w, user, plan, failing, i))
  {
    if i > 0 {
      RecordSome(w, user, plan, id, failing, i - 1);
      var before := PerformSome(w, user, plan, failing, i - 1);
      AnyNewNext(w, user, plan, failing, i);
      if i - 1 !in failing {
        RecordOne(w, before, user, plan[i - 1], id);
      }
    }
  }

  /**
   * An answer to a pending invitation, whichever of its records fail, leaves
   * the invitation answered if and only if it creates a record for a file of
   * which the user had none; otherwise the invitation stays pending, even when
   * the answer reports success.
   */
  lemma AnswerRecordedIff(own: OwnBucket, w: World, user: User, id: nat, accept: bool, luck: Luck)
    requires CanHandle(w, user, id)
    ensures var paths, after := w.mail[id].body.paths, Leaves(own, w, user, Handle(id, accept), luck);
      StatusOf(after.records, user, id) != Pending <==>
        exists k: nat :: k < |paths| && k !in luck.failing && IsNew(w, user, paths[k])
  {
    var mail := w.mail[id];
    var plan := ReceivedWrites(mail, id, accept);
    var made := PerformSome(w, user, plan, luck.failing, |plan|);
    var after := Leaves(own, w, user, Handle(id, accept), luck);
    StatusIff(w.records, user, id);
    StatusIff(after.records, user, id);
    RecordSome(w, user, plan, id, luck.failing, |plan|);
    RepliesKeepRecords(made, user, mail, accept);
    assert after.records == made.records;
    assert forall k: nat :: k < |plan| ==> plan[k].path == mail.body.paths[k];
  }

  /** A successful answer stays without a record exactly when the user had a record of every file of the invitation. */
  lemma SuccessStaysPendingIff(own: OwnBucket, w: World, user: User, id: nat, accept: bool, luck: Luck)
    requires Succeeds(own, w, user, Handle(id, accept), luck)
    ensures var paths, after := w.mail[id].body.paths, Leaves(own, w, user, Handle(id, accept), luck);
      StatusOf(after.records, user, id) == Pending <==>
        forall k: nat :: k < |paths| ==> !IsNew(w, user, paths[k])
  {
    AnswerRecordedIff(own, w, user, id, accept, luck);
  }

  /** An accept reports success exactly when its reply reached the inviter, and then every file has a record. */
  lemma AcceptSucceedsIff(own: OwnBucket, w: World, user: User, id: nat, luck: Luck)
    requires CanHandle(w, user, id)
    ensures var after, body := Leaves(own, w, user, Handle(id, true), luck), w.mail[id].body;
      Succeeds(own, w, user, Handle(id, true), luck) <==>
        after.mail == w.mail + [Mail(user, w.mail[id].from, Reply(body.paths, body.keys))]
    ensures !Succeeds(own, w, user, Handle(id, true), luck) ==>
      Leaves(own, w, user, Handle(id, true), luck).mail == w.mail
  {
    var mail := w.mail[id];
    var made := PerformSome(w, user, ReceivedWrites(mail, id, true), luck.failing, |mail.body.paths|);
    MadeSendsNothing(w, user, mail, id, true, luck.failing, |mail.body.paths|);
    OneWrite(made, user, Replies(mail, true)[0]);
  }

  lemma {:induction false} MadeSendsNothing(w: World, user: User, mail: Mail, id: nat, accept: bool,
                                            failing: set<nat>, i: nat)
    requires |mail.body.paths| == |mail.body.keys| && i <= |mail.body.paths|
    ensures PerformSome(w, user, ReceivedWrites(mail, id, accept), failing, i).mail == w.mail
  {
    if i > 0 {
      MadeSendsNothing(w, user, mail, id, accept, failing, i - 1);
    }
  }

  /** After an answer that reports success, the user has a record of every file of the invitation. */
  lemma SuccessRecordsAll(own: OwnBucket, w: World, user: User, id: nat, accept: bool, luck: Luck, k: nat)
    requires Succeeds(own, w, user, Handle(id, accept), luck) && k < |w.mail[id].body.paths|
    ensures var p := w.mail[id].body.paths[k];
      Find(Leaves(own, w, user, Handle(id, accept), luck).records, user, p.dbId, p.bucket, p.path).Some?
  {
    var mail := w.mail[id];
    var plan := ReceivedWrites(mail, id, accept);
    var made := PerformSome(w, user, plan, luck.failing, |plan|);
    MadeIsFound(w, user, plan, luck.failing, |plan|, k);
    RepliesKeepRecords(made, user, mail, accept);
    NoWrites(made, user);
  }

  lemma {:induction false} MadeIsFound(w: World, user: User, plan: seq<Write>, failing: set<nat>, i: nat, k: nat)
    requires k < i <= |plan| && k !in failing && forall j :: 0 <= j < |plan| ==> plan[j].WriteReceived?
    ensures var p := plan[k].path;
      Find(PerformSome(w, user, plan, failing, i).records, user, p.dbId, p.bucket, p.path).Some?
  {
    var before, p := PerformSome(w, user, plan, failing, i - 1), plan[k].path;
    if k < i - 1 {
      MadeIsFound(w, user, plan, failing, i - 1, k);
    }
    var x := plan[i - 1];
    FindAfter(before.records, Received(user, x.path.dbId, x.path.bucket, x.path.path, x.invitation, x.path.bucketKey,
                                       x.key, x.inviter, x.accepted), user, p);
  }
}
