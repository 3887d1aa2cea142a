/**
 * A share and the answer to it: what the recipient then holds and can resolve
 * is what the sender shared.
 */
module ShareThenAccept {
  import opened Wrappers
  import opened Sharing
  import opened SharingRuns
  import opened Invitations

  /** The path that was named is the path that is shared, in the database that was named or else the own one. */
  lemma ResolvedNames(own: OwnBucket, records: seq<Received>, user: User, p: FullPath)
    requires Resolve(own, records, user, p).Some?
    ensures var x := Resolve(own, records, user, p).value;
      && x.path.path == p.path
      && (p.dbId != "" ==> x.path.dbId == p.dbId)
      && (p.dbId == "" && InPersonalBucket(p) ==> x.path.dbId == own.dbId)
      && (!InPersonalBucket(p) ==> x.path.bucket == p.bucket)
  {
  }

  /** What a share that reports success adds to the mailboxes: one invitation for each recipient, in order. */
  lemma ShareSends(own: OwnBucket, w: World, user: User, ps: seq<FullPath>, recipients: seq<User>, luck: Luck, j: nat)
    requires Succeeds(own, w, user, Share(ps, recipients), luck) && j < |recipients|
    ensures var rs, after := ResolveAll(own, w.records, user, ps), Leaves(own, w, user, Share(ps, recipients), luck);
      && |after.mail| == |w.mail| + |recipients| && w.mail <= after.mail
      && after.mail[|w.mail| + j] == Mail(user, recipients[j], Invite(PathsOf(rs), KeysOf(rs)))
      && after.records == w.records
  {
    var rs := ResolveAll(own, w.records, user, ps);
    SuccessIsAll(own, w, user, ps, recipients, luck);
    PlanSends(w, user, rs, recipients);
  }

  lemma SuccessIsAll(own: OwnBucket, w: World, user: User, ps: seq<FullPath>, recipients: seq<User>, luck: Luck)
    requires Succeeds(own, w, user, Share(ps, recipients), luck)
    ensures Leaves(own, w, user, Share(ps, recipients), luck) ==
      PerformAll(w, user, SharePlan(ResolveAll(own, w.records, user, ps), recipients))
  {
  }

  lemma PlanSends(w: World, user: User, rs: seq<Resolved>, recipients: seq<User>)
    ensures var after := PerformAll(w, user, SharePlan(rs, recipients));
      && after.records == w.records
      && |after.mail| == |w.mail| + |recipients| && w.mail <= after.mail
      && forall j :: 0 <= j < |recipients| ==>
           after.mail[|w.mail| + j] == Mail(user, recipients[j], Invite(PathsOf(rs), KeysOf(rs)))
  {
    var first := SentWrites(rs) + RoleWrites(rs, Admin, recipients);
    var body := Invite(PathsOf(rs), KeysOf(rs));
    PerformTwo(w, user, first, Deliveries(recipients, body));
    NoMail(w, user, first);
    SentInOrder(PerformAll(w, user, first), user, recipients, body);
  }

  lemma SentInOrder(w: World, user: User, recipients: seq<User>, body: Body)
    ensures var after := PerformAll(w, user, Deliveries(recipients, body));
      && after.records == w.records
      && |after.mail| == |w.mail| + |recipients| && w.mail <= after.mail
      && forall j :: 0 <= j < |recipients| ==> after.mail[|w.mail| + j] == Mail(user, recipients[j], body)
  {
    assert Deliveries(recipients, body)[..|recipients|] == Deliveries(recipients, body);
    AllSent(w, user, recipients, body, |recipients|);
  }

  lemma {:induction false} NoMail(w: World, user: User, xs: seq<Write>)
    requires forall i :: 0 <= i < |xs| ==> xs[i].WriteSent? || xs[i].PushRoles?
    ensures PerformAll(w, user, xs).mail == w.mail && PerformAll(w, user, xs).records == w.records
  {
    if xs != [] {
      NoMail(w, user, xs[..|xs| - 1]);
    }
  }

  lemma {:induction false} AllSent(w: World, user: User, recipients: seq<User>, body: Body, n: nat)
    requires n <= |recipients|
    ensures var after := PerformAll(w, user, Deliveries(recipients, body)[..n]);
      && after.records == w.records
      && |after.mail| == |w.mail| + n && w.mail <= after.mail
      && forall j :: 0 <= j < n ==> after.mail[|w.mail| + j] == Mail(user, recipients[j], body)
  {
    if n > 0 {
      AllSent(w, user, recipients, body, n - 1);
      PerformNext(w, user, Deliveries(recipients, body), n - 1);
    }
  }

  /** The places of the invitation's files differ, and the user has no record of any of them. */
  predicate AllNew(w: World, user: User, paths: seq<FullPath>) {
    && (forall i :: 0 <= i < |paths| ==> IsNew(w, user, paths[i]))
    && (forall i, j :: 0 <= i < j < |paths| ==> !SamePlace(paths[i], paths[j]))
  }

  predicate SamePlace(p: FullPath, q: FullPath) {
    p.dbId == q.dbId && p.bucket == q.bucket && p.path == q.path
  }

  /** The record that an answer makes for path i of an invitation. */
  function AnswerRecord(mail: Mail, user: User, id: nat, accept: bool, i: nat): Received
    requires i < |mail.body.paths| == |mail.body.keys|
  {
    var p, key := mail.body.paths[i], if accept then mail.body.keys[i] else "";
    Received(user, p.dbId, p.bucket, p.path, id, p.bucketKey, key, mail.from, accept)
  }

  /** The record found for path i after the first n creations. */
  function FoundAfter(w: World, user: User, mail: Mail, id: nat, accept: bool, n: nat, i: nat): Option<Received>
    requires |mail.body.paths| == |mail.body.keys| && i < |mail.body.paths| && n <= |mail.body.paths|
  {
    var p := mail.body.paths[i];
    Find(PerformSome(w, user, ReceivedWrites(mail, id, accept), {}, n).records, user, p.dbId, p.bucket, p.path)
  }

  lemma {:induction false} RecordsAreMade(w: World, user: User, mail: Mail, id: nat, accept: bool, n: nat, i: nat)
    requires |mail.body.paths| == |mail.body.keys| && i < |mail.body.paths| && n <= |mail.body.paths|
    requires AllNew(w, user, mail.body.paths)
    ensures FoundAfter(w, user, mail, id, accept, n, i) == Expected(mail, user, id, accept, n, i)
  {
    if n == 0 {
      NothingIsMade(w, user, mail, id, accept, i);
    } else {
      RecordsAreMade(w, user, mail, id, accept, n - 1, i);
      if i == n - 1 {
        NextIsMade(w, user, mail, id, accept, i);
      } else {
        NewPlacesDiffer(w, user, mail.body.paths, i, n - 1);
        OthersStay(w, user, mail, id, accept, n - 1, i);
      }
    }
  }

  function Expected(mail: Mail, user: User, id: nat, accept: bool, n: nat, i: nat): Option<Received>
    requires i < |mail.body.paths| == |mail.body.keys|
  {
    if i < n then Some(AnswerRecord(mail, user, id, accept, i)) else None
  }

  lemma NothingIsMade(w: World, user: User, mail: Mail, id: nat, accept: bool, i: nat)
    requires |mail.body.paths| == |mail.body.keys| && i < |mail.body.paths| && AllNew(w, user, mail.body.paths)
    ensures FoundAfter(w, user, mail, id, accept, 0, i).None?
  {
    assert IsNew(w, user, mail.body.paths[i]);
  }

  lemma NewPlacesDiffer(w: World, user: User, paths: seq<FullPath>, i: nat, j: nat)
    requires AllNew(w, user, paths) && i < |paths| && j < |paths| && i != j
    ensures !SamePlace(paths[i], paths[j])
  {
  }

  lemma NextIsMade(w: World, user: User, mail: Mail, id: nat, accept: bool, n: nat)
    requires n < |mail.body.paths| == |mail.body.keys|
    requires FoundAfter(w, user, mail, id, accept, n, n).None?
    ensures FoundAfter(w, user, mail, id, accept, n + 1, n) == Some(AnswerRecord(mail, user, id, accept, n))
  {
    var before := PerformSome(w, user, ReceivedWrites(mail, id, accept), {}, n);
    FindAfter(before.records, AnswerRecord(mail, user, id, accept, n), user, mail.body.paths[n]);
  }

  lemma OthersStay(w: World, user: User, mail: Mail, id: nat, accept: bool, n: nat, i: nat)
    requires |mail.body.paths| == |mail.body.keys| && i < |mail.body.paths| && n < |mail.body.paths|
    requires !SamePlace(mail.body.paths[i], mail.body.paths[n])
    ensures FoundAfter(w, user, mail, id, accept, n + 1, i) == FoundAfter(w, user, mail, id, accept, n, i)
  {
    var before := PerformSome(w, user, ReceivedWrites(mail, id, accept), {}, n);
    FindAfter(before.records, AnswerRecord(mail, user, id, accept, n), user, mail.body.paths[i]);
  }

  /**
   * A successful answer to an invitation to files that are new to the user
   * leaves for each of them exactly the record that names the file, the
   * invitation, the inviter and the answer, with the key when it was accepted.
   */
  lemma AnswerIsRecorded(own: OwnBucket, w: World, user: User, id: nat, accept: bool, luck: Luck, i: nat)
    requires Succeeds(own, w, user, Handle(id, accept), luck) && i < |w.mail[id].body.paths|
    requires AllNew(w, user, w.mail[id].body.paths)
    ensures var p := w.mail[id].body.paths[i];
      Find(Leaves(own, w, user, Handle(id, accept), luck).records, user, p.dbId, p.bucket, p.path) ==
        Some(AnswerRecord(w.mail[id], user, id, accept, i))
  {
    var mail := w.mail[id];
    var n := |mail.body.paths|;
    var plan := ReceivedWrites(mail, id, accept);
    SameFailing(w, user, plan, luck.failing, {}, n);
    RecordsAreMade(w, user, mail, id, accept, n, i);
    RepliesKeepRecords(PerformSome(w, user, plan, luck.failing, n), user, mail, accept);
    NoWrites(PerformSome(w, user, plan, luck.failing, n), user);
  }

  /**
   * After a successful share and a successful accept of its invitation by one
   * of the recipients, to whom all the files are new, that recipient resolves
   * each of them to the very place and key that the sender shared, under the
   * path that the sender named.
   */
  lemma AcceptedIsWhatWasShared(own: OwnBucket, w: World, user: User, ps: seq<FullPath>, recipients: seq<User>,
                                luck: Luck, j: nat, theirs: OwnBucket, luck': Luck, i: nat)
    requires Succeeds(own, w, user, Share(ps, recipients), luck) && j < |recipients| && i < |ps|
    requires var rs := ResolveAll(own, w.records, user, ps);
      && AllNew(w, recipients[j], PathsOf(rs))
      && rs[i].path.bucket == MIRROR_SLUG && rs[i].path.dbId != ""
    requires var shared := Leaves(own, w, user, Share(ps, recipients), luck);
      Succeeds(theirs, shared, recipients[j], Handle(|w.mail| + j, true), luck')
    ensures var x := ResolveAll(own, w.records, user, ps)[i];
      var shared := Leaves(own, w, user, Share(ps, recipients), luck);
      var after := Leaves(theirs, shared, recipients[j], Handle(|w.mail| + j, true), luck');
      && x.path.path == ps[i].path
      && Resolve(theirs, after.records, recipients[j], FullPath(x.path.dbId, MIRROR_SLUG, ps[i].path, "")) == Some(x)
  {
    var rs := ResolveAll(own, w.records, user, ps);
    assert Some(rs[i]) == Resolve(own, w.records, user, ps[i]);
    ResolvedNames(own, w.records, user, ps[i]);
    ShareSends(own, w, user, ps, recipients, luck, j);
    var shared := Leaves(own, w, user, Share(ps, recipients), luck);
    AnswerIsRecorded(theirs, shared, recipients[j], |w.mail| + j, true, luck', i);
  }
}
