/**
 * The role a user has for a file against the last message the user got about
 * it, after calls made one after another, each of which may have been cut
 * short.  Runs in which calls overlap are in SharingOverlaps.
 */
module SharingRoles {
  import opened Wrappers
  import opened Sharing
  import opened SharingRuns

  /** The role that the last push mentioning the file and the user leaves, whatever key it was made under. */
  function RoleOf(pushes: seq<RolePush>, bucketKey: string, path: string, u: User): Option<Role> {
    if pushes == [] then None
    else
      var last := pushes[|pushes| - 1];
      if last.file.bucketKey == bucketKey && last.file.path == path && u in last.members then Some(last.role)
      else RoleOf(pushes[..|pushes| - 1], bucketKey, path, u)
  }

  predicate Mentions(paths: seq<FullPath>, bucketKey: string, path: string) {
    exists i :: 0 <= i < |paths| && paths[i].bucketKey == bucketKey && paths[i].path == path
  }

  /** The body announces a role for the file. */
  predicate Tells(body: Body, bucketKey: string, path: string) {
    !body.Reply? && Mentions(body.paths, bucketKey, path)
  }

  function Announced(body: Body): Role {
    if body.Invite? then Admin else Revoked
  }

  /** What the last message to the user about the file says. */
  function LastWord(mail: seq<Mail>, bucketKey: string, path: string, u: User): Option<Role> {
    if mail == [] then None
    else
      var last := mail[|mail| - 1];
      if last.to == u && Tells(last.body, bucketKey, path) then Some(Announced(last.body))
      else LastWord(mail[..|mail| - 1], bucketKey, path, u)
  }

  ghost predicate RolesMatch(w: World) {
    forall bucketKey, path, u :: RoleOf(w.pushes, bucketKey, path, u) == LastWord(w.mail, bucketKey, path, u)
  }

  lemma RoleAfterPush(pushes: seq<RolePush>, p: RolePush, bucketKey: string, path: string, u: User)
    ensures RoleOf(pushes + [p], bucketKey, path, u) ==
      if p.file.bucketKey == bucketKey && p.file.path == path && u in p.members then Some(p.role)
      else RoleOf(pushes, bucketKey, path, u)
  {
    assert (pushes + [p])[..|pushes|] == pushes;
  }

  lemma WordAfterMail(mail: seq<Mail>, m: Mail, bucketKey: string, path: string, u: User)
    ensures LastWord(mail + [m], bucketKey, path, u) ==
      if m.to == u && Tells(m.body, bucketKey, path) then Some(Announced(m.body))
      else LastWord(mail, bucketKey, path, u)
  {
    assert (mail + [m])[..|mail|] == mail;
  }

  predicate MentionsBefore(rs: seq<Resolved>, i: nat, bucketKey: string, path: string)
    requires i <= |rs|
  {
    exists j :: 0 <= j < i && rs[j].path.bucketKey == bucketKey && rs[j].path.path == path
  }

  lemma MentionsNext(rs: seq<Resolved>, i: nat, bucketKey: string, path: string)
    requires 0 < i <= |rs|
    ensures MentionsBefore(rs, i, bucketKey, path) <==>
      MentionsBefore(rs, i - 1, bucketKey, path) ||
      (rs[i - 1].path.bucketKey == bucketKey && rs[i - 1].path.path == path)
  {
  }

  lemma RoleAfterWrite(w: World, user: User, p: FullPath, key: string, role: Role, recipients: seq<User>,
                       bucketKey: string, path: string, u: User)
    ensures var after := Perform(w, user, PushRoles(p, key, role, Members(recipients)));
      && after.mail == w.mail
      && RoleOf(after.pushes, bucketKey, path, u) ==
           if p.bucketKey == bucketKey && p.path == path && u in recipients then Some(role)
           else RoleOf(w.pushes, bucketKey, path, u)
  {
    RoleAfterPush(w.pushes, RolePush(user, p, key, role, Members(recipients)), bucketKey, path, u);
  }

  lemma WordAfterWrite(w: World, user: User, to: User, body: Body, bucketKey: string, path: string, u: User)
    ensures var after := Perform(w, user, Deliver(to, body));
      && after.pushes == w.pushes
      && LastWord(after.mail, bucketKey, path, u) ==
           if to == u && Tells(body, bucketKey, path) then Some(Announced(body))
           else LastWord(w.mail, bucketKey, path, u)
  {
    WordAfterMail(w.mail, Mail(user, to, body), bucketKey, path, u);
  }

  lemma AmongNext(recipients: seq<User>, i: nat, u: User)
    requires 0 < i <= |recipients|
    ensures u in recipients[..i] <==> u in recipients[..i - 1] || u == recipients[i - 1]
  {
    assert recipients[..i] == recipients[..i - 1] + [recipients[i - 1]];
  }

  function Within(budget: int, n: nat): (k: nat)
    ensures k <= n && (budget >= n ==> k == n) && (budget <= 0 ==> k == 0) && (0 <= budget <= n ==> k == budget)
  {
    if budget < 0 then 0 else if budget < n then budget else n
  }

  /** The role for the file is among the first k that are pushed for the recipients. */
  predicate Pushed(rs: seq<Resolved>, recipients: seq<User>, k: nat, bucketKey: string, path: string, u: User)
    requires k <= |rs|
  {
    u in recipients && MentionsBefore(rs, k, bucketKey, path)
  }

  /** The user is among the first k that are told, and the file is among those they are told about. */
  predicate Delivered(rs: seq<Resolved>, recipients: seq<User>, k: nat, bucketKey: string, path: string, u: User)
    requires k <= |recipients|
  {
    u in recipients[..k] && MentionsBefore(rs, |rs|, bucketKey, path)
  }

  /**
   * The first k roles have been pushed and the first j recipients told, and
   * nothing else about the file and the user.
   */
  predicate HasEffect(w: World, after: World, rs: seq<Resolved>, recipients: seq<User>, role: Role, k: nat, j: nat,
                      bucketKey: string, path: string, u: User)
    requires k <= |rs| && j <= |recipients|
  {
    && RoleOf(after.pushes, bucketKey, path, u) ==
         (if Pushed(rs, recipients, k, bucketKey, path, u) then Some(role) else RoleOf(w.pushes, bucketKey, path, u))
    && LastWord(after.mail, bucketKey, path, u) ==
         (if Delivered(rs, recipients, j, bucketKey, path, u) then Some(role) else LastWord(w.mail, bucketKey, path, u))
  }

  lemma TellsWhatIsShared(rs: seq<Resolved>, body: Body, bucketKey: string, path: string)
    requires body.paths == PathsOf(rs) && !body.Reply?
    ensures Tells(body, bucketKey, path) <==> MentionsBefore(rs, |rs|, bucketKey, path)
  {
  }

  /** A plan of sent records, then the roles of all files, then the messages to all recipients. */
  predicate IsPlan(plan: seq<Write>, sent: nat, rs: seq<Resolved>, role: Role, recipients: seq<User>, body: Body) {
    && |plan| == sent + |rs| + |recipients|
    && role == Announced(body) && !body.Reply? && body.paths == PathsOf(rs)
    && (forall k :: 0 <= k < sent ==> plan[k].WriteSent?)
    && (forall k :: sent <= k < sent + |rs| ==>
         plan[k] == PushRoles(rs[k - sent].path, ContextKey(rs, k - sent + 1), role, Members(recipients)))
    && (forall k :: sent + |rs| <= k < |plan| ==> plan[k] == Deliver(recipients[k - sent - |rs|], body))
  }

  lemma NothingYet(w: World, rs: seq<Resolved>, recipients: seq<User>, role: Role,
                   bucketKey: string, path: string, u: User)
    ensures HasEffect(w, w, rs, recipients, role, 0, 0, bucketKey, path, u)
  {
  }

  lemma PushEffect(w: World, before: World, user: User, rs: seq<Resolved>, recipients: seq<User>, role: Role,
                   k: nat, bucketKey: string, path: string, u: User)
    requires k < |rs| && HasEffect(w, before, rs, recipients, role, k, 0, bucketKey, path, u)
    ensures var push := PushRoles(rs[k].path, ContextKey(rs, k + 1), role, Members(recipients));
      HasEffect(w, Perform(before, user, push), rs, recipients, role, k + 1, 0, bucketKey, path, u)
  {
    RoleAfterWrite(before, user, rs[k].path, ContextKey(rs, k + 1), role, recipients, bucketKey, path, u);
    MentionsNext(rs, k + 1, bucketKey, path);
  }

  lemma TellEffect(w: World, before: World, user: User, rs: seq<Resolved>, recipients: seq<User>, body: Body,
                   j: nat, bucketKey: string, path: string, u: User)
    requires j < |recipients| && body.paths == PathsOf(rs) && !body.Reply?
    requires HasEffect(w, before, rs, recipients, Announced(body), |rs|, j, bucketKey, path, u)
    ensures HasEffect(w, Perform(before, user, Deliver(recipients[j], body)), rs, recipients, Announced(body),
                      |rs|, j + 1, bucketKey, path, u)
  {
    WordAfterWrite(before, user, recipients[j], body, bucketKey, path, u);
    TellsWhatIsShared(rs, body, bucketKey, path);
    AmongNext(recipients, j + 1, u);
  }

  lemma {:induction false} SentStage(w: World, user: User, plan: seq<Write>, sent: nat, rs: seq<Resolved>, role: Role,
                                     recipients: seq<User>, body: Body, i: nat,
                                     bucketKey: string, path: string, u: User)
    requires IsPlan(plan, sent, rs, role, recipients, body) && i <= sent
    ensures HasEffect(w, PerformSome(w, user, plan, {}, i), rs, recipients, role, 0, 0, bucketKey, path, u)
  {
    if i == 0 {
      NothingYet(w, rs, recipients, role, bucketKey, path, u);
    } else {
      SentStage(w, user, plan, sent, rs, role, recipients, body, i - 1, bucketKey, path, u);
      assert plan[i - 1].WriteSent?;
    }
  }

  lemma {:induction false} PushStage(w: World, user: User, plan: seq<Write>, sent: nat, rs: seq<Resolved>, role: Role,
                                     recipients: seq<User>, body: Body, k: nat,
                                     bucketKey: string, path: string, u: User)
    requires IsPlan(plan, sent, rs, role, recipients, body) && k <= |rs|
    ensures HasEffect(w, PerformSome(w, user, plan, {}, sent + k), rs, recipients, role, k, 0, bucketKey, path, u)
  {
    if k == 0 {
      SentStage(w, user, plan, sent, rs, role, recipients, body, sent, bucketKey, path, u);
    } else {
      PushStage(w, user, plan, sent, rs, role, recipients, body, k - 1, bucketKey, path, u);
      PushEffect(w, PerformSome(w, user, plan, {}, sent + k - 1), user, rs, recipients, role, k - 1,
                 bucketKey, path, u);
    }
  }

  lemma {:induction false} TellStage(w: World, user: User, plan: seq<Write>, sent: nat, rs: seq<Resolved>, role: Role,
                                     recipients: seq<User>, body: Body, j: nat,
                                     bucketKey: string, path: string, u: User)
    requires IsPlan(plan, sent, rs, role, recipients, body) && j <= |recipients|
    ensures HasEffect(w, PerformSome(w, user, plan, {}, sent + |rs| + j), rs, recipients, role, |rs|, j,
                      bucketKey, path, u)
  {
    if j == 0 {
      PushStage(w, user, plan, sent, rs, role, recipients, body, |rs|, bucketKey, path, u);
    } else {
      TellStage(w, user, plan, sent, rs, role, recipients, body, j - 1, bucketKey, path, u);
      TellEffect(w, PerformSome(w, user, plan, {}, sent + |rs| + j - 1), user, rs, recipients, body, j - 1,
                 bucketKey, path, u);
    }
  }

  /** What the first i writes of a plan do. */
  lemma PlanEffect(w: World, user: User, plan: seq<Write>, sent: nat, rs: seq<Resolved>, role: Role,
                   recipients: seq<User>, body: Body, i: nat,
                                     bucketKey: string, path: string, u: User)
    requires IsPlan(plan, sent, rs, role, recipients, body) && i <= |plan|
    ensures HasEffect(w, PerformSome(w, user, plan, {}, i), rs, recipients, role,
                      Within(i - sent, |rs|), Within(i - sent - |rs|, |recipients|), bucketKey, path, u)
  {
    var k, j := Within(i - sent, |rs|), Within(i - sent - |rs|, |recipients|);
    var after := PerformSome(w, user, plan, {}, i);
    if i <= sent {
      SentStage(w, user, plan, sent, rs, role, recipients, body, i, bucketKey, path, u);
      SameCounts(w, after, rs, recipients, role, 0, 0, k, j, bucketKey, path, u);
    } else if i <= sent + |rs| {
      PushStage(w, user, plan, sent, rs, role, recipients, body, i - sent, bucketKey, path, u);
      SameCounts(w, after, rs, recipients, role, i - sent, 0, k, j, bucketKey, path, u);
    } else {
      TellStage(w, user, plan, sent, rs, role, recipients, body, i - sent - |rs|, bucketKey, path, u);
      SameCounts(w, after, rs, recipients, role, |rs|, i - sent - |rs|, k, j, bucketKey, path, u);
    }
  }

  lemma SameCounts(w: World, after: World, rs: seq<Resolved>, recipients: seq<User>, role: Role,
                   k: nat, j: nat, k': nat, j': nat, bucketKey: string, path: string, u: User)
    requires k == k' <= |rs| && j == j' <= |recipients|
    requires HasEffect(w, after, rs, recipients, role, k, j, bucketKey, path, u)
    ensures HasEffect(w, after, rs, recipients, role, k', j', bucketKey, path, u)
  {
  }

  // ---------------------------------------------------------------------
  // One call, wherever it stops
  // ---------------------------------------------------------------------

  function KindOf(request: Request): Role {
    if request.Unshare? then Revoked else Admin
  }

  /** The call has paths that resolve and does not lack the key for its first role push. */
  predicate Sends(own: OwnBucket, w: World, user: User, request: Request, luck: Luck) {
    && !request.Handle? && |request.paths| <= luck.lookups
    && AllResolve(own, w.records, user, request.paths)
    && !Keyless(ResolveAll(own, w.records, user, request.paths))
  }

  /** What is left of the budget when the sent records have been written. */
  function RoleBudget(request: Request, luck: Luck): int
    requires !request.Handle?
  {
    if request.Share? then luck.budget - |request.paths| else luck.budget
  }

  /** The call pushes a role for the file and the user before it stops. */
  predicate PushesRole(own: OwnBucket, w: World, user: User, request: Request, luck: Luck,
                       bucketKey: string, path: string, u: User)
  {
    && Sends(own, w, user, request, luck)
    && Pushed(ResolveAll(own, w.records, user, request.paths), request.recipients,
              Within(RoleBudget(request, luck), |request.paths|), bucketKey, path, u)
  }

  /** The call delivers its message about the file to the user before it stops. */
  predicate TellsUser(own: OwnBucket, w: World, user: User, request: Request, luck: Luck,
                      bucketKey: string, path: string, u: User)
  {
    && Sends(own, w, user, request, luck)
    && Delivered(ResolveAll(own, w.records, user, request.paths), request.recipients,
                 Within(RoleBudget(request, luck) - |request.paths|, |request.recipients|), bucketKey, path, u)
  }

  lemma AnswerTellsNobody(own: OwnBucket, w: World, user: User, id: nat, accept: bool, luck: Luck,
                          bucketKey: string, path: string, u: User)
    ensures var after := Leaves(own, w, user, Handle(id, accept), luck);
      && after.pushes == w.pushes
      && LastWord(after.mail, bucketKey, path, u) == LastWord(w.mail, bucketKey, path, u)
  {
    if CanHandle(w, user, id) {
      var mail := w.mail[id];
      var n := |mail.body.paths|;
      RecordsTellNobody(w, user, mail, id, accept, luck.failing, n);
      var made := PerformSome(w, user, ReceivedWrites(mail, id, accept), luck.failing, n);
      if accept {
        OneWrite(made, user, Replies(mail, accept)[0]);
        WordAfterMail(made.mail, Mail(user, mail.from, Reply(mail.body.paths, mail.body.keys)), bucketKey, path, u);
      } else {
        NoWrites(made, user);
      }
    }
  }

  lemma {:induction false} RecordsTellNobody(w: World, user: User, mail: Mail, id: nat, accept: bool,
                                             failing: set<nat>, i: nat)
    requires |mail.body.paths| == |mail.body.keys| && i <= |mail.body.paths|
    ensures var after := PerformSome(w, user, ReceivedWrites(mail, id, accept), failing, i);
      after.pushes == w.pushes && after.mail == w.mail
  {
    if i > 0 {
      RecordsTellNobody(w, user, mail, id, accept, failing, i - 1);
    }
  }

  /** A share that lacks the key for its first role push writes sent records and nothing else. */
  lemma RecordsOnlyTellNobody(w: World, user: User, rs: seq<Resolved>, budget: nat,
                              bucketKey: string, path: string, u: User)
    ensures var after := PerformAll(w, user, Cut(SentWrites(rs), budget));
      && RoleOf(after.pushes, bucketKey, path, u) == RoleOf(w.pushes, bucketKey, path, u)
      && LastWord(after.mail, bucketKey, path, u) == LastWord(w.mail, bucketKey, path, u)
  {
    CutEffect(w, user, SentWrites(rs), |rs|, [], [], Invite([], []), budget, bucketKey, path, u);
  }

  /** What any call does to the role and the last word, wherever it stops. */
  lemma CallEffect(own: OwnBucket, w: World, user: User, request: Request, luck: Luck,
                   bucketKey: string, path: string, u: User)
    ensures var after := Leaves(own, w, user, request, luck);
      && RoleOf(after.pushes, bucketKey, path, u) ==
           (if PushesRole(own, w, user, request, luck, bucketKey, path, u) then Some(KindOf(request))
            else RoleOf(w.pushes, bucketKey, path, u))
      && LastWord(after.mail, bucketKey, path, u) ==
           (if TellsUser(own, w, user, request, luck, bucketKey, path, u) then Some(KindOf(request))
            else LastWord(w.mail, bucketKey, path, u))
  {
    match request
    case Handle(id, accept) => AnswerTellsNobody(own, w, user, id, accept, luck, bucketKey, path, u);
    case Share(paths, recipients) =>
      if Sends(own, w, user, request, luck) {
        var rs := ResolveAll(own, w.records, user, paths);
        SharePlanIsPlan(rs, recipients);
        CutEffect(w, user, SharePlan(rs, recipients), |rs|, rs, recipients, Invite(PathsOf(rs), KeysOf(rs)),
                  luck.budget, bucketKey, path, u);
      } else if LacksKey(own, w, user, request) {
        RecordsOnlyTellNobody(w, user, ResolveAll(own, w.records, user, paths), luck.budget, bucketKey, path, u);
      }
    case Unshare(paths, recipients) =>
      if Sends(own, w, user, request, luck) {
        var rs := ResolveAll(own, w.records, user, paths);
        SharePlanIsPlan(rs, recipients);
        CutEffect(w, user, UnsharePlan(rs, recipients), 0, rs, recipients, Revoke(PathsOf(rs), KeysOf(rs)),
                  luck.budget, bucketKey, path, u);
      }
  }

  lemma SharePlanIsPlan(rs: seq<Resolved>, recipients: seq<User>)
    ensures IsPlan(SharePlan(rs, recipients), |rs|, rs, Admin, recipients, Invite(PathsOf(rs), KeysOf(rs)))
    ensures IsPlan(UnsharePlan(rs, recipients), 0, rs, Revoked, recipients, Revoke(PathsOf(rs), KeysOf(rs)))
  {
  }

  lemma CutEffect(w: World, user: User, plan: seq<Write>, sent: nat, rs: seq<Resolved>, recipients: seq<User>,
                  body: Body, budget: nat, bucketKey: string, path: string, u: User)
    requires IsPlan(plan, sent, rs, Announced(body), recipients, body)
    ensures HasEffect(w, PerformAll(w, user, Cut(plan, budget)), rs, recipients, Announced(body),
                      Within(budget - sent, |rs|), Within(budget - sent - |rs|, |recipients|), bucketKey, path, u)
  {
    var i := Within(budget, |plan|);
    SomeIsAll(w, user, plan, i);
    assert Cut(plan, budget) == plan[..i];
    PlanEffect(w, user, plan, sent, rs, Announced(body), recipients, body, i, bucketKey, path, u);
    assert Within(i - sent, |rs|) == Within(budget - sent, |rs|);
    assert Within(i - sent - |rs|, |recipients|) == Within(budget - sent - |rs|, |recipients|);
  }

  lemma TellingFollowsPushing(own: OwnBucket, w: World, user: User, request: Request, luck: Luck,
                              bucketKey: string, path: string, u: User)
    requires TellsUser(own, w, user, request, luck, bucketKey, path, u)
    ensures PushesRole(own, w, user, request, luck, bucketKey, path, u)
  {
    assert Within(RoleBudget(request, luck), |request.paths|) == |request.paths|;
  }

  /**
   * In any world, whatever earlier calls left half done: a share that reports
   * success gives every recipient the admin role for every file and has told
   * them so, and an unshare that reports success takes it and has told them so.
   */
  lemma SuccessGrantsAndTells(own: OwnBucket, w: World, user: User, request: Request, luck: Luck, i: nat, u: User)
    requires !request.Handle? && Succeeds(own, w, user, request, luck)
    requires i < |request.paths| && u in request.recipients
    ensures var p := ResolveAll(own, w.records, user, request.paths)[i].path;
      var after := Leaves(own, w, user, request, luck);
      RoleOf(after.pushes, p.bucketKey, p.path, u) == LastWord(after.mail, p.bucketKey, p.path, u) ==
        Some(KindOf(request))
  {
    var rs := ResolveAll(own, w.records, user, request.paths);
    var p := rs[i].path;
    assert |PlanFor(own, w, user, request).value| ==
      |request.paths| + |request.recipients| + if request.Share? then |request.paths| else 0;
    assert request.recipients[..|request.recipients|] == request.recipients;
    assert MentionsBefore(rs, |rs|, p.bucketKey, p.path);
    CallEffect(own, w, user, request, luck, p.bucketKey, p.path, u);
  }

  // ---------------------------------------------------------------------
  // Any sequence of calls
  // ---------------------------------------------------------------------

  /** A call that is over, complete or not. */
  datatype Past = Past(user: User, request: Request, luck: Luck)

  function After(o: Owners, w: World, c: Past): World
    requires c.user in o
  {
    Leaves(o[c.user], w, c.user, c.request, c.luck)
  }

  predicate Known(o: Owners, cs: seq<Past>) {
    forall i :: 0 <= i < |cs| ==> cs[i].user in o
  }

  function AfterAll(o: Owners, cs: seq<Past>): World
    requires Known(o, cs)
  {
    if cs == [] then World([], [], [], [])
    else After(o, AfterAll(o, cs[..|cs| - 1]), cs[|cs| - 1])
  }

  /** The last call that pushed a role for the file and the user. */
  function LastPush(o: Owners, cs: seq<Past>, bucketKey: string, path: string, u: User): (r: Option<nat>)
    requires Known(o, cs)
    ensures r.Some? ==> r.value < |cs|
  {
    if cs == [] then None
    else
      var n := |cs| - 1;
      var c := cs[n];
      if PushesRole(o[c.user], AfterAll(o, cs[..n]), c.user, c.request, c.luck, bucketKey, path, u) then Some(n)
      else LastPush(o, cs[..n], bucketKey, path, u)
  }

  /** The last call that delivered its message about the file to the user. */
  function LastTold(o: Owners, cs: seq<Past>, bucketKey: string, path: string, u: User): (r: Option<nat>)
    requires Known(o, cs)
    ensures r.Some? ==> r.value < |cs|
  {
    if cs == [] then None
    else
      var n := |cs| - 1;
      var c := cs[n];
      if TellsUser(o[c.user], AfterAll(o, cs[..n]), c.user, c.request, c.luck, bucketKey, path, u) then Some(n)
      else LastTold(o, cs[..n], bucketKey, path, u)
  }

  /** The role is the one of the last call that pushed, the last word that of the last call that told. */
  lemma {:induction false} RoleAndWord(o: Owners, cs: seq<Past>, bucketKey: string, path: string, u: User)
    requires Known(o, cs)
    ensures var w, pushed, told := AfterAll(o, cs), LastPush(o, cs, bucketKey, path, u),
                                   LastTold(o, cs, bucketKey, path, u);
      && RoleOf(w.pushes, bucketKey, path, u) ==
           (if pushed.Some? then Some(KindOf(cs[pushed.value].request)) else None)
      && LastWord(w.mail, bucketKey, path, u) ==
           (if told.Some? then Some(KindOf(cs[told.value].request)) else None)
      && (told.Some? ==> pushed.Some? && told.value <= pushed.value)
  {
    if cs != [] {
      var n := |cs| - 1;
      var c, before := cs[n], AfterAll(o, cs[..n]);
      RoleAndWord(o, cs[..n], bucketKey, path, u);
      CallEffect(o[c.user], before, c.user, c.request, c.luck, bucketKey, path, u);
      if TellsUser(o[c.user], before, c.user, c.request, c.luck, bucketKey, path, u) {
        TellingFollowsPushing(o[c.user], before, c.user, c.request, c.luck, bucketKey, path, u);
      }
    }
  }

  /**
   * After any calls, complete or cut short anywhere, the role agrees with the
   * last word if and only if no call has pushed a role, or some call has told
   * the user and the last that did was of the same kind, a share or an
   * unshare, as the last that pushed.
   */
  lemma RoleMatchesIff(o: Owners, cs: seq<Past>, bucketKey: string, path: string, u: User)
    requires Known(o, cs)
    ensures var w, pushed, told := AfterAll(o, cs), LastPush(o, cs, bucketKey, path, u),
                                   LastTold(o, cs, bucketKey, path, u);
      RoleOf(w.pushes, bucketKey, path, u) == LastWord(w.mail, bucketKey, path, u) <==>
        pushed.None? ||
        (told.Some? && KindOf(cs[told.value].request) == KindOf(cs[pushed.value].request))
  {
    RoleAndWord(o, cs, bucketKey, path, u);
  }

  predicate Told(o: Owners, cs: seq<Past>, i: nat, bucketKey: string, path: string, u: User)
    requires Known(o, cs) && i < |cs|
  {
    TellsUser(o[cs[i].user], AfterAll(o, cs[..i]), cs[i].user, cs[i].request, cs[i].luck, bucketKey, path, u)
  }

  /**
   * The call that set the role is also the one that sent the last word if and
   * only if the last call that pushed a role delivered its message to the
   * user, or there is neither.
   */
  lemma {:induction false} RoleAnnouncedIff(o: Owners, cs: seq<Past>, bucketKey: string, path: string, u: User)
    requires Known(o, cs)
    ensures var pushed := LastPush(o, cs, bucketKey, path, u);
      pushed == LastTold(o, cs, bucketKey, path, u) <==>
        pushed.None? || Told(o, cs, pushed.value, bucketKey, path, u)
  {
    if cs != [] {
      var n := |cs| - 1;
      RoleAnnouncedIff(o, cs[..n], bucketKey, path, u);
      RoleAndWord(o, cs[..n], bucketKey, path, u);
      var c, before := cs[n], AfterAll(o, cs[..n]);
      if TellsUser(o[c.user], before, c.user, c.request, c.luck, bucketKey, path, u) {
        TellingFollowsPushing(o[c.user], before, c.user, c.request, c.luck, bucketKey, path, u);
      }
      var pushed := LastPush(o, cs[..n], bucketKey, path, u);
      if pushed.Some? {
        assert cs[..n][..pushed.value] == cs[..pushed.value];
      }
    }
  }

  /** The call reports success, answers an invitation, or ends before it has pushed a role. */
  predicate Whole(o: Owners, w: World, c: Past)
    requires c.user in o
  {
    c.request.Handle? || Succeeds(o[c.user], w, c.user, c.request, c.luck)
    || !Sends(o[c.user], w, c.user, c.request, c.luck)
  }

  lemma WholeTells(own: OwnBucket, w: World, user: User, request: Request, luck: Luck,
                   bucketKey: string, path: string, u: User)
    requires Succeeds(own, w, user, request, luck)
    requires PushesRole(own, w, user, request, luck, bucketKey, path, u)
    ensures TellsUser(own, w, user, request, luck, bucketKey, path, u)
  {
    assert |PlanFor(own, w, user, request).value| ==
      |request.paths| + |request.recipients| + if request.Share? then |request.paths| else 0;
    assert request.recipients[..|request.recipients|] == request.recipients;
  }

  /** After any sequence of calls none of which was cut short, roles and last messages agree. */
  lemma {:induction false} RolesMatchMessages(o: Owners, cs: seq<Past>)
    requires Known(o, cs)
    requires forall i :: 0 <= i < |cs| ==> Whole(o, AfterAll(o, cs[..i]), cs[i])
    ensures RolesMatch(AfterAll(o, cs))
  {
    if cs != [] {
      var n := |cs| - 1;
      var c, before := cs[n], AfterAll(o, cs[..n]);
      forall i | 0 <= i < n ensures Whole(o, AfterAll(o, cs[..n][..i]), cs[..n][i]) {
        assert cs[..n][..i] == cs[..i];
      }
      RolesMatchMessages(o, cs[..n]);
      assert Whole(o, before, c);
      forall bucketKey, path, u
        ensures RoleOf(AfterAll(o, cs).pushes, bucketKey, path, u) == LastWord(AfterAll(o, cs).mail, bucketKey, path, u)
      {
        CallEffect(o[c.user], before, c.user, c.request, c.luck, bucketKey, path, u);
        if TellsUser(o[c.user], before, c.user, c.request, c.luck, bucketKey, path, u) {
          TellingFollowsPushing(o[c.user], before, c.user, c.request, c.luck, bucketKey, path, u);
        } else if PushesRole(o[c.user], before, c.user, c.request, c.luck, bucketKey, path, u) {
          WholeTells(o[c.user], before, c.user, c.request, c.luck, bucketKey, path, u);
        }
      }
    }
  }

  /** Any sequence of calls, each cut short anywhere, is a run of the system. */
  lemma {:induction false} PastIsRun(o: Owners, cs: seq<Past>) returns (run: seq<State>, acts: seq<Action>)
    requires Known(o, cs)
    ensures IsRun(o, run, acts) && AllEnded(run[|acts|]) && run[|acts|].world == AfterAll(o, cs)
  {
    if cs == [] {
      run, acts := [START], [];
    } else {
      var c := cs[|cs| - 1];
      run, acts := PastIsRun(o, cs[..|cs| - 1]);
      run, acts := CallIsSteps(o, run, acts, c.user, c.request, c.luck);
    }
  }
}
