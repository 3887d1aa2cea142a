/**
 * Roles and messages when calls overlap: a run interleaves the writes of any
 * number of calls, so a call may push its roles, another may push others, and
 * the first then sends its message.
 */
module SharingOverlaps {
  import opened Wrappers
  import opened Sharing
  import opened SharingRuns
  import opened SharingRoles

  /** The write that step i of a run performs, if it performs one. */
  function WriteAt(o: Owners, run: seq<State>, acts: seq<Action>, i: nat): Option<Write>
    requires |run| == |acts| + 1 && i < |acts| && Enabled(o, run[i], acts[i])
  {
    if acts[i].Advance? then
      var call := run[i].calls[acts[i].c];
      Some(call.plan[call.next])
    else None
  }

  /** The role that a write pushes for the file and the user. */
  function PushedRole(x: Option<Write>, bucketKey: string, path: string, u: User): Option<Role> {
    if x.Some? && x.value.PushRoles? && x.value.path.bucketKey == bucketKey && x.value.path.path == path
       && u in x.value.members
    then Some(x.value.role) else None
  }

  /** The role for the file that a write announces to the user. */
  function ToldRole(x: Option<Write>, bucketKey: string, path: string, u: User): Option<Role> {
    if x.Some? && x.value.Deliver? && x.value.to == u && Tells(x.value.body, bucketKey, path)
    then Some(Announced(x.value.body)) else None
  }

  function RoleAt(o: Owners, run: seq<State>, acts: seq<Action>, i: nat,
                  bucketKey: string, path: string, u: User): Option<Role>
    requires IsRun(o, run, acts) && i < |acts|
  {
    PushedRole(WriteAt(o, run, acts, i), bucketKey, path, u)
  }

  function WordAt(o: Owners, run: seq<State>, acts: seq<Action>, i: nat,
                  bucketKey: string, path: string, u: User): Option<Role>
    requires IsRun(o, run, acts) && i < |acts|
  {
    ToldRole(WriteAt(o, run, acts, i), bucketKey, path, u)
  }

  lemma WriteEffect(w: World, user: User, x: Write, bucketKey: string, path: string, u: User)
    ensures var after := Perform(w, user, x);
      && RoleOf(after.pushes, bucketKey, path, u) ==
           (if PushedRole(Some(x), bucketKey, path, u).Some? then PushedRole(Some(x), bucketKey, path, u)
            else RoleOf(w.pushes, bucketKey, path, u))
      && LastWord(after.mail, bucketKey, path, u) ==
           (if ToldRole(Some(x), bucketKey, path, u).Some? then ToldRole(Some(x), bucketKey, path, u)
            else LastWord(w.mail, bucketKey, path, u))
  {
    match x
    case PushRoles(p, key, role, members) =>
      RoleAfterPush(w.pushes, RolePush(user, p, key, role, members), bucketKey, path, u);
    case Deliver(to, body) => WordAfterMail(w.mail, Mail(user, to, body), bucketKey, path, u);
    case _ =>
  }

  /** One step changes the role and the last word to what its write pushes and tells, if it does. */
  lemma StepEffect(o: Owners, run: seq<State>, acts: seq<Action>, i: nat, bucketKey: string, path: string, u: User)
    requires IsRun(o, run, acts) && i < |acts|
    ensures var role, word := RoleAt(o, run, acts, i, bucketKey, path, u), WordAt(o, run, acts, i, bucketKey, path, u);
      && RoleOf(run[i + 1].world.pushes, bucketKey, path, u) ==
           (if role.Some? then role else RoleOf(run[i].world.pushes, bucketKey, path, u))
      && LastWord(run[i + 1].world.mail, bucketKey, path, u) ==
           (if word.Some? then word else LastWord(run[i].world.mail, bucketKey, path, u))
  {
    var s, a := run[i], acts[i];
    assert run[i + 1] == Apply(o, s, a);
    if a.Advance? {
      var call := s.calls[a.c];
      WriteEffect(s.world, call.user, call.plan[call.next], bucketKey, path, u);
    }
  }

  /** The last step before k that pushed a role for the file and the user. */
  function LastPushStep(o: Owners, run: seq<State>, acts: seq<Action>, k: nat,
                        bucketKey: string, path: string, u: User): (r: Option<nat>)
    requires IsRun(o, run, acts) && k <= |acts|
    ensures r.Some? ==> r.value < k && RoleAt(o, run, acts, r.value, bucketKey, path, u).Some?
    ensures forall j: nat {:trigger RoleAt(o, run, acts, j, bucketKey, path, u)} ::
      j < k && (r.None? || j > r.value) ==> RoleAt(o, run, acts, j, bucketKey, path, u).None?
  {
    if k == 0 then None
    else if RoleAt(o, run, acts, k - 1, bucketKey, path, u).Some? then Some(k - 1)
    else LastPushStep(o, run, acts, k - 1, bucketKey, path, u)
  }

  /** The last step before k that told the user about the file. */
  function LastTellStep(o: Owners, run: seq<State>, acts: seq<Action>, k: nat,
                        bucketKey: string, path: string, u: User): (r: Option<nat>)
    requires IsRun(o, run, acts) && k <= |acts|
    ensures r.Some? ==> r.value < k && WordAt(o, run, acts, r.value, bucketKey, path, u).Some?
    ensures forall j: nat {:trigger WordAt(o, run, acts, j, bucketKey, path, u)} ::
      j < k && (r.None? || j > r.value) ==> WordAt(o, run, acts, j, bucketKey, path, u).None?
  {
    if k == 0 then None
    else if WordAt(o, run, acts, k - 1, bucketKey, path, u).Some? then Some(k - 1)
    else LastTellStep(o, run, acts, k - 1, bucketKey, path, u)
  }

  /**
   * At every moment of every run, however calls overlap and wherever they
   * stop, the role is the one that the last step to push pushed, and the last
   * word is what the last step to deliver announced.
   */
  lemma {:induction false} RunRoleAndWord(o: Owners, run: seq<State>, acts: seq<Action>, k: nat,
                                          bucketKey: string, path: string, u: User)
    requires IsRun(o, run, acts) && k <= |acts|
    ensures var pushed := LastPushStep(o, run, acts, k, bucketKey, path, u);
      RoleOf(run[k].world.pushes, bucketKey, path, u) ==
        if pushed.Some? then RoleAt(o, run, acts, pushed.value, bucketKey, path, u) else None
    ensures var told := LastTellStep(o, run, acts, k, bucketKey, path, u);
      LastWord(run[k].world.mail, bucketKey, path, u) ==
        if told.Some? then WordAt(o, run, acts, told.value, bucketKey, path, u) else None
  {
    if k > 0 {
      RunRoleAndWord(o, run, acts, k - 1, bucketKey, path, u);
      StepEffect(o, run, acts, k - 1, bucketKey, path, u);
    }
  }

  /** Whoever has been told about a file has had a role pushed for it. */
  lemma ToldMeansPushed(o: Owners, run: seq<State>, acts: seq<Action>, i: nat,
                        bucketKey: string, path: string, u: User)
    requires IsRun(o, run, acts) && i < |acts| && WordAt(o, run, acts, i, bucketKey, path, u).Some?
    ensures LastPushStep(o, run, acts, i, bucketKey, path, u).Some?
  {
    var call := run[i].calls[acts[i].c];
    var x := call.plan[call.next];
    RunOrder(o, run, acts, i);
    assert CallInv(run[i].world, call);
    var j :| 0 <= j < |x.body.paths| && x.body.paths[j].bucketKey == bucketKey && x.body.paths[j].path == path;
    var role := if x.body.Invite? then Admin else Revoked;
    HasPushHasRole(run[i].world.pushes, call.user, x.body.paths[j], role, u);
    RunRoleAndWord(o, run, acts, i, bucketKey, path, u);
  }

  lemma {:induction false} HasPushHasRole(pushes: seq<RolePush>, from: User, p: FullPath, role: Role, u: User)
    requires HasPush(pushes, from, p, role, u)
    ensures RoleOf(pushes, p.bucketKey, p.path, u).Some?
  {
    var n := |pushes| - 1;
    var last := pushes[n];
    if !(last.file.bucketKey == p.bucketKey && last.file.path == p.path && u in last.members) {
      var x :| x in pushes && x.from == from && x.file == p && x.role == role && u in x.members;
      assert x in pushes[..n];
      HasPushHasRole(pushes[..n], from, p, role, u);
    }
  }

  /**
   * When a call delivers its message to a user, role and last word agree for
   * a file of the message if and only if the last role that any call pushed
   * for them is of the kind that this call announces.
   */
  lemma DeliveryMatchesIff(o: Owners, run: seq<State>, acts: seq<Action>, i: nat,
                           bucketKey: string, path: string, u: User)
    requires IsRun(o, run, acts) && i < |acts| && WordAt(o, run, acts, i, bucketKey, path, u).Some?
    ensures var pushed := LastPushStep(o, run, acts, i, bucketKey, path, u);
      && pushed.Some?
      && (RoleOf(run[i + 1].world.pushes, bucketKey, path, u) ==
            LastWord(run[i + 1].world.mail, bucketKey, path, u) <==>
          RoleAt(o, run, acts, pushed.value, bucketKey, path, u) == WordAt(o, run, acts, i, bucketKey, path, u))
  {
    ToldMeansPushed(o, run, acts, i, bucketKey, path, u);
    StepEffect(o, run, acts, i, bucketKey, path, u);
    RunRoleAndWord(o, run, acts, i, bucketKey, path, u);
  }

  /**
   * At any moment of any run role and last word agree if and only if nothing
   * was ever pushed, or the user was told and the last that was told is of
   * the kind of the last that was pushed.
   */
  lemma RunMatchesIff(o: Owners, run: seq<State>, acts: seq<Action>, k: nat, bucketKey: string, path: string, u: User)
    requires IsRun(o, run, acts) && k <= |acts|
    ensures var pushed, told := LastPushStep(o, run, acts, k, bucketKey, path, u),
                                LastTellStep(o, run, acts, k, bucketKey, path, u);
      RoleOf(run[k].world.pushes, bucketKey, path, u) == LastWord(run[k].world.mail, bucketKey, path, u) <==>
        pushed.None? ||
        (told.Some? && RoleAt(o, run, acts, pushed.value, bucketKey, path, u) ==
                         WordAt(o, run, acts, told.value, bucketKey, path, u))
  {
    RunRoleAndWord(o, run, acts, k, bucketKey, path, u);
    var told := LastTellStep(o, run, acts, k, bucketKey, path, u);
    if told.Some? {
      ToldMeansPushed(o, run, acts, told.value, bucketKey, path, u);
      var pushed := LastPushStep(o, run, acts, told.value, bucketKey, path, u);
      assert RoleAt(o, run, acts, pushed.value, bucketKey, path, u).Some?;
    }
  }

  // ---------------------------------------------------------------------
  // A call that nobody disturbs
  // ---------------------------------------------------------------------

  /** Step j pushes a role for the file and the user or tells the user about it, on behalf of a call other than c. */
  predicate Disturbs(o: Owners, run: seq<State>, acts: seq<Action>, j: nat, c: nat,
                     bucketKey: string, path: string, u: User)
    requires IsRun(o, run, acts) && j < |acts|
  {
    && (RoleAt(o, run, acts, j, bucketKey, path, u).Some? || WordAt(o, run, acts, j, bucketKey, path, u).Some?)
    && acts[j].c != c
  }

  /** Call c started at step b, and what its plan consists of. */
  predicate Started(o: Owners, run: seq<State>, acts: seq<Action>, b: nat, c: nat, plan: seq<Write>)
    requires IsRun(o, run, acts) && b < |acts|
  {
    && acts[b].Begin? && !acts[b].request.Handle? && c == |run[b].calls|
    && PlanFor(o[acts[b].user], run[b].world, acts[b].user, acts[b].request) == Some(plan)
  }

  predicate Along(s: State, c: nat, plan: seq<Write>) {
    && c < |s.calls| && s.calls[c].plan <= plan && s.calls[c].next <= |s.calls[c].plan|
  }

  /** What the first n writes of the plan do to the role and the last word. */
  predicate Effect(w: World, after: World, sent: nat, rs: seq<Resolved>, recipients: seq<User>, role: Role, n: nat,
                   bucketKey: string, path: string, u: User)
  {
    HasEffect(w, after, rs, recipients, role, Within(n - sent, |rs|), Within(n - sent - |rs|, |recipients|),
              bucketKey, path, u)
  }

  lemma OwnWrite(w: World, before: World, user: User, plan: seq<Write>, sent: nat, rs: seq<Resolved>,
                 recipients: seq<User>, body: Body, n: nat, bucketKey: string, path: string, u: User)
    requires IsPlan(plan, sent, rs, Announced(body), recipients, body) && n < |plan|
    requires Effect(w, before, sent, rs, recipients, Announced(body), n, bucketKey, path, u)
    ensures Effect(w, Perform(before, user, plan[n]), sent, rs, recipients, Announced(body), n + 1, bucketKey, path, u)
  {
    if n < sent {
      OwnRecord(w, before, user, plan[n], sent, rs, recipients, Announced(body), n, bucketKey, path, u);
    } else if n < sent + |rs| {
      var k := n - sent;
      assert plan[n] == PushRoles(rs[k].path, ContextKey(rs, k + 1), Announced(body), Members(recipients));
      OwnPush(w, before, user, sent, rs, recipients, Announced(body), k, bucketKey, path, u);
    } else {
      assert plan[n] == Deliver(recipients[n - sent - |rs|], body);
    }
  }

  lemma OwnRecord(w: World, before: World, user: User, x: Write, sent: nat, rs: seq<Resolved>,
                  recipients: seq<User>, role: Role, n: nat, bucketKey: string, path: string, u: User)
    requires x.WriteSent? && n < sent && Effect(w, before, sent, rs, recipients, role, n, bucketKey, path, u)
    ensures Effect(w, Perform(before, user, x), sent, rs, recipients, role, n + 1, bucketKey, path, u)
  {
    WriteEffect(before, user, x, bucketKey, path, u);
  }

  lemma OwnPush(w: World, before: World, user: User, sent: nat, rs: seq<Resolved>,
                recipients: seq<User>, role: Role, k: nat, bucketKey: string, path: string, u: User)
    requires k < |rs| && Effect(w, before, sent, rs, recipients, role, sent + k, bucketKey, path, u)
    ensures var x := PushRoles(rs[k].path, ContextKey(rs, k + 1), role, Members(recipients));
      Effect(w, Perform(before, user, x), sent, rs, recipients, role, sent + k + 1, bucketKey, path, u)
  {
    PushEffect(w, before, user, rs, recipients, role, k, bucketKey, path, u);
  }

  lemma {:induction false} OwnSteps(o: Owners, run: seq<State>, acts: seq<Action>, b: nat, c: nat, plan: seq<Write>,
                                    k: nat, sent: nat, rs: seq<Resolved>, recipients: seq<User>, body: Body,
                                    bucketKey: string, path: string, u: User)
    requires IsRun(o, run, acts) && b < k <= |acts| && Started(o, run, acts, b, c, plan)
    requires IsPlan(plan, sent, rs, Announced(body), recipients, body)
    requires forall j :: b < j < k ==> !Disturbs(o, run, acts, j, c, bucketKey, path, u)
    ensures Along(run[k], c, plan)
    ensures Effect(run[b].world, run[k].world, sent, rs, recipients, Announced(body), run[k].calls[c].next,
                   bucketKey, path, u)
    decreases k
  {
    var w := run[b].world;
    if k == b + 1 {
      assert run[k] == Apply(o, run[b], acts[b]);
      NothingYet(w, rs, recipients, Announced(body), bucketKey, path, u);
    } else {
      OwnSteps(o, run, acts, b, c, plan, k - 1, sent, rs, recipients, body, bucketKey, path, u);
      OwnStep(o, run, acts, w, c, plan, k - 1, sent, rs, recipients, body, bucketKey, path, u);
    }
  }

  lemma OwnStep(o: Owners, run: seq<State>, acts: seq<Action>, w: World, c: nat, plan: seq<Write>,
                k: nat, sent: nat, rs: seq<Resolved>, recipients: seq<User>, body: Body,
                bucketKey: string, path: string, u: User)
    requires IsRun(o, run, acts) && k < |acts| && Along(run[k], c, plan)
    requires IsPlan(plan, sent, rs, Announced(body), recipients, body)
    requires !Disturbs(o, run, acts, k, c, bucketKey, path, u)
    requires Effect(w, run[k].world, sent, rs, recipients, Announced(body), run[k].calls[c].next, bucketKey, path, u)
    ensures Along(run[k + 1], c, plan)
    ensures Effect(w, run[k + 1].world, sent, rs, recipients, Announced(body), run[k + 1].calls[c].next,
                   bucketKey, path, u)
  {
    var s, a, n := run[k], acts[k], run[k].calls[c].next;
    if a == Advance(c) {
      OwnWrite(w, s.world, s.calls[c].user, plan, sent, rs, recipients, body, n, bucketKey, path, u);
    } else {
      StepEffect(o, run, acts, k, bucketKey, path, u);
    }
  }

  /**
   * In any run: a share or unshare that has made all its writes up to the last
   * message (one that lacks a key comes to no message), while no
   * other call pushed a role for the file and the user or told the user about
   * it, leaves the user with the role it pushed and with a last word that
   * says so, whatever other calls did meanwhile or had left half done before.
   */
  lemma UndisturbedCallMatches(o: Owners, run: seq<State>, acts: seq<Action>, b: nat, c: nat, plan: seq<Write>,
                               k: nat, i: nat, u: User)
    requires IsRun(o, run, acts) && b < k <= |acts| && Started(o, run, acts, b, c, plan)
    requires c < |run[k].calls| && run[k].calls[c].next == |plan|
    requires !LacksKey(o[acts[b].user], run[b].world, acts[b].user, acts[b].request)
    requires i < |acts[b].request.paths| && u in acts[b].request.recipients
    requires var p := ResolveAll(o[acts[b].user], run[b].world.records, acts[b].user, acts[b].request.paths)[i].path;
      forall j :: b < j < k ==> !Disturbs(o, run, acts, j, c, p.bucketKey, p.path, u)
    ensures var p := ResolveAll(o[acts[b].user], run[b].world.records, acts[b].user, acts[b].request.paths)[i].path;
      RoleOf(run[k].world.pushes, p.bucketKey, p.path, u) == LastWord(run[k].world.mail, p.bucketKey, p.path, u) ==
        Some(KindOf(acts[b].request))
  {
    var request := acts[b].request;
    var rs := ResolveAll(o[acts[b].user], run[b].world.records, acts[b].user, request.paths);
    var p := rs[i].path;
    var body := if request.Share? then Invite(PathsOf(rs), KeysOf(rs)) else Revoke(PathsOf(rs), KeysOf(rs));
    var sent := if request.Share? then |rs| else 0;
    SharePlanIsPlan(rs, request.recipients);
    OwnSteps(o, run, acts, b, c, plan, k, sent, rs, request.recipients, body, p.bucketKey, p.path, u);
  }
}
