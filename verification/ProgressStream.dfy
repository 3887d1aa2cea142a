/**
 * The gRPC handler of AddItems: the service sends results, the handler hands
 * them on, and a goroutine of its own turns them into the progress stream.
 */
module ProgressStream {
  import opened SourceTree
  import opened AddItems
  import opened UploadLaws
  import GetTotals

  /** A message of the stream. */
  datatype Response = Response(
    source: string, failed: bool, totals: Totals, completedFiles: nat, completedBytes: nat)

  datatype HandlerPc = Ranging | Selecting(result: Result) | Closing | AwaitingDone | Returned

  datatype PusherPc = Receiving | Pushing(result: Result) | Signalling | Ended

  datatype State = State(
    todo: seq<Result>,
    resultsClosed: bool,
    handler: HandlerPc,
    notificationsClosed: bool,
    pusher: PusherPc,
    cancelled: bool,
    completedFiles: nat,
    completedBytes: nat,
    stream: seq<Response>,
    fates: seq<bool>,
    pushed: seq<Result>)

  datatype Action =
    | Take
    | CloseResults
    | EndResults
    | Forward
    | Drop
    | CloseNotifications
    | EndNotifications
    | Push
    | Signal
    | Cancel

  /**
   * The service is about to send the results; fates records which of them the
   * handler forwarded, and pushed those the stream reports.
   */
  function Init(results: seq<Result>): State {
    State(results, false, Ranging, false, Receiving, false, 0, 0, [], [], [])
  }

  predicate Enabled(s: State, a: Action) {
    match a
    case Take => s.handler.Ranging? && s.todo != []
    case CloseResults => s.todo == [] && !s.resultsClosed
    case EndResults => s.handler.Ranging? && s.resultsClosed
    case Forward => s.handler.Selecting? && s.pusher.Receiving?
    case Drop => s.handler.Selecting? && s.cancelled
    case CloseNotifications => s.handler.Closing?
    case EndNotifications => s.pusher.Receiving? && s.notificationsClosed
    case Push => s.pusher.Pushing?
    case Signal => s.pusher.Signalling? && s.handler.AwaitingDone?
    case Cancel => !s.cancelled
  }

  function Apply(s: State, a: Action, totals: Totals): State
    requires Enabled(s, a)
  {
    match a
    case Take => s.(handler := Selecting(s.todo[0]), todo := s.todo[1..])
    case CloseResults => s.(resultsClosed := true)
    case EndResults => s.(handler := Closing)
    case Forward => s.(handler := Ranging, pusher := Pushing(s.handler.result), fates := s.fates + [true])
    case Drop => s.(handler := Ranging, fates := s.fates + [false])
    case CloseNotifications => s.(handler := AwaitingDone, notificationsClosed := true)
    case EndNotifications => s.(pusher := Signalling)
    case Push =>
      var r := s.pusher.result;
      var files := s.completedFiles + 1;
      var bytes := s.completedBytes + if r.failed then 0 else r.bytes;
      s.(pusher := Receiving, completedFiles := files, completedBytes := bytes, pushed := s.pushed + [r],
         stream := s.stream + [Response(r.source, r.failed, totals, files, bytes)])
    case Signal => s.(pusher := Ended, handler := Returned)
    case Cancel => s.(cancelled := true)
  }

  // ---------------------------------------------------------------------
  // What the stream should hold
  // ---------------------------------------------------------------------

  /** The bytes of the results that are not failures. */
  function GoodBytes(rs: seq<Result>): nat {
    if rs == [] then 0
    else
      var last := rs[|rs| - 1];
      GoodBytes(rs[..|rs| - 1]) + if last.failed then 0 else last.bytes
  }

  /** The stream for the given results: each message counts the results up to its own. */
  function StreamOf(rs: seq<Result>, totals: Totals): (stream: seq<Response>)
    ensures |stream| == |rs|
  {
    if rs == [] then []
    else
      var last := rs[|rs| - 1];
      StreamOf(rs[..|rs| - 1], totals) + [Response(last.source, last.failed, totals, |rs|, GoodBytes(rs))]
  }

  function Picked(rs: seq<Result>, fates: seq<bool>): seq<Result>
    requires |fates| <= |rs|
  {
    if fates == [] then []
    else
      var n := |fates| - 1;
      Picked(rs, fates[..n]) + if fates[n] then [rs[n]] else []
  }

  /** The pusher's loop on the messages it receives. */
  method PushNotifications(notifications: seq<Result>, totals: Totals) returns (stream: seq<Response>)
    ensures stream == StreamOf(notifications, totals)
  {
    stream := [];
    var completedFiles, completedBytes, i := 0, 0, 0;
    while i < |notifications|
      invariant 0 <= i <= |notifications| && completedFiles == i
      invariant completedBytes == GoodBytes(notifications[..i])
      invariant stream == StreamOf(notifications[..i], totals)
    {
      var r := notifications[i];
      PushOne(notifications[..i], r, totals);
      assert notifications[..i] + [r] == notifications[..i + 1];
      completedFiles := completedFiles + 1;
      if !r.failed {
        completedBytes := completedBytes + r.bytes;
      }
      stream := stream + [Response(r.source, r.failed, totals, completedFiles, completedBytes)];
      i := i + 1;
    }
    assert notifications[..i] == notifications;
  }

  lemma PushOne(before: seq<Result>, r: Result, totals: Totals)
    ensures GoodBytes(before + [r]) == GoodBytes(before) + if r.failed then 0 else r.bytes
    ensures StreamOf(before + [r], totals) ==
      StreamOf(before, totals) + [Response(r.source, r.failed, totals, |before| + 1, GoodBytes(before + [r]))]
  {
    assert (before + [r])[..|before|] == before;
  }

  // ---------------------------------------------------------------------
  // The invariant
  // ---------------------------------------------------------------------

  predicate Pending(s: State, results: seq<Result>) {
    if s.handler.Selecting? then
      && |s.fates| < |results|
      && s.handler.result == results[|s.fates|]
      && s.todo == results[|s.fates| + 1..]
    else |s.fates| <= |results| && s.todo == results[|s.fates|..]
  }

  /** The stream reports the forwarded results except the one being pushed. */
  predicate Streamed(s: State, results: seq<Result>, totals: Totals)
    requires |s.fates| <= |results|
  {
    && Picked(results, s.fates) == s.pushed + (if s.pusher.Pushing? then [s.pusher.result] else [])
    && s.stream == StreamOf(s.pushed, totals)
    && s.completedFiles == |s.pushed|
    && s.completedBytes == GoodBytes(s.pushed)
  }

  predicate Phases(s: State) {
    && (s.resultsClosed ==> s.todo == [])
    && (s.handler.Closing? || s.handler.AwaitingDone? || s.handler.Returned? ==> s.resultsClosed)
    && (s.notificationsClosed <==> s.handler.AwaitingDone? || s.handler.Returned?)
    && (s.pusher.Signalling? || s.pusher.Ended? ==> s.notificationsClosed)
    && (s.pusher.Ended? <==> s.handler.Returned?)
    && ((exists i :: 0 <= i < |s.fates| && !s.fates[i]) ==> s.cancelled)
  }

  predicate Inv(s: State, results: seq<Result>, totals: Totals) {
    Pending(s, results) && Streamed(s, results, totals) && Phases(s)
  }

  lemma ForwardInv(s: State, results: seq<Result>, totals: Totals)
    requires Inv(s, results, totals) && Enabled(s, Forward)
    ensures Inv(Apply(s, Forward, totals), results, totals)
  {
  }

  lemma DropInv(s: State, results: seq<Result>, totals: Totals)
    requires Inv(s, results, totals) && Enabled(s, Drop)
    ensures Inv(Apply(s, Drop, totals), results, totals)
  {
  }

  lemma PushInv(s: State, results: seq<Result>, totals: Totals)
    requires Inv(s, results, totals) && Enabled(s, Push)
    ensures Inv(Apply(s, Push, totals), results, totals)
  {
    PushOne(s.pushed, s.pusher.result, totals);
  }

  lemma StepInv(s: State, a: Action, results: seq<Result>, totals: Totals)
    requires Inv(s, results, totals) && Enabled(s, a)
    ensures Inv(Apply(s, a, totals), results, totals)
  {
    match a
    case Forward => ForwardInv(s, results, totals);
    case Drop => DropInv(s, results, totals);
    case Push => PushInv(s, results, totals);
    case _ =>
  }

  // ---------------------------------------------------------------------
  // Every run ends, with the result channel drained
  // ---------------------------------------------------------------------

  function Measure(s: State): nat {
    4 * |s.todo|
    + (if s.resultsClosed then 0 else 1)
    + (match s.handler
       case Ranging => 3
       case Selecting(_) => 6
       case Closing => 2
       case AwaitingDone => 1
       case Returned => 0)
    + (match s.pusher
       case Receiving => 2
       case Pushing(_) => 3
       case Signalling => 1
       case Ended => 0)
    + (if s.cancelled then 0 else 1)
  }

  lemma StepDecreases(s: State, a: Action, totals: Totals)
    requires Enabled(s, a)
    ensures Measure(Apply(s, a, totals)) < Measure(s)
  {
  }

  /** Unless the handler has returned some goroutine can move, whether or not the client cancels. */
  lemma Progress(s: State, results: seq<Result>, totals: Totals) returns (a: Action)
    requires Inv(s, results, totals) && !s.handler.Returned?
    ensures a != Cancel && Enabled(s, a)
  {
    match s.handler
    case Ranging => a := if s.todo != [] then Take else if s.resultsClosed then EndResults else CloseResults;
    case Selecting(_) => a := if s.pusher.Pushing? then Push else Forward;
    case Closing => a := CloseNotifications;
    case AwaitingDone =>
      a := if s.pusher.Pushing? then Push else if s.pusher.Signalling? then Signal else EndNotifications;
  }

  ghost predicate IsRun(results: seq<Result>, totals: Totals, run: seq<State>, acts: seq<Action>) {
    && |run| == |acts| + 1
    && run[0] == Init(results)
    && forall i :: 0 <= i < |acts| ==> Enabled(run[i], acts[i]) && run[i + 1] == Apply(run[i], acts[i], totals)
  }

  lemma {:induction false} RunInv(results: seq<Result>, totals: Totals, run: seq<State>, acts: seq<Action>, k: nat)
    requires IsRun(results, totals, run, acts) && k <= |acts|
    ensures Inv(run[k], results, totals)
    ensures k + Measure(run[k]) <= Measure(Init(results))
  {
    if k == 0 {
      assert Picked(results, []) == [];
    } else {
      RunInv(results, totals, run, acts, k - 1);
      StepInv(run[k - 1], acts[k - 1], results, totals);
      StepDecreases(run[k - 1], acts[k - 1], totals);
    }
  }

  /**
   * A run cannot go on for ever; it stops only when the handler has returned,
   * and then every result has been taken off the channel and forwarded or
   * dropped, even when the client cancelled in between.
   */
  lemma DrainsResults(results: seq<Result>, totals: Totals, run: seq<State>, acts: seq<Action>)
    requires IsRun(results, totals, run, acts)
    ensures |acts| <= 4 * |results| + 7
    ensures var s := run[|acts|];
      (forall a :: a != Cancel ==> !Enabled(s, a)) <==> s.handler.Returned?
    ensures run[|acts|].handler.Returned? ==>
      && run[|acts|].todo == [] && |run[|acts|].fates| == |results|
      && run[|acts|].pusher.Ended?
  {
    RunInv(results, totals, run, acts, |acts|);
    var s := run[|acts|];
    if !s.handler.Returned? {
      var a := Progress(s, results, totals);
    }
  }

  /** A cancellation costs only results that the handler had not handed on before it. */
  lemma {:induction false} CancelDropsOnlyLater(results: seq<Result>, totals: Totals, run: seq<State>,
                                                acts: seq<Action>, k: nat, m: nat)
    requires IsRun(results, totals, run, acts) && k <= m <= |acts| && !run[k].cancelled
    ensures |run[k].fates| <= |run[m].fates| && forall i :: 0 <= i < |run[k].fates| ==> run[m].fates[i]
    decreases m
  {
    if m == k {
      RunInv(results, totals, run, acts, k);
    } else {
      CancelDropsOnlyLater(results, totals, run, acts, k, m - 1);
      assert run[m] == Apply(run[m - 1], acts[m - 1], totals);
    }
  }

  /** Any run that was not cancelled can go on to its end without being cancelled. */
  lemma {:induction false} GoesOn(results: seq<Result>, totals: Totals, run: seq<State>, acts: seq<Action>)
    returns (run': seq<State>, acts': seq<Action>)
    requires IsRun(results, totals, run, acts)
    ensures IsRun(results, totals, run', acts') && run <= run' && acts <= acts'
    ensures run'[|acts'|].handler.Returned? && run'[|acts'|].cancelled == run[|acts|].cancelled
    decreases Measure(run[|acts|])
  {
    var s := run[|acts|];
    RunInv(results, totals, run, acts, |acts|);
    if s.handler.Returned? {
      run', acts' := run, acts;
    } else {
      var a := Progress(s, results, totals);
      StepDecreases(s, a, totals);
      run', acts' := GoesOn(results, totals, run + [Apply(s, a, totals)], acts + [a]);
    }
  }

  /** Every upload has such a run. */
  lemma CompletesUncancelled(results: seq<Result>, totals: Totals) returns (run: seq<State>, acts: seq<Action>)
    ensures IsRun(results, totals, run, acts) && run[|acts|].handler.Returned? && !run[|acts|].cancelled
  {
    run, acts := GoesOn(results, totals, [Init(results)], []);
  }

  // ---------------------------------------------------------------------
  // What the client sees
  // ---------------------------------------------------------------------

  lemma {:induction false} GoodBytesConcat(a: seq<Result>, b: seq<Result>)
    ensures GoodBytes(a + b) == GoodBytes(a) + GoodBytes(b)
    decreases |b|
  {
    if b == [] {
      assert a + b == a;
    } else {
      var n := |b| - 1;
      assert (a + b)[..|a + b| - 1] == a + b[..n];
      GoodBytesConcat(a, b[..n]);
    }
  }

  /** What a stream holds at each place: counts go up by one, bytes never go down and end at the sum. */
  lemma {:induction false} StreamClimbs(rs: seq<Result>, totals: Totals)
    ensures var stream := StreamOf(rs, totals);
      && (forall i :: 0 <= i < |stream| ==>
           stream[i].completedFiles == i + 1 && stream[i].totals == totals && stream[i].source == rs[i].source)
      && (forall i, j :: 0 <= i <= j < |stream| ==> stream[i].completedBytes <= stream[j].completedBytes)
      && (forall i :: 0 <= i < |stream| ==> stream[i].completedBytes <= GoodBytes(rs))
  {
    if rs != [] {
      StreamClimbs(rs[..|rs| - 1], totals);
    }
  }

  lemma {:induction false} PickedBytes(results: seq<Result>, fates: seq<bool>)
    requires |fates| <= |results|
    ensures GoodBytes(Picked(results, fates)) <= GoodBytes(results[..|fates|])
  {
    if fates != [] {
      var n := |fates| - 1;
      PickedBytes(results, fates[..n]);
      var before := Picked(results, fates[..n]);
      assert results[..n + 1][..n] == results[..n];
      if fates[n] {
        assert (before + [results[n]])[..|before|] == before;
      } else {
        assert before + [] == before;
      }
    }
  }

  lemma {:induction false} PickedAll(results: seq<Result>, fates: seq<bool>)
    requires |fates| <= |results|
    ensures |Picked(results, fates)| <= |fates|
    ensures |Picked(results, fates)| == |fates| <==> forall i :: 0 <= i < |fates| ==> fates[i]
    ensures (forall i :: 0 <= i < |fates| ==> fates[i]) ==> Picked(results, fates) == results[..|fates|]
  {
    if fates != [] {
      var n := |fates| - 1;
      PickedAll(results, fates[..n]);
    }
  }

  lemma {:induction false} PrefixBytes(rs: seq<Result>, i: nat)
    requires i <= |rs|
    ensures GoodBytes(rs[..i]) <= GoodBytes(rs)
    decreases |rs|
  {
    if i == |rs| {
      assert rs[..i] == rs;
    } else {
      var init := rs[..|rs| - 1];
      assert init[..i] == rs[..i];
      PrefixBytes(init, i);
    }
  }

  lemma PushedWithin(s: State, results: seq<Result>, totals: Totals)
    requires Inv(s, results, totals)
    ensures |s.pushed| <= |results| && GoodBytes(s.pushed) <= GoodBytes(results)
  {
    PickedAll(results, s.fates);
    PickedBytes(results, s.fates);
    PrefixBytes(results, |s.fates|);
    if s.pusher.Pushing? {
      GoodBytesConcat(s.pushed, [s.pusher.result]);
    } else {
      assert s.pushed + [] == s.pushed;
    }
  }

  /**
   * In any prefix of any run the counters start at one, go up by one and never down
   * in bytes, up to the forwarded bytes.
   */
  lemma CountersClimb(results: seq<Result>, totals: Totals, run: seq<State>, acts: seq<Action>, k: nat)
    requires IsRun(results, totals, run, acts) && k <= |acts|
    ensures var stream := run[k].stream;
      && (forall i :: 0 <= i < |stream| ==> stream[i].completedFiles == i + 1 && stream[i].totals == totals)
      && (forall i, j :: 0 <= i <= j < |stream| ==> stream[i].completedBytes <= stream[j].completedBytes)
      && (forall i :: 0 <= i < |stream| ==> stream[i].completedBytes <= GoodBytes(results))
      && |stream| <= |results|
  {
    RunInv(results, totals, run, acts, k);
    var s := run[k];
    StreamClimbs(s.pushed, totals);
    PushedWithin(s, results, totals);
  }

  /** Without a cancellation the stream reports every result, in order. */
  lemma UncancelledStream(results: seq<Result>, totals: Totals, run: seq<State>, acts: seq<Action>)
    requires IsRun(results, totals, run, acts)
    requires run[|acts|].handler.Returned? && !run[|acts|].cancelled
    ensures run[|acts|].stream == StreamOf(results, totals)
    ensures run[|acts|].completedFiles == |results| && run[|acts|].completedBytes == GoodBytes(results)
  {
    RunInv(results, totals, run, acts, |acts|);
    var s := run[|acts|];
    PickedAll(results, s.fates);
    assert results[..|results|] == results;
  }

  // ---------------------------------------------------------------------
  // Together with the upload and its totals
  // ---------------------------------------------------------------------

  lemma {:induction false} NodeBytes(path: string, node: Node)
    ensures GoodBytes(StreamNode(path, node)) == SumBytes(StreamNode(path, node))
    decreases node, 1
  {
    match node
    case Dir(_, entries, creates) =>
      if creates {
        EntryBytes(path, entries);
        GoodBytesConcat([Result(path, 0, false)], StreamEntries(path, entries));
        SumBytesConcat([Result(path, 0, false)], StreamEntries(path, entries));
        OneBytes(Result(path, 0, false));
      } else {
        OneBytes(Result(path, 0, true));
      }
    case UnreadableDir(_, creates) =>
      OneBytes(Result(path, 0, false));
      OneBytes(Result(path, 0, true));
      GoodBytesConcat([Result(path, 0, false)], [Result(path, 0, true)]);
      SumBytesConcat([Result(path, 0, false)], [Result(path, 0, true)]);
      assert [Result(path, 0, false)] + [Result(path, 0, true)] == [Result(path, 0, false), Result(path, 0, true)];
    case File(_, size, upload) => OneBytes(Result(path, if upload == Uploads then size else 0, upload != Uploads));
    case Missing(_) => OneBytes(Result(path, 0, true));
  }

  lemma OneBytes(r: Result)
    ensures GoodBytes([r]) == if r.failed then 0 else r.bytes
    ensures SumBytes([r]) == r.bytes
  {
    assert [r][..0] == [] && [r][1..] == [];
  }

  lemma {:induction false} EntryBytes(dir: string, entries: seq<Node>)
    ensures GoodBytes(StreamEntries(dir, entries)) == SumBytes(StreamEntries(dir, entries))
    decreases entries, 0
  {
    if entries != [] {
      EntryBytes(dir, entries[1..]);
      var first := if entries[0].name == dir then [] else StreamNode(dir + "/" + entries[0].name, entries[0]);
      NodeBytes(dir + "/" + entries[0].name, entries[0]);
      GoodBytesConcat(first, StreamEntries(dir, entries[1..]));
      SumBytesConcat(first, StreamEntries(dir, entries[1..]));
    }
  }

  lemma {:induction false} ItemBytes(items: seq<Item>)
    ensures GoodBytes(StreamAll(items)) == SumBytes(StreamAll(items))
  {
    if items != [] {
      ItemBytes(items[1..]);
      NodeBytes(items[0].path, items[0].node);
      GoodBytesConcat(StreamNode(items[0].path, items[0].node), StreamAll(items[1..]));
      SumBytesConcat(StreamNode(items[0].path, items[0].node), StreamAll(items[1..]));
    }
  }

  /** The progress of an upload never exceeds the totals that getTotals computed for it. */
  lemma WithinTotals(items: seq<Item>, levels: seq<GetTotals.Level>, steps: seq<GetTotals.Action>,
                     run: seq<State>, acts: seq<Action>, k: nat)
    requires GetTotals.IsRun(NodesOf(items), levels, steps)
    requires levels[|steps|].main == GetTotals.Returned && !levels[|steps|].collectErr
    requires IsRun(StreamAll(items), levels[|steps|].total, run, acts) && k <= |acts|
    ensures forall i :: 0 <= i < |run[k].stream| ==>
      && run[k].stream[i].completedFiles <= run[k].stream[i].totals.files
      && run[k].stream[i].completedBytes <= run[k].stream[i].totals.bytes
  {
    GetTotals.ReturnsTheCount(NodesOf(items), levels, steps, |steps|);
    CountersClimb(StreamAll(items), levels[|steps|].total, run, acts, k);
    Conservation(items);
    BytesMatchTotals(items);
    ItemBytes(items);
  }

  /**
   * A stream that was not cancelled ends at the file total exactly when no
   * folder failed to be created and no child was skipped, and at the byte
   * total when every upload succeeded as well.
   */
  lemma EndsAtTotals(items: seq<Item>, levels: seq<GetTotals.Level>, steps: seq<GetTotals.Action>,
                     run: seq<State>, acts: seq<Action>)
    requires GetTotals.IsRun(NodesOf(items), levels, steps)
    requires levels[|steps|].main == GetTotals.Returned && !levels[|steps|].collectErr
    requires IsRun(StreamAll(items), levels[|steps|].total, run, acts)
    requires run[|acts|].handler.Returned? && !run[|acts|].cancelled
    ensures run[|acts|].completedFiles == levels[|steps|].total.files <==> LostAll(items) == 0 && SkippedAll(items) == 0
    ensures AllSucceed(NodesOf(items)) && SkippedAll(items) == 0 ==>
      run[|acts|].completedBytes == levels[|steps|].total.bytes
  {
    var results, totals := StreamAll(items), levels[|steps|].total;
    GetTotals.ReturnsTheCount(NodesOf(items), levels, steps, |steps|);
    UncancelledStream(results, totals, run, acts);
    Conservation(items);
    BytesMatchTotals(items);
    ItemBytes(items);
  }
}
