/**
 * getTotals: one goroutine per path, one collector per call, and a call of its
 * own for every directory.  A level is one call; a worker that counts a
 * directory holds the level of the nested call, so a step of the system is a
 * step of any goroutine at any depth.
 */
module GetTotals {
  import opened SourceTree

  /** A value sent on filesRes. */
  datatype Message = Counted(totals: Totals) | Failure

  datatype WorkerPc =
    | Starting
    | SendingOne
    | ReadingDir
    | Nested(level: Level)
    | SendingResult(message: Message)
    | Leaving
    | Done

  /** A worker, with the totals and the failure the collector has received from it so far. */
  datatype Worker = Worker(node: Node, pc: WorkerPc, sent: Totals, failed: bool)

  datatype CollectorPc = Ranging | Summing | Signalling | Ended

  datatype MainPc = WaitingForWorkers | ClosingChannel | AwaitingSum | Returned

  datatype Level = Level(
    workers: seq<Worker>,
    collector: CollectorPc,
    main: MainPc,
    results: seq<Totals>,
    collectErr: bool,
    total: Totals,
    closed: bool,
    panicked: bool)

  datatype Action =
    | Start(i: nat)
    | Send(i: nat)
    | SendOnClosed(i: nat)
    | ReadDir(i: nat)
    | Inner(i: nat, action: Action)
    | TakeNested(i: nat)
    | Leave(i: nat)
    | WorkersDone
    | CloseChannel
    | EndRange
    | SumUp
    | Signal

  function Begin(forest: seq<Node>): Level {
    Level(seq(|forest|, i requires 0 <= i < |forest| => Worker(forest[i], Starting, NOTHING, false)),
          Ranging, WaitingForWorkers, [], false, NOTHING, false, false)
  }

  function SumAll(results: seq<Totals>): Totals {
    if results == [] then NOTHING
    else
      var n := |results| - 1;
      var before := SumAll(results[..n]);
      Totals(before.files + results[n].files, before.bytes + results[n].bytes)
  }

  predicate IsSending(pc: WorkerPc) {
    pc == SendingOne || pc.SendingResult?
  }

  predicate Enabled(l: Level, a: Action)
    decreases a
  {
    match a
    case Start(i) => i < |l.workers| && l.workers[i].pc == Starting
    case Send(i) => i < |l.workers| && IsSending(l.workers[i].pc) && l.collector == Ranging && !l.closed
    case SendOnClosed(i) => i < |l.workers| && IsSending(l.workers[i].pc) && l.closed
    case ReadDir(i) => i < |l.workers| && l.workers[i].pc == ReadingDir
    case Inner(i, b) => i < |l.workers| && l.workers[i].pc.Nested? && Enabled(l.workers[i].pc.level, b)
    case TakeNested(i) => i < |l.workers| && l.workers[i].pc.Nested? && l.workers[i].pc.level.main == Returned
    case Leave(i) => i < |l.workers| && l.workers[i].pc == Leaving
    case WorkersDone =>
      l.main == WaitingForWorkers && forall i :: 0 <= i < |l.workers| ==> l.workers[i].pc == Done
    case CloseChannel => l.main == ClosingChannel
    case EndRange => l.collector == Ranging && l.closed
    case SumUp => l.collector == Summing
    case Signal => l.collector == Signalling && l.main == AwaitingSum
  }

  function SetPc(l: Level, i: nat, pc: WorkerPc): Level
    requires i < |l.workers|
  {
    l.(workers := l.workers[i := l.workers[i].(pc := pc)])
  }

  /** Worker i sends m and goes on at pc. */
  function SendAndGo(l: Level, i: nat, m: Message, pc: WorkerPc): Level
    requires i < |l.workers|
  {
    var w := l.workers[i];
    if m.Failure? then
      l.(workers := l.workers[i := w.(pc := pc, failed := true)], collectErr := true)
    else
      var sent := Totals(w.sent.files + m.totals.files, w.sent.bytes + m.totals.bytes);
      l.(workers := l.workers[i := w.(pc := pc, sent := sent)], results := l.results + [m.totals])
  }

  function AfterStart(n: Node): WorkerPc {
    match n
    case File(_, size, _) => SendingResult(Counted(Totals(1, size)))
    case Missing(_) => SendingResult(Failure)
    case _ => SendingOne
  }

  function AfterRead(n: Node): WorkerPc {
    if n.Dir? then Nested(Begin(n.entries)) else SendingResult(Failure)
  }

  function Outcome(l: Level): Message {
    if l.collectErr then Failure else Counted(l.total)
  }

  function Apply(l: Level, a: Action): Level
    requires Enabled(l, a)
    decreases a
  {
    match a
    case Start(i) => SetPc(l, i, AfterStart(l.workers[i].node))
    case Send(i) =>
      if l.workers[i].pc == SendingOne then SendAndGo(l, i, Counted(Totals(1, 0)), ReadingDir)
      else SendAndGo(l, i, l.workers[i].pc.message, Leaving)
    case SendOnClosed(_) => l.(panicked := true)
    case ReadDir(i) => SetPc(l, i, AfterRead(l.workers[i].node))
    case Inner(i, b) => SetPc(l, i, Nested(Apply(l.workers[i].pc.level, b)))
    case TakeNested(i) => SetPc(l, i, SendingResult(Outcome(l.workers[i].pc.level)))
    case Leave(i) => SetPc(l, i, Done)
    case WorkersDone => l.(main := ClosingChannel)
    case CloseChannel => l.(main := AwaitingSum, closed := true, panicked := l.panicked || l.closed)
    case EndRange => l.(collector := Summing)
    case SumUp => l.(collector := Signalling, total := SumAll(l.results))
    case Signal => l.(collector := Ended, main := Returned)
  }

  // ---------------------------------------------------------------------
  // The invariant, at every depth
  // ---------------------------------------------------------------------

  /** The last message of the worker that counts n. */
  predicate ResultOf(n: Node, m: Message) {
    && (m.Failure? <==> Fails(n))
    && (m.Counted? ==> m.totals == if n.Dir? then CountAll(n.entries) else Count(n))
  }

  /** What the worker of n has sent before its last message. */
  function Head(n: Node): Totals {
    if n.Dir? || n.UnreadableDir? then Totals(1, 0) else NOTHING
  }

  ghost predicate WorkerInv(w: Worker)
    decreases w
  {
    match w.pc
    case Starting => w.sent == NOTHING && !w.failed
    case SendingOne => (w.node.Dir? || w.node.UnreadableDir?) && w.sent == NOTHING && !w.failed
    case ReadingDir => (w.node.Dir? || w.node.UnreadableDir?) && w.sent == Totals(1, 0) && !w.failed
    case Nested(level) => w.node.Dir? && Inv(level, w.node.entries) && w.sent == Totals(1, 0) && !w.failed
    case SendingResult(m) => ResultOf(w.node, m) && w.sent == Head(w.node) && !w.failed
    case _ => WorkerEnded(w)
  }

  /** A worker that has sent its last message. */
  predicate WorkerEnded(w: Worker) {
    && (w.failed <==> Fails(w.node))
    && (!w.failed ==> w.sent == Count(w.node))
  }

  ghost predicate Inv(l: Level, forest: seq<Node>)
    decreases l
  {
    && |l.workers| == |forest|
    && (forall i :: 0 <= i < |forest| ==> l.workers[i].node == forest[i])
    && (forall i :: 0 <= i < |forest| ==> WorkerInv(l.workers[i]))
    && Flow(l)
    && Accounts(l)
  }

  /** The control state of the main goroutine, the collector and the channel. */
  ghost predicate Flow(l: Level) {
    && !l.panicked
    && (l.main != WaitingForWorkers ==> forall i :: 0 <= i < |l.workers| ==> l.workers[i].pc == Done)
    && (l.closed <==> l.main == AwaitingSum || l.main == Returned)
    && (l.collector != Ranging ==> l.closed)
    && (l.main == Returned <==> l.collector == Ended)
    && (l.collector == Signalling || l.collector == Ended ==> l.total == SumAll(l.results))
  }

  function SumSent(ws: seq<Worker>): Totals {
    if ws == [] then NOTHING
    else
      var rest := SumSent(ws[1..]);
      Totals(ws[0].sent.files + rest.files, ws[0].sent.bytes + rest.bytes)
  }

  /** What has been collected is what the workers have sent. */
  ghost predicate Accounts(l: Level) {
    && SumAll(l.results).files == SumSent(l.workers).files
    && SumAll(l.results).bytes == SumSent(l.workers).bytes
    && (l.collectErr <==> AnyFailed(l.workers))
  }

  predicate AnyFailed(ws: seq<Worker>) {
    exists i :: 0 <= i < |ws| && ws[i].failed
  }

  /** No goroutine of this level or of one nested in it has panicked. */
  ghost predicate NoPanic(l: Level)
    decreases l
  {
    && !l.panicked
    && forall i :: 0 <= i < |l.workers| ==> NoPanicIn(l.workers[i])
  }

  ghost predicate NoPanicIn(w: Worker)
    decreases w
  {
    w.pc.Nested? ==> NoPanic(w.pc.level)
  }

  lemma BeginInv(forest: seq<Node>)
    ensures Inv(Begin(forest), forest)
  {
    var l := Begin(forest);
    NothingSent(l.workers);
  }

  lemma {:induction false} NothingSent(ws: seq<Worker>)
    requires forall i :: 0 <= i < |ws| ==> ws[i].sent == NOTHING
    ensures SumSent(ws) == NOTHING
  {
    if ws != [] {
      NothingSent(ws[1..]);
    }
  }

  lemma {:induction false} InvNoPanic(l: Level, forest: seq<Node>)
    requires Inv(l, forest)
    ensures NoPanic(l)
    decreases l
  {
    forall i | 0 <= i < |l.workers| ensures NoPanicIn(l.workers[i]) {
      assert WorkerInv(l.workers[i]);
      if l.workers[i].pc.Nested? {
        InvNoPanic(l.workers[i].pc.level, l.workers[i].node.entries);
      }
    }
  }

  lemma SumAllSnoc(results: seq<Totals>, t: Totals)
    ensures IsSum(SumAll(results + [t]), SumAll(results), t)
  {
    assert (results + [t])[..|results|] == results;
  }

  lemma {:induction false} AllSent(ws: seq<Worker>, forest: seq<Node>)
    requires |ws| == |forest|
    requires forall i :: 0 <= i < |ws| ==> ws[i].sent == Count(forest[i])
    ensures SumSent(ws) == CountAll(forest)
  {
    if ws != [] {
      forall i | 0 <= i < |ws| - 1 ensures ws[1..][i].sent == Count(forest[1..][i]) {
        assert ws[1..][i] == ws[i + 1] && forest[1..][i] == forest[i + 1];
      }
      AllSent(ws[1..], forest[1..]);
    }
  }

  /** What a level that has returned has found. */
  lemma ReturnedResult(l: Level, forest: seq<Node>)
    requires Inv(l, forest) && l.main == Returned
    ensures l.collectErr <==> AnyFails(forest)
    ensures !l.collectErr ==> l.total == CountAll(forest)
  {
    forall i | 0 <= i < |forest| ensures l.workers[i].node == forest[i] && WorkerEnded(l.workers[i]) {
      assert WorkerInv(l.workers[i]);
    }
    if l.collectErr {
      var i :| 0 <= i < |l.workers| && l.workers[i].failed;
      assert Fails(forest[i]);
    } else {
      AllSent(l.workers, forest);
    }
  }

  lemma {:induction false} SumSentUpdate(ws: seq<Worker>, i: nat, w: Worker, t: Totals)
    requires i < |ws| && IsSum(w.sent, ws[i].sent, t)
    ensures IsSum(SumSent(ws[i := w]), SumSent(ws), t)
  {
    if i == 0 {
      assert ws[i := w][1..] == ws[1..];
    } else {
      assert ws[i := w][1..] == ws[1..][i - 1 := w];
      SumSentUpdate(ws[1..], i - 1, w, t);
    }
  }

  lemma {:induction false} SumSentKept(ws: seq<Worker>, i: nat, w: Worker)
    requires i < |ws| && w.sent == ws[i].sent
    ensures SumSent(ws[i := w]) == SumSent(ws)
  {
    if i == 0 {
      assert ws[i := w][1..] == ws[1..];
    } else {
      assert ws[i := w][1..] == ws[1..][i - 1 := w];
      SumSentKept(ws[1..], i - 1, w);
    }
  }

  lemma SendAccounts(l: Level, i: nat, m: Message, pc: WorkerPc)
    requires Accounts(l) && i < |l.workers| && !l.workers[i].failed
    ensures Accounts(SendAndGo(l, i, m, pc))
  {
    var l' := SendAndGo(l, i, m, pc);
    if m.Counted? {
      SumSentUpdate(l.workers, i, l'.workers[i], m.totals);
      SumAllSnoc(l.results, m.totals);
      SameFailures(l.workers, i, l'.workers[i]);
    } else {
      SumSentKept(l.workers, i, l'.workers[i]);
      assert l'.workers[i].failed;
    }
  }

  lemma SameFailures(ws: seq<Worker>, i: nat, w: Worker)
    requires i < |ws| && w.failed == ws[i].failed
    ensures AnyFailed(ws[i := w]) <==> AnyFailed(ws)
  {
    assert forall j :: 0 <= j < |ws| ==> ws[i := w][j].failed == ws[j].failed;
  }

  lemma SilentAccounts(l: Level, i: nat, pc: WorkerPc)
    requires Accounts(l) && i < |l.workers|
    ensures Accounts(SetPc(l, i, pc))
  {
    var w := l.workers[i].(pc := pc);
    SumSentKept(l.workers, i, w);
    SameFailures(l.workers, i, w);
  }

  /** Changing one worker of a level that still waits keeps the invariant when the accounts still hold. */
  lemma WorkerChanges(l: Level, l': Level, forest: seq<Node>, i: nat)
    requires Inv(l, forest) && i < |l.workers| && l.main == WaitingForWorkers && |l'.workers| == |l.workers|
    requires l'.workers == l.workers[i := l'.workers[i]]
    requires l'.workers[i].node == l.workers[i].node && WorkerInv(l'.workers[i])
    requires l'.main == l.main && l'.collector == l.collector && l'.closed == l.closed && l'.panicked == l.panicked
    requires Accounts(l')
    ensures Inv(l', forest)
  {
  }

  /** A step that moves worker i without sending anything. */
  lemma SilentStep(l: Level, forest: seq<Node>, i: nat, pc: WorkerPc)
    requires Inv(l, forest) && i < |l.workers| && l.main == WaitingForWorkers
    requires WorkerInv(l.workers[i].(pc := pc))
    ensures Inv(SetPc(l, i, pc), forest)
  {
    SilentAccounts(l, i, pc);
    WorkerChanges(l, SetPc(l, i, pc), forest, i);
  }

  /** A worker that sends its last message has sent all there is to send. */
  lemma LastMessage(w: Worker, m: Message)
    requires w.pc == SendingResult(m) && ResultOf(w.node, m) && w.sent == Head(w.node) && !w.failed
    ensures m.Failure? ==> WorkerEnded(w.(pc := Leaving, failed := true))
    ensures m.Counted? ==> forall sent :: IsSum(sent, w.sent, m.totals) ==> WorkerEnded(w.(pc := Leaving, sent := sent))
  {
  }

  lemma SendStep(l: Level, forest: seq<Node>, i: nat)
    requires Inv(l, forest) && Enabled(l, Send(i))
    ensures Inv(Apply(l, Send(i)), forest)
  {
    var w := l.workers[i];
    assert WorkerInv(w);
    if w.pc == SendingOne {
      SendAccounts(l, i, Counted(Totals(1, 0)), ReadingDir);
    } else {
      LastMessage(w, w.pc.message);
      SendAccounts(l, i, w.pc.message, Leaving);
    }
    WorkerChanges(l, Apply(l, Send(i)), forest, i);
  }

  predicate IsMainStep(a: Action) {
    a.WorkersDone? || a.CloseChannel? || a.EndRange? || a.SumUp? || a.Signal?
  }

  lemma MainStepInv(l: Level, forest: seq<Node>, a: Action)
    requires Inv(l, forest) && Enabled(l, a) && IsMainStep(a)
    ensures Inv(Apply(l, a), forest)
  {
    assert Apply(l, a).workers == l.workers;
  }

  lemma {:induction false} StepInv(l: Level, forest: seq<Node>, a: Action)
    requires Inv(l, forest) && Enabled(l, a)
    ensures Inv(Apply(l, a), forest)
    decreases a
  {
    match a
    case Start(i) =>
      assert WorkerInv(l.workers[i]);
      SilentStep(l, forest, i, AfterStart(l.workers[i].node));
    case ReadDir(i) =>
      assert WorkerInv(l.workers[i]);
      if l.workers[i].node.Dir? { BeginInv(l.workers[i].node.entries); }
      SilentStep(l, forest, i, AfterRead(l.workers[i].node));
    case Inner(i, b) =>
      assert WorkerInv(l.workers[i]);
      StepInv(l.workers[i].pc.level, l.workers[i].node.entries, b);
      SilentStep(l, forest, i, Nested(Apply(l.workers[i].pc.level, b)));
    case TakeNested(i) =>
      assert WorkerInv(l.workers[i]);
      ReturnedResult(l.workers[i].pc.level, l.workers[i].node.entries);
      SilentStep(l, forest, i, SendingResult(Outcome(l.workers[i].pc.level)));
    case Leave(i) =>
      assert WorkerInv(l.workers[i]);
      SilentStep(l, forest, i, Done);
    case Send(i) => SendStep(l, forest, i);
    case SendOnClosed(_) => assert false;
    case _ => MainStepInv(l, forest, a);
  }

  // ---------------------------------------------------------------------
  // Every step decreases a measure, and only a return is a dead end
  // ---------------------------------------------------------------------

  function Work(n: Node): nat
    decreases n, 1
  {
    match n
    case Dir(_, entries, _) => 6 + WorkAll(entries)
    case UnreadableDir(_, _) => 5
    case _ => 3
  }

  function WorkAll(ns: seq<Node>): nat
    decreases ns, 0
  {
    if ns == [] then 6 else Work(ns[0]) + WorkAll(ns[1..])
  }

  function WorkerRank(w: Worker): int
    decreases w, 1
  {
    match w.pc
    case Starting => Work(w.node)
    case SendingOne => Work(w.node) - 1
    case ReadingDir => Work(w.node) - 2
    case Nested(level) => 3 + Measure(level)
    case SendingResult(_) => 2
    case Leaving => 1
    case Done => 0
  }

  function WorkersRank(ws: seq<Worker>): int
    decreases ws, 0
  {
    if ws == [] then 0 else WorkerRank(ws[0]) + WorkersRank(ws[1..])
  }

  function Measure(l: Level): int
    decreases l, 0
  {
    WorkersRank(l.workers)
    + (match l.main case WaitingForWorkers => 3 case ClosingChannel => 2 case AwaitingSum => 1 case Returned => 0)
    + (match l.collector case Ranging => 3 case Summing => 2 case Signalling => 1 case Ended => 0)
  }

  lemma {:induction false} RankUpdate(ws: seq<Worker>, i: nat, w: Worker)
    requires i < |ws|
    ensures WorkersRank(ws[i := w]) == WorkersRank(ws) - WorkerRank(ws[i]) + WorkerRank(w)
  {
    if i == 0 {
      assert ws[i := w][1..] == ws[1..];
    } else {
      assert ws[i := w][1..] == ws[1..][i - 1 := w];
      RankUpdate(ws[1..], i - 1, w);
    }
  }

  lemma {:induction false} BeginRank(forest: seq<Node>)
    ensures WorkersRank(Begin(forest).workers) + 6 == WorkAll(forest)
  {
    var ws := Begin(forest).workers;
    if forest != [] {
      assert ws[1..] == Begin(forest[1..]).workers;
      BeginRank(forest[1..]);
      assert WorkersRank(ws) == WorkerRank(ws[0]) + WorkersRank(ws[1..]);
    }
  }

  /** A step of worker i that lowers the worker's rank lowers the measure. */
  lemma WorkerStepDecreases(l: Level, l': Level, i: nat)
    requires i < |l.workers| && |l'.workers| == |l.workers|
    requires l'.workers == l.workers[i := l'.workers[i]] && WorkerRank(l'.workers[i]) < WorkerRank(l.workers[i])
    requires l'.main == l.main && l'.collector == l.collector
    ensures Measure(l') < Measure(l)
  {
    RankUpdate(l.workers, i, l'.workers[i]);
  }

  lemma MainStepDecreases(l: Level, a: Action)
    requires Flow(l) && Enabled(l, a) && IsMainStep(a)
    ensures Measure(Apply(l, a)) < Measure(l)
  {
    assert Apply(l, a).workers == l.workers;
  }

  lemma {:induction false} StepDecreases(l: Level, forest: seq<Node>, a: Action)
    requires Inv(l, forest) && Enabled(l, a)
    ensures Measure(Apply(l, a)) < Measure(l)
    decreases a
  {
    match a
    case Start(i) => WorkerStepDecreases(l, Apply(l, a), i);
    case Send(i) =>
      assert WorkerInv(l.workers[i]);
      WorkerStepDecreases(l, Apply(l, a), i);
    case ReadDir(i) =>
      assert WorkerInv(l.workers[i]);
      if l.workers[i].node.Dir? { BeginRank(l.workers[i].node.entries); }
      WorkerStepDecreases(l, Apply(l, a), i);
    case Inner(i, b) =>
      assert WorkerInv(l.workers[i]);
      StepDecreases(l.workers[i].pc.level, l.workers[i].node.entries, b);
      WorkerStepDecreases(l, Apply(l, a), i);
    case TakeNested(i) =>
      MeasureNonNegative(l.workers[i].pc.level);
      WorkerStepDecreases(l, Apply(l, a), i);
    case Leave(i) => WorkerStepDecreases(l, Apply(l, a), i);
    case SendOnClosed(_) => assert false;
    case _ => MainStepDecreases(l, a);
  }

  lemma {:induction false} MeasureNonNegative(l: Level)
    ensures Measure(l) >= 0
    decreases l, 0
  {
    RanksNonNegative(l.workers);
  }

  lemma {:induction false} RankNonNegative(w: Worker)
    ensures WorkerRank(w) >= 0
    decreases w, 1
  {
    if w.pc.Nested? { MeasureNonNegative(w.pc.level); }
  }

  lemma {:induction false} RanksNonNegative(ws: seq<Worker>)
    ensures WorkersRank(ws) >= 0
    decreases ws, 0
  {
    if ws != [] {
      RankNonNegative(ws[0]);
      RanksNonNegative(ws[1..]);
    }
  }

  /** A level that has not returned can take a step, somewhere in it. */
  lemma {:induction false} Progress(l: Level, forest: seq<Node>) returns (a: Action)
    requires Inv(l, forest) && l.main != Returned
    ensures Enabled(l, a)
    decreases l
  {
    match l.main
    case ClosingChannel => a := CloseChannel;
    case AwaitingSum =>
      a := if l.collector == Ranging then EndRange else if l.collector == Summing then SumUp else Signal;
    case WaitingForWorkers =>
      if i: nat :| i < |l.workers| && l.workers[i].pc != Done {
        var w := l.workers[i];
        assert WorkerInv(w);
        match w.pc {
          case Starting => a := Start(i);
          case ReadingDir => a := ReadDir(i);
          case Leaving => a := Leave(i);
          case Nested(level) =>
            if level.main == Returned {
              a := TakeNested(i);
            } else {
              var b := Progress(level, w.node.entries);
              a := Inner(i, b);
            }
          case _ => a := Send(i);
        }
      } else {
        a := WorkersDone;
      }
  }

  // ---------------------------------------------------------------------
  // All interleavings
  // ---------------------------------------------------------------------

  ghost predicate IsRun(forest: seq<Node>, run: seq<Level>, acts: seq<Action>) {
    && |run| == |acts| + 1
    && run[0] == Begin(forest)
    && forall k :: 0 <= k < |acts| ==> Enabled(run[k], acts[k]) && run[k + 1] == Apply(run[k], acts[k])
  }

  lemma {:induction false} RunInv(forest: seq<Node>, run: seq<Level>, acts: seq<Action>, k: nat)
    requires IsRun(forest, run, acts) && k < |run|
    ensures Inv(run[k], forest)
    ensures Measure(run[k]) + k <= WorkAll(forest)
  {
    if k == 0 {
      BeginInv(forest);
      BeginRank(forest);
    } else {
      RunInv(forest, run, acts, k - 1);
      StepInv(run[k - 1], forest, acts[k - 1]);
      StepDecreases(run[k - 1], forest, acts[k - 1]);
    }
  }

  /** In every interleaving, at every depth, no goroutine sends on a closed channel or closes one twice. */
  lemma NeverPanics(forest: seq<Node>, run: seq<Level>, acts: seq<Action>, k: nat)
    requires IsRun(forest, run, acts) && k < |run|
    ensures NoPanic(run[k])
  {
    RunInv(forest, run, acts, k);
    InvNoPanic(run[k], forest);
  }

  /** The action sends on a closed channel or closes a channel that is closed, at whatever depth. */
  predicate Panics(l: Level, a: Action)
    decreases a
  {
    match a
    case SendOnClosed(_) => true
    case CloseChannel => l.closed
    case Inner(i, b) => i < |l.workers| && l.workers[i].pc.Nested? && Panics(l.workers[i].pc.level, b)
    case _ => false
  }

  lemma {:induction false} NoPanicStep(l: Level, forest: seq<Node>, a: Action)
    requires Inv(l, forest) && Enabled(l, a)
    ensures !Panics(l, a)
    decreases a
  {
    match a
    case Inner(i, b) =>
      assert WorkerInv(l.workers[i]);
      NoPanicStep(l.workers[i].pc.level, l.workers[i].node.entries, b);
    case _ =>
  }

  /** So no step of any run is such an action. */
  lemma NeverSendsOnClosed(forest: seq<Node>, run: seq<Level>, acts: seq<Action>, k: nat)
    requires IsRun(forest, run, acts) && k < |acts|
    ensures !Panics(run[k], acts[k])
  {
    RunInv(forest, run, acts, k);
    NoPanicStep(run[k], forest, acts[k]);
  }

  /** Every interleaving is of bounded length, and one that cannot go on has returned. */
  lemma AlwaysReturns(forest: seq<Node>, run: seq<Level>, acts: seq<Action>)
    requires IsRun(forest, run, acts)
    ensures |acts| <= WorkAll(forest)
    ensures (forall a :: !Enabled(run[|acts|], a)) ==> run[|acts|].main == Returned
  {
    RunInv(forest, run, acts, |acts|);
    MeasureNonNegative(run[|acts|]);
    if run[|acts|].main != Returned {
      var a := Progress(run[|acts|], forest);
    }
  }

  /**
   * Whatever the interleaving: a call that has returned reports an error if and
   * only if a read or stat in the forest fails, and otherwise the number of
   * nodes and the sum of the file sizes.
   */
  lemma ReturnsTheCount(forest: seq<Node>, run: seq<Level>, acts: seq<Action>, k: nat)
    requires IsRun(forest, run, acts) && k < |run| && run[k].main == Returned
    ensures run[k].collectErr <==> AnyFails(forest)
    ensures !AnyFails(forest) ==> run[k].total == CountAll(forest)
  {
    RunInv(forest, run, acts, k);
    ReturnedResult(run[k], forest);
  }
}
