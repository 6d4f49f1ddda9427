/** Replace-on-write through a private temporary file: `fsutil.rs`. Any number of
    writers in any number of processes run interleaved, one system call at a time. */
module AtomicWrite {
  import opened Arithmetic
  import opened Wrappers

  type Bytes = seq<int>

  /** The files of one directory. A temporary's name carries a process id and a
      number of that process's counter. */
  datatype Path = Target(name: string) | Temp(pid: nat, number: nat)

  datatype Stage =
    | Naming
    | Opening(n: nat)
    | Writing(n: nat, written: nat)
    | Synced(n: nat)
    | Removing(n: nat)
    | Renamed
    | Finished(ok: bool)

  datatype Writer = Writer(pid: nat, target: string, bytes: Bytes, stage: Stage) {
    predicate Holds() { stage.Writing? || stage.Synced? || stage.Removing? }

    predicate Named() { stage.Opening? || Holds() }

    function Own(): Path
      requires Named()
    {
      Temp(pid, stage.n)
    }
  }

  /** A process: its name counter, the numbers its temporaries could already clash
      with when it started, and those it has been refused. */
  datatype Process = Process(counter: nat, stale: set<nat>, refused: set<nat>)

  datatype Directory = Directory(files: map<Path, Bytes>, processes: map<nat, Process>, writers: map<nat, Writer>)

  /** One system call of writer `w`, with the outcome the system gives it. */
  datatype Action =
    | Launch(pid: nat)
    | Start(w: nat, pid: nat, target: string, bytes: Bytes)
    | FetchName(w: nat)
    | Create(w: nat, fails: bool)
    | Write(w: nat, count: nat, fails: bool)
    | Sync(w: nat, fails: bool)
    | Rename(w: nat, fails: bool)
    | Remove(w: nat, fails: bool)
    | SyncDirectory(w: nat, fails: bool)

  function Numbers(files: map<Path, Bytes>, pid: nat): (numbers: set<nat>)
    ensures forall n: nat :: n in numbers <==> Temp(pid, n) in files
  {
    var numbers := set p | p in files && p.Temp? && p.pid == pid :: p.number;
    assert forall n: nat :: Temp(pid, n) in files ==> Temp(pid, n).number in numbers;
    numbers
  }

  function Put(d: Directory, w: nat, stage: Stage): Directory
    requires w in d.writers
  {
    d.(writers := d.writers[w := d.writers[w].(stage := stage)])
  }

  /** The effect of one system call; one its writer is not about to make has none. */
  function Step(d: Directory, a: Action): Directory {
    match a
    case Launch(pid) =>
      // A process, possibly under a recycled id: the old one's writers are dead.
      d.(processes := d.processes[pid := Process(0, Numbers(d.files, pid), {})],
         writers := map w | w in d.writers && d.writers[w].pid != pid :: d.writers[w])
    case Start(w, pid, target, bytes) =>
      if w in d.writers || pid !in d.processes then d
      else d.(writers := d.writers[w := Writer(pid, target, bytes, Naming)])
    case FetchName(w) =>
      if w !in d.writers || !d.writers[w].stage.Naming? || d.writers[w].pid !in d.processes then d
      else
        var pid := d.writers[w].pid;
        var p := d.processes[pid];
        Put(d.(processes := d.processes[pid := p.(counter := p.counter + 1)]), w, Opening(p.counter))
    case Create(w, fails) =>
      if w !in d.writers || !d.writers[w].stage.Opening? || d.writers[w].pid !in d.processes then d
      else
        var me := d.writers[w];
        var p := d.processes[me.pid];
        if me.Own() in d.files then
          Put(d.(processes := d.processes[me.pid := p.(refused := p.refused + {me.stage.n})]), w, Naming)
        else if fails then Put(d, w, Finished(false))
        else Put(d.(files := d.files[me.Own() := []]), w, Writing(me.stage.n, 0))
    case Write(w, count, fails) =>
      if w !in d.writers || !d.writers[w].stage.Writing? then d
      else
        var me := d.writers[w];
        var k := me.stage.written;
        if fails then Put(d, w, Removing(me.stage.n))
        else if k + count > |me.bytes| || me.Own() !in d.files then d
        else Put(d.(files := d.files[me.Own() := d.files[me.Own()] + me.bytes[k..k + count]]), w,
                 Writing(me.stage.n, k + count))
    case Sync(w, fails) =>
      if w !in d.writers || !d.writers[w].stage.Writing? || d.writers[w].stage.written < |d.writers[w].bytes| then d
      else Put(d, w, if fails then Removing(d.writers[w].stage.n) else Synced(d.writers[w].stage.n))
    case Rename(w, fails) =>
      if w !in d.writers || !d.writers[w].stage.Synced? then d
      else
        var me := d.writers[w];
        if fails || me.Own() !in d.files then Put(d, w, Removing(me.stage.n))
        else Put(d.(files := d.files[Target(me.target) := d.files[me.Own()]] - {me.Own()}), w, Renamed)
    case Remove(w, fails) =>
      if w !in d.writers || !d.writers[w].stage.Removing? then d
      else
        var me := d.writers[w];
        Put(if fails then d else d.(files := d.files - {me.Own()}), w, Finished(false))
    case SyncDirectory(w, fails) =>
      if w !in d.writers || !d.writers[w].stage.Renamed? then d
      else Put(d, w, Finished(!fails))
  }

  function Run(d: Directory, actions: seq<Action>): Directory
    decreases |actions|
  {
    if actions == [] then d else Run(Step(d, actions[0]), actions[1..])
  }

  /** A directory at rest: arbitrary files, leftovers of dead processes included. */
  predicate AtRest(d: Directory) {
    d.processes == map[] && d.writers == map[]
  }

  /** What writer `w` relies on: its number is its own, and its temporary holds
      exactly what it has written so far. */
  ghost predicate WriterOk(d: Directory, w: nat)
    requires w in d.writers
  {
    var me := d.writers[w];
    && me.pid in d.processes
    && (me.Named() ==> me.stage.n < d.processes[me.pid].counter && me.stage.n !in d.processes[me.pid].refused)
    && (me.stage.Opening? && me.Own() in d.files ==> me.stage.n in d.processes[me.pid].stale)
    && (me.Holds() ==> me.Own() in d.files)
    && (me.stage.Writing? ==> me.stage.written <= |me.bytes| && d.files[me.Own()] == me.bytes[..me.stage.written])
    && (me.stage.Synced? ==> d.files[me.Own()] == me.bytes)
  }

  ghost predicate ProcessOk(d: Directory, pid: nat)
    requires pid in d.processes
  {
    var p := d.processes[pid];
    && p.refused <= p.stale
    && (forall n :: n in p.refused ==> n < p.counter)
    && (forall n: nat :: Temp(pid, n) in d.files ==> n in p.stale || n < p.counter)
  }

  ghost predicate Consistent(d: Directory) {
    && (forall w :: w in d.writers ==> WriterOk(d, w))
    && (forall pid :: pid in d.processes ==> ProcessOk(d, pid))
    && (forall v, w :: v in d.writers && w in d.writers && v != w && d.writers[v].Named() && d.writers[w].Named() ==>
          d.writers[v].Own() != d.writers[w].Own())
  }

  /** The one writer an action belongs to. */
  function Actor(a: Action): Option<nat> {
    if a.Launch? then None else Some(a.w)
  }

  /** An action touches only its own writer's temporary and, by renaming, its target:
      a failing writer removes nobody else's file. */
  lemma StepTouchesOnlyOwn(d: Directory, a: Action, path: Path)
    requires Actor(a).Some? && Actor(a).value in d.writers ==>
               var me := d.writers[Actor(a).value];
               && !(me.Named() && path == me.Own())
               && !(a.Rename? && me.stage.Synced? && path == Target(me.target))
    ensures path in Step(d, a).files <==> path in d.files
    ensures path in d.files ==> Step(d, a).files[path] == d.files[path]
  {
  }

  lemma OwnNamingKeepsWriter(d: Directory, a: Action, w: nat)
    requires Consistent(d) && w in Step(d, a).writers
    requires Actor(a) == Some(w) && (a.Start? || a.FetchName? || a.Create?)
    ensures WriterOk(Step(d, a), w)
  {
    if w in d.writers {
      assert WriterOk(d, w);
      if d.writers[w].pid in d.processes {
        assert ProcessOk(d, d.writers[w].pid);
      }
    }
  }

  lemma OwnWritingKeepsWriter(d: Directory, a: Action, w: nat)
    requires Consistent(d) && w in Step(d, a).writers
    requires Actor(a) == Some(w) && !(a.Start? || a.FetchName? || a.Create?)
    ensures WriterOk(Step(d, a), w)
  {
    assert WriterOk(d, w);
    var me := d.writers[w];
    if me.stage.Writing? {
      var k := me.stage.written;
      if a.Write? && k + a.count <= |me.bytes| {
        assert me.bytes[..k] + me.bytes[k..k + a.count] == me.bytes[..k + a.count];
      }
      if k == |me.bytes| {
        assert me.bytes[..k] == me.bytes;
      }
    }
  }

  lemma OthersAreElsewhere(d: Directory, a: Action, w: nat)
    requires Consistent(d) && w in d.writers && d.writers[w].Named() && Actor(a) != Some(w)
    ensures Actor(a).Some? && Actor(a).value in d.writers && d.writers[Actor(a).value].Named() ==>
              d.writers[Actor(a).value].Own() != d.writers[w].Own()
  {
  }

  /** What one step does to a process that is not launched anew: it hands out the next
      number, or notes a refused one. */
  lemma StepOnProcess(d: Directory, a: Action, pid: nat)
    requires pid in d.processes && a != Launch(pid)
    ensures var t := Step(d, a);
            && pid in t.processes
            && t.processes[pid].stale == d.processes[pid].stale
            && t.processes[pid].counter >= d.processes[pid].counter
            && (t.processes[pid].refused != d.processes[pid].refused ==>
                  && Actor(a).Some? && Actor(a).value in d.writers
                  && var me := d.writers[Actor(a).value];
                     && me.Named() && me.pid == pid && me.Own() in d.files
                     && t.processes[pid].refused == d.processes[pid].refused + {me.stage.n})
  {
  }

  lemma LivingWriterStays(d: Directory, a: Action, w: nat)
    requires w in Step(d, a).writers && Actor(a) != Some(w)
    ensures w in d.writers && Step(d, a).writers[w] == d.writers[w] && a != Launch(d.writers[w].pid)
  {
  }

  /** The process of a living writer under the calls of others: its number stays used
      and unrefused. */
  lemma OtherStepKeepsProcess(d: Directory, a: Action, w: nat)
    requires Consistent(d) && w in Step(d, a).writers && Actor(a) != Some(w)
    ensures w in d.writers && Step(d, a).writers[w] == d.writers[w]
    ensures var me, t := d.writers[w], Step(d, a);
            && me.pid in t.processes && me.pid in d.processes
            && t.processes[me.pid].stale == d.processes[me.pid].stale
            && (me.Named() ==> me.stage.n < t.processes[me.pid].counter && me.stage.n !in t.processes[me.pid].refused)
  {
    LivingWriterStays(d, a, w);
    hide Step;
    assert WriterOk(d, w);
    StepOnProcess(d, a, d.writers[w].pid);
    if d.writers[w].Named() {
      OthersAreElsewhere(d, a, w);
    }
  }

  lemma OtherStepKeepsWriter(d: Directory, a: Action, w: nat)
    requires Consistent(d) && w in Step(d, a).writers && Actor(a) != Some(w)
    ensures WriterOk(Step(d, a), w)
  {
    OtherStepKeepsProcess(d, a, w);
    assert WriterOk(d, w);
    if d.writers[w].Named() {
      OthersAreElsewhere(d, a, w);
      OtherStepKeepsFile(d, a, d.writers[w].Own());
    }
  }

  lemma OtherStepKeepsFile(d: Directory, a: Action, path: Path)
    requires path.Temp?
    requires Actor(a).Some? && Actor(a).value in d.writers && d.writers[Actor(a).value].Named() ==>
               d.writers[Actor(a).value].Own() != path
    ensures path in Step(d, a).files <==> path in d.files
    ensures path in d.files ==> Step(d, a).files[path] == d.files[path]
  {
    StepTouchesOnlyOwn(d, a, path);
  }

  lemma StepKeepsWriter(d: Directory, a: Action, w: nat)
    requires Consistent(d) && w in Step(d, a).writers
    ensures WriterOk(Step(d, a), w)
  {
    if Actor(a) != Some(w) {
      OtherStepKeepsWriter(d, a, w);
    } else if a.Start? || a.FetchName? || a.Create? {
      OwnNamingKeepsWriter(d, a, w);
    } else {
      OwnWritingKeepsWriter(d, a, w);
    }
  }

  lemma StepKeepsProcess(d: Directory, a: Action, pid: nat)
    requires Consistent(d) && pid in Step(d, a).processes
    ensures ProcessOk(Step(d, a), pid)
  {
    if Actor(a).Some? && Actor(a).value in d.writers {
      assert WriterOk(d, Actor(a).value);
    }
    if pid in d.processes {
      assert ProcessOk(d, pid);
    }
  }

  /** A step gives a writer no number but the next one of its process. */
  lemma StepNames(d: Directory, a: Action, w: nat)
    requires Consistent(d) && w in Step(d, a).writers && Step(d, a).writers[w].Named()
    ensures w in d.writers && Step(d, a).writers[w].pid == d.writers[w].pid
    ensures if a == FetchName(w) && d.writers[w].stage.Naming?
            then d.writers[w].pid in d.processes && Step(d, a).writers[w].stage.n ==
                d.processes[d.writers[w].pid].counter
            else d.writers[w].Named() && Step(d, a).writers[w].stage.n == d.writers[w].stage.n
  {
  }

  lemma StepKeepsNames(d: Directory, a: Action, v: nat, w: nat)
    requires Consistent(d)
    requires var t := Step(d, a);
             v in t.writers && w in t.writers && v != w && t.writers[v].Named() && t.writers[w].Named()
    ensures Step(d, a).writers[v].Own() != Step(d, a).writers[w].Own()
  {
    StepNames(d, a, v);
    StepNames(d, a, w);
    assert WriterOk(d, v) && WriterOk(d, w);
    if d.writers[v].Named() && d.writers[w].Named() {
      assert d.writers[v].Own() != d.writers[w].Own();
    }
  }

  lemma StepKeepsConsistent(d: Directory, a: Action)
    requires Consistent(d)
    ensures Consistent(Step(d, a))
  {
    var t := Step(d, a);
    forall w | w in t.writers
      ensures WriterOk(t, w)
    {
      StepKeepsWriter(d, a, w);
    }
    forall pid | pid in t.processes
      ensures ProcessOk(t, pid)
    {
      StepKeepsProcess(d, a, pid);
    }
    forall v, w | v in t.writers && w in t.writers && v != w && t.writers[v].Named() && t.writers[w].Named()
      ensures t.writers[v].Own() != t.writers[w].Own()
    {
      StepKeepsNames(d, a, v, w);
    }
  }

  lemma {:induction false} RunIsConsistent(d: Directory, actions: seq<Action>)
    requires Consistent(d)
    ensures Consistent(Run(d, actions))
    decreases |actions|
  {
    if actions != [] {
      StepKeepsConsistent(d, actions[0]);
      RunIsConsistent(Step(d, actions[0]), actions[1..]);
    }
  }

  /** No two writers ever hold the same temporary file. */
  lemma TempsAreNeverShared(d: Directory, actions: seq<Action>, v: nat, w: nat)
    requires AtRest(d)
    requires var t := Run(d, actions);
             v in t.writers && w in t.writers && v != w && t.writers[v].Holds() && t.writers[w].Holds()
    ensures Run(d, actions).writers[v].Own() != Run(d, actions).writers[w].Own()
  {
    RunIsConsistent(d, actions);
  }

  function Look(d: Directory, target: string): Option<Bytes> {
    if Target(target) in d.files then Some(d.files[Target(target)]) else None
  }

  /** A destination replaced by one writer's rename. */
  datatype Replacement = Replacement(w: nat, target: string, bytes: Bytes)

  function Replaces(d: Directory, a: Action): Option<Replacement> {
    if a.Rename? && !a.fails && a.w in d.writers && d.writers[a.w].stage.Synced? && d.writers[a.w].Own() in d.files then
      Some(Replacement(a.w, d.writers[a.w].target, d.files[d.writers[a.w].Own()]))
    else None
  }

  /** Nothing but a rename changes a destination, and it changes only its own. */
  lemma OnlyRenamesReplace(d: Directory, a: Action, target: string)
    ensures Look(Step(d, a), target) ==
            if Replaces(d, a).Some? && Replaces(d, a).value.target == target then Some(Replaces(d, a).value.bytes)
            else Look(d, target)
  {
  }

  /** Some writer of the run was asked to put exactly these bytes there. */
  ghost predicate Requested(actions: seq<Action>, target: string, bytes: Bytes) {
    exists i :: 0 <= i < |actions| && actions[i].Start? && actions[i].target == target && actions[i].bytes == bytes
  }

  /** Every writer's destination and content were requested, before this run or in it. */
  ghost predicate FromRequests(d: Directory, past: seq<Action>) {
    forall w :: w in d.writers ==> Requested(past, d.writers[w].target, d.writers[w].bytes)
  }

  lemma RequestedLater(past: seq<Action>, a: Action)
    ensures forall target, bytes :: Requested(past, target, bytes) ==> Requested(past + [a], target, bytes)
    ensures a.Start? ==> Requested(past + [a], a.target, a.bytes)
  {
    var longer := past + [a];
    forall target, bytes | Requested(past, target, bytes)
      ensures Requested(longer, target, bytes)
    {
      var i :| 0 <= i < |past| && past[i].Start? && past[i].target == target && past[i].bytes == bytes;
      assert longer[i] == past[i];
    }
    assert longer[|past|] == a;
  }

  lemma StepKeepsRequests(d: Directory, a: Action, past: seq<Action>)
    requires FromRequests(d, past)
    ensures FromRequests(Step(d, a), past + [a])
  {
    RequestedLater(past, a);
  }

  /** What a step puts at a destination is all of what its writer was asked for. */
  lemma StepReplacesWhole(d: Directory, a: Action, past: seq<Action>, target: string)
    requires Consistent(d) && FromRequests(d, past)
    ensures Look(Step(d, a), target) == Look(d, target)
         || (Look(Step(d, a), target).Some? && Requested(past + [a], target, Look(Step(d, a), target).value))
  {
    OnlyRenamesReplace(d, a, target);
    RequestedLater(past, a);
    hide Step, Requested;
    if Replaces(d, a).Some? {
      assert WriterOk(d, a.w);
    }
  }

  lemma {:induction false} RunReplacesWhole(d: Directory, past: seq<Action>, actions: seq<Action>, target: string,
      was: Option<Bytes>)
    requires Consistent(d) && FromRequests(d, past)
    requires Look(d, target) == was || (Look(d, target).Some? && Requested(past, target, Look(d, target).value))
    ensures var now := Look(Run(d, actions), target);
            now == was || (now.Some? && Requested(past + actions, target, now.value))
    decreases |actions|
  {
    if actions == [] {
      assert past + actions == past;
    } else {
      var a := actions[0];
      StepKeepsConsistent(d, a);
      StepKeepsRequests(d, a, past);
      StepReplacesWhole(d, a, past, target);
      RequestedLater(past, a);
      RunReplacesWhole(Step(d, a), past + [a], actions[1..], target, was);
      assert past + [a] + actions[1..] == past + actions;
    }
  }

  /** At every moment of every run, whatever fails and whoever dies, a destination
      holds either what it held at first or all the bytes of one writer. */
  lemma DestinationIsWhole(d: Directory, actions: seq<Action>, target: string)
    requires AtRest(d)
    ensures var now := Look(Run(d, actions), target);
            now == Look(d, target) || (now.Some? && Requested(actions, target, now.value))
  {
    RunReplacesWhole(d, [], actions, target, Look(d, target));
    assert [] + actions == actions;
  }

  /** The naming loop ends: every refusal of a process strikes out one more of the
      finitely many leftovers it started with, so there are no more than those. */
  lemma RefusalsAreBounded(d: Directory, actions: seq<Action>, pid: nat)
    requires AtRest(d) && pid in Run(d, actions).processes
    ensures var p := Run(d, actions).processes[pid]; |p.refused| <= |p.stale|
  {
    RunIsConsistent(d, actions);
    var p := Run(d, actions).processes[pid];
    assert ProcessOk(Run(d, actions), pid);
    SubsetSize(p.refused, p.stale);
  }

  lemma RefusalIsNew(d: Directory, actions: seq<Action>, w: nat, fails: bool)
    requires AtRest(d)
    requires var t := Run(d, actions); w in t.writers && t.writers[w].stage.Opening? && t.writers[w].Own() in t.files
    ensures var t := Run(d, actions); var me := t.writers[w]; var u := Step(t, Create(w, fails));
            && me.pid in t.processes && me.pid in u.processes
            && u.writers[w].stage == Naming
            && |u.processes[me.pid].refused| == |t.processes[me.pid].refused| + 1
            && u.processes[me.pid].stale == t.processes[me.pid].stale
  {
    RunIsConsistent(d, actions);
    assert WriterOk(Run(d, actions), w);
  }

  // ------------------------------------------------------------ one writer

  /** What the calls of everybody else leave a living writer. */
  ghost predicate Undisturbed(was: Directory, now: Directory, w: nat)
    requires w in was.writers
  {
    var pid := was.writers[w].pid;
    && w in now.writers && now.writers[w] == was.writers[w]
    && (pid in was.processes ==>
          && pid in now.processes && now.processes[pid].stale == was.processes[pid].stale
          && was.processes[pid].refused <= now.processes[pid].refused)
  }

  lemma OtherStepUndisturbed(d: Directory, a: Action, w: nat)
    requires w in d.writers && Actor(a) != Some(w) && a != Launch(d.writers[w].pid)
    ensures Undisturbed(d, Step(d, a), w)
  {
  }

  lemma {:induction false} RunAppends(d: Directory, actions: seq<Action>, a: Action)
    ensures Run(d, actions + [a]) == Step(Run(d, actions), a)
    decreases |actions|
  {
    var longer := actions + [a];
    if actions == [] {
      assert longer == [a] && longer[1..] == [];
    } else {
      assert longer[1..] == actions[1..] + [a];
      RunAppends(Step(d, actions[0]), actions[1..], a);
    }
  }

  /** Every replacement of a run, in order. */
  function Replacements(start: Directory, actions: seq<Action>): seq<Replacement> {
    if actions == [] then []
    else
      var n := |actions| - 1;
      var r := Replaces(Run(start, actions[..n]), actions[n]);
      Replacements(start, actions[..n]) + if r.Some? then [r.value] else []
  }

  lemma ReplacementsAppend(start: Directory, actions: seq<Action>, a: Action)
    ensures var r := Replaces(Run(start, actions), a);
            Replacements(start, actions + [a]) == Replacements(start, actions) + if r.Some? then [r.value] else []
  {
    hide Run, Replaces;
    assert (actions + [a])[..|actions|] == actions;
  }

  /** The directory as every writer's calls have made it, and the destinations they
      replaced, in order. */
  class Disk {
    ghost const start: Directory
    var directory: Directory
    ghost var history: seq<Action>
    ghost var replaced: seq<Replacement>

    ghost predicate Valid()
      reads this
    {
      && AtRest(start) && directory == Run(start, history) && Consistent(directory)
      && replaced == Replacements(start, history)
    }

    constructor (d: Directory)
      requires AtRest(d)
      ensures Valid() && directory == d && history == [] && replaced == []
    {
      start, directory, history, replaced := d, d, [], [];
    }

    /** One system call. */
    method Call(a: Action)
      requires Valid()
      modifies this
      ensures Valid() && directory == Step(old(directory), a) && history == old(history) + [a]
      ensures var r := Replaces(old(directory), a); replaced == old(replaced) + if r.Some? then [r.value] else []
    {
      StepKeepsConsistent(directory, a);
      RunAppends(start, history, a);
      ReplacementsAppend(start, history, a);
      var r := Replaces(directory, a);
      replaced := replaced + if r.Some? then [r.value] else [];
      directory, history := Step(directory, a), history + [a];
    }

    /** Since `from`, writer `w` has replaced nothing. */
    ghost predicate Quiet(from: nat, w: nat)
      reads this
    {
      from <= |replaced| && forall i :: from <= i < |replaced| ==> replaced[i].w != w
    }

    /** Whatever all other writers do meanwhile, in this process and others. */
    method Others(w: nat, ghost from: nat)
      requires Valid() && w in directory.writers && Quiet(from, w)
      modifies this
      ensures Valid() && Quiet(from, w)
      ensures Undisturbed(old(directory), directory, w) && old(replaced) <= replaced
    {
      var calls: nat :| 0 <= calls;
      for k := 0 to calls
        invariant Valid() && Quiet(from, w)
        invariant Undisturbed(old(directory), directory, w) && old(replaced) <= replaced
      {
        assert Actor(Launch(directory.writers[w].pid + 1)) != Some(w);
        var a: Action :| Actor(a) != Some(w) && a != Launch(directory.writers[w].pid);
        OtherStepUndisturbed(directory, a, w);
        Call(a);
      }
    }

    method FetchNumber(w: nat, ghost from: nat) returns (n: nat)
      requires Valid() && w in directory.writers && directory.writers[w].stage == Naming && Quiet(from, w)
      requires directory.writers[w].pid in directory.processes
      modifies this
      ensures Valid() && Quiet(from, w)
      ensures var me := old(directory).writers[w].(stage := Opening(n));
              && Undisturbed(old(directory).(writers := old(directory).writers[w := me]), directory, w)
    {
      Others(w, from);
      n := directory.processes[directory.writers[w].pid].counter;
      Call(FetchName(w));
    }

    /** One turn of the naming loop: the next number, then `create_new`. */
    method TryName(w: nat, ghost from: nat) returns (taken: bool, ok: bool, n: nat)
      requires Valid() && w in directory.writers && directory.writers[w].stage == Naming && Quiet(from, w)
      requires directory.writers[w].pid in directory.processes
      modifies this
      ensures Valid() && Quiet(from, w)
      ensures var me := old(directory).writers[w];
              && w in directory.writers
              && directory.writers[w] == (if taken then me
                  else me.(stage := if ok then Writing(n, 0) else Finished(false)))
              && me.pid in directory.processes
              && directory.processes[me.pid].stale == old(directory).processes[me.pid].stale
              && old(directory).processes[me.pid].refused <= directory.processes[me.pid].refused
              && (taken ==> n in directory.processes[me.pid].stale
                            && n in directory.processes[me.pid].refused - old(directory).processes[me.pid].refused)
    {
      hide AtRest, Run, Replacements;
      var pid := directory.writers[w].pid;
      n := FetchNumber(w, from);
      Others(w, from);
      assert WriterOk(directory, w);
      taken := Temp(pid, n) in directory.files;
      ok := *;
      Call(Create(w, !taken && !ok));
    }

    /** The naming loop. It ends because every refusal strikes out one more leftover. */
    method CreateTemp(w: nat, ghost from: nat) returns (ok: bool, n: nat)
      requires Valid() && w in directory.writers && directory.writers[w].stage == Naming && Quiet(from, w)
      requires directory.writers[w].pid in directory.processes
      modifies this
      ensures Valid() && Quiet(from, w)
      ensures w in directory.writers
      ensures directory.writers[w] == old(directory).writers[w].(stage := if ok then Writing(n, 0) else Finished(false))
    {
      ghost var pid := directory.writers[w].pid;
      ghost var stale := directory.processes[pid].stale;
      while true
        invariant Valid() && Quiet(from, w)
        invariant w in directory.writers && directory.writers[w] == old(directory).writers[w]
        invariant pid in directory.processes && directory.processes[pid].stale == stale
        decreases stale - directory.processes[pid].refused
      {
        ghost var refused := directory.processes[pid].refused;
        var taken;
        taken, ok, n := TryName(w, from);
        if !taken {
          return;
        }
        assert n in stale - refused;
      }
    }

    /** One `write`, of any part of what remains. */
    method WritePiece(w: nat, n: nat, written: nat, ghost from: nat) returns (ok: bool, count: nat)
      requires Valid() && w in directory.writers && directory.writers[w].stage == Writing(n, written) && Quiet(from, w)
      requires written < |directory.writers[w].bytes|
      modifies this
      ensures Valid() && Quiet(from, w)
      ensures w in directory.writers
      ensures ok ==> 0 < count <= |old(directory).writers[w].bytes| - written
      ensures directory.writers[w] == old(directory).writers[w].(stage := if ok then Writing(n, written + count)
          else Removing(n))
    {
      Others(w, from);
      assert WriterOk(directory, w);
      ok := *;
      count :| 0 < count <= |directory.writers[w].bytes| - written;
      Call(Write(w, count, !ok));
    }

    /** `write_all`, in any number of pieces. */
    method WriteAll(w: nat, n: nat, ghost from: nat) returns (ok: bool)
      requires Valid() && w in directory.writers && directory.writers[w].stage == Writing(n, 0) && Quiet(from, w)
      modifies this
      ensures Valid() && Quiet(from, w)
      ensures w in directory.writers
      ensures var me := old(directory).writers[w];
              directory.writers[w] == me.(stage := if ok then Writing(n, |me.bytes|) else Removing(n))
    {
      hide Consistent, Run, AtRest, Replacements;
      ghost var me := directory.writers[w];
      var written: nat := 0;
      while written < |directory.writers[w].bytes|
        invariant Valid() && Quiet(from, w)
        invariant written <= |me.bytes|
        invariant w in directory.writers && directory.writers[w] == me.(stage := Writing(n, written))
        decreases |me.bytes| - written
      {
        var count;
        ok, count := WritePiece(w, n, written, from);
        if !ok {
          return;
        }
        written := written + count;
      }
      ok := true;
    }

    method SyncTemp(w: nat, n: nat, ghost from: nat) returns (ok: bool)
      requires Valid() && w in directory.writers && Quiet(from, w)
      requires directory.writers[w].stage == Writing(n, |directory.writers[w].bytes|)
      modifies this
      ensures Valid() && Quiet(from, w)
      ensures w in directory.writers
      ensures directory.writers[w] == old(directory).writers[w].(stage := if ok then Synced(n) else Removing(n))
    {
      Others(w, from);
      ok := *;
      Call(Sync(w, !ok));
    }

    /** The rename puts exactly the writer's bytes at its destination. */
    method RenameTemp(w: nat, n: nat, ghost from: nat) returns (ok: bool)
      requires Valid() && w in directory.writers && directory.writers[w].stage == Synced(n) && Quiet(from, w)
      modifies this
      ensures Valid() && w in directory.writers
      ensures directory.writers[w] == old(directory).writers[w].(stage := if ok then Renamed else Removing(n))
      ensures !ok ==> Quiet(from, w)
      ensures ok ==> from < |replaced| && var me := directory.writers[w];
                     replaced[|replaced| - 1] == Replacement(w, me.target, me.bytes)
                     && Look(directory, me.target) == Some(me.bytes)
    {
      Others(w, from);
      assert WriterOk(directory, w);
      OnlyRenamesReplace(directory, Rename(w, false), directory.writers[w].target);
      ok := *;
      Call(Rename(w, !ok));
    }

    /** A failing writer removes its own temporary, if it can. */
    method Discard(w: nat, n: nat, ghost from: nat)
      requires Valid() && w in directory.writers && directory.writers[w].stage == Removing(n) && Quiet(from, w)
      modifies this
      ensures Valid() && Quiet(from, w)
      ensures w in directory.writers && directory.writers[w] == old(directory).writers[w].(stage := Finished(false))
    {
      Others(w, from);
      var fails: bool := *;
      Call(Remove(w, fails));
    }

    method SyncParent(w: nat) returns (ok: bool)
      requires Valid() && w in directory.writers && directory.writers[w].stage == Renamed
      modifies this
      ensures Valid() && old(replaced) <= replaced
      ensures w in directory.writers && directory.writers[w] == old(directory).writers[w].(stage := Finished(ok))
    {
      Others(w, |replaced|);
      ok := *;
      Call(SyncDirectory(w, !ok));
    }

    /** `write_private_atomic`, once the directory is open: this call puts the bytes at
        the destination whole, or it does not touch it. An error can follow a
        replacement only from the last step, syncing the directory. */
    method WritePrivateAtomic(w: nat, pid: nat, target: string, bytes: Bytes) returns (ok: bool)
      requires Valid() && w !in directory.writers && pid in directory.processes
      modifies this
      ensures Valid()
      ensures w in directory.writers && directory.writers[w] == Writer(pid, target, bytes, Finished(ok))
      ensures |old(replaced)| <= |replaced|
      ensures Replacement(w, target, bytes) in replaced[|old(replaced)|..] || (!ok && Quiet(|old(replaced)|, w))
    {
      hide Consistent, AtRest, Run, Replacements;
      ghost var from := |replaced|;
      Call(Start(w, pid, target, bytes));
      var n;
      ok, n := CreateTemp(w, from);
      if !ok {
        return;
      }
      ok := WriteAll(w, n, from);
      if ok {
        ok := SyncTemp(w, n, from);
      }
      if ok {
        ok := RenameTemp(w, n, from);
      }
      if !ok {
        Discard(w, n, from);
        return;
      }
      ghost var at := |replaced| - 1;
      ok := SyncParent(w);
      assert replaced[from..][at - from] == Replacement(w, target, bytes);
    }
  }
}
