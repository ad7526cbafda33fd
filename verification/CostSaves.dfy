/** Replaces of the cost ledger that overlap while their slices are saved (src/cost/ledger.ts, src/cost/ledger-files.ts).
  *
  * Between its check and its commit a replace waits twice: for the session's file to be read, and for it to be written. */
module CostSaves {
  import opened CostLedger

  /** What a replace does next: read the file, write it, put the slice in place. */
  datatype Phase = Reading | Writing | Committing | Done

  datatype Task = Task(id: string, slice: Slice, phase: Phase)

  datatype Process = Process(ledger: Ledger, files: map<string, Slice>, tasks: seq<Task>)

  datatype Happening = Begin(id: string, slice: Slice) | Proceed(task: nat) | Create(id: string)

  function CutOf(slices: map<string, Slice>, id: string): int {
    if id in slices then slices[id].cut else -2
  }

  function At(p: Process, i: nat, phase: Phase): Process
    requires i < |p.tasks|
  {
    p.(tasks := p.tasks[i := p.tasks[i].(phase := phase)])
  }

  /** One task goes on from where it waits; a file with a newer cut ends it. */
  function Resume(p: Process, i: nat): Process
    requires i < |p.tasks|
  {
    var t := p.tasks[i];
    match t.phase
    case Reading => At(p, i, if CutOf(p.files, t.id) > t.slice.cut then Done else Writing)
    case Writing => At(p, i, Committing).(files := p.files[t.id := t.slice])
    case Committing => At(p, i, Done).(ledger := Committed(p.ledger, t.id, t.slice))
    case Done => p
  }

  function Next(p: Process, h: Happening): Process {
    match h
    case Begin(id, slice) =>
      if Admits(p.ledger, id, slice.cut) then p.(tasks := p.tasks + [Task(id, slice, Reading)]) else p
    case Proceed(i) => if i < |p.tasks| then Resume(p, i) else p
    case Create(id) => p.(ledger := Seeded(p.ledger, id))
  }

  function After(p: Process, hs: seq<Happening>): Process {
    if hs == [] then p else Next(After(p, hs[..|hs| - 1]), hs[|hs| - 1])
  }

  predicate Saving(t: Task) {
    t.phase.Writing? || t.phase.Committing?
  }

  /** Two saves of one session, of different cuts, are both past reading the file. */
  predicate Collide(a: Task, b: Task) {
    a.id == b.id && a.slice.cut != b.slice.cut && Saving(a) && Saving(b)
  }

  predicate Parted(p: Process) {
    forall i, j :: 0 <= i < |p.tasks| && 0 <= j < |p.tasks| ==> !Collide(p.tasks[i], p.tasks[j])
  }

  /** No file is older than the slice in place; a save past its read is no older than the file, and has written it when it
    * is about to commit. */
  predicate TaskOk(p: Process, t: Task) {
    && (t.phase.Writing? ==> CutOf(p.files, t.id) <= t.slice.cut)
    && (t.phase.Committing? ==> CutOf(p.files, t.id) == t.slice.cut)
  }

  ghost predicate Inv(p: Process) {
    && (forall id :: CutOf(p.ledger.sessions, id) <= CutOf(p.files, id))
    && forall i :: 0 <= i < |p.tasks| ==> TaskOk(p, p.tasks[i])
  }

  ghost predicate NothingFalls(p: Process, n: Process) {
    forall id ::
      CutOf(p.ledger.sessions, id) <= CutOf(n.ledger.sessions, id) && CutOf(p.files, id) <= CutOf(n.files, id)
  }

  lemma ResumeKeepsInv(p: Process, i: nat)
    requires Inv(p) && Parted(p) && i < |p.tasks|
    ensures Inv(Resume(p, i)) && NothingFalls(p, Resume(p, i))
  {
    var t, n := p.tasks[i], Resume(p, i);
    assert TaskOk(p, t);
    forall j | 0 <= j < |n.tasks|
      ensures TaskOk(n, n.tasks[j])
    {
      assert TaskOk(p, p.tasks[j]) && !Collide(p.tasks[i], p.tasks[j]);
    }
    assert CutOf(p.ledger.sessions, t.id) <= CutOf(p.files, t.id);
  }

  lemma NextKeepsInv(p: Process, h: Happening)
    requires Inv(p) && Parted(p)
    ensures Inv(Next(p, h)) && NothingFalls(p, Next(p, h))
  {
    match h
    case Begin(id, slice) =>
      var n := Next(p, h);
      forall j | 0 <= j < |n.tasks|
        ensures TaskOk(n, n.tasks[j])
      {
        assert j < |p.tasks| ==> TaskOk(p, p.tasks[j]);
      }
    case Proceed(i) =>
      if i < |p.tasks| {
        ResumeKeepsInv(p, i);
      }
    case Create(id) =>
  }

  ghost predicate AlwaysParted(p: Process, hs: seq<Happening>) {
    forall k :: 0 <= k < |hs| ==> Parted(After(p, hs[..k]))
  }

  lemma FrontIsParted(p: Process, hs: seq<Happening>)
    requires AlwaysParted(p, hs) && hs != []
    ensures AlwaysParted(p, hs[..|hs| - 1]) && Parted(After(p, hs[..|hs| - 1]))
  {
    var n := |hs| - 1;
    forall k | 0 <= k < n
      ensures Parted(After(p, hs[..n][..k]))
    {
      assert hs[..n][..k] == hs[..k];
    }
  }

  lemma {:induction false} EveryRunKeepsInv(p: Process, hs: seq<Happening>)
    requires Inv(p) && AlwaysParted(p, hs)
    ensures Inv(After(p, hs))
  {
    if hs != [] {
      FrontIsParted(p, hs);
      EveryRunKeepsInv(p, hs[..|hs| - 1]);
      NextKeepsInv(After(p, hs[..|hs| - 1]), hs[|hs| - 1]);
    }
  }

  /** In every run in which no two saves of one session, of different cuts, are ever both past their reads, neither the cut
    * in place nor the cut on file ever falls. */
  lemma {:induction false} CutsNeverFall(p: Process, hs: seq<Happening>, k: nat)
    requires Inv(p) && AlwaysParted(p, hs) && k <= |hs|
    ensures NothingFalls(After(p, hs[..k]), After(p, hs))
  {
    if k == |hs| {
      assert hs[..k] == hs;
    } else {
      var front := hs[..|hs| - 1];
      FrontIsParted(p, hs);
      CutsNeverFall(p, front, k);
      assert front[..k] == hs[..k];
      EveryRunKeepsInv(p, front);
      NextKeepsInv(After(p, front), hs[|hs| - 1]);
    }
  }

  /** Both are needed: once two such saves are past their reads, letting the newer finish first and the older second leaves
    * the older slice in place. */
  lemma CollidingSavesLowerTheCut(p: Process, i: nat, j: nat)
    requires i < |p.tasks| && j < |p.tasks| && Collide(p.tasks[i], p.tasks[j])
    requires p.tasks[i].slice.cut < p.tasks[j].slice.cut
    ensures var id, newer := p.tasks[i].id, [Proceed(j), Proceed(j)];
            && CutOf(After(p, newer).ledger.sessions, id) == p.tasks[j].slice.cut
            && CutOf(After(p, newer + [Proceed(i), Proceed(i)]).ledger.sessions, id) == p.tasks[i].slice.cut
  {
    var a := Finish(p, j);
    TwoSteps(p, j);
    TwoSteps(a, i);
    JoinTwo(p, [Proceed(j), Proceed(j)], Proceed(i), Proceed(i));
  }

  function Finish(p: Process, i: nat): Process {
    Next(Next(p, Proceed(i)), Proceed(i))
  }

  /** Two steps put a save past its read in place, and leave every other task alone. */
  lemma TwoSteps(p: Process, i: nat)
    requires i < |p.tasks| && Saving(p.tasks[i])
    ensures After(p, [Proceed(i), Proceed(i)]) == Finish(p, i)
    ensures var n := Finish(p, i);
            && |n.tasks| == |p.tasks| && (forall k :: 0 <= k < |p.tasks| && k != i ==> n.tasks[k] == p.tasks[k])
            && CutOf(n.ledger.sessions, p.tasks[i].id) == p.tasks[i].slice.cut
  {
    assert [Proceed(i), Proceed(i)][..1] == [Proceed(i)] && [Proceed(i)][..0] == [];
    assert After(p, [Proceed(i)]) == Next(After(p, []), Proceed(i));
  }

  lemma JoinTwo(p: Process, front: seq<Happening>, a: Happening, b: Happening)
    ensures After(p, front + [a, b]) == Next(Next(After(p, front), a), b)
  {
    assert (front + [a, b])[..|front| + 1] == front + [a] && (front + [a])[..|front|] == front;
  }

  /** And two scans get there: begun before either is in place, each reads the file before the other writes it. */
  lemma OverlappingReplacesCollide(p: Process, id: string, older: Slice, newer: Slice)
    requires Admits(p.ledger, id, older.cut) && older.cut < newer.cut && CutOf(p.files, id) <= older.cut
    ensures var n, hs := |p.tasks|, [Begin(id, older), Begin(id, newer)] + [Proceed(|p.tasks|), Proceed(|p.tasks| + 1)];
            && |After(p, hs).tasks| == n + 2 && Collide(After(p, hs).tasks[n], After(p, hs).tasks[n + 1])
            && After(p, hs).tasks[n].slice == older && After(p, hs).tasks[n + 1].slice == newer
  {
    var n := |p.tasks|;
    var begun := p.(tasks := p.tasks + [Task(id, older, Reading)] + [Task(id, newer, Reading)]);
    JoinTwo(p, [], Begin(id, older), Begin(id, newer));
    assert [] + [Begin(id, older), Begin(id, newer)] == [Begin(id, older), Begin(id, newer)];
    assert After(p, [Begin(id, older), Begin(id, newer)]) == begun;
    JoinTwo(p, [Begin(id, older), Begin(id, newer)], Proceed(n), Proceed(n + 1));
  }

  // ---------------------------------------------------------------- one replace by itself

  /** A scan is begun exactly when the slice in place is not newer than it; otherwise nothing happens. */
  lemma BeginsExactlyWhen(p: Process, id: string, slice: Slice)
    ensures Next(p, Begin(id, slice))
            == if CutOf(p.ledger.sessions, id) <= slice.cut then p.(tasks := p.tasks + [Task(id, slice, Reading)]) else p
  {
  }

  lemma AfterSnoc(p: Process, hs: seq<Happening>, h: Happening)
    ensures After(p, hs + [h]) == Next(After(p, hs), h)
  {
    assert (hs + [h])[..|hs|] == hs;
  }

  /** A replace that nothing overlaps ends with its slice on file and in place, and leaves every other session alone; a newer
    * file ends it without a trace. */
  lemma LoneReplaceTakesPlace(p: Process, id: string, slice: Slice)
    requires CutOf(p.ledger.sessions, id) <= slice.cut
    ensures var i := |p.tasks|;
            var n := After(p, [Begin(id, slice)] + [Proceed(i)] + [Proceed(i)] + [Proceed(i)]);
            if CutOf(p.files, id) <= slice.cut
            then n.files == p.files[id := slice] && n.ledger.sessions == p.ledger.sessions[id := slice]
            else n.files == p.files && n.ledger == p.ledger
    ensures var i := |p.tasks|;
            After(p, [Begin(id, slice)] + [Proceed(i)] + [Proceed(i)] + [Proceed(i)]).tasks == p.tasks + [Task(id, slice, Done)]
  {
    var i := |p.tasks|;
    var go := Proceed(i);
    assert [Begin(id, slice)][..0] == [];
    var begun := Next(p, Begin(id, slice));
    AfterSnoc(p, [Begin(id, slice)], go);
    AfterSnoc(p, [Begin(id, slice)] + [go], go);
    AfterSnoc(p, [Begin(id, slice)] + [go] + [go], go);
    assert begun.tasks[i] == Task(id, slice, Reading);
    var read := Resume(begun, i);
    assert read.tasks[i].phase == if CutOf(p.files, id) > slice.cut then Done else Writing;
    var written := Resume(read, i);
    var done := Resume(written, i);
    assert done.tasks == p.tasks + [Task(id, slice, Done)];
  }
}
