/** The upload widget: a list of uploaded-file rows keyed by id, the
    simulated two-phase progress that every dropped file runs through,
    removal by id, and the status-to-label mapping. */
module Uploads {
  import opened Seqs

  datatype Status = Uploading | Processing | Completed | Error

  /** One row of the upload list. The browser `File` handle is not modelled;
      `size` is the already formatted size label. */
  datatype UploadedFile = UploadedFile(id: string, name: string, size: string, status: Status, progress: int)

  /** The two shapes of row update used while a file is processed:
      `{ ...f, progress }` and `{ ...f, status, progress }`. */
  datatype Patch = SetProgress(progress: int) | SetStage(status: Status, progress: int)

  /** A file taken from a drop, before it has a row. */
  datatype Dropped = Dropped(id: string, name: string, size: string)

  function Patched(f: UploadedFile, p: Patch): UploadedFile
  {
    match p
    case SetProgress(n) => f.(progress := n)
    case SetStage(s, n) => f.(status := s, progress := n)
  }

  predicate HasId(files: seq<UploadedFile>, id: string)
  {
    exists i :: 0 <= i < |files| && files[i].id == id
  }

  ghost predicate UniqueIds(files: seq<UploadedFile>)
  {
    forall i, j :: 0 <= i < j < |files| ==> files[i].id != files[j].id
  }

  /** `prev.map(f => f.id === id ? patch(f) : f)`: rewrites exactly the rows
      carrying `id` and leaves every other row, the length and the order as
      they were. */
  function MapById(files: seq<UploadedFile>, id: string, p: Patch): (r: seq<UploadedFile>)
    ensures |r| == |files|
    ensures forall i :: 0 <= i < |files| && files[i].id == id ==> r[i] == Patched(files[i], p)
    ensures forall i :: 0 <= i < |files| && files[i].id != id ==> r[i] == files[i]
  {
    if files == [] then []
    else [if files[0].id == id then Patched(files[0], p) else files[0]] + MapById(files[1..], id, p)
  }

  /** A list with no row for `id` is left untouched by an update of `id`. */
  lemma {:induction false} MapByIdAbsent(files: seq<UploadedFile>, id: string, p: Patch)
    requires !HasId(files, id)
    ensures MapById(files, id, p) == files
  {
    if files != [] {
      assert files[0].id != id;
      assert !HasId(files[1..], id) by {
        forall i | 0 <= i < |files[1..]| ensures files[1..][i].id != id {
          assert files[1..][i] == files[i + 1];
        }
      }
      MapByIdAbsent(files[1..], id, p);
    }
  }

  /** An update of the newest row, whose id no older row shares, patches that
      row and nothing else. */
  lemma MapByIdNewest(base: seq<UploadedFile>, f: UploadedFile, p: Patch)
    requires !HasId(base, f.id)
    ensures MapById(base + [f], f.id, p) == base + [Patched(f, p)]
  {
    var r := MapById(base + [f], f.id, p);
    forall i | 0 <= i < |base| ensures r[i] == base[i] {
      assert (base + [f])[i] == base[i];
    }
    assert r[|base|] == Patched(f, p) by {
      assert (base + [f])[|base|] == f;
    }
  }

  /** The test `f => f.id !== id` of `removeFile`. */
  function OtherId(id: string): UploadedFile -> bool
  {
    (f: UploadedFile) => f.id != id
  }

  /** `prev.filter(f => f.id !== id)`. */
  function RemoveById(files: seq<UploadedFile>, id: string): (r: seq<UploadedFile>)
    ensures !HasId(r, id)
    ensures forall i :: 0 <= i < |files| && files[i].id != id ==> files[i] in r
    ensures forall i :: 0 <= i < |r| ==> r[i] in files
  {
    FilterMembers(files, OtherId(id));
    Filter(files, OtherId(id))
  }

  /** Removing twice is removing once. */
  lemma RemoveByIdIdempotent(files: seq<UploadedFile>, id: string)
    ensures RemoveById(RemoveById(files, id), id) == RemoveById(files, id)
  {
    FilterIdempotent(files, OtherId(id));
  }

  /** Removing an id that no row carries changes nothing. */
  lemma RemoveByIdAbsent(files: seq<UploadedFile>, id: string)
    requires !HasId(files, id)
    ensures RemoveById(files, id) == files
  {
    FilterKeepsAll(files, OtherId(id));
  }

  /** With unique ids, removing the id of row `k` cuts out exactly that row
      and keeps the rows before and after it in their order. */
  lemma RemoveByIdExisting(files: seq<UploadedFile>, k: nat)
    requires UniqueIds(files) && k < |files|
    ensures RemoveById(files, files[k].id) == files[..k] + files[k + 1..]
  {
    var keep := OtherId(files[k].id);
    forall i | 0 <= i < |files| && i != k ensures keep(files[i]) {
      assert files[i].id != files[k].id by {
        if i < k { assert files[i].id != files[k].id; } else { assert files[k].id != files[i].id; }
      }
    }
    FilterDropsOne(files, keep, k);
  }

  // ---- The simulated progress of one file ------------------------------------

  /** The values taken by `for (let progress = 0; progress <= 100; progress += stride)`. */
  function Ramp(stride: nat): seq<int>
    requires stride > 0
  {
    seq(100 / stride + 1, k => k * stride)
  }

  /** The upload loop visits 0, 10, ..., 100 and the processing loop 0, 20, ..., 100. */
  lemma RampValues()
    ensures Ramp(10) == [0, 10, 20, 30, 40, 50, 60, 70, 80, 90, 100]
    ensures Ramp(20) == [0, 20, 40, 60, 80, 100]
  {
  }

  /** The (status, progress) pair a row shows. */
  datatype Stage = Stage(status: Status, progress: int)

  function InPhase(s: Status, ps: seq<int>): seq<Stage>
  {
    seq(|ps|, k requires 0 <= k < |ps| => Stage(s, ps[k]))
  }

  /** Every (status, progress) pair a processed file's row takes, in order:
      the freshly appended row, the upload ramp, the switch to processing,
      the processing ramp and the completion. */
  function Trajectory(): (t: seq<Stage>)
    ensures |t| == 20
    ensures t[0] == Stage(Uploading, 0) && t[|t| - 1] == Stage(Completed, 100)
  {
    [Stage(Uploading, 0)] + InPhase(Uploading, Ramp(10)) + [Stage(Processing, 0)]
      + InPhase(Processing, Ramp(20)) + [Stage(Completed, 100)]
  }

  /** The trajectory stage by stage. */
  lemma TrajectoryAt()
    ensures |Trajectory()| == 20
    ensures Trajectory()[0] == Stage(Uploading, 0)
    ensures forall k :: 0 <= k <= 10 ==> Trajectory()[1 + k] == Stage(Uploading, 10 * k)
    ensures Trajectory()[12] == Stage(Processing, 0)
    ensures forall k :: 0 <= k <= 5 ==> Trajectory()[13 + k] == Stage(Processing, 20 * k)
    ensures Trajectory()[19] == Stage(Completed, 100)
  {
    var t := Trajectory();
    var up := InPhase(Uploading, Ramp(10));
    var pr := InPhase(Processing, Ramp(20));
    assert |up| == 11 && |pr| == 6;
    assert t == [Stage(Uploading, 0)] + up + [Stage(Processing, 0)] + pr + [Stage(Completed, 100)];
    forall k | 0 <= k <= 10 ensures t[1 + k] == Stage(Uploading, 10 * k) {
      assert t[1 + k] == up[k];
    }
    forall k | 0 <= k <= 5 ensures t[13 + k] == Stage(Processing, 20 * k) {
      assert t[13 + k] == pr[k];
    }
  }

  function Rank(s: Status): nat
  {
    match s
    case Uploading => 0
    case Processing => 1
    case Completed => 2
    case Error => 3
  }

  /** A processed file never shows `Error`, progress stays within 0..100, the
      status only moves forward, progress never falls within a phase, and
      the file ends `Completed` at 100. */
  lemma TrajectoryProperties()
    ensures forall k :: 0 <= k < |Trajectory()| ==> Trajectory()[k].status != Error
    ensures forall k :: 0 <= k < |Trajectory()| ==> 0 <= Trajectory()[k].progress <= 100
    ensures forall i, j :: 0 <= i <= j < |Trajectory()| ==>
      Rank(Trajectory()[i].status) <= Rank(Trajectory()[j].status)
    ensures forall i, j :: 0 <= i <= j < |Trajectory()| && Trajectory()[i].status == Trajectory()[j].status ==>
      Trajectory()[i].progress <= Trajectory()[j].progress
    ensures Trajectory()[|Trajectory()| - 1] == Stage(Completed, 100)
  {
    TrajectoryAt();
    var t := Trajectory();
    assert forall k :: 0 <= k < 20 ==>
      (k <= 11 ==> t[k] == Stage(Uploading, if k == 0 then 0 else 10 * (k - 1))) &&
      (12 <= k <= 18 ==> t[k] == Stage(Processing, if k == 12 then 0 else 20 * (k - 13))) &&
      (k == 19 ==> t[k] == Stage(Completed, 100));
  }

  function Row(d: Dropped, st: Stage): UploadedFile
  {
    UploadedFile(d.id, d.name, d.size, st.status, st.progress)
  }

  // ---- Status presentation ----------------------------------------------------

  datatype Icon = Spinner | CheckCircle | AlertCircle

  /** `getStatusIcon`: the in-flight statuses share the spinner. */
  function StatusIcon(s: Status): (icon: Icon)
    ensures icon == Spinner <==> s == Uploading || s == Processing
    ensures icon == CheckCircle <==> s == Completed
    ensures icon == AlertCircle <==> s == Error
  {
    match s
    case Uploading => Spinner
    case Processing => Spinner
    case Completed => CheckCircle
    case Error => AlertCircle
  }

  /** `getStatusText`. */
  function StatusText(s: Status): (text: string)
    ensures text != []
    ensures text == "Ready for Q&A" <==> s == Completed
    ensures text == "Error occurred" <==> s == Error
  {
    match s
    case Uploading => "Uploading..."
    case Processing => "Processing PDF..."
    case Completed => "Ready for Q&A"
    case Error => "Error occurred"
  }

  /** Every status has its own label. */
  lemma StatusTextDistinct(s: Status, t: Status)
    ensures StatusText(s) == StatusText(t) <==> s == t
  {
  }

  /** The progress bar is shown exactly for the statuses that show the spinner. */
  function ShowsProgressBar(s: Status): (b: bool)
    ensures b <==> StatusIcon(s) == Spinner
  {
    s == Uploading || s == Processing
  }

  // ---- The upload list as the widget holds it ---------------------------------

  /** Ids are unique and no row is in the error state or out of range. */
  ghost predicate WellFormed(files: seq<UploadedFile>)
  {
    UniqueIds(files) &&
    forall i :: 0 <= i < |files| ==> files[i].status != Error && 0 <= files[i].progress <= 100
  }

  /** Appending a well-formed row with a fresh id keeps a list well formed. */
  lemma WellFormedSnoc(files: seq<UploadedFile>, f: UploadedFile)
    requires WellFormed(files) && !HasId(files, f.id)
    requires f.status != Error && 0 <= f.progress <= 100
    ensures WellFormed(files + [f])
  {
    var r := files + [f];
    forall i, j | 0 <= i < j < |r| ensures r[i].id != r[j].id {
      if j < |files| {
        assert r[i] == files[i] && r[j] == files[j];
      } else {
        assert r[i] == files[i];
      }
    }
  }

  /** The lists recorded while the row for `d`, appended to `base`, takes
      the given stages one after another. */
  ghost function Recorded(base: seq<UploadedFile>, d: Dropped, stages: seq<Stage>): seq<seq<UploadedFile>>
  {
    seq(|stages|, k requires 0 <= k < |stages| => base + [Row(d, stages[k])])
  }

  lemma RecordedSplit(h: seq<seq<UploadedFile>>, base: seq<UploadedFile>, d: Dropped,
                       a: seq<Stage>, b: seq<Stage>, c: seq<Stage>, e: seq<Stage>, f: seq<Stage>)
    ensures h + Recorded(base, d, a + b + c + e + f) ==
      h + Recorded(base, d, a) + Recorded(base, d, b) + Recorded(base, d, c) + Recorded(base, d, e) + Recorded(base, d, f)
  {
  }

  lemma RecordedSnoc(base: seq<UploadedFile>, d: Dropped, stages: seq<Stage>, st: Stage)
    ensures Recorded(base, d, stages + [st]) == Recorded(base, d, stages) + [base + [Row(d, st)]]
  {
  }

  /** One step of a progress loop: the row for `d`, newest in the list and
      in status `s`, is moved to the `n`-th value of the ramp, and the list
      this update records extends the recorded prefix of the phase by one. */
  lemma PhaseStep(h: seq<seq<UploadedFile>>, base: seq<UploadedFile>, d: Dropped, s: Status,
                  stride: nat, n: nat, progress: int, prev: int)
    requires stride > 0 && n <= 100 / stride && progress == n * stride
    requires !HasId(base, d.id)
    ensures MapById(base + [Row(d, Stage(s, prev))], d.id, SetProgress(progress)) == base + [Row(d, Stage(s, progress))]
    ensures h + Recorded(base, d, InPhase(s, Ramp(stride))[..n]) + [base + [Row(d, Stage(s, progress))]]
         == h + Recorded(base, d, InPhase(s, Ramp(stride))[..n + 1])
  {
    var stages := InPhase(s, Ramp(stride));
    assert stages[n] == Stage(s, progress);
    MapByIdNewest(base, Row(d, Stage(s, prev)), SetProgress(progress));
    assert stages[..n + 1] == stages[..n] + [stages[n]];
    RecordedSnoc(base, d, stages[..n], stages[n]);
  }

  /** A stage switch of `processFile`: the newest row for `d` takes `st`
      outright, and the list this update records is the one-stage record. */
  lemma StageSwitch(h: seq<seq<UploadedFile>>, base: seq<UploadedFile>, d: Dropped, prev: Stage, st: Stage)
    requires !HasId(base, d.id)
    ensures MapById(base + [Row(d, prev)], d.id, SetStage(st.status, st.progress)) == base + [Row(d, st)]
    ensures h + [base + [Row(d, st)]] == h + Recorded(base, d, [st])
  {
    MapByIdNewest(base, Row(d, prev), SetStage(st.status, st.progress));
  }

  /** The state of the upload widget. `history` holds the list after every
      state update (`setUploadedFiles` call), in order; this is not one entry
      per render, since React batches updates that no `await` separates. */
  class Uploader {
    var files: seq<UploadedFile>
    ghost var history: seq<seq<UploadedFile>>

    ghost predicate Valid()
      reads this
    {
      WellFormed(files)
    }

    constructor ()
      ensures Valid()
      ensures files == [] && history == []
    {
      files := [];
      history := [];
    }

    /** `setUploadedFiles(prev => [...prev, f])`. A step of `ProcessFile`,
        which supplies a fresh id and re-establishes `Valid()` itself; no
        source path appends a row in the error state. */
    method Append(f: UploadedFile)
      requires f.status != Error
      modifies this
      ensures files == old(files) + [f]
      ensures history == old(history) + [files]
    {
      files := files + [f];
      history := history + [files];
    }

    /** `setUploadedFiles(prev => prev.map(f => f.id === id ? patch(f) : f))`.
        A step of `ProcessFile`; no source path sets the error status. */
    method Update(id: string, p: Patch)
      requires p.SetStage? ==> p.status != Error
      modifies this
      ensures files == MapById(old(files), id, p)
      ensures history == old(history) + [files]
    {
      files := MapById(files, id, p);
      history := history + [files];
    }

    /** The upload loop of `processFile`: the row for `d`, last in the list
        and still at (uploading, 0), is recorded at uploading 0, 10, ..., 100. */
    method UploadPhase(d: Dropped, ghost base: seq<UploadedFile>)
      requires !HasId(base, d.id)
      requires files == base + [Row(d, Stage(Uploading, 0))]
      modifies this
      ensures files == base + [Row(d, Stage(Uploading, 100))]
      ensures history == old(history) + Recorded(base, d, InPhase(Uploading, Ramp(10)))
    {
      ghost var stages := InPhase(Uploading, Ramp(10));
      assert |stages| == 11;
      var progress := 0;
      ghost var n, shown := 0, 0;
      while progress <= 100
        invariant 0 <= n <= 11 && progress == 10 * n
        invariant files == base + [Row(d, Stage(Uploading, shown))] && (n > 0 ==> shown == progress - 10)
        invariant history == old(history) + Recorded(base, d, stages[..n])
      {
        PhaseStep(old(history), base, d, Uploading, 10, n, progress, shown);
        Update(d.id, SetProgress(progress));
        progress, n, shown := progress + 10, n + 1, progress;
      }
      assert stages[..n] == stages;
    }

    /** The processing loop of `processFile`: the row for `d`, last in the
        list and at (processing, 0), is recorded at processing 0, 20, ..., 100. */
    method ProcessingPhase(d: Dropped, ghost base: seq<UploadedFile>)
      requires !HasId(base, d.id)
      requires files == base + [Row(d, Stage(Processing, 0))]
      modifies this
      ensures files == base + [Row(d, Stage(Processing, 100))]
      ensures history == old(history) + Recorded(base, d, InPhase(Processing, Ramp(20)))
    {
      ghost var stages := InPhase(Processing, Ramp(20));
      assert |stages| == 6;
      var progress := 0;
      ghost var n, shown := 0, 0;
      while progress <= 100
        invariant 0 <= n <= 6 && progress == 20 * n
        invariant files == base + [Row(d, Stage(Processing, shown))] && (n > 0 ==> shown == progress - 20)
        invariant history == old(history) + Recorded(base, d, stages[..n])
      {
        PhaseStep(old(history), base, d, Processing, 20, n, progress, shown);
        Update(d.id, SetProgress(progress));
        progress, n, shown := progress + 20, n + 1, progress;
      }
      assert stages[..n] == stages;
    }

    /** `processFile`: appends a row for `d` and drives it through the whole
        trajectory; every list recorded on the way is the old list with the
        new row, at the next stage, at its end. */
    method ProcessFile(d: Dropped)
      requires Valid() && !HasId(files, d.id)
      modifies this
      ensures Valid()
      ensures files == old(files) + [Row(d, Stage(Completed, 100))]
      ensures history == old(history) + Recorded(old(files), d, Trajectory())
    {
      ghost var base, h0 := files, history;
      Append(Row(d, Stage(Uploading, 0)));
      assert history == h0 + Recorded(base, d, [Stage(Uploading, 0)]);
      UploadPhase(d, base);
      ghost var h2 := history;

      StageSwitch(h2, base, d, Stage(Uploading, 100), Stage(Processing, 0));
      Update(d.id, SetStage(Processing, 0));
      ProcessingPhase(d, base);
      ghost var h4 := history;

      StageSwitch(h4, base, d, Stage(Processing, 100), Stage(Completed, 100));
      Update(d.id, SetStage(Completed, 100));

      assert Trajectory() == [Stage(Uploading, 0)] + InPhase(Uploading, Ramp(10)) + [Stage(Processing, 0)]
        + InPhase(Processing, Ramp(20)) + [Stage(Completed, 100)];
      RecordedSplit(h0, base, d, [Stage(Uploading, 0)], InPhase(Uploading, Ramp(10)), [Stage(Processing, 0)],
        InPhase(Processing, Ramp(20)), [Stage(Completed, 100)]);
      WellFormedSnoc(base, Row(d, Stage(Completed, 100)));
    }

    /** `onDrop`: the files of one batch are processed one after another. */
    method Drop(batch: seq<Dropped>)
      requires Valid()
      requires forall i, j :: 0 <= i < j < |batch| ==> batch[i].id != batch[j].id
      requires forall i :: 0 <= i < |batch| ==> !HasId(files, batch[i].id)
      modifies this
      ensures Valid()
      ensures files == old(files) + seq(|batch|, i requires 0 <= i < |batch| => Row(batch[i], Stage(Completed, 100)))
    {
      var i := 0;
      while i < |batch|
        invariant 0 <= i <= |batch|
        invariant Valid()
        invariant files == old(files) + seq(i, j requires 0 <= j < i => Row(batch[j], Stage(Completed, 100)))
        invariant forall j :: i <= j < |batch| ==> !HasId(files, batch[j].id)
      {
        ghost var before := files;
        ProcessFile(batch[i]);
        forall j | i + 1 <= j < |batch| ensures !HasId(files, batch[j].id) {
          assert !HasId(before, batch[j].id);
          assert files == before + [Row(batch[i], Stage(Completed, 100))];
        }
        i := i + 1;
      }
    }

    /** `removeFile`: drops the rows carrying `id`. */
    method RemoveFile(id: string)
      requires Valid()
      modifies this
      ensures Valid()
      ensures files == RemoveById(old(files), id)
      ensures history == old(history) + [files]
    {
      FilterPairwise(files, OtherId(id), (a: UploadedFile, b: UploadedFile) => a.id != b.id);
      files := RemoveById(files, id);
      history := history + [files];
    }
  }
}
