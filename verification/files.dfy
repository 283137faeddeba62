/** The part of the file system the generators touch: regular files written
    whole and then made executable. */
module Files {
  import opened Errors
  import opened Strings

  /** `0o755`, the mode every generated script gets. */
  const ExecutableMode: int := 493

  datatype File = File(content: string, mode: int)

  /** One finished script: its path and its full text. */
  datatype Write = Write(path: string, content: string)

  /** What a generator leaves behind: the scripts it wrote, in order, and
      its return value or the exception that stopped it. */
  datatype Outcome<T> = Outcome(writes: seq<Write>, result: Result<T>)

  /** The files after the writes `ws`, in order; a later write to the same
      path replaces the earlier one (the file is opened with mode `"w"`). */
  function Apply(files: map<string, File>, ws: seq<Write>): (r: map<string, File>)
    ensures forall w :: w in ws ==> w.path in r && r[w.path].mode == ExecutableMode
    ensures forall p :: p in files ==> p in r
    decreases |ws|
  {
    if ws == [] then files
    else
      var w := ws[|ws| - 1];
      Apply(files, ws[..|ws| - 1])[w.path := File(w.content, ExecutableMode)]
  }

  function WrittenPaths(ws: seq<Write>): (r: seq<string>)
    ensures |r| == |ws| && forall i :: 0 <= i < |ws| ==> r[i] == ws[i].path
  {
    if ws == [] then [] else WrittenPaths(ws[..|ws| - 1]) + [ws[|ws| - 1].path]
  }

  /** A path nobody writes keeps its file. */
  lemma {:induction false} ApplyUntouched(files: map<string, File>, ws: seq<Write>, p: string)
    requires forall w :: w in ws ==> w.path != p
    ensures p in Apply(files, ws) <==> p in files
    ensures p in files ==> Apply(files, ws)[p] == files[p]
    decreases |ws|
  {
    if ws != [] {
      assert forall w :: w in ws[..|ws| - 1] ==> w in ws;
      ApplyUntouched(files, ws[..|ws| - 1], p);
    }
  }

  lemma ApplyOne(files: map<string, File>, w: Write)
    ensures Apply(files, [w]) == files[w.path := File(w.content, ExecutableMode)]
    ensures WrittenPaths([w]) == [w.path]
  {
    assert [w][..0] == [];
  }

  /** Writing the same text twice leaves the same files as writing it once:
      regenerating a script is idempotent. */
  lemma ApplyTwice(files: map<string, File>, w: Write)
    ensures Apply(files, [w, w]) == Apply(files, [w])
  {
    assert [w, w][..1] == [w];
    assert [w][..0] == [];
  }

  /** Writes done in two runs are the writes of both, in order. */
  lemma {:induction false} ApplyAppend(files: map<string, File>, a: seq<Write>, b: seq<Write>)
    ensures Apply(files, a + b) == Apply(Apply(files, a), b)
    decreases |b|
  {
    if b == [] {
      assert a + b == a;
    } else {
      var n := |b| - 1;
      assert (a + b)[..|a + b| - 1] == a + b[..n];
      ApplyAppend(files, a, b[..n]);
    }
  }

  /** The paths of writes done in two runs are the paths of both. */
  lemma WrittenAppend(a: seq<Write>, b: seq<Write>)
    ensures WrittenPaths(a + b) == WrittenPaths(a) + WrittenPaths(b)
  {
  }

  /** Two writers run one after the other write the concatenation of their
      writes. */
  lemma ApplyThen(files0: map<string, File>, log0: seq<string>, a: seq<Write>, b: seq<Write>,
                  mid: map<string, File>, midLog: seq<string>, files: map<string, File>, log: seq<string>)
    requires mid == Apply(files0, a) && midLog == log0 + WrittenPaths(a)
    requires files == Apply(mid, b) && log == midLog + WrittenPaths(b)
    ensures files == Apply(files0, a + b) && log == log0 + WrittenPaths(a + b)
  {
    ApplyAppend(files0, a, b);
    WrittenAppend(a, b);
    ConcatAssoc(log0, WrittenPaths(a), WrittenPaths(b));
  }

  class FileSystem {
    var files: map<string, File>
    /** The paths written so far, in the order of the writes. */
    var log: seq<string>

    constructor (files: map<string, File>)
      ensures this.files == files && log == []
    {
      this.files := files;
      log := [];
    }

    /** `open(path, "w")`, write `content`, close, `os.chmod(path, 0o755)`. */
    method WriteExecutable(path: string, content: string)
      modifies this
      ensures files == old(files)[path := File(content, ExecutableMode)]
      ensures log == old(log) + [path]
    {
      files := files[path := File(content, ExecutableMode)];
      log := log + [path];
    }
  }
}
