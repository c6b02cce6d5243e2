/** Index arithmetic of the volume suites and the reading of df output
    (pkg/testcore/suites/perf-suites.go). */
module Suites {
  import opened Text
  import ParseDuration

  // ------------------------------------------------------------ batches and flat indices

  const BATCH: nat := 10

  function Concat(parts: seq<seq<string>>): seq<string> {
    if parts == [] then [] else Concat(parts[..|parts| - 1]) + parts[|parts| - 1]
  }

  lemma {:induction false} ConcatSize(parts: seq<seq<string>>, size: nat)
    requires forall i :: 0 <= i < |parts| ==> |parts[i]| == size
    ensures |Concat(parts)| == |parts| * size
  {
    if parts == [] {
    } else {
      ConcatSize(parts[..|parts| - 1], size);
      NextRow(|parts| - 1, |parts|, size);
    }
  }

  lemma ConcatSnoc(parts: seq<seq<string>>, part: seq<string>)
    ensures Concat(parts + [part]) == Concat(parts) + part
  {
    assert (parts + [part])[..|parts|] == parts;
  }

  lemma NextRow(i: nat, rows: nat, size: nat)
    requires i < rows
    ensures (i + 1) * size == i * size + size <= rows * size
  {
  }

  /** Entry j of part i sits at j + i * size of the concatenation. */
  lemma {:induction false} ConcatAt(parts: seq<seq<string>>, size: nat, i: nat, j: nat)
    requires forall k :: 0 <= k < |parts| ==> |parts[k]| == size
    requires i < |parts| && j < size
    ensures |Concat(parts)| == |parts| * size && j + i * size < |parts| * size
    ensures Concat(parts)[j + i * size] == parts[i][j]
  {
    ConcatSize(parts, size);
    InBounds(|parts|, size, i, j);
    var front := parts[..|parts| - 1];
    ConcatSize(front, size);
    if i < |front| {
      ConcatAt(front, size, i, j);
    }
  }

  lemma InBounds(pods: nat, size: nat, i: nat, j: nat)
    requires i < pods && j < size
    ensures j + i * size < pods * size
  {
    assert (i + 1) * size <= pods * size;
  }

  function SnapName(pvc: string): string {
    "snap-" + pvc
  }

  predicate SnapshotsOf(snaps: seq<string>, pvcs: seq<string>) {
    |snaps| == |pvcs| && forall k :: 0 <= k < |pvcs| ==> snaps[k] == "snap-" + pvcs[k]
  }

  class VolumeSuite {
    var volumeNumber: int
    var podNumber: int

    constructor (volumeNumber: int, podNumber: int)
      ensures this.volumeNumber == volumeNumber && this.podNumber == podNumber
    {
      this.volumeNumber, this.podNumber := volumeNumber, podNumber;
    }

    method ApplyDefaults()
      modifies this
      ensures volumeNumber == (if old(volumeNumber) <= 0 then 5 else old(volumeNumber)) && volumeNumber > 0
      ensures podNumber == (if old(podNumber) <= 0 then 1 else old(podNumber)) && podNumber > 0
    {
      if volumeNumber <= 0 {
        volumeNumber := 5;
      }
      if podNumber <= 0 {
        podNumber := 1;
      }
    }

    /** The creation loops: newName(k) is the name the cluster gives the k-th volume. */
    method CreateVolumes(newName: nat -> string) returns (allPvcNames: seq<string>, pods: seq<seq<string>>)
      requires volumeNumber > 0 && podNumber > 0
      ensures |pods| == podNumber && forall i :: 0 <= i < podNumber ==> |pods[i]| == volumeNumber
      ensures Concat(pods) == allPvcNames
      ensures forall k :: 0 <= k < |allPvcNames| ==> allPvcNames[k] == newName(k)
    {
      allPvcNames, pods := [], [];
      for i := 0 to podNumber
        invariant |pods| == i && forall k :: 0 <= k < i ==> |pods[k]| == volumeNumber
        invariant Concat(pods) == allPvcNames
        invariant forall k :: 0 <= k < |allPvcNames| ==> allPvcNames[k] == newName(k)
      {
        ghost var before := allPvcNames;
        var pvcNameList: seq<string> := [];
        for j := 0 to volumeNumber
          invariant |pvcNameList| == j && allPvcNames == before + pvcNameList
          invariant forall k :: 0 <= k < |allPvcNames| ==> allPvcNames[k] == newName(k)
        {
          var name := newName(|allPvcNames|);
          pvcNameList := pvcNameList + [name];
          allPvcNames := allPvcNames + [name];
        }
        assert (pods + [pvcNameList])[..|pods|] == pods;
        pods := pods + [pvcNameList];
      }
    }

    /** Snapshots in slices of at most ten: every slice is in bounds and non-empty, together they
        are all volumes, and the snapshots match the volumes position by position. */
    method SnapshotVolumes(allPvcNames: seq<string>) returns (snapNameList: seq<string>, batches: seq<seq<string>>)
      ensures Concat(batches) == allPvcNames
      ensures forall b :: 0 <= b < |batches| ==> 0 < |batches[b]| <= 10 && (b < |batches| - 1 ==> |batches[b]| == 10)
      ensures SnapshotsOf(snapNameList, allPvcNames)
    {
      snapNameList, batches := [], [];
      var iters := |allPvcNames| / BATCH;
      if |allPvcNames| % BATCH != 0 {
        iters := iters + 1;
      }
      for iter := 0 to iters
        invariant |batches| == iter
        invariant Concat(batches) == allPvcNames[..Smaller(iter * BATCH, |allPvcNames|)]
        invariant forall b :: 0 <= b < |batches| ==> 0 < |batches[b]| <= BATCH && (b < iters - 1 ==> |batches[b]| == BATCH)
        invariant SnapshotsOf(snapNameList, allPvcNames[..Smaller(iter * BATCH, |allPvcNames|)])
      {
        var initial := iter * BATCH;
        var final := initial + BATCH;
        if final > |allPvcNames| {
          final := |allPvcNames|;
        }
        snapNameList := SnapshotBatch(snapNameList, allPvcNames, initial, final);
        ConcatSnoc(batches, allPvcNames[initial..final]);
        assert allPvcNames[..final] == allPvcNames[..initial] + allPvcNames[initial..final];
        batches := batches + [allPvcNames[initial..final]];
      }
      assert allPvcNames[..|allPvcNames|] == allPvcNames;
    }

    method SnapshotBatch(before: seq<string>, allPvcNames: seq<string>, initial: nat, final: nat) returns (snapNameList: seq<string>)
      requires initial <= final <= |allPvcNames| && SnapshotsOf(before, allPvcNames[..initial])
      ensures SnapshotsOf(snapNameList, allPvcNames[..final])
    {
      snapNameList := before;
      for k := initial to final
        invariant SnapshotsOf(snapNameList, allPvcNames[..k])
      {
        snapNameList := snapNameList + [SnapName(allPvcNames[k])];
      }
    }

    /** The second creation loops, reading their sources by the flat index. */
    method RestoreVolumes(sources: seq<string>) returns (pods: seq<seq<string>>, visited: seq<nat>)
      requires volumeNumber > 0 && podNumber > 0 && |sources| == podNumber * volumeNumber
      ensures |pods| == podNumber && forall i :: 0 <= i < podNumber ==> |pods[i]| == volumeNumber
      ensures Concat(pods) == sources
      ensures |visited| == |sources| && forall k :: 0 <= k < |visited| ==> visited[k] == k
    {
      pods, visited := [], [];
      for i := 0 to podNumber
        invariant |pods| == i && forall k :: 0 <= k < i ==> |pods[k]| == volumeNumber
        invariant |visited| == i * volumeNumber <= |sources|
        invariant Concat(pods) == sources[..|visited|]
        invariant forall k :: 0 <= k < |visited| ==> visited[k] == k
      {
        NextRow(i, podNumber, volumeNumber);
        ghost var first := |visited|;
        var pvcNameList;
        pvcNameList, visited := RestorePod(sources, visited, i);
        ConcatSnoc(pods, pvcNameList);
        assert sources[..first + volumeNumber] == sources[..first] + sources[first..first + volumeNumber];
        pods := pods + [pvcNameList];
      }
      assert sources[..|sources|] == sources;
    }

    method RestorePod(sources: seq<string>, before: seq<nat>, i: nat) returns (pvcNameList: seq<string>, visited: seq<nat>)
      requires volumeNumber > 0 && |before| == i * volumeNumber && |before| + volumeNumber <= |sources|
      requires forall k :: 0 <= k < |before| ==> before[k] == k
      ensures pvcNameList == sources[|before|..|before| + volumeNumber]
      ensures |visited| == |before| + volumeNumber && forall k :: 0 <= k < |visited| ==> visited[k] == k
    {
      pvcNameList, visited := [], before;
      for j := 0 to volumeNumber
        invariant |pvcNameList| == j && |visited| == |before| + j
        invariant pvcNameList == sources[|before|..|before| + j]
        invariant forall k :: 0 <= k < |visited| ==> visited[k] == k
      {
        var at := j + (i * volumeNumber);
        pvcNameList := pvcNameList + [sources[at]];
        visited := visited + [at];
      }
    }

    /** ReplicationSuite.Run up to the restored pods: pod i's volume j is restored from the snapshot
        of pod i's volume j. */
    method RunReplication(newName: nat -> string) returns (pods: seq<seq<string>>, restored: seq<seq<string>>)
      modifies this
      ensures |pods| == |restored| == podNumber
      ensures forall i, j :: 0 <= i < podNumber && 0 <= j < volumeNumber ==>
                && |pods[i]| == |restored[i]| == volumeNumber
                && pods[i][j] == newName(j + i * volumeNumber) && restored[i][j] == "snap-" + pods[i][j]
    {
      ApplyDefaults();
      var allPvcNames, snapNameList, batches, visited;
      allPvcNames, pods := CreateVolumes(newName);
      snapNameList, batches := SnapshotVolumes(allPvcNames);
      ConcatSize(pods, volumeNumber);
      restored, visited := RestoreVolumes(snapNameList);
      SameShape(pods, restored, volumeNumber, allPvcNames, snapNameList);
      NamedInOrder(pods, volumeNumber, newName);
    }

    /** CloneVolumeSuite.Run up to the cloned pods: pod i's volume j is cloned to pod i's clone j. */
    method RunClone(newName: nat -> string) returns (pods: seq<seq<string>>, cloned: seq<seq<string>>)
      modifies this
      ensures |pods| == podNumber && cloned == pods
      ensures forall i, j :: 0 <= i < podNumber && 0 <= j < volumeNumber ==>
                |pods[i]| == volumeNumber && pods[i][j] == newName(j + i * volumeNumber)
    {
      ApplyDefaults();
      var allPvcNames, visited;
      allPvcNames, pods := CreateVolumes(newName);
      ConcatSize(pods, volumeNumber);
      cloned, visited := RestoreVolumes(allPvcNames);
      SamePods(pods, cloned, volumeNumber);
      NamedInOrder(pods, volumeNumber, newName);
    }
  }

  /** Equal parts of matching lists match entry by entry. */
  lemma SameShape(pods: seq<seq<string>>, restored: seq<seq<string>>, size: nat, pvcs: seq<string>, snaps: seq<string>)
    requires |pods| == |restored| && SnapshotsOf(snaps, pvcs) && Concat(pods) == pvcs && Concat(restored) == snaps
    requires forall k :: 0 <= k < |pods| ==> |pods[k]| == |restored[k]| == size
    ensures forall i, j :: 0 <= i < |pods| && 0 <= j < size ==> restored[i][j] == "snap-" + pods[i][j]
  {
    forall i, j | 0 <= i < |pods| && 0 <= j < size ensures restored[i][j] == "snap-" + pods[i][j] {
      ConcatAt(pods, size, i, j);
      ConcatAt(restored, size, i, j);
    }
  }

  lemma NamedInOrder(pods: seq<seq<string>>, size: nat, newName: nat -> string)
    requires forall k :: 0 <= k < |pods| ==> |pods[k]| == size
    requires forall k :: 0 <= k < |Concat(pods)| ==> Concat(pods)[k] == newName(k)
    ensures forall i, j :: 0 <= i < |pods| && 0 <= j < size ==> pods[i][j] == newName(j + i * size)
  {
    forall i, j | 0 <= i < |pods| && 0 <= j < size ensures pods[i][j] == newName(j + i * size) {
      ConcatAt(pods, size, i, j);
    }
  }

  lemma SamePods(pods: seq<seq<string>>, cloned: seq<seq<string>>, size: nat)
    requires |pods| == |cloned| && Concat(pods) == Concat(cloned)
    requires forall k :: 0 <= k < |pods| ==> |pods[k]| == |cloned[k]| == size
    ensures cloned == pods
  {
    forall i | 0 <= i < |pods| ensures cloned[i] == pods[i] {
      forall j | 0 <= j < size ensures cloned[i][j] == pods[i][j] {
        ConcatAt(pods, size, i, j);
        ConcatAt(cloned, size, i, j);
      }
    }
  }

  function Smaller(a: int, b: int): int {
    if a < b then a else b
  }

  // ------------------------------------------------------------------------- df output

  predicate IsSeparator(c: char) {
    c == ' ' || c == '\n'
  }

  function WordRun(s: string): (n: nat)
    ensures n <= |s| && forall i :: 0 <= i < n ==> !IsSeparator(s[i])
    ensures n < |s| ==> IsSeparator(s[n])
  {
    if s == "" || IsSeparator(s[0]) then 0 else 1 + WordRun(s[1..])
  }

  /** strings.FieldsFunc on blanks and newlines. */
  function Fields(s: string): seq<string>
    decreases |s|
  {
    if s == "" then []
    else if IsSeparator(s[0]) then Fields(s[1..])
    else [s[..WordRun(s)]] + Fields(s[WordRun(s)..])
  }

  datatype Size = Size(kib: int) | Unreadable

  function ReadSize(size: string): Size {
    if size == "" then Size(0)
    else match ParseDuration.ParseInt(size)
      case Number(n) => Size(n)
      case NotANumber => Unreadable
  }

  /** The size left by the loop that starts at field i. */
  function SizeFrom(sliced: seq<string>, mountPath: string, i: nat, size: string): string
    requires i >= 4
    decreases |sliced| - i
  {
    if i >= |sliced| then size
    else SizeFrom(sliced, mountPath, i + 6, if Contains(sliced[i], mountPath) then sliced[i - 4] else size)
  }

  method CheckSize(res: string, mountPath: string) returns (r: Size)
    ensures r == ReadSize(SizeFrom(Fields(res), mountPath, 12, ""))
  {
    var size := "";
    var sliced := Fields(res);
    var i := 12;
    while i < |sliced|
      invariant i >= 12
      invariant SizeFrom(sliced, mountPath, i, size) == SizeFrom(sliced, mountPath, 12, "")
    {
      if Contains(sliced[i], mountPath) {
        size := sliced[i - 4];
      }
      i := i + 6;
    }
    if size == "" {
      return Size(0);
    }
    r := ReadSize(size);
  }

  predicate IsWord(w: string) {
    w != "" && forall i :: 0 <= i < |w| ==> !IsSeparator(w[i])
  }

  predicate IsBlank(s: string) {
    forall i :: 0 <= i < |s| ==> IsSeparator(s[i])
  }

  /** Words, each followed by its separators. */
  function Layout(words: seq<string>, gaps: seq<string>): string
    requires |gaps| == |words|
  {
    if words == [] then "" else words[0] + gaps[0] + Layout(words[1..], gaps[1..])
  }

  /** Only the last gap may be empty. */
  predicate Separates(gaps: seq<string>) {
    forall i :: 0 <= i < |gaps| ==> IsBlank(gaps[i]) && (i < |gaps| - 1 ==> gaps[i] != "")
  }

  lemma {:induction false} SkipBlank(blank: string, s: string)
    requires IsBlank(blank)
    ensures Fields(blank + s) == Fields(s)
  {
    if blank == "" {
      assert blank + s == s;
    } else {
      SkipBlank(blank[1..], s);
      assert (blank + s)[1..] == blank[1..] + s;
    }
  }

  lemma {:induction false} RunOfWord(w: string, s: string)
    requires (forall i :: 0 <= i < |w| ==> !IsSeparator(w[i])) && (s == "" || IsSeparator(s[0]))
    ensures WordRun(w + s) == |w|
  {
    if w == "" {
      assert w + s == s;
    } else {
      RunOfWord(w[1..], s);
      assert (w + s)[1..] == w[1..] + s;
    }
  }

  /** Any layout of words splits back into the words. */
  lemma {:induction false} FieldsOfLayout(words: seq<string>, gaps: seq<string>)
    requires |gaps| == |words| && Separates(gaps) && forall i :: 0 <= i < |words| ==> IsWord(words[i])
    ensures Fields(Layout(words, gaps)) == words
  {
    if words == [] {
    } else {
      var w, gap, rest := words[0], gaps[0], Layout(words[1..], gaps[1..]);
      FieldsOfLayout(words[1..], gaps[1..]);
      SkipBlank(gap, rest);
      assert gap + rest == "" || IsSeparator((gap + rest)[0]);
      RunOfWord(w, gap + rest);
      assert w + gap + rest == w + (gap + rest);
      assert (w + (gap + rest))[..|w|] == w && (w + (gap + rest))[|w|..] == gap + rest;
      assert words == [w] + words[1..];
    }
  }

  datatype DfRow = DfRow(filesystem: string, blocks: string, used: string, available: string, use: string, mountedOn: string)

  function RowWords(r: DfRow): seq<string> {
    [r.filesystem, r.blocks, r.used, r.available, r.use, r.mountedOn]
  }

  function TableWords(rows: seq<DfRow>): seq<string> {
    if rows == [] then [] else RowWords(rows[0]) + TableWords(rows[1..])
  }

  /** The last row whose mount field contains the path. */
  function LastMounted(rows: seq<DfRow>, mountPath: string): (r: seq<DfRow>)
    ensures |r| <= 1
  {
    if rows == [] then []
    else if Contains(rows[|rows| - 1].mountedOn, mountPath) then [rows[|rows| - 1]]
    else LastMounted(rows[..|rows| - 1], mountPath)
  }

  lemma {:induction false} LastMountedCons(rows: seq<DfRow>, mountPath: string)
    requires rows != []
    ensures LastMounted(rows, mountPath)
         == if LastMounted(rows[1..], mountPath) != [] then LastMounted(rows[1..], mountPath)
            else if Contains(rows[0].mountedOn, mountPath) then [rows[0]] else []
  {
    if |rows| > 1 {
      var front := rows[..|rows| - 1];
      LastMountedCons(front, mountPath);
      assert rows[1..][..|rows[1..]| - 1] == front[1..];
    }
  }

  /** Reading on behind some words that end where a row starts. */
  lemma {:induction false} SizeOfRows(before: seq<string>, rows: seq<DfRow>, mountPath: string, size: string)
    ensures SizeFrom(before + TableWords(rows), mountPath, |before| + 5, size)
         == var last := LastMounted(rows, mountPath); if last == [] then size else last[0].blocks
    decreases |rows|
  {
    var words := before + TableWords(rows);
    if rows != [] {
      var i := |before| + 5;
      LastMountedCons(rows, mountPath);
      assert words == before + RowWords(rows[0]) + TableWords(rows[1..]);
      assert words[i] == rows[0].mountedOn && words[i - 4] == rows[0].blocks;
      SizeOfRows(before + RowWords(rows[0]), rows[1..], mountPath,
                 if Contains(rows[0].mountedOn, mountPath) then rows[0].blocks else size);
    }
  }

  /** df output of a seven-word header and six-word rows, laid out with any blanks and newlines:
      checkSize reads the size column of the last row mounted under the path, and 0 if there is
      none. */
  lemma CheckSizeReadsTable(lead: string, header: seq<string>, rows: seq<DfRow>, gaps: seq<string>, mountPath: string)
    requires |header| == 7 && |gaps| == |header + TableWords(rows)| && IsBlank(lead) && Separates(gaps)
    requires forall i :: 0 <= i < |header + TableWords(rows)| ==> IsWord((header + TableWords(rows))[i])
    ensures ReadSize(SizeFrom(Fields(lead + Layout(header + TableWords(rows), gaps)), mountPath, 12, ""))
         == var last := LastMounted(rows, mountPath); if last == [] then Size(0) else ReadSize(last[0].blocks)
  {
    SkipBlank(lead, Layout(header + TableWords(rows), gaps));
    FieldsOfLayout(header + TableWords(rows), gaps);
    SizeOfRows(header, rows, mountPath, "");
  }

  /** When that column holds a printed number, this is the size. */
  lemma CheckSizeReadsNumber(lead: string, header: seq<string>, rows: seq<DfRow>, gaps: seq<string>, mountPath: string, n: nat)
    requires |header| == 7 && |gaps| == |header + TableWords(rows)| && IsBlank(lead) && Separates(gaps)
    requires forall i :: 0 <= i < |header + TableWords(rows)| ==> IsWord((header + TableWords(rows))[i])
    requires LastMounted(rows, mountPath) != [] && LastMounted(rows, mountPath)[0].blocks == ParseDuration.Itoa(n)
    ensures ReadSize(SizeFrom(Fields(lead + Layout(header + TableWords(rows), gaps)), mountPath, 12, ""))
         == if n <= 0x7FFF_FFFF_FFFF_FFFF then Size(n) else Unreadable
  {
    CheckSizeReadsTable(lead, header, rows, gaps, mountPath);
    ParseDuration.ParsesPrinted(n);
  }
}
