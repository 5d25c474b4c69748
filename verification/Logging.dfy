/** Cleaning up old log files. */
module Logging {
  import opened Wrappers

  /** A file the pattern matches, with its modification time if it can be read. */
  datatype LogFile = LogFile(path: string, stat: Option<int>)

  datatype FileInfo = FileInfo(path: string, modTime: int)

  function Infos(files: seq<LogFile>): seq<FileInfo> {
    if files == [] then []
    else
      var last := files[|files| - 1];
      Infos(files[..|files| - 1]) + if last.stat.Some? then [FileInfo(last.path, last.stat.value)] else []
  }

  /** Every readable file is there, as often as it matched and with its time. */
  lemma {:induction false} InfosExactly(files: seq<LogFile>, info: FileInfo)
    ensures multiset(Infos(files))[info] == multiset(files)[LogFile(info.path, Some(info.modTime))]
  {
    if files == [] {
    } else {
      InfosExactly(files[..|files| - 1], info);
      assert files == files[..|files| - 1] + [files[|files| - 1]];
    }
  }

  predicate SortedUpTo(s: seq<FileInfo>, n: nat)
    requires n <= |s|
  {
    forall i, j :: 0 <= i < n && i < j < |s| ==> s[i].modTime <= s[j].modTime
  }

  /** The i-th place holds the oldest of the files from i on that have been looked at. */
  predicate OldestUpTo(s: seq<FileInfo>, i: nat, n: nat)
    requires i < n <= |s|
  {
    forall k :: i <= k < n ==> s[i].modTime <= s[k].modTime
  }

  function Swapped(s: seq<FileInfo>, i: nat, j: nat): (r: seq<FileInfo>)
    requires i < j < |s|
    ensures |r| == |s|
  {
    s[i := s[j]][j := s[i]]
  }

  lemma SwapPermutes(s: seq<FileInfo>, i: nat, j: nat)
    requires i < j < |s|
    ensures multiset(Swapped(s, i, j)) == multiset(s)
  {
  }

  lemma SwapKeepsOrder(s: seq<FileInfo>, i: nat, j: nat)
    requires i < j < |s| && SortedUpTo(s, i) && OldestUpTo(s, i, j) && s[i].modTime > s[j].modTime
    ensures SortedUpTo(Swapped(s, i, j), i) && OldestUpTo(Swapped(s, i, j), i, j + 1)
  {
  }

  /** The exchange sort: oldest first, in place. */
  method SortByModTime(fileInfos: array<FileInfo>)
    modifies fileInfos
    ensures SortedUpTo(fileInfos[..], fileInfos.Length)
    ensures multiset(fileInfos[..]) == multiset(old(fileInfos[..]))
  {
    var n := fileInfos.Length;
    for i := 0 to n
      invariant SortedUpTo(fileInfos[..], i)
      invariant multiset(fileInfos[..]) == multiset(old(fileInfos[..]))
    {
      for j := i + 1 to n
        invariant SortedUpTo(fileInfos[..], i) && OldestUpTo(fileInfos[..], i, j)
        invariant multiset(fileInfos[..]) == multiset(old(fileInfos[..]))
      {
        if fileInfos[i].modTime > fileInfos[j].modTime {
          ghost var before := fileInfos[..];
          SwapPermutes(before, i, j);
          SwapKeepsOrder(before, i, j);
          fileInfos[i], fileInfos[j] := fileInfos[j], fileInfos[i];
          assert fileInfos[..] == Swapped(before, i, j);
        }
      }
    }
  }

  /** Removes as many of the files as there are too many, and none that is newer than one it keeps. */
  method CleanupOldFiles(files: seq<LogFile>, maxFiles: nat) returns (removed: seq<FileInfo>)
    ensures |removed| == if |Infos(files)| > maxFiles then |Infos(files)| - maxFiles else 0
    ensures multiset(removed) <= multiset(Infos(files))
    ensures forall r, k :: r in removed && k in multiset(Infos(files)) - multiset(removed) ==> r.modTime <= k.modTime
  {
    InfosAreFewer(files);
    removed := [];
    if |files| <= maxFiles { return; }

    var infos := [];
    for i := 0 to |files|
      invariant infos == Infos(files[..i])
    {
      assert files[..i + 1][..i] == files[..i];
      if files[i].stat.None? { continue; }
      infos := infos + [FileInfo(files[i].path, files[i].stat.value)];
    }
    assert files[..|files|] == files;

    var fileInfos := new FileInfo[|infos|](i requires 0 <= i < |infos| => infos[i]);
    assert fileInfos[..] == infos;
    SortByModTime(fileInfos);
    var i := 0;
    while i < fileInfos.Length - maxFiles
      invariant 0 <= i <= fileInfos.Length && (i == 0 || i <= fileInfos.Length - maxFiles)
      invariant removed == fileInfos[..i]
    {
      removed := removed + [fileInfos[i]];
      i := i + 1;
    }
    PrefixIsOldest(fileInfos[..], i);
  }

  lemma {:induction false} InfosAreFewer(files: seq<LogFile>)
    ensures |Infos(files)| <= |files|
  {
    if files == [] {
    } else {
      InfosAreFewer(files[..|files| - 1]);
    }
  }

  lemma PrefixIsOldest(s: seq<FileInfo>, n: nat)
    requires n <= |s| && SortedUpTo(s, |s|)
    ensures multiset(s[..n]) <= multiset(s)
    ensures forall r, k :: r in s[..n] && k in multiset(s) - multiset(s[..n]) ==> r.modTime <= k.modTime
  {
    assert s == s[..n] + s[n..];
    assert multiset(s) - multiset(s[..n]) == multiset(s[n..]);
    forall r, k | r in s[..n] && k in multiset(s[n..]) ensures r.modTime <= k.modTime {
      assert k in s[n..];
    }
  }
}
