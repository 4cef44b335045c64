/**
 * The Markdown file counter: a walk over a directory tree that counts, folder by folder, the
 * file names ending in ".md", keeps a running total and reports each folder holding at least one.
 *
 * The walk is an input: the (root, files) pairs os.walk yields, in the order it yields them.
 */
module Counter {
  import opened Text

  /** One (root, dirs, files) triple of os.walk; the subdirectory names play no part. */
  datatype WalkStep = WalkStep(root: string, files: seq<string>)

  /** The line printed for a folder: its path and how many .md files it holds. */
  datatype FolderReport = FolderReport(root: string, count: nat)

  predicate IsMarkdown(name: string)
  {
    EndsWith(name, ".md")
  }

  /** [f for f in files if f.endswith('.md')]. */
  function MarkdownFiles(files: seq<string>): (md: seq<string>)
    ensures |md| <= |files|
    decreases |files|
  {
    if files == [] then []
    else (if IsMarkdown(files[0]) then [files[0]] else []) + MarkdownFiles(files[1..])
  }

  /** A file name is counted exactly when it ends with ".md". */
  lemma {:induction false} MarkdownFilesMembers(files: seq<string>)
    ensures forall f :: f in MarkdownFiles(files) <==> f in files && IsMarkdown(f)
    decreases |files|
  {
    if files != [] {
      MarkdownFilesMembers(files[1..]);
      assert files == [files[0]] + files[1..];
    }
  }

  /** The filter distributes over concatenation. */
  lemma {:induction false} MarkdownFilesAppend(a: seq<string>, b: seq<string>)
    ensures MarkdownFiles(a + b) == MarkdownFiles(a) + MarkdownFiles(b)
    decreases |a|
  {
    if a != [] {
      var head := if IsMarkdown(a[0]) then [a[0]] else [];
      assert (a + b)[0] == a[0] && (a + b)[1..] == a[1..] + b;
      MarkdownFilesAppend(a[1..], b);
      calc {
        MarkdownFiles(a + b);
        head + MarkdownFiles(a[1..] + b);
        head + (MarkdownFiles(a[1..]) + MarkdownFiles(b));
        (head + MarkdownFiles(a[1..])) + MarkdownFiles(b);
        MarkdownFiles(a) + MarkdownFiles(b);
      }
    } else {
      assert a + b == b;
    }
  }

  /** The running total after the steps walked so far. */
  function Total(walk: seq<WalkStep>): nat
    decreases |walk|
  {
    if walk == [] then 0
    else Total(walk[..|walk| - 1]) + |MarkdownFiles(walk[|walk| - 1].files)|
  }

  /** The folder lines printed for the steps walked so far, in walk order. */
  function Reports(walk: seq<WalkStep>): seq<FolderReport>
    decreases |walk|
  {
    if walk == [] then []
    else
      var last := walk[|walk| - 1];
      var folderCount := |MarkdownFiles(last.files)|;
      Reports(walk[..|walk| - 1]) + (if folderCount > 0 then [FolderReport(last.root, folderCount)] else [])
  }

  /** The module-level loop: the final total and the folder lines, in order. */
  method CountMarkdownFiles(walk: seq<WalkStep>) returns (totalMdFiles: nat, reports: seq<FolderReport>)
    ensures totalMdFiles == Total(walk)
    ensures reports == Reports(walk)
  {
    totalMdFiles := 0;
    reports := [];
    var i := 0;
    while i < |walk|
      invariant 0 <= i <= |walk|
      invariant totalMdFiles == Total(walk[..i])
      invariant reports == Reports(walk[..i])
    {
      var step := walk[i];
      var mdFiles := MarkdownFiles(step.files);
      var folderCount := |mdFiles|;
      totalMdFiles := totalMdFiles + folderCount;
      if folderCount > 0 {
        reports := reports + [FolderReport(step.root, folderCount)];
      }
      assert walk[..i + 1][..i] == walk[..i];
      i := i + 1;
    }
    assert walk[..i] == walk;
  }

  /** All the file names the walk yields, folder after folder. */
  function AllFiles(walk: seq<WalkStep>): seq<string>
    decreases |walk|
  {
    if walk == [] then [] else AllFiles(walk[..|walk| - 1]) + walk[|walk| - 1].files
  }

  /** The total is the number of .md names among all the files walked. */
  lemma {:induction false} TotalCountsAllFiles(walk: seq<WalkStep>)
    ensures Total(walk) == |MarkdownFiles(AllFiles(walk))|
    decreases |walk|
  {
    if walk != [] {
      var n := |walk| - 1;
      TotalCountsAllFiles(walk[..n]);
      MarkdownFilesAppend(AllFiles(walk[..n]), walk[n].files);
    }
  }

  /** The running total never decreases as the walk goes on. */
  lemma {:induction false} TotalMonotone(walk: seq<WalkStep>, i: nat, j: nat)
    requires i <= j <= |walk|
    ensures Total(walk[..i]) <= Total(walk[..j])
    decreases j - i
  {
    if i < j {
      TotalMonotone(walk, i, j - 1);
      assert walk[..j][..j - 1] == walk[..j - 1];
    }
  }

  function SumCounts(reports: seq<FolderReport>): nat
    decreases |reports|
  {
    if reports == [] then 0 else SumCounts(reports[..|reports| - 1]) + reports[|reports| - 1].count
  }

  lemma {:induction false} SumCountsAppend(a: seq<FolderReport>, b: seq<FolderReport>)
    ensures SumCounts(a + b) == SumCounts(a) + SumCounts(b)
    decreases |b|
  {
    if b == [] {
      assert a + b == a;
    } else {
      var n := |b| - 1;
      SumCountsAppend(a, b[..n]);
      assert (a + b)[..|a + b| - 1] == a + b[..n];
    }
  }

  /** The printed folder counts add up to the printed total. */
  lemma {:induction false} ReportsAddUp(walk: seq<WalkStep>)
    ensures SumCounts(Reports(walk)) == Total(walk)
    decreases |walk|
  {
    if walk != [] {
      var n := |walk| - 1;
      ReportsAddUp(walk[..n]);
      var folderCount := |MarkdownFiles(walk[n].files)|;
      var tail: seq<FolderReport> := if folderCount > 0 then [FolderReport(walk[n].root, folderCount)] else [];
      assert Reports(walk) == Reports(walk[..n]) + tail;
      SumCountsAppend(Reports(walk[..n]), tail);
      assert SumCounts(tail) == folderCount by {
        if folderCount > 0 {
          assert tail[..0] == [];
        }
      }
    }
  }

  /** At most one line per walked folder, and every printed count is positive. */
  lemma {:induction false} ReportsPositive(walk: seq<WalkStep>)
    ensures |Reports(walk)| <= |walk|
    ensures forall k :: 0 <= k < |Reports(walk)| ==> Reports(walk)[k].count > 0
    decreases |walk|
  {
    if walk != [] {
      var n := |walk| - 1;
      ReportsPositive(walk[..n]);
      var prev := Reports(walk[..n]);
      var folderCount := |MarkdownFiles(walk[n].files)|;
      var tail: seq<FolderReport> := if folderCount > 0 then [FolderReport(walk[n].root, folderCount)] else [];
      assert Reports(walk) == prev + tail;
      forall k | 0 <= k < |prev + tail|
        ensures (prev + tail)[k].count > 0
      {
        if k < |prev| {
          assert (prev + tail)[k] == prev[k];
        } else {
          assert (prev + tail)[k] == tail[k - |prev|];
        }
      }
    }
  }

  /** Every folder line names a walked folder together with that folder's count. */
  lemma {:induction false} ReportsFromWalk(walk: seq<WalkStep>, r: FolderReport)
    requires r in Reports(walk)
    ensures exists k :: 0 <= k < |walk| && walk[k].root == r.root && r.count == |MarkdownFiles(walk[k].files)|
    decreases |walk|
  {
    var n := |walk| - 1;
    if r in Reports(walk[..n]) {
      ReportsFromWalk(walk[..n], r);
      var k :| 0 <= k < n && walk[..n][k].root == r.root && r.count == |MarkdownFiles(walk[..n][k].files)|;
      assert walk[k] == walk[..n][k];
    } else {
      assert walk[n].root == r.root && r.count == |MarkdownFiles(walk[n].files)|;
    }
  }

  /** os.walk yields each root once, so no two folder lines name the same folder. */
  lemma {:induction false} ReportsOncePerFolder(walk: seq<WalkStep>)
    requires forall i, j :: 0 <= i < j < |walk| ==> walk[i].root != walk[j].root
    ensures forall a, b :: 0 <= a < b < |Reports(walk)| ==> Reports(walk)[a].root != Reports(walk)[b].root
    decreases |walk|
  {
    if walk != [] {
      var n := |walk| - 1;
      var prefix := walk[..n];
      assert forall i, j :: 0 <= i < j < |prefix| ==> prefix[i].root != prefix[j].root;
      ReportsOncePerFolder(prefix);
      var prev := Reports(prefix);
      var folderCount := |MarkdownFiles(walk[n].files)|;
      var tail: seq<FolderReport> := if folderCount > 0 then [FolderReport(walk[n].root, folderCount)] else [];
      assert Reports(walk) == prev + tail;
      forall a | 0 <= a < |prev|
        ensures prev[a].root != walk[n].root
      {
        ReportsFromWalk(prefix, prev[a]);
        var k :| 0 <= k < |prefix| && prefix[k].root == prev[a].root && prev[a].count == |MarkdownFiles(prefix[k].files)|;
        assert prefix[k] == walk[k];
      }
      forall a, b | 0 <= a < b < |prev + tail|
        ensures (prev + tail)[a].root != (prev + tail)[b].root
      {
        if b < |prev| {
          assert (prev + tail)[a] == prev[a] && (prev + tail)[b] == prev[b];
        } else {
          assert (prev + tail)[a] == prev[a] && (prev + tail)[b] == tail[0];
        }
      }
    }
  }

  /** Folder k of the walk is in the report exactly when it holds a .md file. */
  lemma {:induction false} ReportedIff(walk: seq<WalkStep>, k: nat)
    requires k < |walk|
    ensures FolderReport(walk[k].root, |MarkdownFiles(walk[k].files)|) in Reports(walk)
            <==> |MarkdownFiles(walk[k].files)| > 0
    decreases |walk|
  {
    var folderCount := |MarkdownFiles(walk[k].files)|;
    var report := FolderReport(walk[k].root, folderCount);
    if folderCount == 0 {
      ReportsPositive(walk);
    } else {
      var n := |walk| - 1;
      var prev := Reports(walk[..n]);
      var tail: seq<FolderReport> := if |MarkdownFiles(walk[n].files)| > 0 then [FolderReport(walk[n].root, |MarkdownFiles(walk[n].files)|)] else [];
      assert Reports(walk) == prev + tail;
      if k == n {
        assert tail == [report];
      } else {
        ReportedIff(walk[..n], k);
        assert walk[..n][k] == walk[k];
        assert report in prev;
      }
    }
  }
}
