/**
 * GET /stats: a fold over the store's public views giving the number of
 * records, the sum of their sizes and the average size (0 when empty).
 */
module Stats {
  import opened Store
  import opened Upload

  datatype StatsView = StatsView(totalImages: nat, totalSize: int, averageSize: real)

  /** Reference definition of the total: the sum of the sizes. */
  function SumSizes(views: seq<PublicView>): int {
    if views == [] then 0 else views[0].size + SumSizes(views[1..])
  }

  /** `views.reduce((sum, img) => sum + img.size, acc)`: a left fold. */
  function ReduceSizes(views: seq<PublicView>, acc: int): (r: int)
    ensures r == acc + SumSizes(views)
  {
    if views == [] then acc else ReduceSizes(views[1..], acc + views[0].size)
  }

  /** The /stats payload for the given views. */
  function ComputeStats(views: seq<PublicView>): (s: StatsView)
    ensures s.totalImages == |views|
    ensures s.totalSize == SumSizes(views)
    ensures |views| == 0 ==> s.averageSize == 0.0
    ensures |views| > 0 ==> s.averageSize * |views| as real == s.totalSize as real
  {
    var totalSize := ReduceSizes(views, 0);
    StatsView(|views|, totalSize, if |views| > 0 then totalSize as real / |views| as real else 0.0)
  }

  /** GET /stats on a store. */
  function GetStats(store: ImageStore): (s: StatsView)
    reads store
    ensures s.totalImages == store.GetCount()
    ensures s.totalSize == SumSizes(store.GetAll())
    ensures |store.images| == 0 ==> s.averageSize == 0.0
    ensures |store.images| > 0 ==> s.averageSize * |store.images| as real == s.totalSize as real
  {
    ComputeStats(store.GetAll())
  }

  lemma {:induction false} SumSizesAppend(a: seq<PublicView>, b: seq<PublicView>)
    ensures SumSizes(a + b) == SumSizes(a) + SumSizes(b)
  {
    if a != [] {
      assert (a + b)[1..] == a[1..] + b;
      SumSizesAppend(a[1..], b);
    } else {
      assert a + b == b;
    }
  }

  lemma {:induction false} SumSizesRemove(views: seq<PublicView>, i: nat)
    requires i < |views|
    ensures SumSizes(views[..i] + views[i + 1..]) == SumSizes(views) - views[i].size
  {
    var rest := views[..i] + views[i + 1..];
    if i == 0 {
      assert rest == views[1..];
    } else {
      assert rest[0] == views[0];
      assert rest[1..] == views[1..][..i - 1] + views[1..][i..];
      SumSizesRemove(views[1..], i - 1);
    }
  }

  lemma ProjectAppend(a: seq<ImageRecord>, b: seq<ImageRecord>)
    ensures Project(a + b) == Project(a) + Project(b)
  {
  }

  lemma ProjectRemoveAt(s: seq<ImageRecord>, i: nat)
    requires i < |s|
    ensures Project(RemoveAt(s, i)) == Project(s)[..i] + Project(s)[i + 1..]
  {
    var p := Project(RemoveAt(s, i));
    var q := Project(s)[..i] + Project(s)[i + 1..];
    assert |p| == |q|;
    forall j | 0 <= j < |p|
      ensures p[j] == q[j]
    {
      if j < i {
        assert q[j] == Project(s)[j];
      } else {
        assert q[j] == Project(s)[j + 1];
      }
    }
  }

  /** Adding a record adds one image and its size to the stats. */
  lemma StatsAfterAdd(s: seq<ImageRecord>, r: ImageRecord)
    ensures ComputeStats(Project(s + [r])).totalImages == ComputeStats(Project(s)).totalImages + 1
    ensures ComputeStats(Project(s + [r])).totalSize == ComputeStats(Project(s)).totalSize + r.size
  {
    ProjectAppend(s, [r]);
    SumSizesAppend(Project(s), Project([r]));
  }

  /** Removing the record at position i removes one image and its size from the stats. */
  lemma StatsAfterRemove(s: seq<ImageRecord>, i: nat)
    requires i < |s|
    ensures ComputeStats(Project(RemoveAt(s, i))).totalImages == ComputeStats(Project(s)).totalImages - 1
    ensures ComputeStats(Project(RemoveAt(s, i))).totalSize == ComputeStats(Project(s)).totalSize - s[i].size
  {
    var views := Project(s);
    ProjectRemoveAt(s, i);
    SumSizesRemove(views, i);
  }

  lemma {:induction false} SumSizesBounds(views: seq<PublicView>, m: nat)
    requires forall i :: 0 <= i < |views| ==> views[i].size <= m
    ensures 0 <= SumSizes(views) <= |views| * m
  {
    if views != [] {
      SumSizesBounds(views[1..], m);
    }
  }

  /** An average of amounts between 0 and m lies between 0 and m. */
  lemma AverageBound(total: real, n: real, m: real)
    requires n > 0.0 && 0.0 <= total <= n * m
    ensures 0.0 <= total / n <= m
  {
    var a := total / n;
    assert a * n == total;
    if a > m {
      assert a * n > m * n;
    }
  }

  /** Deleting a record keeps every remaining record admitted. */
  lemma RemoveAtKeepsAdmitted(s: seq<ImageRecord>, i: nat)
    requires i < |s| && AllAdmitted(s)
    ensures AllAdmitted(RemoveAt(s, i))
  {
  }

  /**
   * When every record came through the upload gate, the average size
   * lies between 0 and the 3 MiB limit.
   */
  lemma AverageWithinLimit(s: seq<ImageRecord>)
    requires AllAdmitted(s)
    ensures 0.0 <= ComputeStats(Project(s)).averageSize <= MaxFileSize as real
  {
    var views := Project(s);
    SumSizesBounds(views, MaxFileSize);
    if |views| > 0 {
      var total := SumSizes(views);
      assert total as real <= |views| as real * MaxFileSize as real;
      AverageBound(total as real, |views| as real, MaxFileSize as real);
    }
  }
}
