/** `VikingFileHandler`: order-preserving filters and counts over a list of files. */
module VikingHandler {
  import opened OxxRecords
  import Seqs

  /** `filter_by_viking_link`: the files that have a viking link, in their original order. */
  function FilterByVikingLink(files: seq<OxxFile>): (r: seq<OxxFile>)
    ensures |r| <= |files|
    ensures forall k :: 0 <= k < |r| ==> HasVikingLink(r[k])
  {
    Seqs.Filter(HasVikingLink, files)
  }

  /** `filter_by_viking_conversion_failed`: the files whose viking conversion failed, in order. */
  function FilterByVikingConversionFailed(files: seq<OxxFile>): (r: seq<OxxFile>)
    ensures |r| <= |files|
    ensures forall k :: 0 <= k < |r| ==> IsVikingConversionFailed(r[k])
  {
    Seqs.Filter(IsVikingConversionFailed, files)
  }

  /** The filter keeps exactly the files with a viking link, at increasing positions. */
  lemma FilterByVikingLinkPositions(files: seq<OxxFile>) returns (idx: seq<nat>)
    ensures Seqs.SubsequenceAt(FilterByVikingLink(files), files, idx)
    ensures forall i :: 0 <= i < |files| ==> (HasVikingLink(files[i]) <==> i in idx)
  {
    idx := Seqs.FilterPositions(HasVikingLink, files);
  }

  /** The filter keeps exactly the files whose conversion failed, at increasing positions. */
  lemma FilterByVikingConversionFailedPositions(files: seq<OxxFile>) returns (idx: seq<nat>)
    ensures Seqs.SubsequenceAt(FilterByVikingConversionFailed(files), files, idx)
    ensures forall i :: 0 <= i < |files| ==> (IsVikingConversionFailed(files[i]) <==> i in idx)
  {
    idx := Seqs.FilterPositions(IsVikingConversionFailed, files);
  }

  lemma FiltersIdempotent(files: seq<OxxFile>)
    ensures FilterByVikingLink(FilterByVikingLink(files)) == FilterByVikingLink(files)
    ensures FilterByVikingConversionFailed(FilterByVikingConversionFailed(files))
         == FilterByVikingConversionFailed(files)
  {
    Seqs.FilterIdempotent(HasVikingLink, files);
    Seqs.FilterIdempotent(IsVikingConversionFailed, files);
  }

  /** Filtering a concatenation filters each part. */
  lemma FiltersConcat(a: seq<OxxFile>, b: seq<OxxFile>)
    ensures FilterByVikingLink(a + b) == FilterByVikingLink(a) + FilterByVikingLink(b)
    ensures FilterByVikingConversionFailed(a + b)
         == FilterByVikingConversionFailed(a) + FilterByVikingConversionFailed(b)
  {
    Seqs.FilterConcat(HasVikingLink, a, b);
    Seqs.FilterConcat(IsVikingConversionFailed, a, b);
  }

  /** The counts of `get_viking_statistics`; its success rate is not modelled. */
  datatype VikingStatistics = VikingStatistics(
    totalFiles: nat,
    filesWithVikingLink: nat,
    vikingConversionFailures: nat)

  /**
   * `get_viking_statistics` (counts only): the number of files, of files with a
   * viking link, and of files whose viking conversion failed.
   */
  function GetVikingStatistics(files: seq<OxxFile>): (r: VikingStatistics)
    ensures r.totalFiles == |files|
    ensures r.filesWithVikingLink == |FilterByVikingLink(files)|
    ensures r.vikingConversionFailures == |FilterByVikingConversionFailed(files)|
    ensures r.filesWithVikingLink == |Seqs.Positions(HasVikingLink, files)|
    ensures r.vikingConversionFailures == |Seqs.Positions(IsVikingConversionFailed, files)|
    ensures r.filesWithVikingLink <= r.totalFiles && r.vikingConversionFailures <= r.totalFiles
  {
    Seqs.FilterCount(HasVikingLink, files);
    Seqs.FilterCount(IsVikingConversionFailed, files);
    VikingStatistics(
      |files|,
      |FilterByVikingLink(files)|,
      |FilterByVikingConversionFailed(files)|)
  }

  /** The counts of a concatenation are the sums of the counts of its parts. */
  lemma StatisticsConcat(a: seq<OxxFile>, b: seq<OxxFile>)
    ensures GetVikingStatistics(a + b).totalFiles
         == GetVikingStatistics(a).totalFiles + GetVikingStatistics(b).totalFiles
    ensures GetVikingStatistics(a + b).filesWithVikingLink
         == GetVikingStatistics(a).filesWithVikingLink + GetVikingStatistics(b).filesWithVikingLink
    ensures GetVikingStatistics(a + b).vikingConversionFailures
         == GetVikingStatistics(a).vikingConversionFailures + GetVikingStatistics(b).vikingConversionFailures
  {
    FiltersConcat(a, b);
  }
}
