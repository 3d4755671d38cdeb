/**
 * How a data source turns a listing into one object: no result and more
 * than one result are errors, unless `most_recent` asks for a choice
 * among several.
 */
module Selection {
  /** The outcome of listing all pages and extracting the objects. */
  datatype ListAnswer<T> = QueryFailed(cause: string) | ExtractFailed(cause: string) | Listed(items: seq<T>)

  datatype Selection<T> = NoResults | MultipleResults | Selected(item: T)

  /**
   * One result is taken as it is; among several, `chooser` picks one when
   * `mostRecent` is set.
   */
  function SelectMostRecent<T>(xs: seq<T>, mostRecent: bool, chooser: seq<T> -> T): (r: Selection<T>)
    ensures r.NoResults? <==> |xs| == 0
    ensures r.MultipleResults? <==> |xs| > 1 && !mostRecent
    ensures |xs| == 1 ==> r == Selected(xs[0])
    ensures |xs| > 1 && mostRecent ==> r == Selected(chooser(xs))
  {
    if |xs| < 1 then NoResults
    else if |xs| > 1 then (if mostRecent then Selected(chooser(xs)) else MultipleResults)
    else Selected(xs[0])
  }

  /** Whatever is selected was listed, provided the chooser picks a listed object. */
  lemma SelectedIsListed<T>(xs: seq<T>, mostRecent: bool, chooser: seq<T> -> T)
    requires |xs| > 1 && mostRecent ==> chooser(xs) in xs
    ensures SelectMostRecent(xs, mostRecent, chooser).Selected? ==> SelectMostRecent(xs, mostRecent, chooser).item in xs
  {
  }
}
