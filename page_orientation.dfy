/** The two page orientations, each with the name templates and CSS use for it. */
module PageOrientations {

  /** The constants, in declaration order; `Portrait` is the builder's default. */
  datatype PageOrientation = Portrait | Landscape

  /** Every constant, in declaration order, as `PageOrientation.values()` lists them. */
  function Values(): (r: seq<PageOrientation>)
    ensures |r| == 2
    ensures r[0] != r[1]
    ensures r[0] == Portrait
  {
    [Portrait, Landscape]
  }

  /** `getValue`: the orientation name written under the data model's `pageOrientation` key. */
  function Value(orientation: PageOrientation): (r: string)
    ensures |r| > 0
    ensures forall i :: 0 <= i < |r| ==> 'a' <= r[i] <= 'z'
  {
    match orientation
    case Portrait => "portrait"
    case Landscape => "landscape"
  }

  /** Distinct constants have distinct names, so a `pageOrientation` entry written by the builder names one orientation. */
  lemma ValueInjective(a: PageOrientation, b: PageOrientation)
    requires Value(a) == Value(b)
    ensures a == b
  {
  }

  /** `values()` misses no constant. */
  lemma ValuesComplete(orientation: PageOrientation)
    ensures orientation in Values()
  {
    match orientation
    case Portrait => assert Values()[0] == orientation;
    case Landscape => assert Values()[1] == orientation;
  }
}
