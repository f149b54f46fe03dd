/** The page sizes a report can be laid out on, each with the name templates and CSS use for it. */
module PageSizes {

  /** The constants, in declaration order. */
  datatype PageSize = A4 | Letter | Legal | A3 | A5

  /** Every constant, in declaration order, as `PageSize.values()` lists them. */
  function Values(): (r: seq<PageSize>)
    ensures |r| == 5
    ensures forall i, j :: 0 <= i < j < |r| ==> r[i] != r[j]
    ensures r[0] == A4
  {
    [A4, Letter, Legal, A3, A5]
  }

  /** `getValue`: the size name written under the data model's `pageSize` key. */
  function Value(size: PageSize): (r: string)
    ensures |r| > 0
    ensures forall i :: 0 <= i < |r| ==> ('a' <= r[i] <= 'z') || ('A' <= r[i] <= 'Z') || ('0' <= r[i] <= '9')
  {
    match size
    case A4 => "A4"
    case Letter => "letter"
    case Legal => "legal"
    case A3 => "A3"
    case A5 => "A5"
  }

  /** Distinct constants have distinct names, so a `pageSize` entry written by the builder names one size. */
  lemma ValueInjective(a: PageSize, b: PageSize)
    requires Value(a) == Value(b)
    ensures a == b
  {
  }

  /** `values()` misses no constant. */
  lemma ValuesComplete(size: PageSize)
    ensures size in Values()
  {
    match size
    case A4 => assert Values()[0] == size;
    case Letter => assert Values()[1] == size;
    case Legal => assert Values()[2] == size;
    case A3 => assert Values()[3] == size;
    case A5 => assert Values()[4] == size;
  }
}
