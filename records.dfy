/** The ledger entry (`Investimento`) and the two column totals the ledger
    reports, computed the way the source computes them (a left `reduce`
    starting from 0) and related to an independent reference sum. */
module Records {

  /** One investment: its label, the amount applied, the expected return
      and the ISO-8601 instant it was registered at. Amounts are
      mathematical reals: the source's floating-point rounding is not
      modelled. */
  datatype Investment = Investment(
    name: string,
    applied: real,
    expectedReturn: real,
    timestamp: string)

  /** The two numeric columns a total can be taken over. */
  datatype Column = Applied | ExpectedReturn

  function AmountOf(inv: Investment, c: Column): real
  {
    match c
    case Applied => inv.applied
    case ExpectedReturn => inv.expectedReturn
  }

  /** Reference definition of a column total: the first entry's amount
      plus the total of the rest. */
  function Sum(s: seq<Investment>, c: Column): real
  {
    if s == [] then 0.0 else AmountOf(s[0], c) + Sum(s[1..], c)
  }

  /** `s.reduce((acc, inv) => acc + inv.<column>, acc)`: a left fold that
      adds the entries' amounts to the accumulator in list order. Its result
      is the accumulator plus the reference sum of the column. */
  function Reduce(s: seq<Investment>, c: Column, acc: real): (r: real)
    ensures r == acc + Sum(s, c)
  {
    if s == [] then acc else Reduce(s[1..], c, acc + AmountOf(s[0], c))
  }

  /** The total of a concatenation is the sum of the totals. */
  lemma {:induction false} SumConcat(s: seq<Investment>, t: seq<Investment>, c: Column)
    ensures Sum(s + t, c) == Sum(s, c) + Sum(t, c)
  {
    if s == [] {
      assert s + t == t;
    } else {
      assert (s + t)[1..] == s[1..] + t;
      SumConcat(s[1..], t, c);
    }
  }

  /** Appending an entry raises the total by exactly that entry's amount. */
  lemma SumAppend(s: seq<Investment>, x: Investment, c: Column)
    ensures Sum(s + [x], c) == Sum(s, c) + AmountOf(x, c)
  {
    SumConcat(s, [x], c);
  }

  /** Deleting position `i` lowers the total by exactly that entry's amount. */
  lemma SumWithout(s: seq<Investment>, i: nat, c: Column)
    requires i < |s|
    ensures Sum(s[..i] + s[i + 1..], c) == Sum(s, c) - AmountOf(s[i], c)
  {
    assert s == s[..i] + ([s[i]] + s[i + 1..]);
    SumConcat(s[..i], [s[i]] + s[i + 1..], c);
    SumConcat([s[i]], s[i + 1..], c);
    SumConcat(s[..i], s[i + 1..], c);
  }

  /** Replacing position `i` changes the total by the difference of the
      new and the old entry's amounts. */
  lemma SumReplace(s: seq<Investment>, i: nat, x: Investment, c: Column)
    requires i < |s|
    ensures Sum(s[i := x], c) == Sum(s, c) - AmountOf(s[i], c) + AmountOf(x, c)
  {
    assert s[i := x] == s[..i] + ([x] + s[i + 1..]);
    assert s == s[..i] + ([s[i]] + s[i + 1..]);
    SumConcat(s[..i], [x] + s[i + 1..], c);
    SumConcat([x], s[i + 1..], c);
    SumConcat(s[..i], [s[i]] + s[i + 1..], c);
    SumConcat([s[i]], s[i + 1..], c);
  }

  /** Every entry carries a non-empty timestamp, as every entry built with
      a real clock reading does. */
  ghost predicate AllStamped(s: seq<Investment>)
  {
    forall i :: 0 <= i < |s| ==> s[i].timestamp != ""
  }
}
