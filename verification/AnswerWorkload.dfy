/**
 * The converted request stream as a workload: named events, one split, checked by the workload validator. A pair
 * becomes two rows.
 */
module AnswerWorkload {
  import opened Basics
  import opened SemanticCache
  import opened AnswerTrace
  import PairGrouping

  // ----- event names -----

  function Digit(d: nat): char
    requires d < 10
  {
    (48 + d) as char
  }

  function Decimal(n: nat): string {
    if n < 10 then [Digit(n)] else Decimal(n / 10) + [Digit(n % 10)]
  }

  lemma {:induction false} DecimalInjective(a: nat, b: nat)
    requires Decimal(a) == Decimal(b)
    ensures a == b
  {
    var s, t := Decimal(a), Decimal(b);
    DecimalLast(a);
    DecimalLast(b);
    DecimalShort(a);
    DecimalShort(b);
    if a >= 10 && b >= 10 {
      assert s[..|s| - 1] == Decimal(a / 10) && t[..|t| - 1] == Decimal(b / 10);
      DecimalInjective(a / 10, b / 10);
    }
  }

  lemma DecimalLast(n: nat)
    ensures Decimal(n) != [] && Decimal(n)[|Decimal(n)| - 1] == Digit(n % 10)
  {
  }

  lemma DecimalShort(n: nat)
    ensures |Decimal(n)| == 1 <==> n < 10
  {
    if n >= 10 {
      DecimalLast(n / 10);
    }
  }

  /** `pair-7-a`. */
  function EventId(pairIndex: nat, side: char): string {
    "pair-" + Decimal(pairIndex) + "-" + [side]
  }

  /** Different rows of the stream have different names. */
  lemma EventIdInjective(i: nat, a: char, j: nat, b: char)
    requires EventId(i, a) == EventId(j, b)
    ensures i == j && a == b
  {
    var s, t := EventId(i, a), EventId(j, b);
    assert s[|s| - 1] == a && t[|t| - 1] == b;
    assert |s| == |Decimal(i)| + 7 && |t| == |Decimal(j)| + 7;
    assert s[5..|s| - 2] == Decimal(i) && t[5..|t| - 2] == Decimal(j);
    DecimalInjective(i, j);
  }

  // ----- the workload -----

  /** The printed form of a text key, a hexadecimal digest. */
  type Printer = nat -> string

  ghost predicate Readable(show: Printer) {
    forall g :: !Blank(show(g))
  }

  const TENANT := "development-benchmark"

  function RowOf(show: Printer, model: string, r: PairGrouping.Request): Row {
    Row(EventId(r.pairIndex, r.side), TENANT, r.source, show(r.group), "dev",
        Body(map["model" := Str(model), "temperature" := Number(0.0), "max_tokens" := Number(256.0)], [], "user", r.text))
  }

  function RowsOf(show: Printer, model: string, requests: seq<PairGrouping.Request>): seq<Row> {
    seq(|requests|, i requires 0 <= i < |requests| => RowOf(show, model, requests[i]))
  }

  datatype Rejection = BadPair(why: PairGrouping.Refusal) | BadWorkload

  /** What the converter needs of one pair. */
  predicate Usable(p: PairGrouping.Pair) {
    !Blank(p.queryA) && !Blank(p.queryB) && PairGrouping.Sourced(p)
  }

  /** The finished stream is refused only for having no rows or no license note: names, texts and splits are in order. */
  lemma ConvertedRowsAreClean(show: Printer, normalize: string -> string, key: PairGrouping.TextKey,
                              pairs: seq<PairGrouping.Pair>, model: string, requests: seq<PairGrouping.Request>)
    requires Readable(show)
    requires forall i :: 0 <= i < |pairs| ==> Usable(pairs[i])
    requires |requests| == 2 * |pairs| && forall n :: 0 <= n < |requests| ==> PairGrouping.RowFor(key, pairs, requests[n], n)
    ensures CleanRows(normalize, RowsOf(show, model, requests))
  {
    var rows := RowsOf(show, model, requests);
    hide PairGrouping.IsGroup, PairGrouping.EdgesOf, TextsOf, EventId;
    forall n | 0 <= n < |rows|
      ensures ValidRow(rows[n])
    {
      assert PairGrouping.RowFor(key, pairs, requests[n], n) && Usable(pairs[n / 2]);
      NameIsFilled(requests[n].pairIndex, requests[n].side);
      assert !IsSpace(TENANT[0]) && !IsSpace("user"[0]);
    }
    NamesDiffer(show, key, pairs, model, requests);
  }

  lemma NamesDiffer(show: Printer, key: PairGrouping.TextKey, pairs: seq<PairGrouping.Pair>, model: string,
                    requests: seq<PairGrouping.Request>)
    requires |requests| == 2 * |pairs| && forall n :: 0 <= n < |requests| ==> PairGrouping.RowFor(key, pairs, requests[n], n)
    ensures DistinctRows(RowsOf(show, model, requests))
  {
    hide PairGrouping.IsGroup, PairGrouping.EdgesOf, EventId;
    forall i, j | 0 <= i < j < |requests|
      ensures EventId(requests[i].pairIndex, requests[i].side) != EventId(requests[j].pairIndex, requests[j].side)
    {
      assert PairGrouping.RowFor(key, pairs, requests[i], i) && PairGrouping.RowFor(key, pairs, requests[j], j);
      if EventId(requests[i].pairIndex, requests[i].side) == EventId(requests[j].pairIndex, requests[j].side) {
        EventIdInjective(requests[i].pairIndex, requests[i].side, requests[j].pairIndex, requests[j].side);
      }
    }
  }

  lemma NameIsFilled(i: nat, side: char)
    ensures !Blank(EventId(i, side))
  {
    assert EventId(i, side)[0] == 'p';
  }

  /**
   * Conversion and validation together: accepted exactly for a nonempty list of usable pairs with a license note,
   * and then a valid workload whose rows are the grouped requests in order.
   */
  method PrepareWorkload(key: PairGrouping.TextKey, show: Printer, normalize: string -> string,
                         pairs: seq<PairGrouping.Pair>, model: string, license: string)
    returns (r: Result<Workload, Rejection>, ghost requests: seq<PairGrouping.Request>)
    requires Readable(show)
    ensures r.Ok? <==> pairs != [] && !Blank(license) && forall i :: 0 <= i < |pairs| ==> Usable(pairs[i])
    ensures r == Err(BadWorkload) <==> (pairs == [] || Blank(license)) && forall i :: 0 <= i < |pairs| ==> Usable(pairs[i])
    ensures r.Ok? ==>
      && ValidWorkload(normalize, r.value) && r.value.license == license
      && |requests| == 2 * |pairs| && (forall n :: 0 <= n < |requests| ==> PairGrouping.RowFor(key, pairs, requests[n], n))
      && r.value.rows == RowsOf(show, model, requests)
  {
    var converted := PairGrouping.ConvertPairs(key, pairs);
    requests := [];
    hide PairGrouping.RowFor;
    if converted.Err? {
      assert converted.error.BlankText? || converted.error.MissingSource?;
      return Err(BadPair(converted.error)), [];
    }
    requests := converted.value;
    ConvertedRowsAreClean(show, normalize, key, pairs, model, converted.value);
    var w := Workload("converted-development-pairs", "Existing exposed development/training pairs", license,
                      "constructed_natural_queries", RowsOf(show, model, converted.value));
    assert !IsSpace(w.name[0]) && !IsSpace(w.provenance[0]);
    var valid := ValidateWorkload(normalize, w);
    hide CleanRows, RowsOf;
    r := if valid then Ok(w) else Err(BadWorkload);
  }

  /** The row asks this text, once, as the user and alone, under the name of its pair and side. */
  predicate Asks(r: Row, model: string, pairIndex: nat, side: char, text: string, source: string) {
    && r.request.content == text && r.request.lastRole == "user" && r.request.earlier == []
    && r.request.fields == map["model" := Str(model), "temperature" := Number(0.0), "max_tokens" := Number(256.0)]
    && r.source == source && r.tenant == "development-benchmark" && r.split == "dev"
    && r.eventId == "pair-" + Decimal(pairIndex) + ['-', side]
  }

  /**
   * Row by row: pair k gives its first query as row 2k and its second as row 2k + 1, and two rows are in one group
   * exactly when a chain of pairs connects their texts.
   */
  lemma RowsAskThePairs(key: PairGrouping.TextKey, show: Printer, pairs: seq<PairGrouping.Pair>, model: string,
                        requests: seq<PairGrouping.Request>)
    requires |requests| == 2 * |pairs| && forall n :: 0 <= n < |requests| ==> PairGrouping.RowFor(key, pairs, requests[n], n)
    requires forall g, h :: show(g) == show(h) ==> g == h
    ensures var rows := RowsOf(show, model, requests);
      && |rows| == 2 * |pairs|
      && (forall k :: 0 <= k < |pairs| ==>
            && pairs[k].source.Some?
            && Asks(rows[2 * k], model, k, 'a', pairs[k].queryA, pairs[k].source.value)
            && Asks(rows[2 * k + 1], model, k, 'b', pairs[k].queryB, pairs[k].source.value))
      && forall i, j :: 0 <= i < |rows| && 0 <= j < |rows| ==>
           (rows[i].group == rows[j].group <==>
              PairGrouping.Connected(PairGrouping.EdgesOf(key, pairs), key(rows[i].request.content), key(rows[j].request.content)))
  {
    hide PairGrouping.RowFor, PairGrouping.EdgesOf, PairGrouping.Connected, Asks, RowOf;
    forall k | 0 <= k < |pairs|
      ensures pairs[k].source.Some? && Asks(RowOf(show, model, requests[2 * k]), model, k, 'a', pairs[k].queryA, pairs[k].source.value)
      ensures Asks(RowOf(show, model, requests[2 * k + 1]), model, k, 'b', pairs[k].queryB, pairs[k].source.value)
    {
      assert PairGrouping.RowFor(key, pairs, requests[2 * k], 2 * k);
      assert PairGrouping.RowFor(key, pairs, requests[2 * k + 1], 2 * k + 1);
      RowsOfPair(key, show, pairs, model, requests, k);
    }
    var edges := PairGrouping.EdgesOf(key, pairs);
    forall i, j | 0 <= i < |requests| && 0 <= j < |requests|
      ensures var a, b := RowOf(show, model, requests[i]), RowOf(show, model, requests[j]);
        a.group == b.group <==> PairGrouping.Connected(edges, key(a.request.content), key(b.request.content))
    {
      assert PairGrouping.RowFor(key, pairs, requests[i], i) && PairGrouping.RowFor(key, pairs, requests[j], j);
      GroupsOfRows(key, show, pairs, model, requests[i], i, requests[j], j);
    }
  }

  lemma RowsOfPair(key: PairGrouping.TextKey, show: Printer, pairs: seq<PairGrouping.Pair>, model: string,
                   requests: seq<PairGrouping.Request>, k: nat)
    requires |requests| == 2 * |pairs| && k < |pairs|
    requires PairGrouping.RowFor(key, pairs, requests[2 * k], 2 * k)
    requires PairGrouping.RowFor(key, pairs, requests[2 * k + 1], 2 * k + 1)
    ensures pairs[k].source.Some? && Asks(RowOf(show, model, requests[2 * k]), model, k, 'a', pairs[k].queryA, pairs[k].source.value)
    ensures Asks(RowOf(show, model, requests[2 * k + 1]), model, k, 'b', pairs[k].queryB, pairs[k].source.value)
  {
    hide PairGrouping.IsGroup, PairGrouping.EdgesOf, Decimal;
    assert forall name: string, side: char :: "pair-" + name + ['-', side] == "pair-" + name + "-" + [side];
  }

  lemma GroupsOfRows(key: PairGrouping.TextKey, show: Printer, pairs: seq<PairGrouping.Pair>, model: string,
                     a: PairGrouping.Request, i: nat, b: PairGrouping.Request, j: nat)
    requires i < 2 * |pairs| && j < 2 * |pairs| && PairGrouping.RowFor(key, pairs, a, i) && PairGrouping.RowFor(key, pairs, b, j)
    requires forall g, h :: show(g) == show(h) ==> g == h
    ensures var ra, rb := RowOf(show, model, a), RowOf(show, model, b);
      ra.group == rb.group <==>
        PairGrouping.Connected(PairGrouping.EdgesOf(key, pairs), key(ra.request.content), key(rb.request.content))
  {
    hide PairGrouping.IsGroup, PairGrouping.EdgesOf, PairGrouping.Connected, EventId;
    PairGrouping.SameGroupIffConnected(PairGrouping.EdgesOf(key, pairs), key(a.text), a.group, key(b.text), b.group);
  }
}
