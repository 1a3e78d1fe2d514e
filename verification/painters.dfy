/**
 * The painters panel: per painter, the number of works in the selected date
 * range as a decimal string. It shows how many painters there are, the sum of
 * their works, the painter with the most works and one coloured card each.
 * Reading the decimal strings (`parseInt`) is left to a parser passed in.
 */
module Painters {
  import opened Wrappers
  import opened DateFilterContext

  /** One painter's count; a missing name is "". */
  datatype PintorCount = PintorCount(pintor: string, total: string)

  /** `parseInt(total) || 0`: an unreadable total counts as 0. */
  function TotalOf(p: PintorCount, parseInt: string -> Option<int>): int {
    match parseInt(p.total)
    case Some(n) => n
    case None => 0
  }

  /** `totalObras`: the left-to-right sum of the totals. */
  function TotalObras(pintores: seq<PintorCount>, parseInt: string -> Option<int>): int {
    if pintores == [] then 0
    else TotalObras(pintores[..|pintores| - 1], parseInt) + TotalOf(pintores[|pintores| - 1], parseInt)
  }

  /** The works of two lists of painters add up. */
  lemma {:induction false} TotalObrasAppend(a: seq<PintorCount>, b: seq<PintorCount>, parseInt: string -> Option<int>)
    ensures TotalObras(a + b, parseInt) == TotalObras(a, parseInt) + TotalObras(b, parseInt)
    decreases |b|
  {
    if b == [] {
      assert a + b == a;
    } else {
      TotalObrasAppend(a, b[..|b| - 1], parseInt);
      assert (a + b)[..|a + b| - 1] == a + b[..|b| - 1];
    }
  }

  /** The largest total, and 0 when no total is positive. */
  function MaxTotalOf(pintores: seq<PintorCount>, parseInt: string -> Option<int>): (m: int)
    ensures m >= 0
    ensures forall i :: 0 <= i < |pintores| ==> TotalOf(pintores[i], parseInt) <= m
    ensures m > 0 ==> exists i :: 0 <= i < |pintores| && TotalOf(pintores[i], parseInt) == m
  {
    if pintores == [] then 0
    else
      var init := pintores[..|pintores| - 1];
      var m := MaxTotalOf(init, parseInt);
      var t := TotalOf(pintores[|pintores| - 1], parseInt);
      assert forall i :: 0 <= i < |init| ==> pintores[i] == init[i];
      if t > m then t else m
  }

  /** Painter `i` is the first whose total is the maximum, and that maximum is positive. */
  predicate IsTop(pintores: seq<PintorCount>, parseInt: string -> Option<int>, i: int) {
    0 <= i < |pintores|
    && MaxTotalOf(pintores, parseInt) > 0
    && TotalOf(pintores[i], parseInt) == MaxTotalOf(pintores, parseInt)
    && forall j :: 0 <= j < i ==> TotalOf(pintores[j], parseInt) < MaxTotalOf(pintores, parseInt)
  }

  /**
   * The loop computing `artistaTop`: "Nenhum" unless some total is positive,
   * and then the first painter with the strictly largest total.
   */
  method ArtistaTop(pintores: seq<PintorCount>, parseInt: string -> Option<int>) returns (artistaTop: string)
    ensures MaxTotalOf(pintores, parseInt) == 0 ==> artistaTop == "Nenhum"
    ensures MaxTotalOf(pintores, parseInt) > 0 ==>
              exists i :: IsTop(pintores, parseInt, i) && artistaTop == pintores[i].pintor
  {
    artistaTop := "Nenhum";
    if |pintores| > 0 {
      var maxTotal := 0;
      ghost var top := -1;
      var k := 0;
      while k < |pintores|
        invariant 0 <= k <= |pintores|
        invariant maxTotal == MaxTotalOf(pintores[..k], parseInt)
        invariant maxTotal == 0 ==> artistaTop == "Nenhum"
        invariant maxTotal > 0 ==> IsTop(pintores[..k], parseInt, top) && artistaTop == pintores[top].pintor
      {
        assert pintores[..k + 1][..k] == pintores[..k];
        var total := TotalOf(pintores[k], parseInt);
        if total > maxTotal {
          maxTotal := total;
          artistaTop := pintores[k].pintor;
          top := k;
        }
        k := k + 1;
      }
      assert pintores[..k] == pintores;
    }
  }

  /** The loop computing `maxTotal` for the chart: the largest total, or 0. */
  method MaxTotal(pintores: seq<PintorCount>, parseInt: string -> Option<int>) returns (maxTotal: int)
    ensures maxTotal == MaxTotalOf(pintores, parseInt)
  {
    maxTotal := 0;
    var k := 0;
    while k < |pintores|
      invariant 0 <= k <= |pintores|
      invariant maxTotal == MaxTotalOf(pintores[..k], parseInt)
    {
      assert pintores[..k + 1][..k] == pintores[..k];
      var total := TotalOf(pintores[k], parseInt);
      if total > maxTotal {
        maxTotal := total;
      }
      k := k + 1;
    }
    assert pintores[..k] == pintores;
  }

  /** The top painter's total is the chart's maximum, and no painter has more. */
  lemma TopHasMaxTotal(pintores: seq<PintorCount>, parseInt: string -> Option<int>, i: int)
    requires IsTop(pintores, parseInt, i)
    ensures TotalOf(pintores[i], parseInt) == MaxTotalOf(pintores, parseInt)
    ensures forall j :: 0 <= j < |pintores| ==> TotalOf(pintores[j], parseInt) <= TotalOf(pintores[i], parseInt)
  {
  }

  /** Only one painter can be the top one. */
  lemma TopIsUnique(pintores: seq<PintorCount>, parseInt: string -> Option<int>, i: int, j: int)
    requires IsTop(pintores, parseInt, i) && IsTop(pintores, parseInt, j)
    ensures i == j
  {
  }

  /** With a positive total somewhere, a top painter exists. */
  lemma {:induction false} TopExists(pintores: seq<PintorCount>, parseInt: string -> Option<int>)
    requires MaxTotalOf(pintores, parseInt) > 0
    ensures exists i :: IsTop(pintores, parseInt, i)
  {
    var m := MaxTotalOf(pintores, parseInt);
    var i :| 0 <= i < |pintores| && TotalOf(pintores[i], parseInt) == m;
    var k := 0;
    while TotalOf(pintores[k], parseInt) != m
      invariant 0 <= k <= i
      invariant forall j :: 0 <= j < k ==> TotalOf(pintores[j], parseInt) < m
      decreases i - k
    {
      k := k + 1;
    }
    assert IsTop(pintores, parseInt, k);
  }

  /** The six card gradients, chosen by position. */
  function CardColor(index: nat): (c: nat)
    ensures c < 6 && (index < 6 ==> c == index)
  {
    index % 6
  }

  /** The card's title: `pintor || "Não definido"`. */
  function CardName(p: PintorCount): (name: string)
    ensures name != ""
    ensures p.pintor != "" ==> name == p.pintor
  {
    if p.pintor != "" then p.pintor else "Não definido"
  }

  /** One painter's card: its gradient, its title and its works total. */
  datatype PainterCard = PainterCard(color: nat, name: string, total: int)

  /** What the panel shows below the stats: a spinner, the empty message, or the cards. */
  datatype PanelBody = Spinner | NoPainters | Cards(cards: seq<PainterCard>)

  class PaintersPanel {
    var pintores: seq<PintorCount>
    var loading: bool

    constructor ()
      ensures pintores == [] && loading
    {
      pintores := [];
      loading := true;
    }

    /**
     * The effect's run for the date range `range`, up to the request: the
     * range is sent as it is and nothing changes yet. Each change of the
     * range runs it again, with no cleanup, so several requests can be in flight.
     */
    method SendCount(range: DateRange) returns (query: DateRange)
      ensures query.startDate == range.startDate && query.endDate == range.endDate
    {
      query := range;
    }

    /**
     * The rest of `fetchCount`, once some request is answered, whichever
     * range it was sent for: a successful answer replaces the list, a failed
     * one leaves it. Loading ends either way.
     */
    method FinishCount(result: Option<seq<PintorCount>>)
      modifies this
      ensures !loading
      ensures result.Some? ==> pintores == result.value
      ensures result.None? ==> pintores == old(pintores)
    {
      if result.Some? {
        pintores := result.value;
      }
      loading := false;
    }

    /**
     * Two quick changes of the range, answered out of order: when the answer
     * to the first query lands last and succeeded, the panel shows the
     * painters of a range that is no longer selected.
     */
    method LateCountWins(first: DateRange, second: DateRange,
                         firstAnswer: Option<seq<PintorCount>>, secondAnswer: Option<seq<PintorCount>>)
      returns (queries: seq<DateRange>)
      modifies this
      ensures queries == [first, second] && !loading
      ensures firstAnswer.Some? ==> pintores == firstAnswer.value
      ensures firstAnswer.None? && secondAnswer.Some? ==> pintores == secondAnswer.value
    {
      var q1 := SendCount(first);
      var q2 := SendCount(second);
      queries := [q1, q2];
      FinishCount(secondAnswer);
      FinishCount(firstAnswer);
    }

    /** `totalPintores`. */
    function TotalPintores(): (n: nat)
      reads this
      ensures n == |pintores|
    {
      |pintores|
    }

    /** The body under the stats: the spinner while loading, else the message or one card per painter. */
    function Body(parseInt: string -> Option<int>): (b: PanelBody)
      reads this
      ensures loading <==> b.Spinner?
      ensures b.Cards? ==> |b.cards| == |pintores| > 0
      ensures b.Cards? ==> forall i :: 0 <= i < |b.cards| ==>
                && b.cards[i].color == CardColor(i) && b.cards[i].name == CardName(pintores[i])
                && b.cards[i].total == TotalOf(pintores[i], parseInt)
    {
      if loading then Spinner
      else if |pintores| == 0 then NoPainters
      else
        var ps := pintores;
        Cards(seq(|ps|, i requires 0 <= i < |ps| => PainterCard(CardColor(i), CardName(ps[i]), TotalOf(ps[i], parseInt))))
    }

    /**
     * Once loaded, the "Total de Pintores" figure is the number of cards
     * below it, and it is 0 exactly when the empty message shows instead.
     */
    lemma TotalMatchesCards(parseInt: string -> Option<int>)
      requires !loading
      ensures TotalPintores() == 0 <==> Body(parseInt) == NoPainters
      ensures TotalPintores() > 0 <==> Body(parseInt).Cards?
      ensures Body(parseInt).Cards? ==> |Body(parseInt).cards| == TotalPintores()
    {
    }
  }
}
