/**
 * The "recent sales" list of the dashboard overview: the orders created in
 * the last `dias` days, newest first, each with an avatar of the customer's
 * initials and the e-mail or "sem email". Moments are milliseconds since the
 * epoch; reading an ISO text into a moment (`parseISO`, with `isValid`) is a
 * parser passed in that answers None for an invalid date.
 */
module RecentSales {
  import opened Wrappers
  import Strings
  import opened Calendar

  datatype RecentOrder = RecentOrder(
    id: string,
    cliente: string,
    email: Option<string>,
    valorUnitario: Option<real>,
    status: string,
    createdAt: Option<string>)

  /** An order kept for the list, with its creation moment. */
  datatype Sale = Sale(order: RecentOrder, date: int)

  /** The creation moment, or None when `createdAt` is missing, empty or not a valid date. */
  function CreatedAt(o: RecentOrder, parseISO: string -> Option<int>): Option<int> {
    if o.createdAt.None? || o.createdAt.value == "" then None else parseISO(o.createdAt.value)
  }

  /** `subDays(now, dias)`. */
  function Cutoff(now: int, dias: int): int {
    now - dias * MsPerDay
  }

  /** The map and filter steps: orders with a creation moment strictly after `cutoff`, in input order. */
  function Kept(orders: seq<RecentOrder>, parseISO: string -> Option<int>, cutoff: int): (r: seq<Sale>)
    ensures |r| <= |orders|
    ensures forall s :: s in r ==>
              s.order in orders && CreatedAt(s.order, parseISO) == Some(s.date) && s.date > cutoff
  {
    if orders == [] then []
    else
      var rest := Kept(orders[1..], parseISO, cutoff);
      var d := CreatedAt(orders[0], parseISO);
      if d.Some? && d.value > cutoff then [Sale(orders[0], d.value)] + rest else rest
  }

  /** Every order created after the cutoff is kept. */
  lemma {:induction false} KeptComplete(orders: seq<RecentOrder>, parseISO: string -> Option<int>, cutoff: int, o: RecentOrder)
    requires o in orders && CreatedAt(o, parseISO).Some? && CreatedAt(o, parseISO).value > cutoff
    ensures Sale(o, CreatedAt(o, parseISO).value) in Kept(orders, parseISO, cutoff)
    decreases |orders|
  {
    if orders[0] != o {
      KeptComplete(orders[1..], parseISO, cutoff, o);
    }
  }

  // ---------------------------------------------------------------------------
  // the sort: `(a, b) => b.date - a.date`, which JavaScript applies stably

  predicate NewestFirst(sales: seq<Sale>) {
    forall i, j :: 0 <= i < j < |sales| ==> sales[i].date >= sales[j].date
  }

  /** Places `x` after every sale at least as new, so earlier equal dates stay first. */
  function Insert(x: Sale, sorted: seq<Sale>): (r: seq<Sale>)
    ensures multiset(r) == multiset(sorted) + multiset{x}
  {
    if sorted == [] then [x]
    else if sorted[0].date < x.date then [x] + sorted
    else
      assert sorted == [sorted[0]] + sorted[1..];
      [sorted[0]] + Insert(x, sorted[1..])
  }

  /** Inserting into a newest-first list keeps it newest first. */
  lemma {:induction false} InsertKeepsOrder(x: Sale, sorted: seq<Sale>)
    requires NewestFirst(sorted)
    ensures NewestFirst(Insert(x, sorted))
    decreases |sorted|
  {
    if sorted != [] && sorted[0].date >= x.date {
      var tail := Insert(x, sorted[1..]);
      InsertKeepsOrder(x, sorted[1..]);
      forall k | 0 <= k < |tail| ensures sorted[0].date >= tail[k].date {
        assert tail[k] in multiset(tail);
        assert tail[k] == x || tail[k] in multiset(sorted[1..]);
      }
    }
  }

  function SortNewestFirst(sales: seq<Sale>): (r: seq<Sale>)
    ensures multiset(r) == multiset(sales)
    ensures NewestFirst(r)
  {
    if sales == [] then []
    else
      var init := sales[..|sales| - 1];
      assert sales == init + [sales[|sales| - 1]];
      InsertKeepsOrder(sales[|sales| - 1], SortNewestFirst(init));
      Insert(sales[|sales| - 1], SortNewestFirst(init))
  }

  /** `recent`: the kept orders, newest first. */
  function Recent(orders: seq<RecentOrder>, parseISO: string -> Option<int>, now: int, dias: int): seq<Sale> {
    SortNewestFirst(Kept(orders, parseISO, Cutoff(now, dias)))
  }

  /**
   * A sale is listed iff its order is one of the input orders and was created
   * strictly after `dias` days before `now`; the list runs newest first.
   */
  lemma RecentWindow(orders: seq<RecentOrder>, parseISO: string -> Option<int>, now: int, dias: int, o: RecentOrder, d: int)
    ensures NewestFirst(Recent(orders, parseISO, now, dias))
    ensures Sale(o, d) in Recent(orders, parseISO, now, dias) <==>
              o in orders && CreatedAt(o, parseISO) == Some(d) && d > now - dias * MsPerDay
  {
    var kept := Kept(orders, parseISO, Cutoff(now, dias));
    assert Sale(o, d) in Recent(orders, parseISO, now, dias) <==> Sale(o, d) in multiset(kept);
    if o in orders && CreatedAt(o, parseISO) == Some(d) && d > Cutoff(now, dias) {
      KeptComplete(orders, parseISO, Cutoff(now, dias), o);
    }
  }

  /** "Nenhuma venda nos últimos {dias} dias." shows exactly when no order falls in the window. */
  function EmptyMessage(recent: seq<Sale>, dias: int): (m: Option<string>)
    ensures m.Some? <==> recent == []
  {
    if recent == [] then Some("Nenhuma venda nos últimos " + Strings.IntToString(dias) + " dias.") else None
  }

  lemma EmptyMessageIffNoneRecent(orders: seq<RecentOrder>, parseISO: string -> Option<int>, now: int, dias: int)
    ensures EmptyMessage(Recent(orders, parseISO, now, dias), dias).Some? <==>
              forall o :: o in orders && CreatedAt(o, parseISO).Some? ==> CreatedAt(o, parseISO).value <= now - dias * MsPerDay
  {
    var recent := Recent(orders, parseISO, now, dias);
    if recent != [] {
      RecentWindow(orders, parseISO, now, dias, recent[0].order, recent[0].date);
    }
    forall o | o in orders && CreatedAt(o, parseISO).Some? && CreatedAt(o, parseISO).value > now - dias * MsPerDay
      ensures recent != []
    {
      RecentWindow(orders, parseISO, now, dias, o, CreatedAt(o, parseISO).value);
    }
  }

  // ---------------------------------------------------------------------------
  // one row of the list

  /** `n[0]` of every word; an empty word gives `undefined`, which `join` prints as nothing. */
  function FirstChars(words: seq<string>): (r: string)
    ensures |r| <= |words|
  {
    if words == [] then ""
    else (if words[0] == "" then "" else [words[0][0]]) + FirstChars(words[1..])
  }

  /** The avatar fallback: the first letters of the space-separated words, upper-cased. */
  function Initials(cliente: string): string {
    Strings.Upper(FirstChars(Strings.Split(cliente, ' ')))
  }

  lemma {:induction false} FirstCharsOfWords(words: seq<string>)
    requires forall i :: 0 <= i < |words| ==> words[i] != ""
    ensures FirstChars(words) == seq(|words|, i requires 0 <= i < |words| => words[i][0])
    decreases |words|
  {
    if words != [] {
      FirstCharsOfWords(words[1..]);
    }
  }

  /**
   * A name made of non-empty words joined by single spaces has one initial per
   * word: the word's first character, upper-cased.
   */
  lemma InitialsOfName(words: seq<string>)
    requires |words| >= 1 && Strings.NoneContains(words, ' ')
    requires forall i :: 0 <= i < |words| ==> words[i] != ""
    ensures |Initials(Strings.Join(words, ' '))| == |words|
    ensures forall i :: 0 <= i < |words| ==> Initials(Strings.Join(words, ' '))[i] == Strings.UpperChar(words[i][0])
  {
    Strings.SplitJoin(words, ' ');
    FirstCharsOfWords(words);
  }

  /** `email || "sem email"`. */
  function EmailText(o: RecentOrder): (t: string)
    ensures t != ""
    ensures o.email.Some? && o.email.value != "" ==> t == o.email.value
  {
    if o.email.Some? && o.email.value != "" then o.email.value else "sem email"
  }

  /** The avatar picture of row `index`: the nine pictures repeat. */
  function AvatarNumber(index: nat): (n: nat)
    ensures 1 <= n <= 9 && (index < 9 ==> n == index + 1)
  {
    index % 9 + 1
  }
}
