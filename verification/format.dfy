/**
 * The display formatters: Brazilian phone numbers, recognition of the two
 * date layouts the console stores, and the cleaning of currency strings
 * before they are parsed. Locale rendering (`toLocaleString`,
 * `toLocaleDateString`) is not modelled; the functions stop at the value
 * that would be handed to it.
 */
module Format {
  import opened Wrappers
  import opened Strings
  import Js

  // ---------------------------------------------------------------------------
  // formatPhone

  /** "(AA) BBBB-CCCC" style: area code, then two groups joined by '-'. */
  function Masked(d: string, split: nat): string
    requires 2 <= split <= |d|
  {
    "(" + d[..2] + ") " + d[2..split] + "-" + d[split..]
  }

  lemma MaskedDigits(d: string, split: nat)
    requires 2 <= split <= |d|
    requires forall i :: 0 <= i < |d| ==> IsDigit(d[i])
    ensures DigitsOf(Masked(d, split)) == d
  {
    var a, b, c := d[..2], d[2..split], d[split..];
    DigitSlice(d, 0, 2);
    DigitSlice(d, 2, split);
    DigitSlice(d, split, |d|);
    assert d[0..2] == a && d[split..|d|] == c;
    PunctuatedDigits(a, b, c);
    assert a + b + c == d;
  }

  /** A piece of an all-digit string keeps all of its characters. */
  lemma DigitSlice(d: string, lo: nat, hi: nat)
    requires lo <= hi <= |d|
    requires forall i :: 0 <= i < |d| ==> IsDigit(d[i])
    ensures DigitsOf(d[lo..hi]) == d[lo..hi]
  {
    var p := d[lo..hi];
    assert forall i :: 0 <= i < |p| ==> p[i] == d[lo + i];
    DigitsOfAllDigits(p);
  }

  lemma PunctuatedDigits(a: string, b: string, c: string)
    ensures DigitsOf("(" + a + ") " + b + "-" + c) == DigitsOf(a) + DigitsOf(b) + DigitsOf(c)
  {
    var m1 := "(" + a;
    assert DigitsOf(m1) == DigitsOf(a) by { DigitsOfAppend("(", a); }
    var m2 := m1 + ") ";
    assert DigitsOf(m2) == DigitsOf(a) by { DigitsOfAppend(m1, ") "); NoDigits(") "); }
    var m3 := m2 + b;
    assert DigitsOf(m3) == DigitsOf(a) + DigitsOf(b) by { DigitsOfAppend(m2, b); }
    var m4 := m3 + "-";
    assert DigitsOf(m4) == DigitsOf(a) + DigitsOf(b) by { DigitsOfAppend(m3, "-"); }
    assert DigitsOf(m4 + c) == DigitsOf(a) + DigitsOf(b) + DigitsOf(c) by { DigitsOfAppend(m4, c); }
  }

  lemma {:induction false} NoDigits(s: string)
    requires forall i :: 0 <= i < |s| ==> !IsDigit(s[i])
    ensures DigitsOf(s) == ""
    decreases |s|
  {
    if s != [] {
      NoDigits(s[1..]);
    }
  }

  /**
   * `formatPhone`: "" for a missing or empty input; ten digits become
   * "(DD) DDDD-DDDD" and eleven "(DD) DDDDD-DDDD"; any other digit count
   * returns the input as it was. The digits always survive, in order.
   */
  function FormatPhone(telefone: Option<string>): (r: string)
    ensures r == "" <==> telefone.None? || telefone.value == ""
    ensures telefone.Some? ==> DigitsOf(r) == DigitsOf(telefone.value)
    ensures telefone.Some? && |DigitsOf(telefone.value)| == 10 ==>
              |r| == 14 && r == Masked(DigitsOf(telefone.value), 6)
    ensures telefone.Some? && |DigitsOf(telefone.value)| == 11 ==>
              |r| == 15 && r == Masked(DigitsOf(telefone.value), 7)
    ensures telefone.Some? && |DigitsOf(telefone.value)| != 10 && |DigitsOf(telefone.value)| != 11 ==>
              r == telefone.value
  {
    if telefone.None? || telefone.value == "" then ""
    else
      var t := telefone.value;
      var numeros := DigitsOf(t);
      if |numeros| == 10 then
        MaskedDigits(numeros, 6);
        Masked(numeros, 6)
      else if |numeros| == 11 then
        MaskedDigits(numeros, 7);
        Masked(numeros, 7)
      else t
  }

  /** Formatting an already formatted number changes nothing. */
  lemma FormatPhoneIdempotent(telefone: Option<string>)
    ensures FormatPhone(Some(FormatPhone(telefone))) == FormatPhone(telefone)
  {
  }

  // ---------------------------------------------------------------------------
  // formatDate

  predicate DigitsAt(s: string, from: nat, to: nat)
    requires from <= to <= |s|
  {
    forall i :: from <= i < to ==> IsDigit(s[i])
  }

  /** `/^\d{4}-\d{2}-\d{2}/`: a YYYY-MM-DD prefix, anything may follow. */
  predicate IsoPrefix(s: string) {
    |s| >= 10 && DigitsAt(s, 0, 4) && s[4] == '-' && DigitsAt(s, 5, 7) && s[7] == '-' && DigitsAt(s, 8, 10)
  }

  /** `/^\d{2}\/\d{2}\/\d{4}$/`: exactly DD/MM/YYYY. */
  predicate BrazilianExact(s: string) {
    |s| == 10 && DigitsAt(s, 0, 2) && s[2] == '/' && DigitsAt(s, 3, 5) && s[5] == '/' && DigitsAt(s, 6, 10)
  }

  /** No string has both layouts, so the order of the two checks does not matter. */
  lemma LayoutsDisjoint(s: string)
    ensures !(IsoPrefix(s) && BrazilianExact(s))
  {
  }

  /** What `formatDate` hands to `new Date(ano, mes - 1, dia)`, as the split pieces. */
  datatype DateParts = InvalidDate | DayMonthYear(dia: string, mes: string, ano: string)

  function DateLabel(p: DateParts): Option<string> {
    if p.InvalidDate? then Some("Data inválida") else None
  }

  lemma SplitDigitsFree(s: string, from: nat, to: nat, sep: char)
    requires from <= to <= |s| && DigitsAt(s, from, to) && !IsDigit(sep)
    ensures sep !in s[from..to]
  {
  }

  /**
   * `formatDate` up to locale rendering. Missing or empty input, and input in
   * neither layout, is invalid. A YYYY-MM-DD prefix (checked first) yields
   * year and month from their fixed positions and as day everything after the
   * second '-' up to any further '-'; DD/MM/YYYY yields its three fields.
   */
  function FormatDate(data: Option<string>): (r: DateParts)
    ensures r.InvalidDate? <==> data.None? || data.value == "" || (!IsoPrefix(data.value) && !BrazilianExact(data.value))
    ensures data.Some? && IsoPrefix(data.value) ==>
              r == DayMonthYear(Split(data.value[8..], '-')[0], data.value[5..7], data.value[..4])
    ensures data.Some? && BrazilianExact(data.value) ==>
              r == DayMonthYear(data.value[..2], data.value[3..5], data.value[6..])
  {
    if data.None? || data.value == "" then InvalidDate
    else
      var s := data.value;
      if IsoPrefix(s) then
        var pieces := Split(s, '-');
        IsoPieces(s);
        DayMonthYear(pieces[2], pieces[1], pieces[0])
      else if BrazilianExact(s) then
        var pieces := Split(s, '/');
        BrazilianPieces(s);
        DayMonthYear(pieces[0], pieces[1], pieces[2])
      else InvalidDate
  }

  lemma IsoPieces(s: string)
    requires IsoPrefix(s)
    ensures |Split(s, '-')| >= 3
    ensures Split(s, '-')[..3] == [s[..4], s[5..7], Split(s[8..], '-')[0]]
  {
    SplitDigitsFree(s, 0, 4, '-');
    SplitDigitsFree(s, 5, 7, '-');
    assert s == s[..4] + ['-'] + s[5..];
    assert s[5..] == s[5..7] + ['-'] + s[8..];
    SplitCons(s[..4], s[5..], '-');
    SplitCons(s[5..7], s[8..], '-');
  }

  lemma BrazilianPieces(s: string)
    requires BrazilianExact(s)
    ensures Split(s, '/') == [s[..2], s[3..5], s[6..]]
  {
    SplitDigitsFree(s, 0, 2, '/');
    SplitDigitsFree(s, 3, 5, '/');
    SplitDigitsFree(s, 6, 10, '/');
    assert s == s[..2] + ['/'] + s[3..];
    assert s[3..] == s[3..5] + ['/'] + s[6..];
    SplitCons(s[..2], s[3..], '/');
    SplitCons(s[3..5], s[6..], '/');
    SplitFree(s[6..], '/');
  }

  /** For an exact YYYY-MM-DD the day is the last two characters. */
  lemma FormatDateIsoExact(s: string)
    requires IsoPrefix(s) && |s| == 10
    ensures FormatDate(Some(s)) == DayMonthYear(s[8..10], s[5..7], s[..4])
  {
    SplitDigitsFree(s, 8, 10, '-');
    SplitFree(s[8..], '-');
  }

  // ---------------------------------------------------------------------------
  // formatCurrency

  /** `replace(/R\$\s?/g, "")`: every "R$" and the one blank that may follow it. */
  function RemoveCurrencySymbol(s: string): (r: string)
    ensures |r| <= |s|
    decreases |s|
  {
    if |s| >= 2 && s[0] == 'R' && s[1] == '$' then
      if |s| >= 3 && IsSpace(s[2]) then RemoveCurrencySymbol(s[3..]) else RemoveCurrencySymbol(s[2..])
    else if s == [] then []
    else [s[0]] + RemoveCurrencySymbol(s[1..])
  }

  predicate HasSymbol(s: string) {
    exists i :: 0 <= i < |s| - 1 && s[i] == 'R' && s[i + 1] == '$'
  }

  /** A string without "R$" is left as it is. */
  lemma {:induction false} NoSymbolUnchanged(s: string)
    requires !HasSymbol(s)
    ensures RemoveCurrencySymbol(s) == s
    decreases |s|
  {
    if s != [] {
      if |s| >= 2 { assert !(s[0] == 'R' && s[1] == '$'); }
      assert !HasSymbol(s[1..]);
      NoSymbolUnchanged(s[1..]);
    }
  }

  /** Removing the symbol never removes a digit. */
  lemma {:induction false} RemoveCurrencySymbolDigits(s: string)
    ensures DigitsOf(RemoveCurrencySymbol(s)) == DigitsOf(s)
    decreases |s|
  {
    if |s| >= 2 && s[0] == 'R' && s[1] == '$' {
      if |s| >= 3 && IsSpace(s[2]) {
        RemoveCurrencySymbolDigits(s[3..]);
        DropNonDigits(s, 3);
      } else {
        RemoveCurrencySymbolDigits(s[2..]);
        DropNonDigits(s, 2);
      }
    } else if s != [] {
      RemoveCurrencySymbolDigits(s[1..]);
      var r := RemoveCurrencySymbol(s[1..]);
      assert RemoveCurrencySymbol(s) == [s[0]] + r;
      assert ([s[0]] + r)[0] == s[0] && ([s[0]] + r)[1..] == r;
    }
  }

  /** Leading characters that are not digits add nothing to the digits. */
  lemma {:induction false} DropNonDigits(s: string, n: nat)
    requires n <= |s|
    requires forall i :: 0 <= i < n ==> !IsDigit(s[i])
    ensures DigitsOf(s) == DigitsOf(s[n..])
    decreases n
  {
    if n > 0 {
      DropNonDigits(s[1..], n - 1);
      assert s[1..][n - 1..] == s[n..];
    }
  }

  /** `replace(/\./g, "")`. */
  function RemoveAll(s: string, c: char): (r: string)
    ensures c !in r && |r| <= |s|
    decreases |s|
  {
    if s == [] then [] else if s[0] == c then RemoveAll(s[1..], c) else [s[0]] + RemoveAll(s[1..], c)
  }

  /** `replace(",", ".")`: only the first occurrence. */
  function ReplaceFirst(s: string, a: char, b: char): (r: string)
    ensures |r| == |s|
    decreases |s|
  {
    if s == [] then [] else if s[0] == a then [b] + s[1..] else [s[0]] + ReplaceFirst(s[1..], a, b)
  }

  /** The position of the first `c` in `s`. */
  function IndexOf(s: string, c: char): (k: nat)
    requires c in s
    ensures k < |s| && s[k] == c && c !in s[..k]
    decreases |s|
  {
    if s[0] == c then 0
    else
      assert c in s[1..] by { assert s == [s[0]] + s[1..]; }
      var k := IndexOf(s[1..], c);
      assert s[..k + 1] == [s[0]] + s[1..][..k];
      k + 1
  }

  /** With no `a` present, replacing the first one changes nothing. */
  lemma {:induction false} ReplaceFirstAbsent(s: string, a: char, b: char)
    requires a !in s
    ensures ReplaceFirst(s, a, b) == s
    decreases |s|
  {
    if s != [] {
      assert a !in s[1..];
      ReplaceFirstAbsent(s[1..], a, b);
    }
  }

  /** Replacing the first `a` changes exactly the position where it first occurs. */
  lemma {:induction false} ReplaceFirstAt(s: string, a: char, b: char)
    requires a in s
    ensures ReplaceFirst(s, a, b) == s[..IndexOf(s, a)] + [b] + s[IndexOf(s, a) + 1..]
    decreases |s|
  {
    if s[0] != a {
      assert a in s[1..] by { assert s == [s[0]] + s[1..]; }
      ReplaceFirstAt(s[1..], a, b);
      var k := IndexOf(s[1..], a);
      assert IndexOf(s, a) == k + 1;
      assert s[..k + 1] == [s[0]] + s[1..][..k];
      assert s[k + 2..] == s[1..][k + 1..];
    }
  }

  /** The cleaned text that `parseFloat` receives. */
  function CleanCurrency(s: string): string {
    ReplaceFirst(RemoveAll(RemoveCurrencySymbol(s), '.'), ',', '.')
  }

  /**
   * The cleaned text has at most one '.', and one exactly when a ',' was left
   * after removing the symbol (the first ',' became the decimal point).
   */
  lemma CleanCurrencyPoint(s: string)
    ensures var cleaned := CleanCurrency(s);
      var stripped := RemoveAll(RemoveCurrencySymbol(s), '.');
      && (',' !in stripped ==> '.' !in cleaned)
      && (',' in stripped ==> exists k :: 0 <= k < |cleaned| && cleaned[k] == '.'
                                && '.' !in cleaned[..k] && '.' !in cleaned[k + 1..])
  {
    var stripped := RemoveAll(RemoveCurrencySymbol(s), '.');
    var cleaned := CleanCurrency(s);
    if ',' in stripped {
      ReplaceFirstAt(stripped, ',', '.');
      var k := IndexOf(stripped, ',');
      assert cleaned[..k] == stripped[..k];
      assert cleaned[k + 1..] == stripped[k + 1..];
      assert cleaned[k] == '.';
    } else {
      ReplaceFirstAbsent(stripped, ',', '.');
    }
  }

  /** The value `formatCurrency` renders, or the fixed zero text. */
  datatype Currency = ZeroText | Localized(amount: real)

  function CurrencyText(c: Currency): Option<string> {
    if c.ZeroText? then Some("R$ 0,00") else None
  }

  /**
   * `formatCurrency(valor)` for a number or a string (or nothing). Falsy input
   * (missing, "", 0, NaN) and text that does not parse after cleaning give
   * "R$ 0,00"; a number is rendered as it is; text is cleaned and parsed.
   */
  function FormatCurrency(valor: Js.Value, parse: string -> Option<real>): (r: Currency)
    requires valor.Undefined? || valor.Num? || valor.Str?
    ensures !Js.Truthy(valor) ==> r == ZeroText
    ensures valor.Num? && Js.Truthy(valor) ==> r == Localized(valor.n.r)
    ensures valor.Str? && Js.Truthy(valor) ==>
              r == (match Js.ParseFloat(Js.Str(CleanCurrency(valor.s)), parse)
                    case NaN => ZeroText
                    case Real(x) => Localized(x))
  {
    if !Js.Truthy(valor) then ZeroText
    else
      var numero := if valor.Num? then valor.n else Js.ParseFloat(Js.Str(CleanCurrency(valor.s)), parse);
      match numero
      case NaN => ZeroText
      case Real(x) => Localized(x)
  }
}
