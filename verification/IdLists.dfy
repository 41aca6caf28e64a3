// Sets of player ids as they are printed into and parsed from a saved string.

module IdLists {
  import opened Collections
  import opened GameData

  // ----- reading -----

  predicate IsSpace(c: char) {
    c == ' ' || '\t' <= c <= '\r'
  }

  predicate IsDigit(c: char) {
    '0' <= c <= '9'
  }

  function DigitValue(c: char): nat
    requires IsDigit(c)
  {
    c as int - '0' as int
  }

  predicate AllDigits(s: string) {
    forall i | 0 <= i < |s| :: IsDigit(s[i])
  }

  function NumberOf(s: string): nat
    requires AllDigits(s)
  {
    if s == "" then 0 else NumberOf(s[..|s| - 1]) * 10 + DigitValue(s[|s| - 1])
  }

  function SkipSpace(s: string): string {
    if s != "" && IsSpace(s[0]) then SkipSpace(s[1..]) else s
  }

  function LeadingDigits(s: string): (r: string)
    ensures AllDigits(r)
  {
    if s != "" && IsDigit(s[0]) then [s[0]] + LeadingDigits(s[1..]) else ""
  }

  // `std::stoi`: leading white space, an optional sign, digits, and anything after
  // them; None where it throws.
  function Stoi(token: string): Option<Int32> {
    var s := SkipSpace(token);
    var negative := s != "" && s[0] == '-';
    var digits := LeadingDigits(if s != "" && (s[0] == '-' || s[0] == '+') then s[1..] else s);
    if digits == "" then None
    else
      var n: int := NumberOf(digits);
      var n := if negative then -n else n;
      if -0x8000_0000 <= n < 0x8000_0000 then Some(n) else None
  }

  function CommaAt(s: string): (i: nat)
    ensures i <= |s|
    ensures i < |s| ==> s[i] == ','
    ensures forall j | 0 <= j < i :: s[j] != ','
  {
    if s == "" || s[0] == ',' then 0 else 1 + CommaAt(s[1..])
  }

  // `std::getline` with a comma, until it fails: an empty rest yields no token.
  function Tokens(s: string): seq<string>
    decreases |s|
  {
    var i := CommaAt(s);
    if s == "" then []
    else if i == |s| then [s]
    else [s[..i]] + Tokens(s[i + 1..])
  }

  function NumbersOf(tokens: seq<string>): Option<set<Int32>> {
    if tokens == [] then Some({})
    else
      var first, rest := Stoi(tokens[0]), NumbersOf(tokens[1..]);
      if first.Some? && rest.Some? then Some({first.value} + rest.value) else None
  }

  // One bad token empties the whole list.
  function Parsed(s: string): set<Int32> {
    var r := NumbersOf(Tokens(s));
    if r.Some? then r.value else {}
  }

  function AfterComma(s: string): string {
    if CommaAt(s) == |s| then "" else s[CommaAt(s) + 1..]
  }

  lemma OneToken(s: string)
    requires s != ""
    ensures Tokens(s) == [s[..CommaAt(s)]] + Tokens(AfterComma(s))
  {
    if CommaAt(s) == |s| { assert s[..|s|] == s; }
  }

  lemma OneNumber(s: string)
    requires s != ""
    ensures var first, rest := Stoi(s[..CommaAt(s)]), NumbersOf(Tokens(AfterComma(s)));
            NumbersOf(Tokens(s)) == if first.Some? && rest.Some? then Some({first.value} + rest.value) else None
  {
    OneToken(s);
    assert Tokens(s)[1..] == Tokens(AfterComma(s));
  }

  method ParseIdList(str: string) returns (out: set<Int32>)
    ensures out == Parsed(str)
  {
    out := {};
    var rest := str;
    while rest != ""
      invariant NumbersOf(Tokens(str)).Some? == NumbersOf(Tokens(rest)).Some?
      invariant NumbersOf(Tokens(rest)).Some? ==> NumbersOf(Tokens(str)).value == out + NumbersOf(Tokens(rest)).value
      decreases |rest|
    {
      OneNumber(rest);
      var value := Stoi(rest[..CommaAt(rest)]);
      if value.None? { return {}; }
      out := out + {value.value};
      rest := AfterComma(rest);
    }
  }

  // ----- printing -----

  function DigitChar(d: nat): (c: char)
    requires d < 10
    ensures IsDigit(c) && DigitValue(c) == d
  {
    ('0' as int + d) as char
  }

  function Decimal(n: nat): (r: string)
    ensures r != "" && AllDigits(r)
  {
    if n < 10 then [DigitChar(n)] else Decimal(n / 10) + [DigitChar(n % 10)]
  }

  // `std::to_string`
  function ToString(n: int): (r: string)
    ensures r != ""
  {
    if n < 0 then "-" + Decimal(-n) else Decimal(n)
  }

  function Printed(order: seq<Int32>): string {
    if order == [] then ""
    else
      var before := Printed(order[..|order| - 1]);
      before + (if before == "" then "" else ",") + ToString(order[|order| - 1])
  }

  lemma PrintedOneMore(order: seq<Int32>, x: Int32)
    ensures Printed(order + [x]) == Printed(order) + (if Printed(order) == "" then "" else ",") + ToString(x)
  {
    assert (order + [x])[..|order|] == order;
  }

  lemma {:induction false} SkipsSpace(space: string, s: string)
    requires forall c | c in space :: c == ' ' || 9 <= c as int <= 13
    requires s == "" || !IsSpace(s[0])
    ensures SkipSpace(space + s) == s
  {
    if space == "" {
      assert space + s == s;
    } else {
      assert space[0] in space && (space + s)[1..] == space[1..] + s;
      assert forall c | c in space[1..] :: c in space;
      SkipsSpace(space[1..], s);
    }
  }

  lemma {:induction false} StopsAtOther(digits: string, rest: string)
    requires AllDigits(digits) && (rest == "" || !IsDigit(rest[0]))
    ensures LeadingDigits(digits + rest) == digits
  {
    if digits == "" {
      assert digits + rest == rest;
    } else {
      assert (digits + rest)[1..] == digits[1..] + rest;
      StopsAtOther(digits[1..], rest);
    }
  }

  // White space before a number, a sign, and whatever follows its digits are accepted; numbers that
  // need more than 32 bits are not.
  lemma NumberIsRead(space: string, sign: string, digits: string, rest: string)
    requires forall c | c in space :: c == ' ' || 9 <= c as int <= 13
    requires sign in {"", "+", "-"} && AllDigits(digits) && digits != "" && (rest == "" || !IsDigit(rest[0]))
    ensures var n := if sign == "-" then -(NumberOf(digits) as int) else NumberOf(digits);
            Stoi(space + (sign + (digits + rest))) == if -0x8000_0000 <= n < 0x8000_0000 then Some(n) else None
  {
    var s := sign + (digits + rest);
    assert sign == "" ==> s == digits + rest;
    assert sign != "" ==> s[1..] == digits + rest;
    SkipsSpace(space, s);
    StopsAtOther(digits, rest);
  }

  // ----- reading undoes printing -----

  lemma {:induction false} NumberOfDecimal(n: nat)
    ensures NumberOf(Decimal(n)) == n
  {
    if n >= 10 {
      NumberOfDecimal(n / 10);
      assert Decimal(n)[..|Decimal(n)| - 1] == Decimal(n / 10);
    }
  }

  lemma {:induction false} AllLeading(s: string)
    requires AllDigits(s)
    ensures LeadingDigits(s) == s
  {
    if s != "" {
      AllLeading(s[1..]);
      assert s == [s[0]] + s[1..];
    }
  }

  lemma DigitsRead(digits: string)
    requires digits != "" && AllDigits(digits)
    ensures SkipSpace(digits) == digits && LeadingDigits(digits) == digits && digits[0] != '-' && digits[0] != '+'
    ensures var s := "-" + digits;
            SkipSpace(s) == s && s[1..] == digits
  {
    AllLeading(digits);
    assert IsDigit(digits[0]);
  }

  lemma NumberRoundTrip(n: int)
    requires -0x8000_0000 <= n < 0x8000_0000
    ensures Stoi(ToString(n)) == Some(n)
  {
    var m := if n < 0 then -n else n;
    NumberOfDecimal(m);
    DigitsRead(Decimal(m));
  }

  predicate NoComma(s: string) {
    forall i | 0 <= i < |s| :: s[i] != ','
  }

  lemma PrintsNoComma(n: int)
    ensures NoComma(ToString(n))
  {
    var digits := Decimal(if n < 0 then -n else n);
    assert forall i | 0 <= i < |digits| :: IsDigit(digits[i]);
  }

  lemma WholeToken(t: string)
    requires t != "" && NoComma(t)
    ensures Tokens(t) == [t]
  {
  }

  lemma FirstCommaStays(s: string, t: string)
    ensures CommaAt(s + "," + t) == CommaAt(s)
  {
    var all, i := s + "," + t, CommaAt(s);
    assert all[i] == ',';
    assert forall j | 0 <= j < i :: all[j] == s[j];
  }

  lemma LastToken(s: string, t: string)
    requires s != "" && NoComma(s) && t != "" && NoComma(t)
    ensures Tokens(s + "," + t) == [s] + [t]
  {
    var all := s + "," + t;
    FirstCommaStays(s, t);
    assert CommaAt(s) == |s|;
    assert all[..|s|] == s && all[|s| + 1..] == t;
    WholeToken(t);
  }

  lemma SlicesOfMore(s: string, t: string, i: nat)
    requires i < |s|
    ensures (s + t)[..i] == s[..i] && (s + t)[i + 1..] == s[i + 1..] + t
  {
  }

  lemma SlicesOfList(s: string, t: string, i: nat)
    requires i < |s|
    ensures (s + "," + t)[..i] == s[..i] && (s + "," + t)[i + 1..] == s[i + 1..] + "," + t
  {
    SlicesOfMore(s + ",", t, i);
    SlicesOfMore(s, ",", i);
  }

  lemma AfterCommaAt(s: string, i: nat)
    requires i == CommaAt(s) && i < |s|
    ensures AfterComma(s) == s[i + 1..]
  {
  }

  lemma FirstToken(s: string, t: string)
    requires CommaAt(s) < |s|
    ensures Tokens(s + "," + t) == [s[..CommaAt(s)]] + Tokens(AfterComma(s) + "," + t)
  {
    var all, i := s + "," + t, CommaAt(s);
    FirstCommaStays(s, t);
    SlicesOfList(s, t, i);
    AfterCommaAt(s, i);
    AfterCommaAt(all, i);
    OneToken(all);
  }

  lemma LastStays(s: string)
    requires CommaAt(s) < |s| && s[|s| - 1] != ','
    ensures AfterComma(s) != "" && AfterComma(s)[|AfterComma(s)| - 1] == s[|s| - 1] && |AfterComma(s)| < |s|
  {
  }

  lemma {:induction false} TokensAppend(s: string, t: string)
    requires s != "" && s[|s| - 1] != ',' && t != "" && NoComma(t)
    ensures Tokens(s + "," + t) == Tokens(s) + [t]
    decreases |s|
  {
    if CommaAt(s) == |s| {
      LastToken(s, t);
      WholeToken(s);
    } else {
      FirstToken(s, t);
      LastStays(s);
      TokensAppend(AfterComma(s), t);
      OneToken(s);
    }
  }

  lemma {:induction false} NumbersOfAppend(tokens: seq<string>, t: string)
    requires NumbersOf(tokens).Some? && Stoi(t).Some?
    ensures NumbersOf(tokens + [t]) == Some(NumbersOf(tokens).value + {Stoi(t).value})
  {
    if tokens == [] {
      assert [t][1..] == [];
      assert [] + [t] == [t];
      assert NumbersOf([t][1..]) == Some({});
      assert {Stoi(t).value} + {} == {} + {Stoi(t).value};
    } else {
      assert (tokens + [t])[1..] == tokens[1..] + [t];
      NumbersOfAppend(tokens[1..], t);
      var first, rest, x := Stoi(tokens[0]).value, NumbersOf(tokens[1..]).value, Stoi(t).value;
      assert {first} + (rest + {x}) == {first} + rest + {x};
    }
  }

  lemma PrintedEndsInDigit(order: seq<Int32>)
    requires order != []
    ensures Printed(order) != "" && Printed(order)[|Printed(order)| - 1] != ','
  {
    var t := ToString(order[|order| - 1]);
    PrintsNoComma(order[|order| - 1]);
    assert Printed(order)[|Printed(order)| - 1] == t[|t| - 1];
  }

  lemma TokensOfPrinted(order: seq<Int32>)
    requires order != []
    ensures Tokens(Printed(order)) == Tokens(Printed(order[..|order| - 1])) + [ToString(order[|order| - 1])]
  {
    var init, t := order[..|order| - 1], ToString(order[|order| - 1]);
    PrintsNoComma(order[|order| - 1]);
    if init == [] {
      WholeToken(t);
      assert Printed(order) == t;
    } else {
      PrintedEndsInDigit(init);
      TokensAppend(Printed(init), t);
    }
  }

  function PrintedTokens(order: seq<Int32>): seq<string> {
    if order == [] then [] else PrintedTokens(order[..|order| - 1]) + [ToString(order[|order| - 1])]
  }

  lemma {:induction false} TokensArePrinted(order: seq<Int32>)
    ensures Tokens(Printed(order)) == PrintedTokens(order)
  {
    if order != [] {
      TokensArePrinted(order[..|order| - 1]);
      TokensOfPrinted(order);
    }
  }

  lemma {:induction false} PrintedTokensParse(order: seq<Int32>)
    ensures NumbersOf(PrintedTokens(order)) == Some(Elements(order))
  {
    if order == [] {
      assert Elements(order) == {};
    } else {
      var init, last := order[..|order| - 1], order[|order| - 1];
      PrintedTokensParse(init);
      NumberRoundTrip(last);
      NumbersOfAppend(PrintedTokens(init), ToString(last));
      assert order == init + [last];
      ElementsOneMore(init, last);
    }
  }

  // Main result: whatever order the hash set yields, the saved string reads back as
  // the same set.
  lemma ListRoundTrip(order: seq<Int32>, elems: set<Int32>)
    requires Enumerates(order, elems)
    ensures Parsed(Printed(order)) == elems
  {
    TokensArePrinted(order);
    PrintedTokensParse(order);
    assert Elements(order) == elems;
  }

  method SerializeIdList(elems: set<Int32>) returns (output: string, ghost order: seq<Int32>)
    ensures Enumerates(order, elems) && output == Printed(order)
    ensures Parsed(output) == elems
  {
    output, order := "", [];
    var todo := elems;
    StartVisiting(elems);
    while todo != {}
      invariant Visiting(order, todo, elems) && output == Printed(order)
      decreases todo
    {
      var value :| value in todo;
      PrintedOneMore(order, value);
      if output != "" { output := output + ","; }
      output := output + ToString(value);
      VisitOneMore(order, todo, elems, value);
      todo, order := todo - {value}, order + [value];
    }
    VisitedAll(order, elems);
    ListRoundTrip(order, elems);
  }
}
