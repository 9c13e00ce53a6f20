/** The structured error records of the mocking core and `ErrorList`, the
    append-only collection that `Check` returns when arguments differ. */
module Errors {
  import opened Reflection

  /** One value per Go error struct, with the fields that struct carries. */
  datatype Error =
    /** A CallArgs side (`In` or `Out`) has the wrong number of values. */
    | BadCallArgsNum(fname: string, want: int, got: int, out: bool)
    /** The `i`th value of a CallArgs side cannot be converted to the declared type. */
    | BadCallArgsType(fname: string, i: int, wantType: Type, gotType: Type, out: bool)
    /** The number of calls differs from the number of expectations. */
    | BadFuncCallNum(fname: string, want: int, got: int)
    /** Call `i` received a different number of arguments than expected. */
    | BadFuncArgNum(fname: string, i: int, want: int, got: int)
    /** Argument `j` of call `i` differs from the expected value. */
    | BadFuncArgValue(fname: string, i: int, j: int, wantValue: Value, gotValue: Value)

  /** The word naming the CallArgs side in the two CallArgs messages. */
  function CallLabel(e: Error): (side: string)
    requires e.BadCallArgsNum? || e.BadCallArgsType?
    ensures side == "Out" <==> e.out
    ensures side == "In" <==> !e.out
  {
    if e.out then "Out" else "In"
  }

  // ---------------------------------------------------------------------------
  // Decimal numerals, as `%d` writes a non-negative int.

  function DigitChar(d: nat): (c: char)
    requires d < 10
  {
    "0123456789"[d]
  }

  function DigitValue(c: char): (d: nat)
  {
    if '0' <= c <= '9' then (c as int - '0' as int) as nat else 0
  }

  predicate IsDigit(c: char)
  {
    '0' <= c <= '9'
  }

  /** `fmt.Sprintf("%d", n)` for `n >= 0`. */
  function Decimal(n: nat): (s: string)
    decreases n
  {
    if n < 10 then [DigitChar(n)] else Decimal(n / 10) + [DigitChar(n % 10)]
  }

  /** The number a string of decimal digits denotes. */
  function ParseDecimal(s: string): (n: nat)
  {
    if s == [] then 0 else ParseDecimal(s[..|s| - 1]) * 10 + DigitValue(s[|s| - 1])
  }

  /** Every numeral is a non-empty string of digits, without a leading zero,
      that reads back as the number it was written from. */
  lemma {:induction false} DecimalRoundTrip(n: nat)
    ensures |Decimal(n)| > 0
    ensures forall k :: 0 <= k < |Decimal(n)| ==> IsDigit(Decimal(n)[k])
    ensures Decimal(n)[0] == '0' ==> n == 0
    ensures ParseDecimal(Decimal(n)) == n
    decreases n
  {
    if n >= 10 {
      DecimalRoundTrip(n / 10);
      var s := Decimal(n / 10);
      assert Decimal(n) == s + [DigitChar(n % 10)];
      assert Decimal(n)[..|Decimal(n)| - 1] == s;
    }
  }

  // ---------------------------------------------------------------------------
  // The rendering of an ErrorList: one line "#i: <entry text>\n" per entry.

  /** Line `i` of an ErrorList's text; `text` stands for the entry's own `Error()`
      method, whose message template is not modelled. */
  function Line(i: nat, e: Error, text: Error -> string): (line: string)
  {
    "#" + Decimal(i) + ": " + text(e) + "\n"
  }

  /** The lines for `list`, numbered from `start`. */
  function LinesFrom(list: seq<Error>, start: nat, text: Error -> string): (s: string)
    decreases |list|
  {
    if list == [] then "" else Line(start, list[0], text) + LinesFrom(list[1..], start + 1, text)
  }

  /** The text of a whole ErrorList. */
  function Rendered(list: seq<Error>, text: Error -> string): (s: string)
  {
    LinesFrom(list, 0, text)
  }

  /** Appending one entry appends exactly its line, numbered after the others. */
  lemma {:induction false} LinesFromSnoc(list: seq<Error>, e: Error, start: nat, text: Error -> string)
    ensures LinesFrom(list + [e], start, text) == LinesFrom(list, start, text) + Line(start + |list|, e, text)
    decreases |list|
  {
    if list == [] {
      assert [e][1..] == [];
    } else {
      assert (list + [e])[1..] == list[1..] + [e];
      LinesFromSnoc(list[1..], e, start + 1, text);
    }
  }

  /** The text of a concatenation is the concatenation of the texts, the second part
      numbered on from the first: entries keep their order and their index. */
  lemma {:induction false} LinesFromAppend(a: seq<Error>, b: seq<Error>, start: nat, text: Error -> string)
    ensures LinesFrom(a + b, start, text) == LinesFrom(a, start, text) + LinesFrom(b, start + |a|, text)
    decreases |a|
  {
    if a != [] {
      assert (a + b)[1..] == a[1..] + b;
      LinesFromAppend(a[1..], b, start + 1, text);
    } else {
      assert a + b == b;
    }
  }

  /** An ErrorList renders as the empty string exactly when it holds no entry. */
  lemma RenderedEmpty(list: seq<Error>, text: Error -> string)
    ensures Rendered(list, text) == "" <==> list == []
  {
    if list != [] {
      assert Rendered(list, text)[0] == '#';
    }
  }

  /** `ErrorList`: an append-only list of errors. */
  class ErrorList {
    var list: seq<Error>

    constructor ()
      ensures list == []
    {
      list := [];
    }

    /** The number of errors added so far. */
    function Len(): (n: nat)
      reads this
      ensures n == |list|
    {
      |list|
    }

    /** Appends `errs` in argument order, leaving the earlier entries as they were. */
    method Add(errs: seq<Error>)
      modifies this
      ensures list == old(list) + errs
      ensures Len() == old(Len()) + |errs|
    {
      list := list + errs;
    }

    /** `Error`: one line per entry, in list order: "#i: <text of entry i>\n". */
    method Text(text: Error -> string) returns (s: string)
      ensures s == Rendered(list, text)
    {
      s := "";
      var i := 0;
      while i < |list|
        invariant 0 <= i <= |list|
        invariant s == Rendered(list[..i], text)
      {
        LinesFromSnoc(list[..i], list[i], 0, text);
        assert list[..i + 1] == list[..i] + [list[i]];
        s := s + Line(i, list[i], text);
        i := i + 1;
      }
      assert list[..i] == list;
    }
  }
}
