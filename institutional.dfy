/** app_v3.py: the number parser and the record builder for one stock's row of the TWSE
    "T86" institutional-investors table. Fetching the table is not part of this model. */
module Institutional {
  import opened Wrappers
  import opened Text

  // ----- _parse_num -----

  /** The string with every comma and every space removed. */
  function Clean(s: string): (r: string)
    ensures |r| <= |s|
    ensures ',' !in r && ' ' !in r
  {
    if s == [] then []
    else (if s[0] == ',' || s[0] == ' ' then [] else [s[0]]) + Clean(s[1..])
  }

  function DigitValue(c: char): nat
    requires IsDigit(c)
  {
    c as int - '0' as int
  }

  /** The value of a string of decimal digits. */
  function DigitsValue(ds: string): nat
    requires forall i :: 0 <= i < |ds| ==> IsDigit(ds[i])
  {
    if ds == [] then 0 else DigitsValue(ds[..|ds| - 1]) * 10 + DigitValue(ds[|ds| - 1])
  }

  /** Python's `int(t)` on a string: surrounding whitespace, an optional sign, then one or
      more digits; anything else raises, written `None`. */
  function ParseInt(t: string): (r: Option<int>)
    ensures r.Some? ==> Strip(t) != []
  {
    var u := Strip(t);
    if u == [] then None
    else if (u[0] == '-' || u[0] == '+') && AllDigits(u[1..]) then
      Some(if u[0] == '-' then -(DigitsValue(u[1..]) as int) else DigitsValue(u[1..]))
    else if AllDigits(u) then Some(DigitsValue(u))
    else None
  }

  /** `_parse_num(s)`: commas and spaces removed, the empty string read as 0, and any
      string `int` rejects read as 0 as well. */
  function ParseNum(s: string): int {
    var t := Clean(s);
    if t == [] then 0
    else match ParseInt(t)
      case Some(v) => v
      case None => 0
  }

  function DigitChar(d: nat): (c: char)
    requires d < 10
    ensures IsDigit(c) && DigitValue(c) == d
  {
    ('0' as int + d) as char
  }

  /** The decimal digits of n. */
  function Show(n: nat): (r: string)
    ensures r != [] && forall i :: 0 <= i < |r| ==> IsDigit(r[i])
  {
    if n < 10 then [DigitChar(n)] else Show(n / 10) + [DigitChar(n % 10)]
  }

  /** The decimal form of an integer, with a minus sign when negative. */
  function ShowInt(z: int): string {
    if z < 0 then "-" + Show(-z) else Show(z)
  }

  lemma {:induction false} ShowValue(n: nat)
    ensures DigitsValue(Show(n)) == n
  {
    if n >= 10 {
      ShowValue(n / 10);
      var r := Show(n);
      assert r[..|r| - 1] == Show(n / 10);
    }
  }

  /** A string with no whitespace at either end strips to itself. */
  lemma StripNoSpace(s: string)
    requires s != [] && !IsSpace(s[0]) && !IsSpace(s[|s| - 1])
    ensures Strip(s) == s
  {
  }

  /** `int` reads back the decimal form of any integer. */
  lemma ParseIntShow(z: int)
    ensures ParseInt(ShowInt(z)) == Some(z)
  {
    if z < 0 {
      ParseIntShowNegative(z);
    } else {
      ParseIntShowNat(z);
    }
  }

  lemma ParseIntShowNat(z: int)
    requires z >= 0
    ensures ParseInt(ShowInt(z)) == Some(z)
  {
    ShowValue(z);
    ParseUnsigned(Show(z), z);
  }

  lemma ParseIntShowNegative(z: int)
    requires z < 0
    ensures ParseInt(ShowInt(z)) == Some(z)
  {
    ShowValue(-z);
    ParseSigned(Show(-z), -z);
  }

  /** `int` reads a run of digits as its value. */
  lemma ParseUnsigned(ds: string, n: nat)
    requires AllDigits(ds) && DigitsValue(ds) == n
    ensures ParseInt(ds) == Some(n as int)
  {
    assert IsDigit(ds[0]) && IsDigit(ds[|ds| - 1]);
    StripNoSpace(ds);
  }

  /** `int` reads a minus sign before a run of digits as the negated value. */
  lemma ParseSigned(ds: string, n: nat)
    requires AllDigits(ds) && DigitsValue(ds) == n
    ensures ParseInt("-" + ds) == Some(-(n as int))
  {
    var u := "-" + ds;
    assert u[0] == '-' && u[1..] == ds && u[|u| - 1] == ds[|ds| - 1];
    assert IsDigit(ds[|ds| - 1]);
    StripNoSpace(u);
  }

  /** Printing an integer and parsing it back gives the integer, whatever commas and spaces
      are interleaved with its characters, as in the table's "1,234,567". */
  lemma ParseNumShow(s: string, z: int)
    requires Clean(s) == ShowInt(z)
    ensures ParseNum(s) == z
  {
    ParseIntShow(z);
  }

  /** Blank cells read as 0, and so does any cell `int` rejects. */
  lemma ParseNumFallback(s: string)
    ensures Clean(s) == [] ==> ParseNum(s) == 0
    ensures ParseInt(Clean(s)).None? ==> ParseNum(s) == 0
  {
  }

  // ----- _build_institutional_result -----

  /** The result keys the builder fills from the table. */
  datatype Key = ForeignBuy | ForeignSell | ForeignNet | TrustBuy | TrustSell | TrustNet | DealerNet | TotalNet

  /** The column titles of the table and the keys they map to. */
  function FieldKey(field: string): Option<Key> {
    if field == "外陸資買進股數" then Some(ForeignBuy)
    else if field == "外陸資賣出股數" then Some(ForeignSell)
    else if field == "外陸資買賣超股數" then Some(ForeignNet)
    else if field == "投信買進股數" then Some(TrustBuy)
    else if field == "投信賣出股數" then Some(TrustSell)
    else if field == "投信買賣超股數" then Some(TrustNet)
    else if field == "自營商買賣超股數" then Some(DealerNet)
    else if field == "三大法人買賣超股數" then Some(TotalNet)
    else None
  }

  /** The keys the builder's loop assigns, column by column: `keyOf` names a column's key
      (the builder passes `FieldKey`) and `parse` reads its cell (`ParseNum`); `None` when a
      mapped column has no cell in the row and the indexing raises. */
  function Assigned(fields: seq<string>, row: seq<string>, keyOf: string -> Option<Key>, parse: string -> int): Option<map<Key, int>> {
    if fields == [] then Some(map[])
    else
      var k := |fields| - 1;
      match Assigned(fields[..k], row, keyOf, parse)
      case None => None
      case Some(m) =>
        match keyOf(fields[k])
        case None => Some(m)
        case Some(key) => if k < |row| then Some(m[key := parse(row[k])]) else None
  }

  /** The loop fails exactly when some mapped column lies beyond the row. */
  lemma {:induction false} AssignedFails(fields: seq<string>, row: seq<string>, keyOf: string -> Option<Key>, parse: string -> int)
    ensures Assigned(fields, row, keyOf, parse).None? <==>
              exists i :: 0 <= i < |fields| && keyOf(fields[i]).Some? && i >= |row|
  {
    if fields != [] {
      var k := |fields| - 1;
      var init := fields[..k];
      AssignedFails(init, row, keyOf, parse);
      assert forall i :: 0 <= i < k ==> fields[i] == init[i];
    }
  }

  /** When it succeeds, a key is assigned exactly when some column maps to it. */
  lemma {:induction false} AssignedKeys(fields: seq<string>, row: seq<string>, keyOf: string -> Option<Key>, parse: string -> int, key: Key)
    requires Assigned(fields, row, keyOf, parse).Some?
    ensures key in Assigned(fields, row, keyOf, parse).value <==> exists i :: 0 <= i < |fields| && keyOf(fields[i]) == Some(key)
  {
    if fields != [] {
      var k := |fields| - 1;
      var init := fields[..k];
      AssignedKeys(init, row, keyOf, parse, key);
      assert forall i :: 0 <= i < k ==> fields[i] == init[i];
    }
  }

  /** An assigned key holds the parsed cell of the last column that maps to it. */
  lemma {:induction false} AssignedValue(fields: seq<string>, row: seq<string>, keyOf: string -> Option<Key>, parse: string -> int, key: Key) returns (i: nat)
    requires Assigned(fields, row, keyOf, parse).Some? && key in Assigned(fields, row, keyOf, parse).value
    ensures i < |fields| && i < |row| && keyOf(fields[i]) == Some(key)
    ensures Assigned(fields, row, keyOf, parse).value[key] == parse(row[i])
    ensures forall j :: i < j < |fields| ==> keyOf(fields[j]) != Some(key)
  {
    var k := |fields| - 1;
    var init := fields[..k];
    if keyOf(fields[k]) == Some(key) {
      AssignedLast(fields, row, keyOf, parse, key);
      i := k;
    } else {
      AssignedOther(fields, row, keyOf, parse, key);
      i := AssignedValue(init, row, keyOf, parse, key);
      assert forall j :: i < j < k ==> fields[j] == init[j];
    }
  }

  /** A last column that maps to the key sets its value. */
  lemma AssignedLast(fields: seq<string>, row: seq<string>, keyOf: string -> Option<Key>, parse: string -> int, key: Key)
    requires Assigned(fields, row, keyOf, parse).Some?
    requires fields != [] && keyOf(fields[|fields| - 1]) == Some(key)
    ensures |fields| - 1 < |row| && Assigned(fields, row, keyOf, parse).value[key] == parse(row[|fields| - 1])
  {
  }

  /** A last column that maps elsewhere leaves the key's value from the columns before. */
  lemma AssignedOther(fields: seq<string>, row: seq<string>, keyOf: string -> Option<Key>, parse: string -> int, key: Key)
    requires Assigned(fields, row, keyOf, parse).Some? && key in Assigned(fields, row, keyOf, parse).value
    requires fields != [] && keyOf(fields[|fields| - 1]) != Some(key)
    ensures var prev := Assigned(fields[..|fields| - 1], row, keyOf, parse);
            prev.Some? && key in prev.value && Assigned(fields, row, keyOf, parse).value[key] == prev.value[key]
  {
  }

  /** The record the builder returns; the dealers' buy and sell volumes are not in the
      table and stay `None`, and the foreign and trust net figures are `None` when no
      column names them (the builder gives those two keys no default). */
  datatype Record = Record(
    date: string,
    foreignBuy: int, foreignSell: int, foreignNet: Option<int>,
    trustBuy: int, trustSell: int, trustNet: Option<int>,
    dealerBuy: Option<int>, dealerSell: Option<int>, dealerNet: int,
    totalNet: int)

  /** The keys the builder fills with 0 when no column names them. */
  predicate ZeroDefaulted(k: Key) {
    k != ForeignNet && k != TrustNet
  }

  /** The record's entry under `k`; `None` for a key the record leaves absent. */
  function Entry(r: Record, k: Key): Option<int> {
    match k
    case ForeignBuy => Some(r.foreignBuy)
    case ForeignSell => Some(r.foreignSell)
    case ForeignNet => r.foreignNet
    case TrustBuy => Some(r.trustBuy)
    case TrustSell => Some(r.trustSell)
    case TrustNet => r.trustNet
    case DealerNet => Some(r.dealerNet)
    case TotalNet => Some(r.totalNet)
  }

  /** `f"{s[:4]}-{s[4:6]}-{s[6:]}"` with Python's clamping slices. */
  function DashedDate(s: string): string {
    var a := if |s| < 4 then |s| else 4;
    var b := if |s| < 6 then |s| else 6;
    s[..a] + "-" + s[a..b] + "-" + s[b..]
  }

  /** The characters other than '-'. */
  function Undashed(s: string): string {
    if s == [] then [] else (if s[0] == '-' then [] else [s[0]]) + Undashed(s[1..])
  }

  /** A string without dashes is its own undashed form. */
  lemma {:induction false} UndashedPlain(s: string)
    requires forall i :: 0 <= i < |s| ==> s[i] != '-'
    ensures Undashed(s) == s
  {
    if s != [] {
      UndashedPlain(s[1..]);
      assert [s[0]] + s[1..] == s;
    }
  }

  lemma {:induction false} UndashedAppend(a: string, b: string)
    ensures Undashed(a + b) == Undashed(a) + Undashed(b)
  {
    if a != [] {
      var c := if a[0] == '-' then [] else [a[0]];
      assert (a + b)[0] == a[0];
      assert (a + b)[1..] == a[1..] + b;
      UndashedAppend(a[1..], b);
      assert Undashed(a + b) == c + Undashed(a[1..] + b);
      assert Undashed(a) == c + Undashed(a[1..]);
    } else {
      assert a + b == b;
    }
  }

  /** Dropping the dashes of `a + "-" + b` drops them from each side. */
  lemma UndashedAround(a: string, b: string)
    ensures Undashed(a + "-" + b) == Undashed(a) + Undashed(b)
  {
    var d: string := ['-'];
    assert d[1..] == [];
    assert Undashed(d) == [];
    UndashedAppend(a + d, b);
    UndashedAppend(a, d);
  }

  /** Three dash-free pieces joined by dashes give their concatenation back. */
  lemma UndashedJoin3(x: string, y: string, z: string)
    requires forall i :: 0 <= i < |x| ==> x[i] != '-'
    requires forall i :: 0 <= i < |y| ==> y[i] != '-'
    requires forall i :: 0 <= i < |z| ==> z[i] != '-'
    ensures Undashed(x + "-" + y + "-" + z) == x + y + z
  {
    UndashedPlain(x);
    UndashedPlain(y);
    UndashedPlain(z);
    UndashedAround(x + "-" + y, z);
    UndashedAround(x, y);
  }

  /** The dashed date gives back the `YYYYMMDD` string once its dashes are dropped. */
  lemma DashedDateRoundTrip(s: string)
    requires '-' !in s
    ensures Undashed(DashedDate(s)) == s
  {
    var a := if |s| < 4 then |s| else 4;
    var b := if |s| < 6 then |s| else 6;
    assert forall i :: 0 <= i < |s| ==> s[i] != '-';
    UndashedJoin3(s[..a], s[a..b], s[b..]);
    assert s == s[..a] + s[a..b] + s[b..];
  }

  /** An eight-character date gets its dashes after the year and after the month. */
  lemma DashedDateShape(s: string)
    requires |s| == 8
    ensures |DashedDate(s)| == 10 && DashedDate(s)[4] == '-' && DashedDate(s)[7] == '-'
    ensures DashedDate(s)[..4] == s[..4] && DashedDate(s)[5..7] == s[4..6] && DashedDate(s)[8..] == s[6..]
  {
  }

  /** A key with a default of 0. */
  function ValueOf(m: map<Key, int>, key: Key): int {
    if key in m then m[key] else 0
  }

  /** A key without a default. */
  function OptValueOf(m: map<Key, int>, key: Key): Option<int> {
    if key in m then Some(m[key]) else None
  }

  /** `_build_institutional_result(fields, row, date_str)`; `None` when the row is too short
      for a mapped column. */
  function InstitutionalResult(fields: seq<string>, row: seq<string>, dateStr: string): Option<Record> {
    match Assigned(fields, row, FieldKey, ParseNum)
    case None => None
    case Some(m) =>
      Some(Record(DashedDate(dateStr),
                  ValueOf(m, ForeignBuy), ValueOf(m, ForeignSell), OptValueOf(m, ForeignNet),
                  ValueOf(m, TrustBuy), ValueOf(m, TrustSell), OptValueOf(m, TrustNet),
                  None, None, ValueOf(m, DealerNet), ValueOf(m, TotalNet)))
  }

  /** A key no column maps to is 0 when the builder gives it a default and absent when
      it does not (the foreign and trust net figures); the dealers' buy and sell stay
      missing either way. */
  lemma DefaultsToZero(fields: seq<string>, row: seq<string>, dateStr: string, k: Key)
    requires forall i :: 0 <= i < |fields| ==> FieldKey(fields[i]) != Some(k)
    ensures InstitutionalResult(fields, row, dateStr).Some? ==>
              Entry(InstitutionalResult(fields, row, dateStr).value, k) == (if ZeroDefaulted(k) then Some(0) else None)
              && InstitutionalResult(fields, row, dateStr).value.dealerBuy.None?
              && InstitutionalResult(fields, row, dateStr).value.dealerSell.None?
  {
    if Assigned(fields, row, FieldKey, ParseNum).Some? {
      AssignedKeys(fields, row, FieldKey, ParseNum, k);
    }
  }

  /** A key some column maps to holds the parsed cell of the last such column. */
  lemma ResultEntry(fields: seq<string>, row: seq<string>, dateStr: string, k: Key) returns (i: nat)
    requires InstitutionalResult(fields, row, dateStr).Some?
    requires exists j :: 0 <= j < |fields| && FieldKey(fields[j]) == Some(k)
    ensures i < |fields| && i < |row| && FieldKey(fields[i]) == Some(k)
    ensures Entry(InstitutionalResult(fields, row, dateStr).value, k) == Some(ParseNum(row[i]))
    ensures forall j :: i < j < |fields| ==> FieldKey(fields[j]) != Some(k)
  {
    AssignedKeys(fields, row, FieldKey, ParseNum, k);
    i := AssignedValue(fields, row, FieldKey, ParseNum, k);
  }

  /** The builder's loop over the columns. */
  method BuildInstitutionalResult(fields: seq<string>, row: seq<string>, dateStr: string) returns (r: Option<Record>)
    ensures r == InstitutionalResult(fields, row, dateStr)
  {
    var result: map<Key, int> := map[];
    for i := 0 to |fields|
      invariant Assigned(fields[..i], row, FieldKey, ParseNum) == Some(result)
    {
      assert fields[..i + 1][..i] == fields[..i];
      var key := FieldKey(fields[i]);
      if key.Some? {
        if i >= |row| {
          assert Assigned(fields[..i + 1], row, FieldKey, ParseNum).None?;
          AssignedFailed(fields, row, FieldKey, ParseNum, i + 1);
          assert fields[..|fields|] == fields;
          return None;
        }
        result := result[key.value := ParseNum(row[i])];
      }
    }
    assert fields[..|fields|] == fields;
    r := Some(Record(DashedDate(dateStr),
                     ValueOf(result, ForeignBuy), ValueOf(result, ForeignSell), OptValueOf(result, ForeignNet),
                     ValueOf(result, TrustBuy), ValueOf(result, TrustSell), OptValueOf(result, TrustNet),
                     None, None, ValueOf(result, DealerNet), ValueOf(result, TotalNet)));
  }

  /** Once the loop has raised it stays raised. */
  lemma {:induction false} AssignedFailed(fields: seq<string>, row: seq<string>, keyOf: string -> Option<Key>, parse: string -> int, i: nat)
    requires i <= |fields| && Assigned(fields[..i], row, keyOf, parse).None?
    ensures Assigned(fields, row, keyOf, parse).None?
    decreases |fields| - i
  {
    if i < |fields| {
      assert fields[..i + 1][..i] == fields[..i];
      AssignedFailed(fields, row, keyOf, parse, i + 1);
    } else {
      assert fields[..i] == fields;
    }
  }
}
