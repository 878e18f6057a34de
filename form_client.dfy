/**
 * The form-body helper of the HTTP client wrapper (src/api/client.ts): it turns a record of
 * scalar values into the ordered name/value list that `URLSearchParams` later percent-encodes.
 */
module FormClient {
  import opened Common
  import opened Records

  /** A value a form record may hold: a string, a number (integers here), a boolean, or nothing. */
  datatype Value = Str(s: string) | Num(n: int) | Bool(b: bool) | Undefined | Null

  /** `undefined` and `null` are the absent values. */
  predicate Absent(v: Value) {
    v.Undefined? || v.Null?
  }

  type Entry = (string, Value)

  /** One form parameter: a name and its text. */
  type Param = (string, string)

  predicate IsDigit(c: char) {
    '0' <= c <= '9'
  }

  function DigitChar(d: nat): (c: char)
    requires d < 10
    ensures IsDigit(c) && c as int - '0' as int == d
  {
    ('0' as int + d) as char
  }

  /** Decimal numeral of a natural number, without leading zeros. */
  function NatToDecimal(n: nat): (s: string)
    ensures |s| >= 1 && forall i | 0 <= i < |s| :: IsDigit(s[i])
    ensures s[0] == '0' ==> n == 0 && s == "0"
  {
    if n < 10 then [DigitChar(n)] else NatToDecimal(n / 10) + [DigitChar(n % 10)]
  }

  /** `String(n)` for an integer `n`. */
  function IntToDecimal(n: int): string {
    if n < 0 then "-" + NatToDecimal(-n) else NatToDecimal(n)
  }

  /** The number a string of digits denotes. */
  function DecimalValue(s: string): nat
    requires forall i | 0 <= i < |s| :: IsDigit(s[i])
  {
    if s == [] then 0
    else
      var c := s[|s| - 1];
      assert IsDigit(c);
      10 * DecimalValue(s[..|s| - 1]) + (c as int - '0' as int)
  }

  /** How a receiver reads an integer parameter back. */
  function ParseInteger(s: string): Option<int> {
    if |s| >= 2 && s[0] == '-' && forall i | 1 <= i < |s| :: IsDigit(s[i]) then
      var n: int := 0 - DecimalValue(s[1..]) as int;
      Some(n)
    else if |s| >= 1 && forall i | 0 <= i < |s| :: IsDigit(s[i]) then Some(DecimalValue(s))
    else None
  }

  lemma {:induction false} NatToDecimalRoundTrip(n: nat)
    ensures DecimalValue(NatToDecimal(n)) == n
  {
    if n >= 10 {
      NatToDecimalRoundTrip(n / 10);
      var s := NatToDecimal(n);
      assert s[..|s| - 1] == NatToDecimal(n / 10);
    }
  }

  /** A number sent as a parameter reads back as the same number. */
  lemma IntToDecimalRoundTrip(n: int)
    ensures ParseInteger(IntToDecimal(n)) == Some(n)
  {
    if n < 0 {
      NatToDecimalRoundTrip(-n);
      NegativeNumeral(NatToDecimal(-n));
    } else {
      NatToDecimalRoundTrip(n);
      DigitsNumeral(NatToDecimal(n));
    }
  }

  lemma DigitsNumeral(d: string)
    requires |d| >= 1 && forall i | 0 <= i < |d| :: IsDigit(d[i])
    ensures ParseInteger(d) == Some(DecimalValue(d))
  {
    assert d[0] != '-';
  }

  lemma NegativeNumeral(d: string)
    requires |d| >= 1 && forall i | 0 <= i < |d| :: IsDigit(d[i])
    ensures ParseInteger("-" + d) == Some(0 - DecimalValue(d))
  {
    var s := "-" + d;
    assert s[1..] == d;
    forall i | 1 <= i < |s| ensures IsDigit(s[i]) {
      assert s[i] == d[i - 1];
    }
  }

  /** JavaScript's `String(v)`. */
  function Stringify(v: Value): string {
    match v
    case Str(s) => s
    case Num(n) => IntToDecimal(n)
    case Bool(b) => if b then "true" else "false"
    case Undefined => "undefined"
    case Null => "null"
  }

  /** Only a string value can come out as the text "undefined" or "null". */
  lemma StringifyAbsentText(v: Value)
    requires !v.Str? && !Absent(v)
    ensures Stringify(v) != "undefined" && Stringify(v) != "null"
  {
    if v.Num? {
      var s := Stringify(v);
      assert s[0] == '-' || IsDigit(s[0]);
    }
  }

  /**
   * The parameter list `form(data)` builds: one parameter per entry whose value is present,
   * named by its key, valued `String(v)`, in entry order.
   */
  function FormParams(data: seq<Entry>): (ps: seq<Param>)
    ensures |ps| <= |data|
  {
    if data == [] then []
    else
      var (k, v) := data[|data| - 1];
      FormParams(data[..|data| - 1]) + (if Absent(v) then [] else [(k, Stringify(v))])
  }

  /** `form(data)`: walks the entries and appends each present one to a fresh parameter list. */
  method Form(data: seq<Entry>) returns (params: seq<Param>)
    ensures params == FormParams(data)
  {
    params := [];
    for i := 0 to |data|
      invariant params == FormParams(data[..i])
    {
      var (k, v) := data[i];
      if v != Undefined && v != Null {
        params := params + [(k, Stringify(v))];
      }
      assert data[..i + 1][..i] == data[..i];
    }
    assert data[..|data|] == data;
  }

  /** Appending one entry appends at most its one parameter. */
  lemma FormParamsSnoc(data: seq<Entry>, e: Entry)
    ensures FormParams(data + [e]) == FormParams(data) + (if Absent(e.1) then [] else [(e.0, Stringify(e.1))])
  {
    assert (data + [e])[..|data|] == data;
  }

  /** Serialising a concatenation serialises the parts in order: the output keeps entry order. */
  lemma {:induction false} FormParamsAppend(d1: seq<Entry>, d2: seq<Entry>)
    ensures FormParams(d1 + d2) == FormParams(d1) + FormParams(d2)
  {
    if d2 != [] {
      var init := d2[..|d2| - 1];
      assert (d1 + d2)[..|d1 + d2| - 1] == d1 + init;
      FormParamsAppend(d1, init);
    } else {
      assert d1 + d2 == d1;
    }
  }

  /** The keys of the entries whose value is present. */
  function PresentKeys(data: seq<Entry>): set<string> {
    set i | 0 <= i < |data| && !Absent(data[i].1) :: data[i].0
  }

  /** A key is a parameter name exactly when some entry with that key has a present value. */
  lemma {:induction false} FormParamsKeys(data: seq<Entry>)
    ensures KeysOf(FormParams(data)) == PresentKeys(data)
  {
    if data != [] {
      var init := data[..|data| - 1];
      var last := data[|data| - 1];
      FormParamsKeys(init);
      var ps := FormParams(data);
      var tail := if Absent(last.1) then [] else [(last.0, Stringify(last.1))];
      assert ps == FormParams(init) + tail;
      assert KeysOf(ps) == KeysOf(FormParams(init)) + KeysOf(tail) by {
        forall k | k in KeysOf(ps) ensures k in KeysOf(FormParams(init)) + KeysOf(tail) {
          var i :| 0 <= i < |ps| && ps[i].0 == k;
          if i < |FormParams(init)| {
            assert ps[i] == FormParams(init)[i];
          } else {
            assert ps[i] == tail[i - |FormParams(init)|];
          }
        }
        forall k | k in KeysOf(FormParams(init)) + KeysOf(tail) ensures k in KeysOf(ps) {
          if k in KeysOf(FormParams(init)) {
            var i :| 0 <= i < |FormParams(init)| && FormParams(init)[i].0 == k;
            assert ps[i] == FormParams(init)[i];
          } else {
            var i :| 0 <= i < |tail| && tail[i].0 == k;
            assert ps[|FormParams(init)| + i] == tail[i];
          }
        }
      }
      assert KeysOf(tail) == (if Absent(last.1) then {} else {last.0}) by {
        if !Absent(last.1) {
          assert tail[0].0 == last.0;
        }
      }
      assert PresentKeys(data) == PresentKeys(init) + (if Absent(last.1) then {} else {last.0}) by {
        assert forall i | 0 <= i < |init| :: init[i] == data[i];
      }
    }
  }

  /** A record with distinct keys yields parameters with distinct names: one per present entry. */
  lemma {:induction false} FormParamsDistinct(data: seq<Entry>)
    requires DistinctKeys(data)
    ensures DistinctKeys(FormParams(data))
    ensures |FormParams(data)| == |PresentKeys(data)|
  {
    if data != [] {
      var init := data[..|data| - 1];
      var last := data[|data| - 1];
      FormParamsDistinct(init);
      FormParamsKeys(init);
      assert last.0 !in PresentKeys(init);
      var ps := FormParams(data);
      assert ps == FormParams(init) + (if Absent(last.1) then [] else [(last.0, Stringify(last.1))]);
      if !Absent(last.1) {
        forall i, j | 0 <= i < j < |ps| ensures ps[i].0 != ps[j].0 {
          if j == |ps| - 1 {
            assert ps[i] == FormParams(init)[i];
            assert ps[i].0 in KeysOf(FormParams(init));
          }
        }
      }
      DistinctKeysCount(ps);
      FormParamsKeys(data);
    }
  }

  /**
   * Looking a parameter up by name gives `String(v)` when the record holds a present `v`
   * under that name, and nothing when the key is missing or its value is absent.
   */
  lemma FormParamsFind(data: seq<Entry>, k: string)
    requires DistinctKeys(data)
    ensures Find(FormParams(data), k) ==
      match Find(data, k)
      case Some(v) => if Absent(v) then None else Some(Stringify(v))
      case None => None
  {
    FormParamsKeys(data);
    FormParamsDistinct(data);
    var ps := FormParams(data);
    if k in KeysOf(ps) {
      var j :| 0 <= j < |ps| && ps[j].0 == k;
      FormParamOrigin(data, j);
      var i :| 0 <= i < |data| && data[i].0 == k && !Absent(data[i].1) && ps[j].1 == Stringify(data[i].1);
      FindAt(data, i);
      FindAt(ps, j);
    } else if k in KeysOf(data) {
      var i :| 0 <= i < |data| && data[i].0 == k;
      FindAt(data, i);
    }
  }

  /** Every parameter comes from a present entry with the same key, valued `String(v)`. */
  lemma {:induction false} FormParamOrigin(data: seq<Entry>, j: int)
    requires 0 <= j < |FormParams(data)|
    ensures exists i | 0 <= i < |data| ::
      data[i].0 == FormParams(data)[j].0 && !Absent(data[i].1) && FormParams(data)[j].1 == Stringify(data[i].1)
  {
    var init := data[..|data| - 1];
    var ps := FormParams(data);
    assert ps == FormParams(init) + (if Absent(data[|data| - 1].1) then [] else [(data[|data| - 1].0, Stringify(data[|data| - 1].1))]);
    if j < |FormParams(init)| {
      FormParamOrigin(init, j);
      var i :| 0 <= i < |init| && init[i].0 == FormParams(init)[j].0 && !Absent(init[i].1) && FormParams(init)[j].1 == Stringify(init[i].1);
      assert data[i] == init[i];
    } else {
      assert ps[j] == (data[|data| - 1].0, Stringify(data[|data| - 1].1));
    }
  }

  /**
   * An absent value never reaches the body: the parameter text "undefined" or "null" can only
   * come from an entry that holds that very string.
   */
  lemma AbsentNeverSerialised(data: seq<Entry>, k: string, text: string)
    requires (k, text) in FormParams(data)
    requires text == "undefined" || text == "null"
    ensures exists i | 0 <= i < |data| :: data[i] == (k, Str(text))
  {
    var ps := FormParams(data);
    var j :| 0 <= j < |ps| && ps[j] == (k, text);
    FormParamOrigin(data, j);
    var i :| 0 <= i < |data| && data[i].0 == k && !Absent(data[i].1) && text == Stringify(data[i].1);
    if !data[i].1.Str? {
      StringifyAbsentText(data[i].1);
    }
  }
}
