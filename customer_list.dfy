/** The customer table: the fetched customers are sorted by id, largest
    first, in the response array itself, and each becomes a row with a
    capitalised name and a link to the customer's page. */
module CustomerList {
  import opened Wrappers
  import opened Text
  import opened JsValues
  import opened Sorting
  import opened Feedback

  /** What `b.id - a.id` makes of an id, as JavaScript's ToNumber does:
      numbers as they are, `null` and `false` as 0, `true` as 1, a string by
      `StringKey` of its trimmed text. Anything that would be `NaN` is
      taken as 0. */
  function IdKey(id: Value): int
  {
    match id
    case Num(n) => n
    case Bool(b) => if b then 1 else 0
    case Str(s) => StringKey(Trim(s))
    case _ => 0
  }

  /** A trimmed string's number: empty is 0; decimal digits with an
      optional sign are their value. Other numerals (fractions, exponents,
      hexadecimal, "Infinity") and non-numerals are taken as 0. */
  function StringKey(t: string): int
  {
    if |t| > 1 && t[0] == '-' && AllDigits(t[1..]) then -DecimalValue(t[1..])
    else if |t| > 1 && t[0] == '+' && AllDigits(t[1..]) then DecimalValue(t[1..])
    else if AllDigits(t) then DecimalValue(t)
    else 0
  }

  /** An id keeps its value whether it arrives as a number or as the
      string `String(id)`, so both forms sort alike. */
  lemma IdKeyReadsPrinted(n: int)
    ensures IdKey(Num(n)) == n
    ensures IdKey(Str(IntToDecimal(n))) == n
  {
    var s := IntToDecimal(n);
    assert Trim(s) == s by { PrintedTrim(n); }
    StringKeyPrinted(n);
  }

  lemma StringKeyPrinted(n: int)
    ensures StringKey(IntToDecimal(n)) == n
  {
    var s := IntToDecimal(n);
    if n < 0 {
      var d := NatToDecimal(-n);
      assert s == "-" + d;
      assert s[1..] == d;
      assert AllDigits(d);
      DecimalRoundTrip(-n);
    } else {
      assert s == NatToDecimal(n);
      assert AllDigits(s) && IsDecimalDigit(s[0]);
      DecimalRoundTrip(n);
    }
  }

  /** A printed integer starts with a digit or `-` and ends with a digit,
      so trimming leaves it unchanged. */
  lemma PrintedTrim(n: int)
    ensures Trim(IntToDecimal(n)) == IntToDecimal(n)
  {
    var s := IntToDecimal(n);
    var d := NatToDecimal(if n < 0 then -n else n);
    assert s == (if n < 0 then "-" + d else d);
    assert IsDecimalDigit(d[|d| - 1]) && s[|s| - 1] == d[|d| - 1];
    assert s[0] == '-' || IsDecimalDigit(s[0]);
    NoSpaceTrim(s);
  }

  lemma NoSpaceTrim(s: string)
    requires s != [] && !IsJsWhitespace(s[0]) && !IsJsWhitespace(s[|s| - 1])
    ensures Trim(s) == s
  {
    assert TrimStart(s) == s;
  }

  /** Signs and surrounding whitespace are read as `Number(s)` reads them. */
  lemma IdKeyExamples()
    ensures IdKey(Str(" 12 ")) == 12
    ensures IdKey(Str("-3")) == -3 && IdKey(Str("+4")) == 4
    ensures IdKey(Str("")) == 0 && IdKey(Null) == 0
  {
    SpacedKey();
    SignedKeys();
  }

  lemma SignedKeys()
    ensures IdKey(Str("-3")) == -3 && IdKey(Str("+4")) == 4
  {
    assert Trim("-3") == "-3" by { NoSpaceTrim("-3"); }
    assert StringKey("-3") == -3 by { assert "-3"[1..] == "3" && "3"[..0] == ""; }
    assert Trim("+4") == "+4" by { NoSpaceTrim("+4"); }
    assert StringKey("+4") == 4 by { assert "+4"[1..] == "4" && "4"[..0] == ""; }
  }

  lemma SpacedKey()
    ensures IdKey(Str(" 12 ")) == 12
  {
    assert Trim(" 12 ") == "12" by { TrimExample(); }
    assert StringKey("12") == 12 by { assert "12"[..1] == "1" && "1"[..0] == ""; }
  }

  lemma TrimExample()
    ensures Trim(" 12 ") == "12"
  {
    assert " 12 "[1..] == "12 " && "12 "[..2] == "12";
    assert TrimStart("12 ") == "12 ";
    assert TrimEnd("12") == "12";
  }

  function CustomerKey(c: Record): int
  {
    IdKey(Get(c, "id"))
  }

  /** `customer.username?.charAt(0).toUpperCase() + customer.username?.slice(1)`.
      A string is capitalised; `null` and `undefined` short-circuit both
      halves to `undefined`, whose sum shows as "NaN"; any other value has
      no `charAt`, and the throw is `None`. */
  function DisplayName(username: Value): (name: Option<string>)
    ensures username.Str? ==> name == Some(Capitalize(username.s))
    ensures Nullish(username) ==> name == Some("NaN")
    ensures name.None? <==> username.Num? || username.Bool?
  {
    match username
    case Str(s) => Some(Capitalize(s))
    case Undefined => Some("NaN")
    case Null => Some("NaN")
    case _ => None
  }

  datatype Row = Row(idCell: string, name: string, email: Value, phone: Value, link: string)

  /** `<Job title={String(customer.id)} />` shows `title || "-"`. */
  function IdCell(id: Value): (cell: string)
    ensures cell == "-" <==> ToStr(id) == "" || ToStr(id) == "-"
    ensures ToStr(id) != "" ==> cell == ToStr(id)
  {
    if ToStr(id) == "" then "-" else ToStr(id)
  }

  function FormatRow(c: Record): (row: Option<Row>)
    ensures row.Some? <==> DisplayName(Get(c, "username")).Some?
    ensures row.Some? ==> row.value.name == DisplayName(Get(c, "username")).value
    ensures row.Some? ==> row.value.link == "/customer/" + ToStr(Get(c, "id"))
  {
    var name := DisplayName(Get(c, "username"));
    if name.None? then None
    else Some(Row(IdCell(Get(c, "id")), name.value, Get(c, "email"), Get(c, "phone"),
                  "/customer/" + ToStr(Get(c, "id"))))
  }

  /** `customerData.map(...)`: one row per customer in the same order, or
      `None` when some customer's name throws. */
  function FormatRows(cs: seq<Record>): (rows: Option<seq<Row>>)
    ensures rows.Some? <==> forall i :: 0 <= i < |cs| ==> FormatRow(cs[i]).Some?
    ensures rows.Some? ==> |rows.value| == |cs|
    ensures rows.Some? ==> forall i :: 0 <= i < |cs| ==> rows.value[i] == FormatRow(cs[i]).value
  {
    if cs == [] then Some([])
    else
      var head := FormatRow(cs[0]);
      var tail := FormatRows(cs[1..]);
      if head.None? || tail.None? then None
      else Some([head.value] + tail.value)
  }

  /** A customer list with only string names always formats, and each row
      shows its name with the first letter upper-cased. */
  lemma StringNamesFormat(cs: seq<Record>)
    requires forall i :: 0 <= i < |cs| ==> Get(cs[i], "username").Str?
    ensures FormatRows(cs).Some?
    ensures forall i :: 0 <= i < |cs| && Get(cs[i], "username").s != "" ==>
              FormatRows(cs).value[i].name[0] == Upper(Get(cs[i], "username").s[0])
  {
  }

  datatype Request = GetCustomers

  class CustomerTable {
    var token: string   // localStorage "token", "" when absent
    var rows: seq<Row>
    var sent: seq<Request>

    constructor (token: string)
      ensures this.token == token && rows == [] && sent == []
    {
      this.token := token;
      rows := [];
      sent := [];
    }

    /** The mount effect. With no token the table is emptied and nothing is
        fetched. A failed fetch leaves the table as it was. A reply is
        sorted in place, then formatted; a name that throws lands in the
        same `.catch`, after the sort. */
    method Load(reply: Fetch<array<Record>>)
      modifies this`rows, this`sent, if reply.Fetched? then {reply.data} else {}
      ensures token == "" ==> rows == [] && sent == old(sent)
      ensures token != "" ==> sent == old(sent) + [GetCustomers]
      ensures token != "" && reply.Failed? ==> rows == old(rows)
      ensures token != "" && reply.Fetched? ==>
                var sorted := SortDesc(old(reply.data[..]), CustomerKey);
                && reply.data[..] == sorted
                && rows == (if FormatRows(sorted).Some? then FormatRows(sorted).value else old(rows))
    {
      if token == "" {
        rows := [];
        return;
      }
      sent := sent + [GetCustomers];
      match reply {
        case Failed =>
        case Fetched(data) =>
          SortInPlace(data, CustomerKey);
          var formatted := FormatRows(data[..]);
          if formatted.Some? {
            rows := formatted.value;
          }
      }
    }
  }

  /** The table a reply produces lists the customers largest id first,
      one row each, each linking to its own customer. */
  lemma LoadedRows(received: seq<Record>)
    requires FormatRows(SortDesc(received, CustomerKey)).Some?
    ensures var sorted := SortDesc(received, CustomerKey);
            var rows := FormatRows(sorted).value;
            && multiset(sorted) == multiset(received)
            && |rows| == |received|
            && (forall i, j :: 0 <= i < j < |sorted| ==> CustomerKey(sorted[i]) >= CustomerKey(sorted[j]))
            && (forall i :: 0 <= i < |rows| ==> rows[i].link == "/customer/" + ToStr(Get(sorted[i], "id")))
  {
    var sorted := SortDesc(received, CustomerKey);
    SortDescSorts(received, CustomerKey);
    assert SortedDesc(sorted, CustomerKey);
  }
}
