/** The customer detail view: the two validators, loading the customer
    (local-storage cache first, then the customer list), and saving the edit
    dialog's draft. */
module CustomerDetails {
  import opened Wrappers
  import opened Text
  import opened JsValues
  import opened Lookup
  import opened Feedback

  // ----- isValidUSPhone: /^\(?([0-9]{3})\)?[-.●]?([0-9]{3})[-.●]?([0-9]{4})$/

  const Separators: set<char> := {'-', '.', '\U{25CF}'}

  /** An optional regex item `[…]?`: consume one leading character if it is
      in the class. The classes that follow each optional item in the phone
      pattern are disjoint from it, so consuming eagerly loses no match. */
  function SkipOptional(s: string, chars: set<char>): string
  {
    if s != [] && s[0] in chars then s[1..] else s
  }

  predicate IsValidUSPhone(s: string)
  {
    var a := SkipOptional(s, {'('});
    |a| >= 3 && AllDigits(a[..3]) &&
    var b := SkipOptional(SkipOptional(a[3..], {')'}), Separators);
    |b| >= 3 && AllDigits(b[..3]) &&
    var c := SkipOptional(b[3..], Separators);
    |c| == 4 && AllDigits(c)
  }

  /** Zero or one character of the class: what `X?` matches. */
  predicate OptionalOf(t: string, chars: set<char>)
  {
    t == [] || (|t| == 1 && t[0] in chars)
  }

  function DigitsOf(s: string): string
  {
    Filter(s, IsDecimalDigit)
  }

  lemma SkipPresent(t: string, rest: string, chars: set<char>)
    requires OptionalOf(t, chars)
    requires rest == [] || rest[0] !in chars
    ensures SkipOptional(t + rest, chars) == rest
  {
    if t == [] {
      assert t + rest == rest;
    } else {
      assert (t + rest)[0] == t[0] && (t + rest)[1..] == rest;
    }
  }

  /** The pattern's shape: optional `(`, three digits, optional `)`, optional
      separator, three digits, optional separator, four digits. */
  predicate PhoneShape(open: string, area: string, close: string, sep1: string,
                       exchange: string, sep2: string, line: string)
  {
    && OptionalOf(open, {'('}) && OptionalOf(close, {')'})
    && OptionalOf(sep1, Separators) && OptionalOf(sep2, Separators)
    && |area| == 3 && |exchange| == 3 && |line| == 4
    && AllDigits(area) && AllDigits(exchange) && AllDigits(line)
  }

  /** The string made of the pattern's parts. */
  function PhoneText(open: string, area: string, close: string, sep1: string,
                     exchange: string, sep2: string, line: string): string
  {
    open + (area + (close + (sep1 + (exchange + (sep2 + line)))))
  }

  /** Every string the pattern describes is accepted. */
  lemma PhoneComplete(open: string, area: string, close: string, sep1: string,
                      exchange: string, sep2: string, line: string)
    requires PhoneShape(open, area, close, sep1, exchange, sep2, line)
    ensures IsValidUSPhone(PhoneText(open, area, close, sep1, exchange, sep2, line))
  {
    var r5 := sep2 + line;
    var r4 := exchange + r5;
    var r3 := sep1 + r4;
    var r2 := close + r3;
    var r1 := area + r2;
    SkipPresent(open, r1, {'('});
    assert r1[..3] == area && r1[3..] == r2;
    SkipPresent(close, r3, {')'});
    SkipPresent(sep1, r4, Separators);
    assert r4[..3] == exchange && r4[3..] == r5;
    SkipPresent(sep2, line, Separators);
  }

  /** A bare ten-digit string is accepted. */
  lemma TenDigitsAccepted(s: string)
    requires |s| == 10 && AllDigits(s)
    ensures IsValidUSPhone(s)
  {
    assert s == PhoneText([], s[..3], [], [], s[3..6], [], s[6..]);
    PhoneComplete([], s[..3], [], [], s[3..6], [], s[6..]);
  }

  /** One step of reading an optional item off the front of `s`. */
  lemma SplitOptional(s: string, chars: set<char>) returns (t: string)
    ensures OptionalOf(t, chars) && s == t + SkipOptional(s, chars)
  {
    if s != [] && s[0] in chars {
      t := s[..1];
      assert s == t + s[1..];
    } else {
      t := [];
      assert s == t + s;
    }
  }

  /** Read an accepted string back into the pattern's parts. */
  lemma PhoneParts(s: string)
    returns (open: string, area: string, close: string, sep1: string,
             exchange: string, sep2: string, line: string)
    requires IsValidUSPhone(s)
    ensures PhoneShape(open, area, close, sep1, exchange, sep2, line)
    ensures s == PhoneText(open, area, close, sep1, exchange, sep2, line)
  {
    var r1 := SkipOptional(s, {'('});
    var r2 := r1[3..];
    var r3 := SkipOptional(r2, {')'});
    var r4 := SkipOptional(r3, Separators);
    var r5 := r4[3..];
    line := SkipOptional(r5, Separators);
    assert |r1| >= 3 && AllDigits(r1[..3]) && |r4| >= 3 && AllDigits(r4[..3])
           && |line| == 4 && AllDigits(line);
    area := r1[..3];
    exchange := r4[..3];
    assert r1 == area + r2;
    assert r4 == exchange + r5;
    open := SplitOptional(s, {'('});
    close := SplitOptional(r2, {')'});
    sep1 := SplitOptional(r3, Separators);
    sep2 := SplitOptional(r5, Separators);
  }

  /** Every accepted string is one the pattern describes, so it holds exactly
      ten digits and between ten and fourteen characters. */
  lemma PhoneSound(s: string)
    returns (open: string, area: string, close: string, sep1: string,
             exchange: string, sep2: string, line: string)
    requires IsValidUSPhone(s)
    ensures PhoneShape(open, area, close, sep1, exchange, sep2, line)
    ensures s == PhoneText(open, area, close, sep1, exchange, sep2, line)
    ensures |DigitsOf(s)| == 10
    ensures 10 <= |s| <= 14
  {
    open, area, close, sep1, exchange, sep2, line := PhoneParts(s);
    DigitsOfPhone(open, area, close, sep1, exchange, sep2, line);
  }

  lemma DigitsOfPhone(open: string, area: string, close: string, sep1: string,
                      exchange: string, sep2: string, line: string)
    requires PhoneShape(open, area, close, sep1, exchange, sep2, line)
    ensures |DigitsOf(PhoneText(open, area, close, sep1, exchange, sep2, line))| == 10
  {
    var r3 := sep1 + (exchange + (sep2 + line));
    DigitsOfGroup(sep1, exchange, sep2 + line);
    DigitsOfGroup(sep2, line, []);
    assert line + [] == line;
    DigitsOfGroup(close, [], r3);
    assert [] + r3 == r3;
    DigitsOfGroup(open, area, close + r3);
  }

  /** The digits of an optional non-digit, a digit group and the rest. */
  lemma DigitsOfGroup(sep: string, group: string, rest: string)
    requires sep == [] || (|sep| == 1 && !IsDecimalDigit(sep[0]))
    requires AllDigits(group)
    ensures |DigitsOf(sep + (group + rest))| == |group| + |DigitsOf(rest)|
  {
    NoDigits(sep);
    FilterKeepsAll(group, IsDecimalDigit);
    FilterAppend(group, rest, IsDecimalDigit);
    FilterAppend(sep, group + rest, IsDecimalDigit);
  }

  lemma NoDigits(t: string)
    requires t == [] || (|t| == 1 && !IsDecimalDigit(t[0]))
    ensures DigitsOf(t) == []
  {
    if t != [] {
      assert t[1..] == [];
    }
  }

  // ----- isValidEmail: /^[^\s@]+@[^\s@]+\.[^\s@]+$/

  /** `[^\s@]` */
  predicate IsAddressChar(c: char)
  {
    !IsJsWhitespace(c) && c != '@'
  }

  predicate AllAddressChars(s: string)
  {
    forall i :: 0 <= i < |s| ==> IsAddressChar(s[i])
  }

  /** `[^\s@]+\.[^\s@]+`: a dot with text on both sides. */
  predicate IsDomain(d: string)
  {
    AllAddressChars(d) && exists k :: 0 < k < |d| - 1 && d[k] == '.'
  }

  predicate IsValidEmail(s: string)
  {
    exists at :: 0 < at < |s| && s[at] == '@' && AllAddressChars(s[..at]) && IsDomain(s[at + 1..])
  }

  lemma {:induction false} CountAppend(a: string, b: string, c: char)
    ensures Count(a + b, c) == Count(a, c) + Count(b, c)
    decreases |a|
  {
    if a == [] {
      assert a + b == b;
    } else {
      assert (a + b)[0] == a[0] && (a + b)[1..] == a[1..] + b;
      CountAppend(a[1..], b, c);
    }
  }

  lemma {:induction false} CountAbsent(s: string, c: char)
    requires forall i :: 0 <= i < |s| ==> s[i] != c
    ensures Count(s, c) == 0
    decreases |s|
  {
    if s != [] {
      CountAbsent(s[1..], c);
    }
  }

  /** An address whose two sides have no `@` holds exactly one. */
  lemma OneAtSign(local: string, domain: string)
    requires AllAddressChars(local) && AllAddressChars(domain)
    ensures Count(local + "@" + domain, '@') == 1
  {
    CountAbsent(local, '@');
    CountAbsent(domain, '@');
    CountAppend(local, "@", '@');
    CountAppend(local + "@", domain, '@');
  }

  /** An accepted address has exactly one `@`, no whitespace, a non-empty
      part before the `@`, and after it a `.` with text on both sides. */
  lemma EmailSound(s: string) returns (at: nat)
    requires IsValidEmail(s)
    ensures 0 < at < |s| && s[at] == '@'
    ensures Count(s, '@') == 1
    ensures forall i :: 0 <= i < |s| ==> !IsJsWhitespace(s[i])
    ensures exists k :: at + 1 < k < |s| - 1 && s[k] == '.'
  {
    at :| 0 < at < |s| && s[at] == '@' && AllAddressChars(s[..at]) && IsDomain(s[at + 1..]);
    var local, domain := s[..at], s[at + 1..];
    assert s == local + "@" + domain;
    OneAtSign(local, domain);
    NoWhitespace(local, domain);
    var k :| 0 < k < |domain| - 1 && domain[k] == '.';
    assert s[at + 1 + k] == '.';
  }

  /** Joining two whitespace-free sides around `@` gives no whitespace. */
  lemma NoWhitespace(local: string, domain: string)
    requires AllAddressChars(local) && AllAddressChars(domain)
    ensures forall i :: 0 <= i < |local + "@" + domain| ==> !IsJsWhitespace((local + "@" + domain)[i])
  {
    var s := local + "@" + domain;
    forall i | 0 <= i < |s| ensures !IsJsWhitespace(s[i]) {
      if i < |local| {
        assert s[i] == local[i];
      } else if i > |local| {
        assert s[i] == domain[i - |local| - 1];
      }
    }
  }

  /** Every address of the shape `local@host.tld` with non-empty parts free
      of whitespace and `@` is accepted. */
  lemma EmailComplete(local: string, host: string, tld: string)
    requires local != [] && host != [] && tld != []
    requires AllAddressChars(local) && AllAddressChars(host) && AllAddressChars(tld)
    ensures IsValidEmail(local + "@" + host + "." + tld)
  {
    var s := local + "@" + host + "." + tld;
    var at := |local|;
    var domain := host + "." + tld;
    assert s[..at] == local && s[at] == '@' && s[at + 1..] == domain;
    assert domain[|host|] == '.';
    forall i | 0 <= i < |domain| ensures IsAddressChar(domain[i]) {
      if i < |host| {
        assert domain[i] == host[i];
      } else if i > |host| {
        assert domain[i] == tld[i - |host| - 1];
      }
    }
    assert IsDomain(domain);
  }

  // ----- handleProfileUpdate

  const EmailInvalid := "Please enter a valid email address."
  const MobileInvalid := "Mobile number must be a valid 10-digit US number."
  const LandlineInvalid := "Landline number must be a valid 10-digit US number."

  /** An optional phone field passes when it is empty or a valid number. The
      regex test sees the value converted to a string. */
  predicate OptionalPhoneOk(v: Value)
  {
    Falsy(v) || IsValidUSPhone(ToStr(v))
  }

  /** The three checks before the PATCH, in order; the first failure's
      message, or `None` when all pass. */
  function ProfileCheck(draft: Record): (r: Option<string>)
    ensures r.None? <==> IsValidEmail(ToStr(Get(draft, "email")))
                          && OptionalPhoneOk(Get(draft, "phone"))
                          && OptionalPhoneOk(Get(draft, "landline_number"))
    ensures r == Some(EmailInvalid) <==> !IsValidEmail(ToStr(Get(draft, "email")))
    ensures r == Some(MobileInvalid) <==> IsValidEmail(ToStr(Get(draft, "email")))
                                           && !OptionalPhoneOk(Get(draft, "phone"))
    ensures r == Some(LandlineInvalid) <==> IsValidEmail(ToStr(Get(draft, "email")))
                                             && OptionalPhoneOk(Get(draft, "phone"))
                                             && !OptionalPhoneOk(Get(draft, "landline_number"))
  {
    if !IsValidEmail(ToStr(Get(draft, "email"))) then Some(EmailInvalid)
    else if !OptionalPhoneOk(Get(draft, "phone")) then Some(MobileInvalid)
    else if !OptionalPhoneOk(Get(draft, "landline_number")) then Some(LandlineInvalid)
    else None
  }

  /** An address without `@` never gets past the first check. */
  lemma NoAtSignRejected(draft: Record)
    requires Count(ToStr(Get(draft, "email")), '@') == 0
    ensures ProfileCheck(draft) == Some(EmailInvalid)
  {
    if IsValidEmail(ToStr(Get(draft, "email"))) {
      var _ := EmailSound(ToStr(Get(draft, "email")));
    }
  }

  /** The fields the edit dialog lets the user change. */
  const EditableFields: set<string> := {
    "user_lastname", "country_code", "email", "landline_number", "address_line1",
    "address_line2", "zip_code", "state", "country", "tv_provider_account_number",
    "internet_provider_account_number", "wireless_provider_account_number"
  }

  datatype Request = GetCustomers | PatchProfile(body: Record)

  class CustomerDetailsView {
    const routeId: string
    var token: string                 // "" when local storage holds none
    var cache: Option<Record>         // local storage "customer_data", parsed
    var customer: Option<Record>
    var loading: bool
    var openEditDialog: bool
    var editData: Record
    var saving: bool
    var snackbar: Snackbar
    var sent: seq<Request>            // requests issued, oldest first

    /** What local storage holds came out of `JSON.parse`. */
    ghost predicate Valid()
      reads this
    {
      && (cache.Some? ==> JsonClean(cache.value))
      && !saving  // true only while the PATCH is awaited
    }

    constructor (routeId: string, token: string, stored: Option<Record>)
      ensures Valid()
      ensures this.routeId == routeId && this.token == token
      ensures cache == (if stored.Some? then Some(JsonCopy(stored.value)) else None)
      ensures customer.None? && loading && !openEditDialog && editData == map[]
      ensures !saving && snackbar == Closed && sent == []
    {
      this.routeId := routeId;
      this.token := token;
      cache := if stored.Some? then Some(JsonCopy(stored.value)) else None;
      customer := None;
      loading := true;
      openEditDialog := false;
      editData := map[];
      saving := false;
      snackbar := Closed;
      sent := [];
    }

    /** The mount effect. A cached record is shown with no fetch, whatever the
        route id; otherwise the customer list is fetched and searched. */
    method Load(reply: Fetch<seq<Record>>)
      requires Valid()
      modifies this`customer, this`cache, this`loading, this`sent
      ensures Valid() && !loading
      ensures token == old(token) && openEditDialog == old(openEditDialog)
      ensures editData == old(editData) && saving == old(saving) && snackbar == old(snackbar)
      ensures old(cache).Some? ==> customer == old(cache) && cache == old(cache) && sent == old(sent)
      ensures old(cache).None? && token == "" ==> customer.None? && cache.None? && sent == old(sent)
      ensures old(cache).None? && token != "" ==> sent == old(sent) + [GetCustomers]
      ensures old(cache).None? && token != "" && reply.Failed? ==> customer.None? && cache.None?
      ensures old(cache).None? && token != "" && reply.Fetched? ==>
                customer == FindById(reply.data, RecordId, routeId)
                && cache == (if customer.Some? then Some(JsonCopy(customer.value)) else None)
    {
      if cache.Some? {
        customer := cache;
        loading := false;
        return;
      }
      if token == "" {
        loading := false;
        customer := None;
        return;
      }
      FetchCustomer(reply);
    }

    /** The request Load sends when nothing is cached and a token is held:
        the customer with the route's id is looked up in the reply and, when
        found, cached as a JSON copy. */
    method FetchCustomer(reply: Fetch<seq<Record>>)
      requires Valid() && cache.None? && token != ""
      modifies this`customer, this`cache, this`loading, this`sent
      ensures Valid() && !loading
      ensures sent == old(sent) + [GetCustomers]
      ensures reply.Failed? ==> customer.None? && cache.None?
      ensures reply.Fetched? ==>
                customer == FindById(reply.data, RecordId, routeId)
                && cache == (if customer.Some? then Some(JsonCopy(customer.value)) else None)
    {
      sent := sent + [GetCustomers];
      match reply
      case Failed =>
        customer := None;
        loading := false;
      case Fetched(data) =>
        var found := FindById(data, RecordId, routeId);
        if found.Some? {
          customer := found;
          cache := Some(JsonCopy(found.value));
        } else {
          customer := None;
        }
        loading := false;
    }

    /** "Edit Profile": the draft starts as the shown customer. The button
        exists only while a customer is shown. */
    method OpenEditor()
      requires customer.Some?
      modifies this`editData, this`openEditDialog
      ensures editData == customer.value && openEditDialog
    {
      editData := customer.value;
      openEditDialog := true;
    }

    /** Typing into one of the dialog's editable fields. */
    method EditField(key: string, text: string)
      requires key in EditableFields
      modifies this`editData
      ensures editData == old(editData)[key := Str(text)]
      ensures forall k :: k != key ==> Get(editData, k) == Get(old(editData), k)
    {
      editData := editData[key := Str(text)];
    }

    method CloseEditor()
      modifies this`openEditDialog
      ensures !openEditDialog
    {
      openEditDialog := false;
    }

    /** "Save". Without a token nothing happens. A failed check shows its
        message and sends nothing. Otherwise the draft is PATCHed. */
    method Update(reply: PatchReply)
      requires Valid()
      modifies this
      ensures Valid()
      ensures token == old(token) && loading == old(loading) && editData == old(editData)
      ensures old(token) == "" || ProfileCheck(old(editData)).Some? ==>
                customer == old(customer) && cache == old(cache) && sent == old(sent)
                && openEditDialog == old(openEditDialog)
      ensures old(token) == "" ==> snackbar == old(snackbar)
      ensures old(token) != "" && ProfileCheck(old(editData)).Some? ==>
                snackbar == Snackbar(true, ProfileCheck(old(editData)).value, Error)
      ensures old(token) != "" && ProfileCheck(old(editData)).None? ==>
                sent == old(sent) + [PatchProfile(old(editData))]
                && Saved(reply, old(customer), old(cache), old(openEditDialog))
    {
      if token == "" {
        return;
      }
      var problem := ProfileCheck(editData);
      if problem.Some? {
        snackbar := Snackbar(true, problem.value, Error);
        return;
      }
      Patch(reply);
    }

    /** The state after the PATCH's reply: only the success message merges
        the draft into the customer and the cache and closes the dialog. */
    ghost predicate Saved(reply: PatchReply, customer0: Option<Record>, cache0: Option<Record>, open0: bool)
      reads this
    {
      if reply == PatchReplied(Str(ProfileUpdated)) then
        && customer == Some(Spread(customer0, editData))
        && cache.Some? && (forall k :: Get(cache.value, k) == Get(customer.value, k))
        && !openEditDialog
        && snackbar == Snackbar(true, "Customer profile updated!", Success)
      else
        && customer == customer0 && cache == cache0 && openEditDialog == open0
        && snackbar == (if reply.PatchThrew? then Snackbar(true, "Error updating profile.", Error)
                        else Snackbar(true, "Failed to update profile.", Warning))
    }

    /** The snackbar's close button: only `open` changes. */
    method CloseSnackbar()
      modifies this`snackbar
      ensures snackbar == old(snackbar).(open := false)
    {
      snackbar := snackbar.(open := false);
    }

    /** The PATCH of the draft and its reply. `saving` is set for the
        request and cleared in `finally`; the request and the reply are one
        step here. */
    method Patch(reply: PatchReply)
      requires Valid()
      modifies this
      ensures Valid()
      ensures token == old(token) && loading == old(loading) && editData == old(editData)
      ensures sent == old(sent) + [PatchProfile(editData)]
      ensures Saved(reply, old(customer), old(cache), old(openEditDialog))
    {
      saving := true;
      sent := sent + [PatchProfile(editData)];
      match reply {
        case PatchThrew =>
          snackbar := Snackbar(true, "Error updating profile.", Error);
        case PatchReplied(message) =>
          if message == Str(ProfileUpdated) {
            var updated := Spread(customer, editData);
            customer := Some(updated);
            cache := Some(JsonCopy(updated));
            snackbar := Snackbar(true, "Customer profile updated!", Success);
            openEditDialog := false;
          } else {
            snackbar := Snackbar(true, "Failed to update profile.", Warning);
          }
      }
      saving := false;
    }
  }
}
