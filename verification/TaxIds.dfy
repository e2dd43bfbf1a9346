/** Hungarian VAT numbers and the customer's VAT status. */
module TaxIds {
  import opened Wrappers
  import opened Documents
  import opened Decimals
  import opened Currency

  // ---------- strings ----------

  /** The white space strings.TrimSpace removes, within Latin-1. */
  predicate IsSpace(c: char) {
    c == ' ' || '\t' <= c <= '\r' || c as int == 0x85 || c as int == 0xA0
  }

  function TrimLeft(s: string): string {
    if s != [] && IsSpace(s[0]) then TrimLeft(s[1..]) else s
  }

  function TrimRight(s: string): string {
    if s != [] && IsSpace(s[|s| - 1]) then TrimRight(s[..|s| - 1]) else s
  }

  function TrimSpace(s: string): string {
    TrimRight(TrimLeft(s))
  }

  predicate HasPrefix(s: string, prefix: string) {
    |prefix| <= |s| && s[..|prefix|] == prefix
  }

  function TrimPrefix(s: string, prefix: string): string {
    if HasPrefix(s, prefix) then s[|prefix|..] else s
  }

  // ---------- the 11-digit number ----------

  predicate Separator(c: char) {
    c == '-' || c == ' '
  }

  predicate WellFormed(s: string) {
    forall i :: 0 <= i < |s| ==> IsDigit(s[i]) || Separator(s[i])
  }

  function DigitsOf(s: string): string {
    if s == [] then []
    else DigitsOf(s[..|s| - 1]) + if IsDigit(s[|s| - 1]) then [s[|s| - 1]] else []
  }

  /** What is left of a VAT number once white space and the country prefix are gone. */
  function Core(s: string): string {
    TrimPrefix(ToUpper(TrimSpace(s)), "HU")
  }

  /** The number is accepted exactly when its core holds 11 digits and otherwise only separators. */
  function TaxNumberOf(s: string): Option<TaxNumber> {
    var core := Core(s);
    var digits := DigitsOf(core);
    if WellFormed(core) && |digits| == 11 then Some(TaxNumber(digits[0..8], digits[8..9], digits[9..11])) else None
  }

  method SplitHungarianTaxNumber(s: string) returns (r: Option<TaxNumber>)
    ensures r == TaxNumberOf(s)
  {
    var core := TrimSpace(s);
    core := TrimPrefix(ToUpper(core), "HU");
    var digits: string := [];
    var i := 0;
    while i < |core|
      invariant 0 <= i <= |core|
      invariant WellFormed(core[..i])
      invariant digits == DigitsOf(core[..i])
    {
      var c := core[i];
      assert core[..i + 1][..i] == core[..i];
      if '0' <= c <= '9' {
        digits := digits + [c];
      } else if c == '-' || c == ' ' {
      } else {
        return None;
      }
      i := i + 1;
    }
    assert core[..|core|] == core;
    if |digits| != 11 {
      return None;
    }
    return Some(TaxNumber(digits[0..8], digits[8..9], digits[9..11]));
  }

  // ---------- what is accepted ----------

  predicate AllSpace(s: string) {
    forall i :: 0 <= i < |s| ==> IsSpace(s[i])
  }

  /** No white space at either end. */
  predicate Trimmed(s: string) {
    s != [] ==> !IsSpace(s[0]) && !IsSpace(s[|s| - 1])
  }

  /** Tab to carriage return, blank, next line and no-break space. */
  lemma SpacesAre(c: char)
    ensures IsSpace(c) <==> c as int in {0x09, 0x0A, 0x0B, 0x0C, 0x0D, 0x20, 0x85, 0xA0}
  {
  }

  lemma {:induction false} TrimLeftSplits(s: string) returns (space: string)
    ensures s == space + TrimLeft(s) && AllSpace(space)
    ensures TrimLeft(s) != [] ==> !IsSpace(TrimLeft(s)[0])
  {
    if s != [] && IsSpace(s[0]) {
      var more := TrimLeftSplits(s[1..]);
      space := [s[0]] + more;
      assert s == [s[0]] + s[1..];
    } else {
      space := "";
    }
  }

  lemma {:induction false} TrimRightSplits(s: string) returns (space: string)
    ensures s == TrimRight(s) + space && AllSpace(space)
    ensures TrimRight(s) != [] ==> !IsSpace(TrimRight(s)[|TrimRight(s)| - 1])
  {
    if s != [] && IsSpace(s[|s| - 1]) {
      var more := TrimRightSplits(s[..|s| - 1]);
      space := more + [s[|s| - 1]];
      assert s == s[..|s| - 1] + [s[|s| - 1]];
    } else {
      space := "";
    }
  }

  /** Trimming takes white space off both ends, all of it and nothing else. */
  lemma TrimSplits(s: string) returns (left: string, right: string)
    ensures s == left + TrimSpace(s) + right && AllSpace(left) && AllSpace(right) && Trimmed(TrimSpace(s))
  {
    left := TrimLeftSplits(s);
    right := TrimRightSplits(TrimLeft(s));
    assert left + (TrimSpace(s) + right) == left + TrimSpace(s) + right;
    if TrimSpace(s) != [] {
      assert TrimSpace(s)[0] == TrimLeft(s)[0];
    }
  }

  /** A trimmed text is blank exactly when the text is nothing but white space. */
  lemma BlankIff(s: string)
    ensures TrimSpace(s) == "" <==> AllSpace(s)
  {
    var left, right := TrimSplits(s);
    if TrimSpace(s) != "" {
      assert s[|left|] == TrimSpace(s)[0];
    } else {
      assert s == left + right;
    }
  }

  function DigitPlaces(s: string): set<nat> {
    set i: nat | i < |s| && '0' <= s[i] <= '9'
  }

  lemma {:induction false} DigitsCounted(s: string)
    ensures |DigitsOf(s)| == |DigitPlaces(s)|
  {
    if s != [] {
      var front, last := s[..|s| - 1], |s| - 1;
      DigitsCounted(front);
      if IsDigit(s[last]) {
        assert DigitPlaces(s) == DigitPlaces(front) + {last};
      } else {
        assert DigitPlaces(s) == DigitPlaces(front);
      }
    }
  }

  /** The spelling without white space around it, in upper case and without the country prefix. */
  lemma CoreIs(s: string)
    ensures var upper := ToUpper(TrimSpace(s));
            Core(s) == if |upper| >= 2 && upper[0] == 'H' && upper[1] == 'U' then upper[2..] else upper
  {
    var upper := ToUpper(TrimSpace(s));
    if |upper| >= 2 {
      assert upper[..2] == [upper[0], upper[1]];
    }
  }

  /** A number is accepted exactly when its core is eleven digits, hyphens and blanks, and nothing else. */
  lemma AcceptedIff(s: string)
    ensures TaxNumberOf(s).Some? <==>
            && |DigitPlaces(Core(s))| == 11
            && forall c :: c in Core(s) ==> '0' <= c <= '9' || c == '-' || c == ' '
  {
    var core := Core(s);
    DigitsCounted(core);
    assert forall i :: 0 <= i < |core| ==> core[i] in core;
  }

  // ---------- separators between digits change nothing ----------

  predicate HasDigit(s: string) {
    exists i :: 0 <= i < |s| && IsDigit(s[i])
  }

  lemma {:induction false} TrimLeftFront(a: string, rest: string)
    requires HasDigit(a)
    ensures TrimLeft(a + rest) == TrimLeft(a) + rest
    ensures HasDigit(TrimLeft(a))
  {
    if IsSpace(a[0]) {
      var i :| 0 <= i < |a| && IsDigit(a[i]);
      assert i > 0 && a[1..][i - 1] == a[i];
      assert (a + rest)[1..] == a[1..] + rest;
      TrimLeftFront(a[1..], rest);
    }
  }

  lemma {:induction false} TrimRightBack(front: string, b: string)
    requires HasDigit(b)
    ensures TrimRight(front + b) == front + TrimRight(b)
    ensures HasDigit(TrimRight(b))
  {
    var last := |b| - 1;
    if IsSpace(b[last]) {
      var i :| 0 <= i < |b| && IsDigit(b[i]);
      assert i < last && b[..last][i] == b[i];
      assert (front + b)[..|front| + last] == front + b[..last];
      TrimRightBack(front, b[..last]);
    }
  }

  lemma TrimAround(a: string, middle: string, b: string)
    requires HasDigit(a) && HasDigit(b)
    ensures TrimSpace(a + middle + b) == TrimLeft(a) + middle + TrimRight(b)
  {
    assert a + middle + b == a + (middle + b);
    TrimLeftFront(a, middle + b);
    assert TrimLeft(a) + (middle + b) == TrimLeft(a) + middle + b;
    TrimRightBack(TrimLeft(a) + middle, b);
  }

  lemma UpperAround(a: string, middle: string, b: string)
    ensures ToUpper(a + middle + b) == ToUpper(a) + ToUpper(middle) + ToUpper(b)
  {
  }

  lemma UpperKeepsDigits(a: string)
    requires HasDigit(a)
    ensures HasDigit(ToUpper(a))
  {
    var i :| 0 <= i < |a| && IsDigit(a[i]);
    assert IsDigit(ToUpper(a)[i]);
  }

  /** A prefix without digits is found or missed within the part up to the first digit. */
  lemma PrefixInFront(a: string, rest: string)
    requires HasDigit(a)
    ensures HasPrefix(a + rest, "HU") <==> HasPrefix(a, "HU")
    ensures TrimPrefix(a + rest, "HU") == TrimPrefix(a, "HU") + rest
  {
    var i :| 0 <= i < |a| && IsDigit(a[i]);
    assert (a + rest)[i] == a[i];
    if |a| >= 2 {
      assert (a + rest)[..2] == a[..2];
    } else {
      assert IsDigit((a + rest)[0]);
      assert |a + rest| >= 2 ==> (a + rest)[..2][0] == (a + rest)[0];
    }
  }

  lemma {:induction false} DigitsConcat(a: string, b: string)
    ensures DigitsOf(a + b) == DigitsOf(a) + DigitsOf(b)
    decreases |b|
  {
    if b == [] {
      assert a + b == a;
    } else {
      var last := |b| - 1;
      assert (a + b)[..|a| + last] == a + b[..last];
      DigitsConcat(a, b[..last]);
    }
  }

  lemma WellFormedAround(a: string, c: char, b: string)
    requires Separator(c)
    ensures WellFormed(a + [c] + b) <==> WellFormed(a + b)
  {
    var s := a + [c] + b;
    var t := a + b;
    assert forall i :: 0 <= i < |a| ==> s[i] == a[i] == t[i];
    assert forall i :: 0 <= i < |b| ==> s[|a| + 1 + i] == b[i] == t[|a| + i];
    if WellFormed(t) {
      forall i | 0 <= i < |s|
        ensures IsDigit(s[i]) || Separator(s[i])
      {
        if i > |a| {
          assert s[i] == t[i - 1];
        }
      }
    }
    if WellFormed(s) {
      forall i | 0 <= i < |t|
        ensures IsDigit(t[i]) || Separator(t[i])
      {
        if i >= |a| {
          assert t[i] == s[i + 1];
        }
      }
    }
  }

  /** The core of a number split between two digits: the split shows in the core as it is. */
  lemma CoreAround(a: string, middle: string, b: string)
    requires HasDigit(a) && HasDigit(b) && ToUpper(middle) == middle
    ensures var front, back := ToUpper(TrimLeft(a)), ToUpper(TrimRight(b));
            && Core(a + middle + b) == TrimPrefix(front, "HU") + middle + back
            && (HasPrefix(ToUpper(TrimSpace(a + middle + b)), "HU") <==> HasPrefix(front, "HU"))
  {
    var front, back := ToUpper(TrimLeft(a)), ToUpper(TrimRight(b));
    UpperTrimmed(a, middle, b);
    PrefixInFront(front, middle + back);
    var g := TrimPrefix(front, "HU");
    assert g + (middle + back) == g + middle + back;
  }

  lemma UpperTrimmed(a: string, middle: string, b: string)
    requires HasDigit(a) && HasDigit(b) && ToUpper(middle) == middle
    ensures HasDigit(ToUpper(TrimLeft(a)))
    ensures ToUpper(TrimSpace(a + middle + b)) == ToUpper(TrimLeft(a)) + (middle + ToUpper(TrimRight(b)))
  {
    TrimAround(a, middle, b);
    UpperJoin(TrimLeft(a), middle, TrimRight(b));
    TrimmedDigits(a);
  }

  lemma TrimmedDigits(a: string)
    requires HasDigit(a)
    ensures HasDigit(ToUpper(TrimLeft(a)))
  {
    TrimLeftFront(a, []);
    UpperKeepsDigits(TrimLeft(a));
  }

  lemma UpperJoin(front: string, middle: string, back: string)
    requires ToUpper(middle) == middle
    ensures ToUpper(front + middle + back) == ToUpper(front) + (middle + ToUpper(back))
  {
    UpperAround(front, middle, back);
    assert ToUpper(front) + middle + ToUpper(back) == ToUpper(front) + (middle + ToUpper(back));
  }

  lemma DigitsAround(a: string, c: char, b: string)
    requires Separator(c)
    ensures DigitsOf(a + [c] + b) == DigitsOf(a + b)
  {
    DigitsConcat(a + [c], b);
    DigitsConcat(a, [c]);
    DigitsConcat(a, b);
    assert [c][..0] == [];
    assert DigitsOf([c]) == [];
    assert DigitsOf(a) + [] == DigitsOf(a);
  }

  /** A hyphen or a space inserted between two digits of a number leaves its reading unchanged. */
  lemma SeparatorBetweenDigits(a: string, c: char, b: string)
    requires HasDigit(a) && HasDigit(b) && Separator(c)
    ensures TaxNumberOf(a + [c] + b) == TaxNumberOf(a + b)
    ensures HasPrefix(ToUpper(TrimSpace(a + [c] + b)), "HU") <==> HasPrefix(ToUpper(TrimSpace(a + b)), "HU")
  {
    assert ToUpper([c]) == [c] && ToUpper([]) == [];
    CoreAround(a, [c], b);
    CoreAround(a, [], b);
    assert a + [] + b == a + b;
    var g, k := TrimPrefix(ToUpper(TrimLeft(a)), "HU"), ToUpper(TrimRight(b));
    assert g + [] + k == g + k;
    WellFormedAround(g, c, k);
    DigitsAround(g, c, k);
  }

  /** The three parts are the digits of the number, in order, in lengths 8, 1 and 2. */
  lemma PartsAreTheDigits(s: string)
    requires TaxNumberOf(s).Some?
    ensures var t := TaxNumberOf(s).value;
            && |t.taxpayerId| == 8 && |t.vatCode| == 1 && |t.countyCode| == 2
            && t.taxpayerId + t.vatCode + t.countyCode == DigitsOf(Core(s))
  {
  }

  lemma {:induction false} AllDigitsKept(s: string)
    requires AllDigits(s)
    ensures DigitsOf(s) == s
  {
    if s != [] {
      var front := s[..|s| - 1];
      assert forall c :: c in front ==> c in s;
      AllDigitsKept(front);
      assert s[|s| - 1] in s && s == front + [s[|s| - 1]];
    }
  }

  lemma PlainCore(s: string)
    requires AllDigits(s) && |s| >= 2
    ensures Core(s) == s && WellFormed(s)
  {
    forall i | 0 <= i < |s|
      ensures IsDigit(s[i]) && UpperChar(s[i]) == s[i]
    {
      assert s[i] in s;
    }
    assert TrimSpace(s) == s;
    assert ToUpper(s) == s;
    assert s[..2][0] == s[0];
  }

  predicate PartsInDigits(t: TaxNumber) {
    && |t.taxpayerId| == 8 && |t.vatCode| == 1 && |t.countyCode| == 2
    && AllDigits(t.taxpayerId) && AllDigits(t.vatCode) && AllDigits(t.countyCode)
  }

  /** A number written out plainly is read back into its parts. */
  lemma PlainRoundTrip(t: TaxNumber)
    requires PartsInDigits(t)
    ensures TaxNumberOf(t.taxpayerId + t.vatCode + t.countyCode) == Some(t)
  {
    var s := t.taxpayerId + t.vatCode + t.countyCode;
    assert AllDigits(s);
    assert s[0..8] == t.taxpayerId && s[8..9] == t.vatCode && s[9..11] == t.countyCode;
    ElevenDigits(s);
  }

  lemma ElevenDigits(s: string)
    requires AllDigits(s) && |s| == 11
    ensures TaxNumberOf(s) == Some(TaxNumber(s[0..8], s[8..9], s[9..11]))
  {
    PlainCore(s);
    AllDigitsKept(s);
  }

  lemma DigitsHaveDigit(s: string)
    requires AllDigits(s) && s != []
    ensures HasDigit(s)
  {
    assert s[0] in s && IsDigit(s[0]);
  }

  lemma DigitInFront(a: string, b: string)
    requires HasDigit(a)
    ensures HasDigit(a + b)
  {
    var i :| 0 <= i < |a| && IsDigit(a[i]);
    assert IsDigit((a + b)[i]);
  }

  /** And so is the usual hyphenated spelling. */
  lemma HyphenatedRoundTrip(t: TaxNumber)
    requires PartsInDigits(t)
    ensures TaxNumberOf(t.taxpayerId + ['-'] + (t.vatCode + ['-'] + t.countyCode)) == Some(t)
  {
    var a, b, c := t.taxpayerId, t.vatCode, t.countyCode;
    DigitsHaveDigit(a);
    DigitsHaveDigit(b);
    DigitsHaveDigit(c);
    DigitInFront(b, ['-'] + c);
    assert b + ['-'] + c == b + (['-'] + c);
    SeparatorBetweenDigits(a, '-', b + ['-'] + c);
    DigitInFront(a, b);
    assert a + (b + ['-'] + c) == (a + b) + ['-'] + c;
    SeparatorBetweenDigits(a + b, '-', c);
    PlainRoundTrip(t);
  }

  // ---------- the customer's status ----------

  datatype TaxId = TaxId(idType: string, value: string)

  datatype VatData =
    | CustomerTaxNumber(number: TaxNumber)
    | CommunityVatNumber(vatNumber: string)
    | ThirdStateTaxId(id: string)
    | NoVatData

  datatype Classification = Classification(status: string, vatData: VatData)

  const CUSTOMER_DOMESTIC := "DOMESTIC"
  const CUSTOMER_OTHER := "OTHER"
  const CUSTOMER_PRIVATE_PERSON := "PRIVATE_PERSON"

  function TypeOf(id: TaxId): string {
    ToLower(id.idType)
  }

  function ValueOf(id: TaxId): string {
    TrimSpace(id.value)
  }

  /** The Hungarian number an id carries, if it is of a type that can carry one. */
  function HungarianNumber(id: TaxId): Option<TaxNumber> {
    if ValueOf(id) == "" then None
    else if TypeOf(id) == "hu_tin" || (TypeOf(id) == "eu_vat" && HasPrefix(ToUpper(ValueOf(id)), "HU")) then
      TaxNumberOf(ValueOf(id))
    else None
  }

  predicate IsEU(id: TaxId) {
    ValueOf(id) != "" && (TypeOf(id) == "eu_vat" || TypeOf(id) == "eu_oss_vat")
  }

  predicate IsThirdState(id: TaxId) {
    ValueOf(id) != "" && TypeOf(id) != "hu_tin" && TypeOf(id) != "eu_vat" && TypeOf(id) != "eu_oss_vat"
  }

  function FirstHungarian(ids: seq<TaxId>): Option<TaxNumber> {
    if ids == [] then None
    else
      var earlier := FirstHungarian(ids[..|ids| - 1]);
      if earlier.Some? then earlier else HungarianNumber(ids[|ids| - 1])
  }

  function FirstEU(ids: seq<TaxId>): string {
    if ids == [] then ""
    else
      var earlier := FirstEU(ids[..|ids| - 1]);
      if earlier == "" && IsEU(ids[|ids| - 1]) then ValueOf(ids[|ids| - 1]) else earlier
  }

  function FirstThirdState(ids: seq<TaxId>): string {
    if ids == [] then ""
    else
      var earlier := FirstThirdState(ids[..|ids| - 1]);
      if earlier == "" && IsThirdState(ids[|ids| - 1]) then ValueOf(ids[|ids| - 1]) else earlier
  }

  /** The documented rule: a Hungarian id anywhere, else an EU id, else a third-state id, else the name. */
  function Classify(ids: seq<TaxId>, hasBusinessName: bool): Classification {
    var hungarian := FirstHungarian(ids);
    if hungarian.Some? then Classification(CUSTOMER_DOMESTIC, CustomerTaxNumber(hungarian.value))
    else if FirstEU(ids) != "" then Classification(CUSTOMER_OTHER, CommunityVatNumber(FirstEU(ids)))
    else if FirstThirdState(ids) != "" then Classification(CUSTOMER_OTHER, ThirdStateTaxId(FirstThirdState(ids)))
    else if hasBusinessName then Classification(CUSTOMER_OTHER, NoVatData)
    else Classification(CUSTOMER_PRIVATE_PERSON, NoVatData)
  }

  lemma {:induction false} FirstHungarianStays(ids: seq<TaxId>, n: nat)
    requires n <= |ids| && FirstHungarian(ids[..n]).Some?
    ensures FirstHungarian(ids) == FirstHungarian(ids[..n])
    decreases |ids|
  {
    if n < |ids| {
      var front := ids[..|ids| - 1];
      assert front[..n] == ids[..n];
      FirstHungarianStays(front, n);
    } else {
      assert ids[..n] == ids;
    }
  }

  /** classifyCustomer: one pass that stops at the first Hungarian number. */
  method ClassifyCustomer(ids: seq<TaxId>, hasBusinessName: bool) returns (r: Classification)
    ensures r == Classify(ids, hasBusinessName)
  {
    var euVat, thirdState := "", "";
    var i := 0;
    while i < |ids|
      invariant 0 <= i <= |ids|
      invariant FirstHungarian(ids[..i]) == None
      invariant euVat == FirstEU(ids[..i])
      invariant thirdState == FirstThirdState(ids[..i])
    {
      var id := ids[i];
      assert ids[..i + 1][..i] == ids[..i];
      i := i + 1;
      var typ := ToLower(id.idType);
      var val := TrimSpace(id.value);
      if val == "" {
        continue;
      }
      if typ == "hu_tin" {
        var number := SplitHungarianTaxNumber(val);
        if number.Some? {
          FirstHungarianStays(ids, i);
          return Classification(CUSTOMER_DOMESTIC, CustomerTaxNumber(number.value));
        }
      } else if typ == "eu_vat" {
        if HasPrefix(ToUpper(val), "HU") {
          var number := SplitHungarianTaxNumber(val);
          if number.Some? {
            FirstHungarianStays(ids, i);
            return Classification(CUSTOMER_DOMESTIC, CustomerTaxNumber(number.value));
          }
        }
        if euVat == "" {
          euVat := val;
        }
      } else if typ == "eu_oss_vat" {
        if euVat == "" {
          euVat := val;
        }
      } else {
        if thirdState == "" {
          thirdState := val;
        }
      }
    }
    assert ids[..|ids|] == ids;
    if euVat != "" {
      return Classification(CUSTOMER_OTHER, CommunityVatNumber(euVat));
    }
    if thirdState != "" {
      return Classification(CUSTOMER_OTHER, ThirdStateTaxId(thirdState));
    }
    if hasBusinessName {
      return Classification(CUSTOMER_OTHER, NoVatData);
    }
    return Classification(CUSTOMER_PRIVATE_PERSON, NoVatData);
  }

  // ---------- which number is reported ----------

  /** The first id of the given types that is not blank. */
  predicate FirstOf(ids: seq<TaxId>, i: nat, eu: bool) {
    && i < |ids| && TrimSpace(ids[i].value) != "" && OfKind(ids[i], eu)
    && forall j :: 0 <= j < i ==> TrimSpace(ids[j].value) == "" || !OfKind(ids[j], eu)
  }

  /** An id of the two EU types; or of any type but those and the Hungarian one. */
  predicate OfKind(id: TaxId, eu: bool) {
    var t := ToLower(id.idType);
    if eu then t == "eu_vat" || t == "eu_oss_vat" else t != "eu_vat" && t != "eu_oss_vat" && t != "hu_tin"
  }

  lemma {:induction false} FirstIs(ids: seq<TaxId>, i: nat, eu: bool)
    requires FirstOf(ids, i, eu)
    ensures (if eu then FirstEU(ids) else FirstThirdState(ids)) == TrimSpace(ids[i].value)
    decreases |ids|
  {
    var front := ids[..|ids| - 1];
    if i < |front| {
      assert FirstOf(front, i, eu);
      FirstIs(front, i, eu);
    } else {
      NoneBefore(front, eu);
    }
  }

  lemma {:induction false} NoneBefore(ids: seq<TaxId>, eu: bool)
    requires forall j :: 0 <= j < |ids| ==> TrimSpace(ids[j].value) == "" || !OfKind(ids[j], eu)
    ensures (if eu then FirstEU(ids) else FirstThirdState(ids)) == ""
  {
    if ids != [] {
      NoneBefore(ids[..|ids| - 1], eu);
    }
  }

  /** Whether an id makes the customer a Hungarian one, and with which number. */
  lemma HungarianIff(id: TaxId)
    ensures var t, v := ToLower(id.idType), TrimSpace(id.value);
            HungarianNumber(id) ==
            if v != "" && (t == "hu_tin" || (t == "eu_vat" && |v| >= 2 && (v[0] == 'H' || v[0] == 'h') &&
                                            (v[1] == 'U' || v[1] == 'u')))
            then TaxNumberOf(v) else None
  {
    var v := TrimSpace(id.value);
    if |v| >= 2 {
      assert ToUpper(v)[..2] == [UpperChar(v[0]), UpperChar(v[1])];
    }
  }

  lemma {:induction false} FirstHungarianIs(ids: seq<TaxId>, i: nat)
    requires i < |ids| && HungarianNumber(ids[i]).Some?
    requires forall j :: 0 <= j < i ==> HungarianNumber(ids[j]).None?
    ensures FirstHungarian(ids) == HungarianNumber(ids[i])
    decreases |ids|
  {
    var front := ids[..|ids| - 1];
    if i < |front| {
      FirstHungarianIs(front, i);
    } else {
      FirstsExist(front);
      assert forall id :: id in front ==> HungarianNumber(id).None?;
    }
  }

  /**
   The reported block: the number of the first Hungarian id; without one, the first
   EU id as it stands; without that, the first third-state id; and otherwise none.
   */
  lemma VatDataRule(ids: seq<TaxId>, i: nat, hasBusinessName: bool)
    ensures i < |ids| && HungarianNumber(ids[i]).Some? &&
            (forall j :: 0 <= j < i ==> HungarianNumber(ids[j]).None?) ==>
              Classify(ids, hasBusinessName) ==
              Classification("DOMESTIC", CustomerTaxNumber(HungarianNumber(ids[i]).value))
    ensures !AnyHungarian(ids) && FirstOf(ids, i, true) ==>
              Classify(ids, hasBusinessName) ==
              Classification("OTHER", CommunityVatNumber(TrimSpace(ids[i].value)))
    ensures !AnyHungarian(ids) && (forall j: nat :: !FirstOf(ids, j, true)) && FirstOf(ids, i, false) ==>
              Classify(ids, hasBusinessName) ==
              Classification("OTHER", ThirdStateTaxId(TrimSpace(ids[i].value)))
    ensures !AnyHungarian(ids) && !AnyForeign(ids) ==>
              Classify(ids, hasBusinessName) ==
              Classification(if hasBusinessName then "OTHER" else "PRIVATE_PERSON", NoVatData)
  {
    FirstsExist(ids);
    if i < |ids| && HungarianNumber(ids[i]).Some? && forall j :: 0 <= j < i ==> HungarianNumber(ids[j]).None? {
      FirstHungarianIs(ids, i);
    }
    if FirstOf(ids, i, true) {
      FirstIs(ids, i, true);
    }
    if FirstOf(ids, i, false) {
      FirstIs(ids, i, false);
      if forall j: nat :: !FirstOf(ids, j, true) {
        NoneOfKind(ids, true);
        NoneBefore(ids, true);
      }
    }
  }

  lemma {:induction false} NoneOfKind(ids: seq<TaxId>, eu: bool)
    requires forall j: nat :: !FirstOf(ids, j, eu)
    ensures forall j :: 0 <= j < |ids| ==> TrimSpace(ids[j].value) == "" || !OfKind(ids[j], eu)
  {
    if ids != [] {
      var front := ids[..|ids| - 1];
      forall j: nat
        ensures !FirstOf(front, j, eu)
      {
        assert FirstOf(front, j, eu) ==> FirstOf(ids, j, eu);
      }
      NoneOfKind(front, eu);
      assert !FirstOf(ids, |front|, eu);
    }
  }

  // ---------- what the status depends on ----------

  ghost predicate AnyHungarian(ids: seq<TaxId>) {
    exists id :: id in ids && HungarianNumber(id).Some?
  }

  ghost predicate AnyForeign(ids: seq<TaxId>) {
    exists id :: id in ids && (IsEU(id) || IsThirdState(id))
  }

  lemma {:induction false} FirstsExist(ids: seq<TaxId>)
    ensures FirstHungarian(ids).Some? <==> AnyHungarian(ids)
    ensures FirstEU(ids) != "" || FirstThirdState(ids) != "" <==> AnyForeign(ids)
  {
    if ids != [] {
      var front, last := ids[..|ids| - 1], ids[|ids| - 1];
      FirstsExist(front);
      assert ids == front + [last];
      assert forall id :: id in ids <==> id in front || id == last;
    }
  }

  /** DOMESTIC, OTHER and PRIVATE_PERSON, each exactly when the documentation says so. */
  lemma StatusRule(ids: seq<TaxId>, hasBusinessName: bool)
    ensures Classify(ids, hasBusinessName).status ==
            if AnyHungarian(ids) then CUSTOMER_DOMESTIC
            else if AnyForeign(ids) || hasBusinessName then CUSTOMER_OTHER
            else CUSTOMER_PRIVATE_PERSON
  {
    FirstsExist(ids);
  }

  /** The order in which Stripe lists the ids does not matter. */
  lemma StatusIgnoresOrder(a: seq<TaxId>, b: seq<TaxId>, hasBusinessName: bool)
    requires multiset(a) == multiset(b)
    ensures Classify(a, hasBusinessName).status == Classify(b, hasBusinessName).status
  {
    StatusRule(a, hasBusinessName);
    StatusRule(b, hasBusinessName);
    assert forall id :: id in a <==> id in multiset(a);
    assert forall id :: id in b <==> id in multiset(b);
  }

  /** Writing an id's number with one more hyphen or space between its digits. */
  lemma SeparatedId(idType: string, a: string, c: char, b: string)
    requires HasDigit(a) && HasDigit(b) && Separator(c)
    ensures var plain, spaced := TaxId(idType, a + b), TaxId(idType, a + [c] + b);
            && HungarianNumber(spaced) == HungarianNumber(plain)
            && (IsEU(spaced) <==> IsEU(plain)) && (IsThirdState(spaced) <==> IsThirdState(plain))
  {
    TrimAround(a, [c], b);
    TrimAround(a, [], b);
    assert a + [] + b == a + b;
    TrimLeftFront(a, []);
    TrimRightBack([], b);
    var front, back := TrimLeft(a), TrimRight(b);
    assert front + [] + back == front + back;
    SeparatorBetweenDigits(front, c, back);
    TrimTwice(a, [c], b);
    TrimTwice(a, [], b);
  }

  lemma {:induction false} TrimLeftTwice(s: string)
    ensures TrimLeft(TrimLeft(s)) == TrimLeft(s)
  {
    if s != [] && IsSpace(s[0]) {
      TrimLeftTwice(s[1..]);
    }
  }

  lemma {:induction false} TrimRightTwice(s: string)
    ensures TrimRight(TrimRight(s)) == TrimRight(s)
  {
    if s != [] && IsSpace(s[|s| - 1]) {
      TrimRightTwice(s[..|s| - 1]);
    }
  }

  lemma TrimTwice(a: string, middle: string, b: string)
    requires HasDigit(a) && HasDigit(b)
    ensures TrimSpace(TrimSpace(a + middle + b)) == TrimSpace(a + middle + b)
  {
    TrimAround(a, middle, b);
    TrimLeftFront(a, []);
    TrimRightBack([], b);
    TrimAround(TrimLeft(a), middle, TrimRight(b));
    TrimLeftTwice(a);
    TrimRightTwice(b);
  }

  /** Respelling one id that way changes neither the status nor, for a Hungarian customer, the reported number. */
  lemma ClassificationIgnoresSeparators(ids: seq<TaxId>, i: nat, a: string, c: char, b: string, hasBusinessName: bool)
    requires i < |ids| && ids[i].value == a + b
    requires HasDigit(a) && HasDigit(b) && Separator(c)
    ensures var respelled := ids[i := TaxId(ids[i].idType, a + [c] + b)];
            && Classify(respelled, hasBusinessName).status == Classify(ids, hasBusinessName).status
            && FirstHungarian(respelled) == FirstHungarian(ids)
  {
    SeparatedId(ids[i].idType, a, c, b);
    assert ids[i] == TaxId(ids[i].idType, a + b);
    RespellHungarian(ids, i, TaxId(ids[i].idType, a + [c] + b));
    RespellEU(ids, i, TaxId(ids[i].idType, a + [c] + b));
    RespellThirdState(ids, i, TaxId(ids[i].idType, a + [c] + b));
  }

  lemma {:induction false} RespellHungarian(ids: seq<TaxId>, i: nat, id: TaxId)
    requires i < |ids| && HungarianNumber(id) == HungarianNumber(ids[i])
    ensures FirstHungarian(ids[i := id]) == FirstHungarian(ids)
    decreases |ids|
  {
    var front := ids[..|ids| - 1];
    assert ids[i := id][|ids| - 1] == if i == |front| then id else ids[|ids| - 1];
    if i < |front| {
      RespellHungarian(front, i, id);
      assert ids[i := id][..|ids| - 1] == front[i := id];
    } else {
      assert ids[i := id][..|ids| - 1] == front;
    }
  }

  lemma {:induction false} RespellEU(ids: seq<TaxId>, i: nat, id: TaxId)
    requires i < |ids| && (IsEU(id) <==> IsEU(ids[i]))
    ensures FirstEU(ids[i := id]) == "" <==> FirstEU(ids) == ""
    decreases |ids|
  {
    var front := ids[..|ids| - 1];
    assert ids[i := id][|ids| - 1] == if i == |front| then id else ids[|ids| - 1];
    if i < |front| {
      RespellEU(front, i, id);
      assert ids[i := id][..|ids| - 1] == front[i := id];
    } else {
      assert ids[i := id][..|ids| - 1] == front;
    }
  }

  lemma {:induction false} RespellThirdState(ids: seq<TaxId>, i: nat, id: TaxId)
    requires i < |ids| && (IsThirdState(id) <==> IsThirdState(ids[i]))
    ensures FirstThirdState(ids[i := id]) == "" <==> FirstThirdState(ids) == ""
    decreases |ids|
  {
    var front := ids[..|ids| - 1];
    assert ids[i := id][|ids| - 1] == if i == |front| then id else ids[|ids| - 1];
    if i < |front| {
      RespellThirdState(front, i, id);
      assert ids[i := id][..|ids| - 1] == front[i := id];
    } else {
      assert ids[i := id][..|ids| - 1] == front;
    }
  }
}
