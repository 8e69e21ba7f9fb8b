/** The manufacturer registry page: the form's validation rules, submitting a
    new name, and deleting a row of the table. */
module ManufacturerRegistry {
  import opened Basics
  import opened ManufacturerContext

  predicate IsHexDigit(c: char)
  {
    ('0' <= c <= '9') || ('a' <= c <= 'f') || ('A' <= c <= 'F')
  }

  predicate AllHex(s: string)
  {
    forall i :: 0 <= i < |s| ==> IsHexDigit(s[i])
  }

  /** The name field: `required` (present and non-empty) and `min: 2`. The
      validator counts a surrogate pair as one character, so `min` measures
      code points, which is what a Dafny string's length counts. The `min`
      rule makes the `required` rule redundant. */
  function ValidName(name: Option<string>): (ok: bool)
    ensures ok <==> name.Some? && |name.value| >= 2
  {
    name.Some? && name.value != "" && |name.value| >= 2
  }

  /** The UTF-16 code units a browser holds for one scalar value: itself
      below U+10000, otherwise a high and a low surrogate. */
  function Utf16Char(c: char): (u: seq<int>)
    ensures |u| == if (c as int) < 0x1_0000 then 1 else 2
  {
    var v := c as int;
    if v < 0x1_0000 then [v] else [0xD800 + (v - 0x1_0000) / 0x400, 0xDC00 + (v - 0x1_0000) % 0x400]
  }

  /** The UTF-16 form of a string, as a JavaScript string stores it. */
  function Utf16(s: string): (u: seq<int>)
    ensures |u| >= |s|
  {
    if |s| == 0 then [] else Utf16Char(s[0]) + Utf16(s[1..])
  }

  predicate IsHighSurrogate(unit: int)
  {
    0xD800 <= unit < 0xDC00
  }

  predicate IsLowSurrogate(unit: int)
  {
    0xDC00 <= unit < 0xE000
  }

  /** The length the form validator measures: the code units, with each high
      surrogate followed by a low one counted once. */
  function ValidatorLength(u: seq<int>): (n: nat)
    ensures n <= |u|
    decreases |u|
  {
    if |u| == 0 then 0
    else if |u| >= 2 && IsHighSurrogate(u[0]) && IsLowSurrogate(u[1]) then 1 + ValidatorLength(u[2..])
    else 1 + ValidatorLength(u[1..])
  }

  /** The validator's length of a string's UTF-16 form is its number of code
      points. */
  lemma {:induction false} ValidatorLengthCountsCodePoints(s: string)
    ensures ValidatorLength(Utf16(s)) == |s|
  {
    if |s| > 0 {
      var c := s[0];
      var v := c as int;
      var rest := Utf16(s[1..]);
      var u := Utf16Char(c) + rest;
      assert Utf16(s) == u;
      if v < 0x1_0000 {
        assert !IsHighSurrogate(u[0]);
        assert u[1..] == rest;
      } else {
        assert IsHighSurrogate(u[0]) && IsLowSurrogate(u[1]);
        assert u[2..] == rest;
      }
      ValidatorLengthCountsCodePoints(s[1..]);
    }
  }

  /** For every name, the rule `ValidName` states is the form's rule on the
      browser's string: present, with a validator length of at least 2. */
  lemma NameRuleIsValidatorRule(name: Option<string>)
    ensures ValidName(name) <==> name.Some? && ValidatorLength(Utf16(name.value)) >= 2
  {
    if name.Some? {
      ValidatorLengthCountsCodePoints(name.value);
    }
  }

  /** A name of one character is refused even when it takes two UTF-16 code
      units; two such characters are accepted. */
  lemma NameRuleCountsCharacters()
    ensures !ValidName(Some("\U{1F600}")) && ValidName(Some("\U{1F600}\U{1F600}"))
    ensures !ValidName(Some("A")) && ValidName(Some("AB")) && !ValidName(None) && !ValidName(Some(""))
  {
  }

  /** The address field: `required`, and the pattern `^(0x)?[0-9a-fA-F]{64}$`.
      An accepted address is 64 hex digits, possibly after `0x`, and it
      normalises to `0x` followed by those digits. */
  function ValidAddress(address: Option<string>): (ok: bool)
    ensures ok <==> address.Some? && exists h :: |h| == 64 && AllHex(h) && (address.value == h || address.value == "0x" + h)
    ensures ok ==> var a := Normalize(address.value); |a| == 66 && a[..2] == "0x" && AllHex(a[2..])
  {
    match address
    case None => false
    case Some(a) =>
      AddressPatternMeaning(a);
      if MatchesAddressPattern(a) then ValidAddressNormalizes(a); true else false
  }

  /** A direct reading of the pattern: either exactly 64 hex digits, or `0x`
      followed by exactly 64 hex digits. */
  predicate MatchesAddressPattern(a: string)
  {
    (|a| == 64 && AllHex(a)) || (|a| == 66 && a[..2] == "0x" && AllHex(a[2..]))
  }

  /** The pattern as the regular expression reads: an optional `0x`, then a
      block of 64 hex digits. */
  lemma AddressPatternMeaning(a: string)
    ensures MatchesAddressPattern(a) <==>
              exists h :: |h| == 64 && AllHex(h) && (a == h || a == "0x" + h)
  {
    if MatchesAddressPattern(a) {
      if |a| == 66 {
        assert a == "0x" + a[2..];
      }
    }
    if exists h :: |h| == 64 && AllHex(h) && (a == h || a == "0x" + h) {
      var h :| |h| == 64 && AllHex(h) && (a == h || a == "0x" + h);
      if a != h {
        assert a[2..] == h;
      }
    }
  }

  /** A valid address always normalises to `0x` followed by its 64 digits,
      the form the table is keyed by. */
  lemma ValidAddressNormalizes(a: string)
    requires MatchesAddressPattern(a)
    ensures |Normalize(a)| == 66 && Normalize(a)[..2] == "0x" && AllHex(Normalize(a)[2..])
  {
    if |a| == 64 {
      assert a[0] != 'x' && a[1] != 'x';
      assert !StartsWith(a, "0x") by {
        assert a[1] != "0x"[1];
      }
    }
  }

  datatype Form = Form(name: Option<string>, address: Option<string>)

  const EmptyForm := Form(None, None)

  datatype Page = Page(entries: seq<Entry>, modalOpen: bool, form: Form)

  /** `handleSubmit`: when both fields validate, the name is stored under the
      address, and the modal closes with its fields reset; otherwise nothing
      changes. */
  function Submit(page: Page): (r: Page)
    ensures !(ValidName(page.form.name) && ValidAddress(page.form.address)) ==> r == page
    ensures ValidName(page.form.name) && ValidAddress(page.form.address) ==>
              && !r.modalOpen && r.form == EmptyForm
              && Lookup(r.entries, Normalize(page.form.address.value)) == Some(page.form.name.value)
              && (DistinctKeys(page.entries) ==> DistinctKeys(r.entries))
              && (AllKeysCanonical(page.entries) ==> AllKeysCanonical(r.entries))
  {
    if ValidName(page.form.name) && ValidAddress(page.form.address) then
      Page(AddManufacturer(page.entries, page.form.address.value, page.form.name.value), false, EmptyForm)
    else
      page
  }

  /** After a valid submission, the address reads back as the name, typed
      with or without `0x`. */
  lemma SubmitThenLookup(page: Page)
    requires ValidName(page.form.name) && ValidAddress(page.form.address)
    ensures GetManufacturerName(Submit(page).entries, page.form.address) == Some(page.form.name.value)
  {
    GetAfterAdd(page.entries, page.form.address.value, page.form.name.value, page.form.address.value);
  }

  /** `handleDelete`, from the row's confirm button: removes the row's
      address. */
  function DeleteRow(page: Page, row: ManufacturerRow): (r: Page)
    ensures r.modalOpen == page.modalOpen && r.form == page.form
    ensures Lookup(r.entries, Normalize(row.address)) == None
    ensures DistinctKeys(page.entries) ==> DistinctKeys(r.entries)
    ensures IsSubsequence(r.entries, page.entries)
  {
    page.(entries := RemoveManufacturer(page.entries, row.address))
  }

  /** Rows carry keys that already have the prefix, so deleting a row removes
      exactly that row's entry and keeps every other entry, in order. */
  lemma DeleteRowRemovesExactlyIt(page: Page, row: ManufacturerRow)
    requires AllKeysCanonical(page.entries)
    requires row.address in KeysOf(page.entries)
    ensures row.address !in KeysOf(DeleteRow(page, row).entries)
    ensures forall e :: e in DeleteRow(page, row).entries <==> e in page.entries && e.0 != row.address
    ensures IsSubsequence(DeleteRow(page, row).entries, page.entries)
  {
    assert Normalize(row.address) == row.address;
  }
}
