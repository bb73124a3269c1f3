/**
 * The server-side validators of the request, profile and lead serializers,
 * the update field filter, and the computed display fields.
 */
module Serializers {
  import opened Common

  // ---------------------------------------------------------------------
  // Phone numbers, leads and ZIP codes

  /** The characters `validate_phone_number` strips before its digit test. */
  predicate IsPhoneSeparator(c: char)
  {
    c == '+' || c == '-' || c == ' ' || c == '(' || c == ')'
  }

  predicate IsDigit(c: char)
  {
    '0' <= c <= '9'
  }

  /** The text with every separator removed. */
  function StripSeparators(s: string): (r: string)
    ensures |r| <= |s|
    ensures forall k :: 0 <= k < |r| ==> !IsPhoneSeparator(r[k])
    ensures forall k :: 0 <= k < |s| && !IsPhoneSeparator(s[k]) ==> s[k] in r
  {
    if s == [] then []
    else if IsPhoneSeparator(s[0]) then StripSeparators(s[1..])
    else
      var rest := StripSeparators(s[1..]);
      assert forall k :: 1 <= k < |s| && !IsPhoneSeparator(s[k]) ==> s[1..][k - 1] == s[k];
      [s[0]] + rest
  }

  /** `str.isdigit()`: a non-empty text of digits only. */
  predicate AllDigits(s: string)
  {
    s != [] && forall k :: 0 <= k < |s| ==> IsDigit(s[k])
  }

  /**
   * `validate_phone_number`: an empty value passes; otherwise the value
   * without its separators must be a non-empty run of digits.
   */
  function ValidatePhoneNumber(value: string): (r: Result<string, string>)
    ensures r.Ok? ==> r.value == value
    ensures value == "" ==> r.Ok?
    ensures r.Err? ==> r.error == "Please enter a valid phone number."
  {
    if value != "" && !AllDigits(StripSeparators(value)) then Err("Please enter a valid phone number.")
    else Ok(value)
  }

  /**
   * A non-empty phone number is accepted iff every character is a digit or
   * a separator and at least one is a digit: letters, dots and slashes are
   * refused, and so is a value made of separators only.
   */
  lemma {:induction false} PhoneAccepted(value: string)
    requires value != ""
    ensures ValidatePhoneNumber(value).Ok? <==>
      (forall k :: 0 <= k < |value| ==> IsDigit(value[k]) || IsPhoneSeparator(value[k])) &&
      (exists k :: 0 <= k < |value| && IsDigit(value[k]))
  {
    StrippedChars(value);
  }

  /** The stripped text is exactly the non-separator characters, in order. */
  lemma {:induction false} StrippedChars(s: string)
    ensures (forall k :: 0 <= k < |StripSeparators(s)| ==> IsDigit(StripSeparators(s)[k])) <==>
      (forall k :: 0 <= k < |s| ==> IsDigit(s[k]) || IsPhoneSeparator(s[k]))
    ensures StripSeparators(s) != [] <==> exists k :: 0 <= k < |s| && !IsPhoneSeparator(s[k])
  {
    if s != [] {
      StrippedChars(s[1..]);
      assert forall k :: 1 <= k < |s| ==> s[1..][k - 1] == s[k];
      var r := StripSeparators(s[1..]);
      if !IsPhoneSeparator(s[0]) {
        assert StripSeparators(s) == [s[0]] + r;
        assert forall k :: 1 <= k < |[s[0]] + r| ==> ([s[0]] + r)[k] == r[k - 1];
      } else {
        assert StripSeparators(s) == r;
      }
    }
  }

  /** `''.join(c for c in value if c.isdigit())`. */
  function DigitsOf(s: string): (r: string)
    ensures |r| <= |s|
    ensures forall k :: 0 <= k < |r| ==> IsDigit(r[k])
  {
    if s == [] then []
    else if IsDigit(s[0]) then [s[0]] + DigitsOf(s[1..])
    else DigitsOf(s[1..])
  }

  /** The number of digits in a text. */
  function DigitCount(s: string): nat
  {
    if s == [] then 0 else (if IsDigit(s[0]) then 1 else 0) + DigitCount(s[1..])
  }

  /** The digits extracted are as many as the digits counted, so a check on one is a check on the other. */
  lemma {:induction false} DigitsOfCount(s: string)
    ensures |DigitsOf(s)| == DigitCount(s)
  {
    if s != [] {
      DigitsOfCount(s[1..]);
    }
  }

  /** `LeadSerializer.validate_phone`: at least ten digits, whatever else surrounds them. */
  function ValidateLeadPhone(value: string): (r: Result<string, string>)
    ensures r.Ok? <==> DigitCount(value) >= 10
    ensures r.Ok? ==> r.value == value
    ensures r.Err? ==> r.error == "Phone must have at least 10 digits."
  {
    DigitsOfCount(value);
    if |DigitsOf(value)| < 10 then Err("Phone must have at least 10 digits.") else Ok(value)
  }

  /** `LeadSerializer.validate_address_zip`: at least five digits. */
  function ValidateZip(value: string): (r: Result<string, string>)
    ensures r.Ok? <==> DigitCount(value) >= 5
    ensures r.Ok? ==> r.value == value
    ensures r.Err? ==> r.error == "ZIP code must be at least 5 digits."
  {
    DigitsOfCount(value);
    if |DigitsOf(value)| < 5 then Err("ZIP code must be at least 5 digits.") else Ok(value)
  }

  /** Digit counting ignores the separators of a formatted number: "(555) 123-4567" has ten. */
  lemma FormattedPhoneAccepted()
    ensures ValidateLeadPhone("(555) 123-4567").Ok?
    ensures ValidateLeadPhone("555-1234").Err?
  {
    FormattedPhoneDigits();
    ShortPhoneDigits();
  }

  lemma LocalNumberDigits()
    ensures DigitCount("123-4567") == 7
  {
    assert DigitCount("7") == 1 by { assert "7"[1..] == ""; }
    assert DigitCount("67") == 2 by { assert "67"[1..] == "7"; }
    assert DigitCount("567") == 3 by { assert "567"[1..] == "67"; }
    assert DigitCount("4567") == 4 by { assert "4567"[1..] == "567"; }
    assert DigitCount("-4567") == 4 by { assert "-4567"[1..] == "4567"; }
    assert DigitCount("3-4567") == 5 by { assert "3-4567"[1..] == "-4567"; }
    assert DigitCount("23-4567") == 6 by { assert "23-4567"[1..] == "3-4567"; }
    assert DigitCount("123-4567") == 7 by { assert "123-4567"[1..] == "23-4567"; }
  }

  lemma FormattedPhoneDigits()
    ensures DigitCount("(555) 123-4567") == 10
  {
    LocalNumberDigits();
    assert DigitCount(" 123-4567") == 7 by { assert " 123-4567"[1..] == "123-4567"; }
    assert DigitCount(") 123-4567") == 7 by { assert ") 123-4567"[1..] == " 123-4567"; }
    assert DigitCount("5) 123-4567") == 8 by { assert "5) 123-4567"[1..] == ") 123-4567"; }
    assert DigitCount("55) 123-4567") == 9 by { assert "55) 123-4567"[1..] == "5) 123-4567"; }
    assert DigitCount("555) 123-4567") == 10 by { assert "555) 123-4567"[1..] == "55) 123-4567"; }
    assert "(555) 123-4567"[1..] == "555) 123-4567";
  }

  lemma ShortPhoneDigits()
    ensures DigitCount("555-1234") == 7
  {
    assert DigitCount("4") == 1 by { assert "4"[1..] == ""; }
    assert DigitCount("34") == 2 by { assert "34"[1..] == "4"; }
    assert DigitCount("234") == 3 by { assert "234"[1..] == "34"; }
    assert DigitCount("1234") == 4 by { assert "1234"[1..] == "234"; }
    assert DigitCount("-1234") == 4 by { assert "-1234"[1..] == "1234"; }
    assert DigitCount("5-1234") == 5 by { assert "5-1234"[1..] == "-1234"; }
    assert DigitCount("55-1234") == 6 by { assert "55-1234"[1..] == "5-1234"; }
    assert "555-1234"[1..] == "55-1234";
  }

  // ---------------------------------------------------------------------
  // Uploaded images

  const ALLOWED_TYPES := ["image/jpeg", "image/jpg", "image/png", "image/webp"]
  const MAX_UPLOAD_SIZE := 10 * 1024 * 1024
  const MAX_DIMENSION := 8192

  /** What the validator can learn about an upload. */
  datatype Upload = Upload(
    present: bool,
    contentType: Option<string>,
    size: nat,
    /** The decoded width and height, or the decoder's error for an undecodable file; `None` when not decoded. */
    decoded: Option<Result<(nat, nat), string>>)

  /**
   * `validate_original_image`: a missing file, a declared type outside the
   * four image types and a size above 10 MiB are refused in that order;
   * then a decoded image larger than 8192 on either side, or one that does
   * not decode, is refused as an invalid image file, the dimension error
   * included.
   */
  function ValidateOriginalImage(u: Upload): (r: Result<Upload, string>)
    ensures r.Ok? ==> r.value == u
    ensures r.Ok? <==>
      && u.present
      && (u.contentType.None? || u.contentType.value in ALLOWED_TYPES)
      && u.size <= MAX_UPLOAD_SIZE
      && (u.decoded.Some? ==> u.decoded.value.Ok? && u.decoded.value.value.0 <= MAX_DIMENSION && u.decoded.value.value.1 <= MAX_DIMENSION)
    ensures r.Err? && u.present && (u.contentType.None? || u.contentType.value in ALLOWED_TYPES) && u.size <= MAX_UPLOAD_SIZE ==>
      StartsWith(r.error, "Invalid image file: ")
  {
    if !u.present then Err("Image file is required.")
    else if u.contentType.Some? && u.contentType.value !in ALLOWED_TYPES then
      Err("Unsupported file type. Allowed types: image/jpeg, image/jpg, image/png, image/webp")
    else if u.size > MAX_UPLOAD_SIZE then Err("File size too large. Maximum size is 10.0MB")
    else if u.decoded.None? then Ok(u)
    else match u.decoded.value
      case Err(e) => InvalidImage(e)
      case Ok(dims) =>
        if dims.0 > MAX_DIMENSION || dims.1 > MAX_DIMENSION then
          InvalidImage("Image dimensions too large. Maximum: 8192x8192px.")
        else Ok(u)
  }

  /** The re-raised error of the dimension check. */
  function InvalidImage(detail: string): (r: Result<Upload, string>)
    ensures r.Err? && StartsWith(r.error, "Invalid image file: ")
  {
    assert ("Invalid image file: " + detail)[..|"Invalid image file: "|] == "Invalid image file: ";
    Err("Invalid image file: " + detail)
  }

  // ---------------------------------------------------------------------
  // Updates and choice validation

  /** The only field an update may change. */
  const UPDATABLE := {"screen_type"}

  /**
   * `update`'s filter: every key other than 'screen_type' is popped from the
   * validated data, one key at a time.
   */
  method FilterUpdateFields(data: Dict) returns (kept: Dict)
    ensures kept.Keys == data.Keys * UPDATABLE
    ensures forall k :: k in kept ==> kept[k] == data[k]
  {
    kept := data;
    var keys := data.Keys;
    while keys != {}
      invariant keys <= data.Keys
      invariant kept.Keys == (data.Keys * UPDATABLE) + keys * kept.Keys
      invariant kept.Keys <= data.Keys
      invariant forall k :: k in data.Keys - keys ==> (k in kept <==> k in UPDATABLE)
      invariant forall k :: k in keys ==> k in kept
      invariant forall k :: k in kept ==> kept[k] == data[k]
      decreases keys
    {
      var field :| field in keys;
      if field !in UPDATABLE {
        kept := kept - {field};
      }
      keys := keys - {field};
    }
  }

  /**
   * `validate_mesh_choice` and `validate_frame_color`: the value must be one
   * of the active tenant's choice ids.
   */
  function ValidateChoice(value: string, choiceIds: seq<string>, what: string): (r: Result<string, string>)
    ensures r.Ok? <==> value in choiceIds
    ensures r.Ok? ==> r.value == value
  {
    if value in choiceIds then Ok(value) else Err("Invalid " + what + ".")
  }

  // ---------------------------------------------------------------------
  // Display fields

  /** `get_screen_type_display`: the tenant's name, 'pools' for an empty id, 'Visualization' for an unknown one. */
  function ScreenTypeDisplay(tenantId: string): (name: string)
    ensures tenantId == "" ==> name == "Pool Visualization"
    ensures tenantId !in {"", "pools", "screens", "windows", "roofs"} ==> name == "Visualization"
  {
    var names := map["pools" := "Pool Visualization", "screens" := "Security Screen Visualization",
                     "windows" := "Window Visualization", "roofs" := "Roofing Visualization"];
    var id := if tenantId == "" then "pools" else tenantId;
    if id in names then names[id] else "Visualization"
  }

  /**
   * `get_pdf_url` without a request to build absolute URIs: the stored PDF's
   * URL when there is one, else the dynamic endpoint of the visualization.
   */
  function PdfUrl(storedPdfUrl: Option<string>, visualizationId: nat): (url: string)
    ensures storedPdfUrl.Some? ==> url == storedPdfUrl.value
    ensures storedPdfUrl.None? ==> StartsWith(url, "/api/visualization/") && url[|url| - 5..] == "/pdf/"
  {
    if storedPdfUrl.Some? then storedPdfUrl.value
    else
      var url := "/api/visualization/" + NatToString(visualizationId) + "/pdf/";
      assert url[..|"/api/visualization/"|] == "/api/visualization/";
      url
  }
}
