/** The profile endpoints once their side effects are taken off: avatar
    upload validation and naming, the profile-update echo, and the choice of
    a language from a reverse-geocoded country code. */
module ProfileRoutes {
  import opened Common
  import opened Text

  // ---------------------------------------------------------------------
  // Avatar upload
  // ---------------------------------------------------------------------

  const AllowedTypes: seq<string> := ["image/jpeg", "image/png", "image/webp"]
  const MaxAvatarBytes: nat := 5 * 1024 * 1024

  const InvalidFileType := HttpError(400, "Invalid file type. Use JPG, PNG, or WEBP")
  const FileTooLarge := HttpError(400, "File too large. Max 5MB")

  datatype AvatarReply = AvatarReply(success: bool, avatarUrl: string, message: string)

  /** `avatar.filename.split('.')[-1]`. */
  function Extension(filename: string): (ext: string)
    ensures '.' !in ext
    ensures |ext| <= |filename| && ext == filename[|filename| - |ext|..]
  {
    LastPieceIsTail(filename, '.');
    LastPiece(filename, '.')
  }

  /** `f"{user_id}_{uuid}.{ext}"`. */
  function AvatarFileName(userId: string, uuid: string, ext: string): (name: string)
    ensures |name| == |userId| + |uuid| + |ext| + 2
    ensures name[..|userId|] == userId && name[|userId|] == '_'
    ensures '.' !in ext ==> Extension(name) == ext
  {
    var name := userId + "_" + uuid + "." + ext;
    assert name == (userId + "_" + uuid) + ['.'] + ext;
    if '.' in ext then name
    else LastPieceAfter(userId + "_" + uuid, '.', ext); name
  }

  /** `upload_avatar`: the content type is checked first, then the size of
      the body; an accepted file is stored under the user id, the uuid drawn
      for it and the extension of the uploaded name. `uuid` stands for
      `uuid.uuid4()`, `size` for `len(await avatar.read())`. */
  function UploadAvatar(contentType: Option<string>, size: nat, filename: string,
                        userId: string, uuid: string): (r: Result<AvatarReply, HttpError>)
    ensures (contentType.None? || contentType.value !in AllowedTypes) <==> r == Failure(InvalidFileType)
    ensures r == Failure(FileTooLarge) <==> contentType.Some? && contentType.value in AllowedTypes && size > MaxAvatarBytes
    ensures r.Success? <==> contentType.Some? && contentType.value in AllowedTypes && size <= MaxAvatarBytes
    ensures r.Success? ==> r.value.success && r.value.message == "Profile picture updated successfully"
  {
    if contentType.None? || contentType.value !in AllowedTypes then Failure(InvalidFileType)
    else if size > 5 * 1024 * 1024 then Failure(FileTooLarge)
    else
      var ext := Extension(filename);
      var name := AvatarFileName(userId, uuid, ext);
      Success(AvatarReply(true, "/uploads/avatars/" + name, "Profile picture updated successfully"))
  }

  /** The extension is the text after the last '.', or the whole name when
      it has none. */
  lemma ExtensionIsTextAfterLastDot(filename: string)
    ensures var ext := Extension(filename);
      && '.' !in ext
      && |ext| <= |filename| && ext == filename[|filename| - |ext|..]
      && ('.' !in filename ==> ext == filename)
      && ('.' in filename ==> filename[|filename| - |ext| - 1] == '.')
  {
    LastPieceIsTail(filename, '.');
  }

  /** A stored avatar's URL is the upload directory, then the user id, '_',
      the uuid and the uploaded file's extension; reading the extension back
      off the URL gives the uploaded file's extension. */
  lemma AvatarUrlKeepsExtension(contentType: Option<string>, size: nat, filename: string, userId: string, uuid: string)
    requires UploadAvatar(contentType, size, filename, userId, uuid).Success?
    ensures var url := UploadAvatar(contentType, size, filename, userId, uuid).value.avatarUrl;
      && url == "/uploads/avatars/" + userId + "_" + uuid + "." + Extension(filename)
      && Extension(url) == Extension(filename)
  {
    var ext := Extension(filename);
    var prefix := "/uploads/avatars/" + userId + "_" + uuid;
    assert "/uploads/avatars/" + AvatarFileName(userId, uuid, ext) == prefix + ['.'] + ext;
    LastPieceAfter(prefix, '.', ext);
  }

  /** The type check comes first: a bad content type is refused as such
      whatever the size of the body. */
  lemma BadTypeRefusedAtAnySize(contentType: string, size1: nat, size2: nat, filename: string, userId: string, uuid: string)
    requires contentType !in AllowedTypes
    ensures UploadAvatar(Some(contentType), size1, filename, userId, uuid)
         == UploadAvatar(Some(contentType), size2, filename, userId, uuid)
         == Failure(HttpError(400, "Invalid file type. Use JPG, PNG, or WEBP"))
  {
  }

  /** The size bound is inclusive: exactly 5 MiB is accepted, one byte more is refused. */
  lemma SizeBoundInclusive(filename: string, userId: string, uuid: string)
    ensures UploadAvatar(Some("image/png"), 5242880, filename, userId, uuid).Success?
    ensures UploadAvatar(Some("image/png"), 5242881, filename, userId, uuid) == Failure(HttpError(400, "File too large. Max 5MB"))
  {
  }

  // ---------------------------------------------------------------------
  // Profile update
  // ---------------------------------------------------------------------

  /** A field of the request body: left out by the caller, or set (possibly to null). */
  datatype Field = Unset | SetTo(value: Option<string>)

  datatype ProfileUpdate = ProfileUpdate(
    fullName: Field, email: Field, phone: Field, bio: Field, address: Field,
    city: Field, country: Field, language: Field, currency: Field)

  const ProfileFields: set<string> :=
    {"full_name", "email", "phone", "bio", "address", "city", "country", "language", "currency"}

  /** The request field that a JSON key names. */
  function FieldNamed(p: ProfileUpdate, key: string): Field {
    match key
    case "full_name" => p.fullName
    case "email" => p.email
    case "phone" => p.phone
    case "bio" => p.bio
    case "address" => p.address
    case "city" => p.city
    case "country" => p.country
    case "language" => p.language
    case "currency" => p.currency
    case _ => Unset
  }

  datatype UpdateReply = UpdateReply(success: bool, message: string, profile: map<string, Value>)

  /** `update_profile`: answers with `profile.dict(exclude_unset=True)`. */
  function UpdateProfile(p: ProfileUpdate): (r: UpdateReply)
    ensures r.success && r.message == "Profile updated successfully"
    ensures forall key :: key in r.profile <==> key in ProfileFields && FieldNamed(p, key).SetTo?
    ensures forall key :: key in r.profile ==> r.profile[key] == StrOrNull(FieldNamed(p, key).value)
  {
    var echoed := map key | key in ProfileFields && FieldNamed(p, key).SetTo? :: StrOrNull(FieldNamed(p, key).value);
    UpdateReply(true, "Profile updated successfully", echoed)
  }

  /** A field set to null is echoed as null, while a field left out is not echoed. */
  lemma UpdateEchoDistinguishesNullFromUnset(p: ProfileUpdate)
    requires p.phone == SetTo(None) && p.bio == Unset
    ensures UpdateProfile(p).profile["phone"] == Null
    ensures "bio" !in UpdateProfile(p).profile
  {
  }

  // ---------------------------------------------------------------------
  // Language detection
  // ---------------------------------------------------------------------

  /** Country code (upper case) to language code. */
  const LanguageMap: map<string, string> := map[
    "NO" := "nb", "SE" := "sv", "DK" := "da", "FI" := "fi",
    "DE" := "de", "FR" := "fr", "ES" := "es", "IT" := "it",
    "NL" := "nl", "PL" := "pl", "GB" := "en", "US" := "en"]

  const Languages: set<string> := {"nb", "sv", "da", "fi", "de", "fr", "es", "it", "nl", "pl", "en"}

  /** `language_map.get(country_code, 'en')`. */
  function LanguageFor(countryCode: string): (lang: string)
    ensures countryCode in LanguageMap ==> lang == LanguageMap[countryCode]
    ensures countryCode !in LanguageMap ==> lang == "en"
    ensures lang in Languages
  {
    if countryCode in LanguageMap then LanguageMap[countryCode] else "en"
  }

  datatype LanguageReply =
    | Detected(country: string, countryCode: string, language: string, city: string)
    | Undetected(language: string, message: string)

  /** `d.get(key, default)` on the geocoder's address object. */
  function GetOr(d: map<string, string>, key: string, default: string): string {
    if key in d then d[key] else default
  }

  /** `detect_language`. `address` is the `address` object of the reverse
      geocoder's JSON answer, or None when the request failed or the answer
      has no address. */
  function DetectLanguage(address: Option<map<string, string>>): (r: LanguageReply)
    ensures r.Detected? <==> address.Some? && "country_code" in address.value
    ensures r.Detected? ==>
              && r.countryCode == Upper(address.value["country_code"])
              && r.language == LanguageFor(r.countryCode)
              && r.country == GetOr(address.value, "country", "Unknown")
    ensures r.Detected? ==>
              r.city == (if "city" in address.value && address.value["city"] != "" then address.value["city"]
                         else GetOr(address.value, "town", "Unknown"))
    ensures r.Undetected? ==> r.language == "en"
    ensures r.language in Languages
  {
    if address.Some? && "country_code" in address.value then
      var a := address.value;
      var code := Upper(a["country_code"]);
      var city := if "city" in a && a["city"] != "" then a["city"] else GetOr(a, "town", "Unknown");
      Detected(GetOr(a, "country", "Unknown"), code, LanguageFor(code), city)
    else
      Undetected("en", "Could not detect location, defaulting to English")
  }

  /** The country code is upper-cased before the lookup, so the geocoder's
      casing of it does not change the language. */
  lemma LanguageIgnoresCodeCase(a: map<string, string>, b: map<string, string>)
    requires "country_code" in a && "country_code" in b
    requires Lower(a["country_code"]) == Lower(b["country_code"])
    ensures DetectLanguage(Some(a)).language == DetectLanguage(Some(b)).language
  {
    UpperOfLower(a["country_code"]);
    UpperOfLower(b["country_code"]);
  }

  /** Worked example: the geocoder reports Norway in lower case, no city but a town. */
  lemma DetectNorway()
    ensures DetectLanguage(Some(map["country_code" := "no", "country" := "Norge", "town" := "Tromsø"]))
         == Detected("Norge", "NO", "nb", "Tromsø")
  {
    assert Upper("no") == "NO";
  }

  /** The city falls back to the town when the city is empty, and to
      "Unknown" when neither is given. */
  lemma CityFallback(a: map<string, string>)
    requires "country_code" in a
    ensures "city" in a && a["city"] != "" ==> DetectLanguage(Some(a)).city == a["city"]
    ensures ("city" !in a || a["city"] == "") && "town" in a ==> DetectLanguage(Some(a)).city == a["town"]
    ensures ("city" !in a || a["city"] == "") && "town" !in a ==> DetectLanguage(Some(a)).city == "Unknown"
  {
  }
}
