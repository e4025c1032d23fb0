/** The server's checks on a posted payload (app.py): validate_input, the
    presence check at the top of generate_resume, and get_style_config with
    its lookup tables. The payload is the decoded JSON object. */
module Backend {
  import opened Wrappers
  import opened Json

  /** The fields validate_input checks, in the order it checks them. */
  const ValidatedFields: seq<string> := ["name", "email", "phone", "location", "summary", "skills", "experience"]

  /** The keys generate_resume requires to be present. */
  const RequiredKeys: seq<string> := ["name", "email", "phone", "location", "summary", "technicalSkills", "softSkills", "experience"]

  predicate Filled(data: map<string, Json>, field: string) {
    field in data && Truthy(data[field])
  }

  /** The ValueError validate_input raises for a field that fails. */
  function FieldError(data: map<string, Json>, field: string): string {
    if field !in data then "Missing required field: " + field else "Field cannot be empty: " + field
  }

  predicate AllFilled(data: map<string, Json>) {
    forall f :: f in ValidatedFields ==> Filled(data, f)
  }

  /** isinstance(data['skills'], list) */
  predicate SkillsIsList(data: map<string, Json>) {
    "skills" in data && data["skills"].JArray?
  }

  /** validate_input: the first listed field that is absent or falsy is
      reported; when all are filled, skills must be a list. */
  method ValidateInput(data: map<string, Json>) returns (r: Outcome<string>)
    ensures r == Pass <==> AllFilled(data) && SkillsIsList(data)
    ensures forall k ::
      (0 <= k < |ValidatedFields| && (forall j :: 0 <= j < k ==> Filled(data, ValidatedFields[j])) && !Filled(data, ValidatedFields[k]))
        ==> r == Fail(FieldError(data, ValidatedFields[k]))
    ensures AllFilled(data) && !SkillsIsList(data) ==> r == Fail("Skills must be a list")
  {
    var i := 0;
    while i < |ValidatedFields|
      invariant 0 <= i <= |ValidatedFields|
      invariant forall j :: 0 <= j < i ==> Filled(data, ValidatedFields[j])
    {
      var field := ValidatedFields[i];
      if field !in data {
        assert !Filled(data, ValidatedFields[i]);
        return Fail("Missing required field: " + field);
      }
      if !Truthy(data[field]) {
        assert !Filled(data, ValidatedFields[i]);
        return Fail("Field cannot be empty: " + field);
      }
      i := i + 1;
    }
    assert AllFilled(data) by {
      forall f | f in ValidatedFields ensures Filled(data, f) {
        var j :| 0 <= j < |ValidatedFields| && ValidatedFields[j] == f;
      }
    }
    assert "skills" == ValidatedFields[5];
    if !data["skills"].JArray? {
      return Fail("Skills must be a list");
    }
    return Pass;
  }

  /** all(field in data for field in fields), scanning left to right. */
  function AllPresent(data: map<string, Json>, fields: seq<string>): (b: bool)
    ensures b <==> forall i :: 0 <= i < |fields| ==> fields[i] in data
  {
    fields == [] || (fields[0] in data && AllPresent(data, fields[1..]))
  }

  /** generate_resume's first check: every required key is present; the
      values are not inspected. */
  function CheckRequiredKeys(data: map<string, Json>): (r: Outcome<string>)
    ensures r == Pass <==> forall f :: f in RequiredKeys ==> f in data
    ensures r != Pass ==> r == Fail("Missing required fields")
  {
    if AllPresent(data, RequiredKeys) then Pass else Fail("Missing required fields")
  }

  datatype Rgb = Rgb(red: nat, green: nat, blue: nat)
  datatype Colors = Colors(heading: Rgb, subheading: Rgb)
  /** Point sizes for the name line, the section headings and body text. */
  datatype Sizes = Sizes(name: nat, heading: nat, normal: nat)
  /** The font name is passed on unchecked, whatever JSON value it is. */
  datatype StyleConfig = StyleConfig(colors: Colors, font: Json, sizes: Sizes)

  const ColorSchemes: map<string, Colors> := map[
    "classic" := Colors(Rgb(0, 32, 96), Rgb(0, 51, 153)),
    "modern" := Colors(Rgb(0, 128, 128), Rgb(0, 150, 150)),
    "professional" := Colors(Rgb(128, 0, 0), Rgb(153, 0, 0)),
    "elegant" := Colors(Rgb(64, 64, 64), Rgb(96, 96, 96))
  ]

  const FontSizes: map<string, Sizes> := map[
    "small" := Sizes(16, 12, 10),
    "normal" := Sizes(18, 14, 11),
    "large" := Sizes(20, 16, 12)
  ]

  /** The KeyError (or TypeError, for a list or object) a table lookup
      raises, with the value that was looked up. */
  datatype StyleError = UnknownColorScheme(value: Json) | UnknownFontSize(value: Json)

  /** style_data.get(key, default) */
  function GetOr(style: map<string, Json>, key: string, default: string): Json {
    if key in style then style[key] else JString(default)
  }

  predicate KnownScheme(v: Json) {
    v.JString? && v.s in ColorSchemes
  }

  predicate KnownSize(v: Json) {
    v.JString? && v.s in FontSizes
  }

  /** get_style_config: a missing key takes its default; an unknown color
      scheme or font size fails, the color scheme being looked up first. */
  function GetStyleConfig(style: map<string, Json>): (r: Result<StyleConfig, StyleError>)
    ensures !KnownScheme(GetOr(style, "colorScheme", "classic")) ==>
      r == Failure(UnknownColorScheme(GetOr(style, "colorScheme", "classic")))
    ensures KnownScheme(GetOr(style, "colorScheme", "classic")) && !KnownSize(GetOr(style, "fontSize", "normal")) ==>
      r == Failure(UnknownFontSize(GetOr(style, "fontSize", "normal")))
    ensures r.Success? <==>
      KnownScheme(GetOr(style, "colorScheme", "classic")) && KnownSize(GetOr(style, "fontSize", "normal"))
    ensures r.Success? ==>
      && r.value.colors in ColorSchemes.Values
      && r.value.sizes in FontSizes.Values
      && r.value.font == GetOr(style, "fontFamily", "Calibri")
    ensures r.Success? ==>
      && r.value.colors == ColorSchemes[GetOr(style, "colorScheme", "classic").s]
      && r.value.sizes == FontSizes[GetOr(style, "fontSize", "normal").s]
  {
    var scheme := GetOr(style, "colorScheme", "classic");
    var size := GetOr(style, "fontSize", "normal");
    if !KnownScheme(scheme) then Failure(UnknownColorScheme(scheme))
    else if !KnownSize(size) then Failure(UnknownFontSize(size))
    else Success(StyleConfig(ColorSchemes[scheme.s], GetOr(style, "fontFamily", "Calibri"), FontSizes[size.s]))
  }

  /** With no style keys the configuration is classic, Calibri, normal. */
  lemma StyleDefaults()
    ensures GetStyleConfig(map[]) == Success(StyleConfig(Colors(Rgb(0, 32, 96), Rgb(0, 51, 153)), JString("Calibri"), Sizes(18, 14, 11)))
  {
  }

  /** Whatever else the style holds, a missing colorScheme gives the classic
      colours, a missing fontSize the normal sizes, and a missing fontFamily
      Calibri; a missing key never makes the lookup fail. */
  lemma MissingKeysDefault(style: map<string, Json>)
    ensures "colorScheme" !in style ==> !(GetStyleConfig(style).Failure? && GetStyleConfig(style).error.UnknownColorScheme?)
    ensures "fontSize" !in style ==> !(GetStyleConfig(style).Failure? && GetStyleConfig(style).error.UnknownFontSize?)
    ensures GetStyleConfig(style).Success? && "colorScheme" !in style ==>
      GetStyleConfig(style).value.colors == Colors(Rgb(0, 32, 96), Rgb(0, 51, 153))
    ensures GetStyleConfig(style).Success? && "fontSize" !in style ==>
      GetStyleConfig(style).value.sizes == Sizes(18, 14, 11)
    ensures GetStyleConfig(style).Success? && "fontFamily" !in style ==>
      GetStyleConfig(style).value.font == JString("Calibri")
  {
    assert "classic" in ColorSchemes && "normal" in FontSizes;
  }

  /** In every size preset the name is larger than a heading, which is larger
      than body text; and every role grows from small through normal to
      large. */
  lemma SizePresetsOrdered()
    ensures forall p :: p in FontSizes.Values ==> p.name > p.heading > p.normal
    ensures FontSizes["small"].name < FontSizes["normal"].name < FontSizes["large"].name
    ensures FontSizes["small"].heading < FontSizes["normal"].heading < FontSizes["large"].heading
    ensures FontSizes["small"].normal < FontSizes["normal"].normal < FontSizes["large"].normal
  {
  }
}
