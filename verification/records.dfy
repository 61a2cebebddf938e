/**
 * The location record, the widget's configuration (its props) and the
 * `Object.entries` view of a record that the search scans.
 */
module Records {
  import opened Wrappers

  /** One Thai province / district / subdistrict / postal code tuple. */
  datatype ThailandData = ThailandData(
    id: int,
    provinceCode: int,
    provinceNameEn: string,
    provinceNameTh: string,
    districtCode: int,
    districtNameEn: string,
    districtNameTh: string,
    subdistrictCode: int,
    subdistrictNameEn: string,
    subdistrictNameTh: string,
    postalCode: int)

  /** The `language` prop: `"th"` or `"en"`. */
  datatype Language = Th | En

  /**
   * The props that decide behaviour. `searchTermFormat` is the template, with ""
   * standing for an absent one (both are falsy); `defaultValueId` is optional.
   */
  datatype Props = Props(
    language: Language,
    maxResults: int,
    searchTermFormat: string,
    displayFields: seq<string>,
    separator: string,
    defaultValueId: Option<int>,
    showClearButton: bool,
    clickToClear: bool,
    readOnlyIfSelected: bool)

  /** The defaults the component declares for every prop left unset. */
  function DefaultProps(): Props {
    Props(Th, 10, "", ["districtName", "subdistrictName", "provinceName", "postalCode"],
          " - ", None, true, true, true)
  }

  /** A property value as `typeof` tells them apart: a string or a number. */
  datatype FieldValue = Str(s: string) | Num(n: int)

  /** The record's properties, by name, as `Object.entries` lists them. */
  function Entries(r: ThailandData): seq<(string, FieldValue)> {
    [ ("id", Num(r.id)),
      ("provinceCode", Num(r.provinceCode)),
      ("provinceNameEn", Str(r.provinceNameEn)),
      ("provinceNameTh", Str(r.provinceNameTh)),
      ("districtCode", Num(r.districtCode)),
      ("districtNameEn", Str(r.districtNameEn)),
      ("districtNameTh", Str(r.districtNameTh)),
      ("subdistrictCode", Num(r.subdistrictCode)),
      ("subdistrictNameEn", Str(r.subdistrictNameEn)),
      ("subdistrictNameTh", Str(r.subdistrictNameTh)),
      ("postalCode", Num(r.postalCode)) ]
  }

  /** The three name fields whose property name ends in the language's suffix. */
  function NamesIn(lang: Language, r: ThailandData): seq<string> {
    match lang
    case En => [r.provinceNameEn, r.districtNameEn, r.subdistrictNameEn]
    case Th => [r.provinceNameTh, r.districtNameTh, r.subdistrictNameTh]
  }

  /** The numeric fields other than `id`. */
  function Codes(r: ThailandData): seq<int> {
    [r.provinceCode, r.districtCode, r.subdistrictCode, r.postalCode]
  }
}
