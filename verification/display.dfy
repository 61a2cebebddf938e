/**
 * `getLocationText`: the text shown for a record, from a template with
 * placeholders or from a list of fields joined by a separator.
 */
module Display {
  import opened Wrappers
  import opened Records
  import opened DecimalText
  import opened JsStrings

  /** The keys of the object `data` that `getLocationText` builds, in entry order. */
  datatype Key = DistrictName | SubdistrictName | ProvinceName | PostalCode

  function KeyName(k: Key): string {
    match k
    case DistrictName => "districtName"
    case SubdistrictName => "subdistrictName"
    case ProvinceName => "provinceName"
    case PostalCode => "postalCode"
  }

  /** The text a template uses for a key: `:` and the key's name. */
  function Placeholder(k: Key): string {
    ":" + KeyName(k)
  }

  /** `data[k]`: the name in the chosen language, or the postal code's text. */
  function Value(lang: Language, r: ThailandData, k: Key): string {
    match k
    case DistrictName => if lang == En then r.districtNameEn else r.districtNameTh
    case SubdistrictName => if lang == En then r.subdistrictNameEn else r.subdistrictNameTh
    case ProvinceName => if lang == En then r.provinceNameEn else r.provinceNameTh
    case PostalCode => IntToDecimal(r.postalCode)
  }

  /** `Object.entries(data)`. */
  function DataEntries(lang: Language, r: ThailandData): seq<(Key, string)> {
    [ (DistrictName, Value(lang, r, DistrictName)),
      (SubdistrictName, Value(lang, r, SubdistrictName)),
      (ProvinceName, Value(lang, r, ProvinceName)),
      (PostalCode, Value(lang, r, PostalCode)) ]
  }

  /** `data[field]` for a field name: undefined unless the name is one of the keys. */
  function Lookup(lang: Language, r: ThailandData, field: string): Option<string> {
    if field == KeyName(DistrictName) then Some(Value(lang, r, DistrictName))
    else if field == KeyName(SubdistrictName) then Some(Value(lang, r, SubdistrictName))
    else if field == KeyName(ProvinceName) then Some(Value(lang, r, ProvinceName))
    else if field == KeyName(PostalCode) then Some(Value(lang, r, PostalCode))
    else None
  }

  /**
   * The template after the `forEach` over the entries: each entry's placeholder
   * replaced everywhere by its value, one entry after the other. (`value || ""`
   * is `value` itself, since every value is a string.)
   */
  function ApplyTemplate(template: string, entries: seq<(Key, string)>): string
    decreases |entries|
  {
    if entries == [] then template
    else ApplyTemplate(ReplaceAll(template, Placeholder(entries[0].0), entries[0].1), entries[1..])
  }

  /** `displayFields.map(field => data[field]).filter(Boolean)`. */
  function KeptValues(lang: Language, r: ThailandData, fields: seq<string>): (vs: seq<string>)
    ensures |vs| <= |fields|
    ensures forall i :: 0 <= i < |vs| ==> vs[i] != ""
    decreases |fields|
  {
    if fields == [] then []
    else
      var v := Lookup(lang, r, fields[0]);
      (if v.Some? && v.value != "" then [v.value] else []) + KeptValues(lang, r, fields[1..])
  }

  /** The text `getLocationText` returns for a record. */
  function LocationText(props: Props, r: ThailandData): string {
    if props.searchTermFormat != "" then
      ApplyTemplate(props.searchTermFormat, DataEntries(props.language, r))
    else if |props.displayFields| > 0 then
      Join(KeptValues(props.language, r, props.displayFields), props.separator)
    else
      ""
  }

  /** `getLocationText(result)`, with the template's placeholders replaced in a loop. */
  method GetLocationText(props: Props, r: ThailandData) returns (text: string)
    ensures text == LocationText(props, r)
  {
    var entries := DataEntries(props.language, r);
    if props.searchTermFormat != "" {
      var formattedText := props.searchTermFormat;
      var i := 0;
      while i < |entries|
        invariant 0 <= i <= |entries|
        invariant ApplyTemplate(formattedText, entries[i..]) == ApplyTemplate(props.searchTermFormat, entries)
      {
        assert entries[i..][1..] == entries[i + 1..];
        formattedText := ReplaceAll(formattedText, Placeholder(entries[i].0), entries[i].1);
        i := i + 1;
      }
      assert entries[i..] == [];
      return formattedText;
    }
    if |props.displayFields| > 0 {
      return Join(KeptValues(props.language, r, props.displayFields), props.separator);
    }
    return "";
  }

  // ---- repeated replacement versus single-pass substitution ----------------

  /** A template read as pieces: literal text, or the placeholder of a key. */
  datatype Piece = Lit(text: string) | Hole(key: Key)

  /** The template text the pieces spell. */
  function Flatten(ps: seq<Piece>): string
    decreases |ps|
  {
    if ps == [] then ""
    else (match ps[0] case Lit(t) => t case Hole(k) => Placeholder(k)) + Flatten(ps[1..])
  }

  /** Single-pass substitution: each placeholder becomes its value, literal text stays. */
  function Render(ps: seq<Piece>, lang: Language, r: ThailandData): string
    decreases |ps|
  {
    if ps == [] then ""
    else (match ps[0] case Lit(t) => t case Hole(k) => Value(lang, r, k)) + Render(ps[1..], lang, r)
  }

  /** Literal pieces contain no colon, so every colon starts a placeholder. */
  ghost predicate ColonFree(ps: seq<Piece>) {
    forall i :: 0 <= i < |ps| && ps[i].Lit? ==> ':' !in ps[i].text
  }

  /** The pieces after one replacement step: the holes of `k` become the literal `v`. */
  function Fill(ps: seq<Piece>, k: Key, v: string): (qs: seq<Piece>)
    ensures |qs| == |ps|
    decreases |ps|
  {
    if ps == [] then [] else [if ps[0] == Hole(k) then Lit(v) else ps[0]] + Fill(ps[1..], k, v)
  }

  lemma KeyNames()
    ensures forall k :: ':' !in KeyName(k) && |KeyName(k)| >= 2
    ensures forall k, k' :: k != k' ==> KeyName(k)[..2] != KeyName(k')[..2]
  {
    assert KeyName(DistrictName)[..2] == "di";
    assert KeyName(SubdistrictName)[..2] == "su";
    assert KeyName(ProvinceName)[..2] == "pr";
    assert KeyName(PostalCode)[..2] == "po";
  }

  /** `:a` at the front is skipped when `a` has no colon and starts differently from `b`. */
  lemma ReplaceSkipsOtherName(a: string, b: string, rest: string, v: string)
    requires ':' !in a && |a| >= 2 && |b| >= 2 && a[..2] != b[..2]
    ensures ReplaceAll(":" + a + rest, ":" + b, v) == ":" + a + ReplaceAll(rest, ":" + b, v)
  {
    var p := ":" + b;
    var s := ":" + a + rest;
    if |s| < |p| {
      assert ReplaceAll(rest, p, v) == rest;
    } else {
      assert s[1] == a[0] && s[2] == a[1];
      assert p[1] == b[0] && p[2] == b[1];
      assert a[0] != b[0] || a[1] != b[1];
      assert s[..|p|] != p;
      assert s[1..] == a + rest;
      ReplaceAllSkips(a, rest, p, v);
    }
  }

  /** A different key's placeholder at the front passes through unchanged. */
  lemma ReplaceSkipsOtherPlaceholder(k: Key, key: Key, rest: string, v: string)
    requires k != key
    ensures ReplaceAll(Placeholder(k) + rest, Placeholder(key), v) == Placeholder(k) + ReplaceAll(rest, Placeholder(key), v)
  {
    KeyNames();
    ReplaceSkipsOtherName(KeyName(k), KeyName(key), rest, v);
  }

  /** One step of the loop turns the holes of one key into their value. */
  lemma {:induction false} ReplaceStep(ps: seq<Piece>, key: Key, v: string)
    requires ColonFree(ps) && ':' !in v
    ensures ColonFree(Fill(ps, key, v))
    ensures ReplaceAll(Flatten(ps), Placeholder(key), v) == Flatten(Fill(ps, key, v))
    decreases |ps|
  {
    var p := Placeholder(key);
    if ps != [] {
      var qs := Fill(ps, key, v);
      var rest := Flatten(ps[1..]);
      assert qs[1..] == Fill(ps[1..], key, v);
      assert ColonFree(ps[1..]) by {
        forall i | 0 <= i < |ps[1..]| && ps[1..][i].Lit? ensures ':' !in ps[1..][i].text {
          assert ps[1..][i] == ps[i + 1];
        }
      }
      ReplaceStep(ps[1..], key, v);
      match ps[0]
      case Lit(t) =>
        ReplaceAllSkips(t, rest, p, v);
      case Hole(k) =>
        if k == key {
          ReplaceAllAtFront(rest, p, v);
        } else {
          ReplaceSkipsOtherPlaceholder(k, key, rest, v);
        }
      forall i | 0 <= i < |qs| && qs[i].Lit? ensures ':' !in qs[i].text {
        if i > 0 { assert qs[i] == Fill(ps[1..], key, v)[i - 1]; }
      }
    }
  }

  /** After all four steps every hole holds its value. */
  lemma {:induction false} FilledIsRendered(ps: seq<Piece>, lang: Language, r: ThailandData)
    ensures Flatten(Fill(Fill(Fill(Fill(ps, DistrictName, Value(lang, r, DistrictName)),
                                       SubdistrictName, Value(lang, r, SubdistrictName)),
                                  ProvinceName, Value(lang, r, ProvinceName)),
                             PostalCode, Value(lang, r, PostalCode)))
            == Render(ps, lang, r)
    decreases |ps|
  {
    if ps != [] {
      var q1 := Fill(ps, DistrictName, Value(lang, r, DistrictName));
      var q2 := Fill(q1, SubdistrictName, Value(lang, r, SubdistrictName));
      var q3 := Fill(q2, ProvinceName, Value(lang, r, ProvinceName));
      var q4 := Fill(q3, PostalCode, Value(lang, r, PostalCode));
      assert q1[1..] == Fill(ps[1..], DistrictName, Value(lang, r, DistrictName));
      assert q2[1..] == Fill(q1[1..], SubdistrictName, Value(lang, r, SubdistrictName));
      assert q3[1..] == Fill(q2[1..], ProvinceName, Value(lang, r, ProvinceName));
      assert q4[1..] == Fill(q3[1..], PostalCode, Value(lang, r, PostalCode));
      FilledIsRendered(ps[1..], lang, r);
    }
  }

  /**
   * When neither the template's literal text nor any value contains a colon,
   * replacing the placeholders one key after another gives the same text as
   * substituting every placeholder in a single pass.
   */
  lemma TemplateIsSinglePass(ps: seq<Piece>, lang: Language, r: ThailandData)
    requires ColonFree(ps)
    requires forall k :: ':' !in Value(lang, r, k)
    ensures ApplyTemplate(Flatten(ps), DataEntries(lang, r)) == Render(ps, lang, r)
  {
    var es := DataEntries(lang, r);
    var q1 := Fill(ps, DistrictName, Value(lang, r, DistrictName));
    var q2 := Fill(q1, SubdistrictName, Value(lang, r, SubdistrictName));
    var q3 := Fill(q2, ProvinceName, Value(lang, r, ProvinceName));
    var q4 := Fill(q3, PostalCode, Value(lang, r, PostalCode));
    ReplaceStep(ps, DistrictName, Value(lang, r, DistrictName));
    ReplaceStep(q1, SubdistrictName, Value(lang, r, SubdistrictName));
    ReplaceStep(q2, ProvinceName, Value(lang, r, ProvinceName));
    ReplaceStep(q3, PostalCode, Value(lang, r, PostalCode));
    assert es[1..][1..][1..][1..] == [];
    calc {
      ApplyTemplate(Flatten(ps), es);
      ApplyTemplate(Flatten(q1), es[1..]);
      ApplyTemplate(Flatten(q2), es[1..][1..]);
      ApplyTemplate(Flatten(q3), es[1..][1..][1..]);
      ApplyTemplate(Flatten(q4), es[1..][1..][1..][1..]);
      Flatten(q4);
    }
    FilledIsRendered(ps, lang, r);
  }

  /** A template without a colon has no placeholder and is shown as it is. */
  lemma {:induction false} PlainTemplateUnchanged(template: string, entries: seq<(Key, string)>)
    requires ':' !in template
    ensures ApplyTemplate(template, entries) == template
    decreases |entries|
  {
    if entries != [] {
      var p := Placeholder(entries[0].0);
      if Includes(template, p) {
        assert p[0] in p;
        CharsOfIncluded(template, p, p[0]);
      }
      ReplaceAllAbsent(template, p, entries[0].1);
      PlainTemplateUnchanged(template, entries[1..]);
    }
  }

  // ---- the field-list branch ----------------------------------------------

  /**
   * With no template and the default fields, the text is the district,
   * subdistrict and province names and the postal code joined by the separator,
   * once every name is non-empty.
   */
  lemma DefaultFieldsText(props: Props, r: ThailandData)
    requires props.searchTermFormat == "" && props.displayFields == DefaultProps().displayFields
    requires forall k :: Value(props.language, r, k) != ""
    ensures var lang, sep := props.language, props.separator;
      LocationText(props, r)
      == Value(lang, r, DistrictName) + sep + Value(lang, r, SubdistrictName) + sep
         + Value(lang, r, ProvinceName) + sep + Value(lang, r, PostalCode)
  {
    var lang, fields := props.language, props.displayFields;
    var kept := [Value(lang, r, DistrictName), Value(lang, r, SubdistrictName),
                 Value(lang, r, ProvinceName), Value(lang, r, PostalCode)];
    assert fields[1..][1..][1..][1..] == [];
    assert KeptValues(lang, r, fields[1..][1..][1..]) == kept[3..];
    assert KeptValues(lang, r, fields[1..][1..]) == kept[2..];
    assert KeptValues(lang, r, fields[1..]) == kept[1..];
    assert KeptValues(lang, r, fields) == kept;
    var sep := props.separator;
    assert Join(kept[3..], sep) == kept[3];
    assert Join(kept[2..], sep) == kept[2] + sep + kept[3];
    assert Join(kept[1..], sep) == kept[1] + sep + (kept[2] + sep + kept[3]);
    assert Join(kept, sep) == kept[0] + sep + (kept[1] + sep + (kept[2] + sep + kept[3]));
  }

  /** One field keeps its value exactly when it names a key whose value is not empty. */
  lemma OneField(lang: Language, r: ThailandData, field: string)
    ensures KeptValues(lang, r, [field])
      == if Lookup(lang, r, field).Some? && Lookup(lang, r, field).value != "" then
           [Lookup(lang, r, field).value]
         else []
  {
    assert [field][1..] == [];
  }

  /** The kept values of two field lists, one after the other, in field order. */
  lemma {:induction false} KeptValuesAppend(lang: Language, r: ThailandData, a: seq<string>, b: seq<string>)
    ensures KeptValues(lang, r, a + b) == KeptValues(lang, r, a) + KeptValues(lang, r, b)
    decreases |a|
  {
    if a != [] {
      assert (a + b)[0] == a[0];
      assert (a + b)[1..] == a[1..] + b;
      KeptValuesAppend(lang, r, a[1..], b);
    } else {
      assert a + b == b;
    }
  }

  /** A field-list entry that names no key, or whose value is empty, is left out. */
  lemma {:induction false} SkippedFields(lang: Language, r: ThailandData, fields: seq<string>, i: nat)
    requires i < |fields|
    requires Lookup(lang, r, fields[i]).None? || Lookup(lang, r, fields[i]) == Some("")
    ensures KeptValues(lang, r, fields) == KeptValues(lang, r, fields[..i] + fields[i + 1..])
    decreases i
  {
    var rest := fields[..i] + fields[i + 1..];
    if i == 0 {
      assert rest == fields[1..];
    } else {
      assert rest[0] == fields[0];
      assert rest[1..] == fields[1..][..i - 1] + fields[1..][i..];
      SkippedFields(lang, r, fields[1..], i - 1);
    }
  }

  /** The template that spells the default field list with a given separator. */
  function DefaultTemplate(separator: string): string {
    Placeholder(DistrictName) + separator + Placeholder(SubdistrictName) + separator
    + Placeholder(ProvinceName) + separator + Placeholder(PostalCode)
  }

  /** The default template read as pieces. */
  function DefaultPieces(separator: string): seq<Piece> {
    [Hole(DistrictName), Lit(separator), Hole(SubdistrictName), Lit(separator),
     Hole(ProvinceName), Lit(separator), Hole(PostalCode)]
  }

  lemma DefaultPiecesFlatten(sep: string)
    ensures Flatten(DefaultPieces(sep)) == DefaultTemplate(sep)
  {
    var ps := DefaultPieces(sep);
    var pd, pss, pp, pc := Placeholder(DistrictName), Placeholder(SubdistrictName),
                           Placeholder(ProvinceName), Placeholder(PostalCode);
    var t1 := ps[1..];
    var t2 := t1[1..];
    var t3 := t2[1..];
    var t4 := t3[1..];
    var t5 := t4[1..];
    var t6 := t5[1..];
    assert t6 == [Hole(PostalCode)] && t6[1..] == [];
    assert Flatten(t6) == pc;
    assert Flatten(t5) == sep + pc;
    assert Flatten(t4) == pp + (sep + pc);
    assert Flatten(t3) == sep + (pp + (sep + pc));
    assert Flatten(t2) == pss + (sep + (pp + (sep + pc)));
    assert Flatten(t1) == sep + (pss + (sep + (pp + (sep + pc))));
    assert Flatten(ps) == pd + (sep + (pss + (sep + (pp + (sep + pc)))));
  }

  lemma DefaultPiecesRender(sep: string, lang: Language, r: ThailandData)
    ensures Render(DefaultPieces(sep), lang, r)
         == Value(lang, r, DistrictName) + sep + Value(lang, r, SubdistrictName) + sep
            + Value(lang, r, ProvinceName) + sep + Value(lang, r, PostalCode)
  {
    var ps := DefaultPieces(sep);
    var vd, vs, vp, vc := Value(lang, r, DistrictName), Value(lang, r, SubdistrictName),
                          Value(lang, r, ProvinceName), Value(lang, r, PostalCode);
    var t1 := ps[1..];
    var t2 := t1[1..];
    var t3 := t2[1..];
    var t4 := t3[1..];
    var t5 := t4[1..];
    var t6 := t5[1..];
    assert t6 == [Hole(PostalCode)] && t6[1..] == [];
    assert Render(t6, lang, r) == vc;
    assert Render(t5, lang, r) == sep + vc;
    assert Render(t4, lang, r) == vp + (sep + vc);
    assert Render(t3, lang, r) == sep + (vp + (sep + vc));
    assert Render(t2, lang, r) == vs + (sep + (vp + (sep + vc)));
    assert Render(t1, lang, r) == sep + (vs + (sep + (vp + (sep + vc))));
    assert Render(ps, lang, r) == vd + (sep + (vs + (sep + (vp + (sep + vc)))));
  }

  /**
   * The two ways of building the text agree: the default field list joined by a
   * separator gives the same text as the template that spells it, as long as no
   * name and not the separator contains a colon and no name is empty.
   */
  lemma FieldListAgreesWithTemplate(props: Props, r: ThailandData)
    requires props.searchTermFormat == "" && props.displayFields == DefaultProps().displayFields
    requires forall k :: Value(props.language, r, k) != "" && ':' !in Value(props.language, r, k)
    requires ':' !in props.separator
    ensures LocationText(props, r)
         == LocationText(props.(searchTermFormat := DefaultTemplate(props.separator)), r)
  {
    var lang, sep := props.language, props.separator;
    var ps := DefaultPieces(sep);
    DefaultPiecesFlatten(sep);
    DefaultPiecesRender(sep, lang, r);
    assert ColonFree(ps);
    TemplateIsSinglePass(ps, lang, r);
    DefaultFieldsText(props, r);
    assert DefaultTemplate(sep)[0] == ':';
  }
}
