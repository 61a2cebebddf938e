/**
 * Worked examples on one record of the dataset (Silom, Bang Rak, Bangkok,
 * postal code 10500), and the ArrowUp-then-Enter sequence that ends in a
 * TypeError.
 */
module Scenarios {
  import opened Wrappers
  import opened Records
  import opened DecimalText
  import opened JsStrings
  import opened Search
  import opened Display
  import opened Widget

  function Silom(): ThailandData {
    ThailandData(1, 10, "Bangkok", "กรุงเทพมหานคร", 1004, "Bang Rak", "บางรัก",
                 100402, "Silom", "สีลม", 10500)
  }

  /** The default props with English display and search. */
  function English(): Props {
    DefaultProps().(language := En)
  }

  lemma PostalCodeText()
    ensures IntToDecimal(10500) == "10500"
  {
    assert NatToDecimal(1) == "1";
    assert NatToDecimal(10) == "10";
    assert NatToDecimal(105) == "105";
    assert NatToDecimal(1050) == "1050";
  }

  /** Typing "105" finds the record by its postal code. */
  lemma PostalPrefixFindsSilom()
    ensures Shown(English(), [Silom()], "105") == [Silom()]
  {
    PostalCodeText();
    DigitQueryMatches(En, "105", Silom());
    assert Matches(En, "105", Silom());
  }

  /** Typing "si" finds the record by its English subdistrict name. */
  lemma NamePrefixFindsSilom()
    ensures Shown(English(), [Silom()], "si") == [Silom()]
  {
    assert !IsDigitQuery("si") by { assert !IsDigit("si"[0]); }
    assert ToLower("si") == "si";
    assert ToLower("Silom") == "silom";
    assert StartsWith("silom", "si");
    assert NameHit(En, "si", Silom()) by {
      assert NamesIn(En, Silom())[2] == "Silom";
    }
    NonDigitQueryMatches(En, "si", Silom());
  }

  /** A one-character query shows nothing, whatever it matches. */
  lemma OneCharacterShowsNothing()
    ensures Shown(English(), [Silom()], "1") == []
  {
  }

  /**
   * One character outside the Basic Multilingual Plane (an emoji) is two UTF-16
   * code units, so it passes the length gate and is searched.
   */
  lemma OneEmojiIsSearched(data: seq<ThailandData>, lang: Language)
    ensures Length("\U{1F449}") == 2
    ensures FilterResults(data, lang, "\U{1F449}") == Filter(data, lang, "\U{1F449}")
  {
  }

  /** The record's text under the default field list and separator. */
  lemma SilomText()
    ensures LocationText(English(), Silom()) == "Bang Rak - Silom - Bangkok - 10500"
  {
    PostalCodeText();
    var r := Silom();
    assert Value(En, r, DistrictName) == "Bang Rak";
    assert Value(En, r, SubdistrictName) == "Silom";
    assert Value(En, r, ProvinceName) == "Bangkok";
    assert Value(En, r, PostalCode) == "10500";
    assert forall k :: Value(En, r, k) != "";
    DefaultFieldsText(English(), r);
  }

  /**
   * From mount, ArrowUp moves the focus to 0 although the list is empty, and
   * Enter then reads the id of a row that does not exist.
   */
  method ArrowUpThenEnter() returns (outcome: Outcome)
    ensures outcome == TypeError
  {
    var w := new AddressSearch(DefaultProps());
    var up := w.KeyDown(ArrowUp);
    outcome := w.KeyDown(Enter);
  }

  /**
   * Load the record, type "si", move down once and press Enter: the input
   * shows the record's text, is locked, and the callback saw the record.
   */
  method TypeAndPick() returns (w: AddressSearch)
    ensures w.searchTerm == "Bang Rak - Silom - Bangkok - 10500"
    ensures w.searchTermId == Some(1) && w.ReadOnly() && w.focusedIndex == -1
    ensures w.selections == [Some(Silom())]
  {
    w := new AddressSearch(English());
    w.DataLoaded([Silom()]);
    NamePrefixFindsSilom();
    w.InputChange("si");
    assert !IsBlank("si") by { assert !IsWhiteSpace("si"[0]); }
    var down := w.KeyDown(ArrowDown);
    var enter := w.KeyDown(Enter);
    SilomText();
  }
}
