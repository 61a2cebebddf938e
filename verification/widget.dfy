/**
 * The widget's interaction state and its event handlers. A handler method does
 * what the handler's body does; the effects keyed on the search term then run
 * after the render, and an event method runs the two in that order. The event
 * methods keep `Valid()`, the invariant of the states the widget settles in.
 */
module Widget {
  import opened Wrappers
  import opened Records
  import opened JsStrings
  import opened Search
  import opened Display

  /** The values of `e.key` the key handler tells apart. */
  datatype KeyboardKey = ArrowDown | ArrowUp | Enter | Escape | OtherKey

  /** How a handler ends: normally, or with the TypeError of reading `.id` of `undefined`. */
  datatype Outcome = Completed | TypeError

  /** The widget's state, as one value. */
  datatype State = State(
    thailandData: seq<ThailandData>,
    searchTerm: string,
    searchTermId: Option<int>,
    results: seq<ThailandData>,
    focusedIndex: int,
    selections: seq<Option<ThailandData>>)

  /** The focus update of ArrowDown: one row down, but not past the last result. */
  function FocusDown(prev: int, count: int): (next: int)
    ensures prev <= next <= Max(prev, count - 1)
    ensures next == prev + 1 <==> prev < count - 1
  {
    if prev < count - 1 then prev + 1 else prev
  }

  /** The focus update of ArrowUp: one row up, clamped at 0 whether or not there are results. */
  function FocusUp(prev: int): (next: int)
    ensures next >= 0
    ensures next == Max(prev - 1, 0)
  {
    if prev > 0 then prev - 1 else 0
  }

  /** `data.find(item => item.id === id)`: the first record with that id. */
  function FindById(data: seq<ThailandData>, id: int): (found: Option<ThailandData>)
    ensures found.None? <==> forall x :: x in data ==> x.id != id
    ensures found.Some? ==>
      exists i :: 0 <= i < |data| && data[i] == found.value && data[i].id == id
        && forall j :: 0 <= j < i ==> data[j].id != id
    decreases |data|
  {
    if data == [] then None
    else if data[0].id == id then Some(data[0])
    else
      var found := FindById(data[1..], id);
      assert found.Some? ==>
        exists i :: 1 <= i < |data| && data[i] == found.value && data[i].id == id
          && forall j :: 0 <= j < i ==> data[j].id != id
      by {
        if found.Some? {
          var i :| 0 <= i < |data[1..]| && data[1..][i] == found.value && data[1..][i].id == id
            && forall j :: 0 <= j < i ==> data[1..][j].id != id;
          assert data[i + 1] == found.value;
          forall j | 0 <= j < i + 1 ensures data[j].id != id {
            if j > 0 { assert data[j] == data[1..][j - 1]; }
          }
        }
      }
      found
  }

  /** `if (defaultValueId)`: an id of 0 is falsy. */
  predicate IsTruthyId(id: Option<int>) {
    id.Some? && id.value != 0
  }

  class AddressSearch {
    const props: Props
    var thailandData: seq<ThailandData>
    var searchTerm: string
    var searchTermId: Option<int>
    var results: seq<ThailandData>
    var focusedIndex: int
    /** The arguments `onSelectLocation` has been called with, oldest first; None is `undefined`. */
    var selections: seq<Option<ThailandData>>

    ghost function St(): State
      reads this
    {
      State(thailandData, searchTerm, searchTermId, results, focusedIndex, selections)
    }

    /**
     * The states the widget settles in between events. The focus is -1 or a row
     * of the list, except for one stray state: ArrowUp with no results sets it
     * to 0. The list is empty or the shown matches of the current term. A
     * selected id names a record of the dataset whose text the input shows.
     */
    ghost predicate Valid()
      reads this
    {
      && -1 <= focusedIndex
      && (focusedIndex < |results| || (focusedIndex == 0 && results == []))
      && (results == [] || results == Shown(props, thailandData, searchTerm))
      && (searchTermId.Some? ==>
            exists r :: r in thailandData && r.id == searchTermId.value
              && searchTerm == LocationText(props, r))
    }

    /** `readOnly={readOnlyIfSelected && !!searchTermId}`: an id of 0 does not lock. */
    function ReadOnly(): bool
      reads this
    {
      props.readOnlyIfSelected && IsTruthyId(searchTermId)
    }

    /** The clear button is rendered. */
    function ClearButtonShown(): bool
      reads this
    {
      props.showClearButton && searchTerm != ""
    }

    /** The state on mount, after the effects' first run; the dataset is still loading. */
    constructor (props: Props)
      ensures this.props == props && Valid()
      ensures St() == State([], "", None, [], -1, [])
    {
      this.props := props;
      thailandData := [];
      searchTerm := "";
      searchTermId := None;
      results := [];
      focusedIndex := -1;
      selections := [];
    }

    // ---- handler bodies ------------------------------------------------------

    /** The steps that Enter and a click on a row share: commit record `r`. */
    method Commit(r: ThailandData)
      modifies this
      ensures St() == old(St()).(searchTermId := Some(r.id), searchTerm := LocationText(props, r),
                                 results := [], focusedIndex := -1,
                                 selections := old(selections) + [Some(r)])
    {
      searchTermId := Some(r.id);
      var text := GetLocationText(props, r);
      searchTerm := text;
      results := [];
      focusedIndex := -1;
      selections := selections + [Some(r)];
    }

    /** `handleKeyDown`. */
    method HandleKeyDown(key: KeyboardKey) returns (outcome: Outcome)
      modifies this
      ensures outcome == TypeError <==>
        key == Enter && 0 <= old(focusedIndex) && old(focusedIndex) >= |old(results)|
      ensures match key
        case ArrowDown => St() == old(St()).(focusedIndex := FocusDown(old(focusedIndex), |old(results)|))
        case ArrowUp => St() == old(St()).(focusedIndex := FocusUp(old(focusedIndex)))
        case Enter =>
          if 0 <= old(focusedIndex) < |old(results)| then
            var r := old(results)[old(focusedIndex)];
            St() == old(St()).(searchTermId := Some(r.id), searchTerm := LocationText(props, r),
                               results := [], focusedIndex := -1,
                               selections := old(selections) + [Some(r)])
          else St() == old(St())
        case Escape => St() == old(St()).(results := [], focusedIndex := -1,
                                          selections := old(selections) + [None])
        case OtherKey => St() == old(St())
    {
      outcome := Completed;
      if key == ArrowDown {
        focusedIndex := FocusDown(focusedIndex, |results|);
      } else if key == ArrowUp {
        focusedIndex := FocusUp(focusedIndex);
      } else if key == Enter && focusedIndex >= 0 {
        if focusedIndex >= |results| {
          // results[focusedIndex] is undefined and reading its id throws
          outcome := TypeError;
          return;
        }
        Commit(results[focusedIndex]);
      } else if key == Escape {
        results := [];
        focusedIndex := -1;
        selections := selections + [None];
      }
    }

    /** `handleSelectLocation(r)`: a click on a row. */
    method HandleSelectLocation(r: ThailandData)
      modifies this
      ensures St() == old(St()).(searchTermId := Some(r.id), searchTerm := LocationText(props, r),
                                 results := [], focusedIndex := -1,
                                 selections := old(selections) + [Some(r)])
    {
      Commit(r);
    }

    /** `handleInputClick`: with click-to-clear on, a click on a filled input clears it. */
    method HandleInputClick()
      modifies this
      ensures St() == if props.clickToClear && old(searchTerm) != "" then
                        old(St()).(searchTermId := None, searchTerm := "", results := [],
                                   selections := old(selections) + [None])
                      else old(St())
    {
      if props.clickToClear && searchTerm != "" {
        searchTermId := None;
        searchTerm := "";
        results := [];
        selections := selections + [None];
      }
    }

    /** `handleInputChange` with the input's new text. */
    method HandleInputChange(newValue: string)
      modifies this
      ensures St() == if IsBlank(newValue) then
                        old(St()).(searchTerm := newValue, searchTermId := None, results := [],
                                   selections := old(selections) + [None])
                      else old(St()).(searchTerm := newValue, searchTermId := None)
    {
      searchTerm := newValue;
      searchTermId := None;
      TrimEmptyIffBlank(newValue);
      if Trim(newValue) == "" {
        results := [];
        selections := selections + [None];
      }
    }

    /** The body of the timer `handleInputBlur` sets. */
    method HandleInputBlur()
      modifies this
      ensures IsBlank(old(searchTerm)) ==>
        St() == old(St()).(results := [], focusedIndex := -1, searchTerm := "",
                           searchTermId := None, selections := old(selections) + [None])
      ensures !IsBlank(old(searchTerm)) ==> St() == old(St()).(results := [], focusedIndex := -1)
    {
      TrimEmptyIffBlank(searchTerm);
      var blank := Trim(searchTerm) == "";
      results := [];
      focusedIndex := -1;
      if blank {
        searchTerm := "";
        searchTermId := None;
        selections := selections + [None];
      }
    }

    /** `handleClear`: the clear button. */
    method HandleClear()
      modifies this
      ensures St() == old(St()).(searchTerm := "", searchTermId := None, results := [],
                                 selections := old(selections) + [None])
    {
      searchTerm := "";
      searchTermId := None;
      results := [];
      selections := selections + [None];
    }

    // ---- effects -------------------------------------------------------------

    /**
     * The effects that depend on the search term: after a render in which it
     * changed, the focus is reset and the list recomputed.
     */
    method SearchTermEffects(previous: string)
      modifies this
      ensures St() == if old(searchTerm) != previous then
                        old(St()).(focusedIndex := -1, results := Shown(props, thailandData, searchTerm))
                      else old(St())
    {
      if searchTerm != previous {
        focusedIndex := -1;
        results := Shown(props, thailandData, searchTerm);
      }
    }

    /** The list effect for the term a render saw: the first `maxResults` matches. */
    method ResultsEffect(term: string)
      modifies this
      ensures St() == old(St()).(results := Shown(props, thailandData, term))
    {
      var filteredResults := FilterResults(thailandData, props.language, term);
      results := SliceTo(filteredResults, props.maxResults);
    }

    /**
     * The default-value effect: with a truthy `defaultValueId` naming a record of
     * the dataset, that record is committed as text, id and callback.
     */
    method DefaultValueEffect()
      modifies this
      ensures
        if IsTruthyId(props.defaultValueId) && FindById(thailandData, props.defaultValueId.value).Some? then
          var r := FindById(thailandData, props.defaultValueId.value).value;
          St() == old(St()).(searchTermId := props.defaultValueId, searchTerm := LocationText(props, r),
                             selections := old(selections) + [Some(r)])
        else St() == old(St())
    {
      if IsTruthyId(props.defaultValueId) {
        var defaultValue := FindById(thailandData, props.defaultValueId.value);
        if defaultValue.Some? {
          searchTermId := props.defaultValueId;
          var text := GetLocationText(props, defaultValue.value);
          searchTerm := text;
          selections := selections + [defaultValue];
        }
      }
    }

    // ---- events: a handler, then the effects of the render it causes --------

    /** A key press in the input. */
    method KeyDown(key: KeyboardKey) returns (outcome: Outcome)
      requires Valid()
      modifies this
      ensures Valid()
      ensures outcome == TypeError <==> key == Enter && old(focusedIndex) == 0 && old(results) == []
      ensures key == ArrowDown ==>
        St() == old(St()).(focusedIndex := FocusDown(old(focusedIndex), |old(results)|))
      ensures key == ArrowUp ==> St() == old(St()).(focusedIndex := FocusUp(old(focusedIndex)))
      ensures key == Enter && 0 <= old(focusedIndex) < |old(results)| ==>
        var r := old(results)[old(focusedIndex)];
        && r in thailandData
        && searchTermId == Some(r.id) && searchTerm == LocationText(props, r)
        && selections == old(selections) + [Some(r)] && focusedIndex == -1
        && results == (if searchTerm == old(searchTerm) then [] else Shown(props, thailandData, searchTerm))
        && (ReadOnly() <==> props.readOnlyIfSelected && r.id != 0)
      ensures key == Escape ==>
        St() == old(St()).(results := [], focusedIndex := -1, selections := old(selections) + [None])
      ensures key == Enter && old(focusedIndex) < 0 ==> St() == old(St())
      ensures key == OtherKey || outcome == TypeError ==> St() == old(St())
      ensures thailandData == old(thailandData)
    {
      ShownSpec(props, thailandData, searchTerm);
      var previous := searchTerm;
      outcome := HandleKeyDown(key);
      SearchTermEffects(previous);
    }

    /** A click on row `r` of the list. */
    method SelectLocation(r: ThailandData)
      requires Valid() && r in results
      modifies this
      ensures Valid()
      ensures searchTermId == Some(r.id) && searchTerm == LocationText(props, r)
      ensures selections == old(selections) + [Some(r)] && focusedIndex == -1
      ensures results == (if searchTerm == old(searchTerm) then [] else Shown(props, thailandData, searchTerm))
      ensures ReadOnly() <==> props.readOnlyIfSelected && r.id != 0
      ensures thailandData == old(thailandData)
    {
      ShownSpec(props, thailandData, searchTerm);
      var previous := searchTerm;
      HandleSelectLocation(r);
      SearchTermEffects(previous);
    }

    /** A click in the input. */
    method InputClick()
      requires Valid()
      modifies this
      ensures Valid()
      ensures St() == if props.clickToClear && old(searchTerm) != "" then
                        old(St()).(searchTermId := None, searchTerm := "", results := [], focusedIndex := -1,
                                   selections := old(selections) + [None])
                      else old(St())
      ensures props.clickToClear && old(searchTerm) != "" ==> !ReadOnly() && !ClearButtonShown()
    {
      var previous := searchTerm;
      HandleInputClick();
      SearchTermEffects(previous);
    }

    /**
     * The input's text changes to `newValue` (the browser reports a change only
     * when the text differs from what the input shows, and never for an input
     * that is read-only).
     */
    method InputChange(newValue: string)
      requires Valid() && newValue != searchTerm && !ReadOnly()
      modifies this
      ensures Valid()
      ensures St() == old(St()).(searchTerm := newValue, searchTermId := None, focusedIndex := -1,
                                 results := Shown(props, thailandData, newValue),
                                 selections := old(selections) + (if IsBlank(newValue) then [None] else []))
      ensures !ReadOnly()
    {
      var previous := searchTerm;
      HandleInputChange(newValue);
      SearchTermEffects(previous);
    }

    /** The delayed blur cleanup runs. */
    method InputBlur()
      requires Valid()
      modifies this
      ensures Valid()
      ensures results == [] && focusedIndex == -1 && thailandData == old(thailandData)
      ensures IsBlank(old(searchTerm)) ==>
        searchTerm == "" && searchTermId == None && selections == old(selections) + [None]
      ensures !IsBlank(old(searchTerm)) ==>
        searchTerm == old(searchTerm) && searchTermId == old(searchTermId) && selections == old(selections)
    {
      var previous := searchTerm;
      HandleInputBlur();
      SearchTermEffects(previous);
    }

    /** The clear button is pressed. */
    method Clear()
      requires Valid()
      modifies this
      ensures Valid()
      ensures St() == old(St()).(searchTerm := "", searchTermId := None, results := [],
                                 focusedIndex := if old(searchTerm) != "" then -1 else old(focusedIndex),
                                 selections := old(selections) + [None])
      ensures !ReadOnly() && !ClearButtonShown()
    {
      var previous := searchTerm;
      HandleClear();
      SearchTermEffects(previous);
    }

    /**
     * The dataset arrives (it is loaded once per mount, replacing the initial
     * empty list): the default-value effect and the list effect run, then the
     * effects of the term the default value may have set.
     */
    method DataLoaded(data: seq<ThailandData>)
      requires Valid() && thailandData == []
      modifies this
      ensures Valid()
      ensures thailandData == data && results == Shown(props, data, searchTerm)
      ensures
        if IsTruthyId(props.defaultValueId) && FindById(data, props.defaultValueId.value).Some? then
          var r := FindById(data, props.defaultValueId.value).value;
          && searchTermId == props.defaultValueId && searchTerm == LocationText(props, r)
          && selections == old(selections) + [Some(r)]
          && focusedIndex == (if searchTerm != old(searchTerm) then -1 else old(focusedIndex))
        else
          && searchTerm == old(searchTerm) && searchTermId == old(searchTermId)
          && selections == old(selections) && focusedIndex == old(focusedIndex)
    {
      var previous := searchTerm;
      assert searchTermId == None;
      thailandData := data;
      DefaultValueEffect();
      ResultsEffect(previous);
      SearchTermEffects(previous);
    }
  }
}
