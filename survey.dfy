/**
 * `org.ohmage.domain.campaign.Survey`: an immutable survey definition. It is
 * built once from an id, a title, an optional description and intro text, a
 * submit text, an `anytime` flag and a map from index to survey item, and
 * keeps two derived indexes of its top-level items: the prompts by id and
 * the repeatable sets by id.
 */
module Surveys {
  import opened Wrappers
  import opened JavaInts
  import opened JavaStrings
  import opened Indices
  import opened Json
  import opened JsonSink
  import opened SurveyItems

  /** The `DomainException`s the survey throws, one per check. */
  datatype SurveyError =
    | BlankId
    | BlankTitle
    | BlankSubmitText
    | NoSurveyItems
    | BlankSurveyItemId

  datatype Survey = Survey(
    id: string,
    title: string,
    description: Option<string>,
    introText: Option<string>,
    submitText: string,
    anytime: bool,
    surveyItems: map<int, SurveyItem>,
    prompts: map<string, SurveyItem>,
    repeatableSets: map<string, SurveyItem>)

  // ----- The derived indexes -----

  /** The two kinds of item the survey indexes by id. */
  datatype Kind = PromptKind | SetKind

  predicate HasKind(item: SurveyItem, kind: Kind)
  {
    match kind
    case PromptKind => item.Prompt?
    case SetKind => item.RepeatableSet?
  }

  /**
   * `index` maps each id of a top-level item of the kind to such an item
   * with that id, and holds nothing else. (When two items of the kind share
   * an id, which of them the index keeps depends on the map's iteration
   * order.)
   */
  ghost predicate IndexesKind(items: map<int, SurveyItem>, index: map<string, SurveyItem>, kind: Kind)
  {
    && (forall name :: name in index ==>
          HasKind(index[name], kind) && index[name].id == name && index[name] in items.Values)
    && (forall k :: k in items && HasKind(items[k], kind) ==> items[k].id in index)
  }

  /** The constructor's loop visits one more item. */
  lemma IndexStep(visited: map<int, SurveyItem>, index: map<string, SurveyItem>, kind: Kind, k: int, item: SurveyItem)
    requires k !in visited
    requires IndexesKind(visited, index, kind)
    ensures IndexesKind(visited[k := item], if HasKind(item, kind) then index[item.id := item] else index, kind)
  {
    var after := visited[k := item];
    var index' := if HasKind(item, kind) then index[item.id := item] else index;
    forall name | name in index'
      ensures index'[name] in after.Values
    {
      if HasKind(item, kind) && name == item.id {
        assert after[k] == item;
      } else {
        ValueHasKey(visited, index[name]);
        var j :| j in visited && visited[j] == index[name];
        assert after[j] == index[name];
      }
    }
  }

  /** What the constructor establishes and every survey therefore satisfies. */
  ghost predicate Valid(s: Survey)
  {
    && !IsEmptyOrWhitespaceOnly(Some(s.id))
    && !IsEmptyOrWhitespaceOnly(Some(s.title))
    && !IsEmptyOrWhitespaceOnly(Some(s.submitText))
    && |s.surveyItems| > 0
    && IndexesKind(s.surveyItems, s.prompts, PromptKind)
    && IndexesKind(s.surveyItems, s.repeatableSets, SetKind)
  }

  /**
   * The constructor. `None` stands for a Java null. Each check throws its own
   * error, in the order the source makes them; the item map is copied and
   * the two indexes are filled by one pass over its values.
   */
  method NewSurvey(
    id: Option<string>,
    title: Option<string>,
    description: Option<string>,
    introText: Option<string>,
    submitText: Option<string>,
    anytime: bool,
    surveyItems: Option<map<int, SurveyItem>>)
    returns (r: Result<Survey, SurveyError>)
    ensures IsEmptyOrWhitespaceOnly(id) ==> r == Failure(BlankId)
    ensures !IsEmptyOrWhitespaceOnly(id) && IsEmptyOrWhitespaceOnly(title) ==> r == Failure(BlankTitle)
    ensures !IsEmptyOrWhitespaceOnly(id) && !IsEmptyOrWhitespaceOnly(title) && IsEmptyOrWhitespaceOnly(submitText) ==>
              r == Failure(BlankSubmitText)
    ensures (!IsEmptyOrWhitespaceOnly(id) && !IsEmptyOrWhitespaceOnly(title) && !IsEmptyOrWhitespaceOnly(submitText) &&
             (surveyItems.None? || |surveyItems.value| == 0)) ==> r == Failure(NoSurveyItems)
    ensures r.Success? <==>
              !IsEmptyOrWhitespaceOnly(id) && !IsEmptyOrWhitespaceOnly(title) && !IsEmptyOrWhitespaceOnly(submitText) &&
              surveyItems.Some? && |surveyItems.value| > 0
    ensures r.Success? ==>
              && r.value.id == id.value
              && r.value.title == title.value
              && r.value.description == description
              && r.value.introText == introText
              && r.value.submitText == submitText.value
              && r.value.anytime == anytime
              && r.value.surveyItems == surveyItems.value
              && Valid(r.value)
  {
    if IsEmptyOrWhitespaceOnly(id) {
      return Failure(BlankId);
    }
    if IsEmptyOrWhitespaceOnly(title) {
      return Failure(BlankTitle);
    }
    if IsEmptyOrWhitespaceOnly(submitText) {
      return Failure(BlankSubmitText);
    }
    if surveyItems.None? || |surveyItems.value| == 0 {
      return Failure(NoSurveyItems);
    }

    var items := surveyItems.value;
    var prompts, repeatableSets := BuildIndexes(items);
    return Success(Survey(id.value, title.value, description, introText, submitText.value, anytime,
                          items, prompts, repeatableSets));
  }

  /** The constructor's pass over the item map that fills the two indexes. */
  method BuildIndexes(items: map<int, SurveyItem>)
    returns (prompts: map<string, SurveyItem>, repeatableSets: map<string, SurveyItem>)
    ensures IndexesKind(items, prompts, PromptKind)
    ensures IndexesKind(items, repeatableSets, SetKind)
  {
    prompts, repeatableSets := map[], map[];
    var visited: map<int, SurveyItem> := map[];
    while visited.Keys != items.Keys
      invariant PassedSoFar(items, visited, prompts, repeatableSets)
      decreases |items.Keys - visited.Keys|
    {
      HasElement(items.Keys - visited.Keys);
      var k :| k in items.Keys - visited.Keys;
      var surveyItem := items[k];
      PassStep(items, visited, prompts, repeatableSets, k);
      if surveyItem.Prompt? {
        prompts := prompts[surveyItem.id := surveyItem];
      } else if surveyItem.RepeatableSet? {
        repeatableSets := repeatableSets[surveyItem.id := surveyItem];
      }
      visited := visited[k := surveyItem];
    }
    assert visited.Keys == items.Keys;
    assert forall k :: k in items ==> visited[k] == items[k];
    assert visited == items;
  }

  /** The constructor's pass, part way: `visited` is the part of `items` seen so far. */
  ghost predicate PassedSoFar(items: map<int, SurveyItem>, visited: map<int, SurveyItem>,
                          prompts: map<string, SurveyItem>, repeatableSets: map<string, SurveyItem>)
  {
    && visited.Keys <= items.Keys
    && (forall k :: k in visited ==> visited[k] == items[k])
    && IndexesKind(visited, prompts, PromptKind)
    && IndexesKind(visited, repeatableSets, SetKind)
  }

  /** One step of the constructor's pass. */
  lemma PassStep(items: map<int, SurveyItem>, visited: map<int, SurveyItem>,
                    prompts: map<string, SurveyItem>, repeatableSets: map<string, SurveyItem>, k: int)
    requires PassedSoFar(items, visited, prompts, repeatableSets)
    requires k in items && k !in visited
    ensures PassedSoFar(items, visited[k := items[k]],
                    if items[k].Prompt? then prompts[items[k].id := items[k]] else prompts,
                    if items[k].RepeatableSet? then repeatableSets[items[k].id := items[k]] else repeatableSets)
  {
    IndexStep(visited, prompts, PromptKind, k, items[k]);
    IndexStep(visited, repeatableSets, SetKind, k, items[k]);
  }

  /** The ids of the top-level items of the kind. */
  function IdsOfKind(items: map<int, SurveyItem>, kind: Kind): set<string>
  {
    set k | k in items && HasKind(items[k], kind) :: items[k].id
  }

  /** An index holds exactly the ids of the top-level items of its kind. */
  lemma IndexKeys(items: map<int, SurveyItem>, index: map<string, SurveyItem>, kind: Kind)
    requires IndexesKind(items, index, kind)
    ensures index.Keys == IdsOfKind(items, kind)
  {
    forall name | name in index
      ensures name in IdsOfKind(items, kind)
    {
      ValueHasKey(items, index[name]);
      var k :| k in items && items[k] == index[name];
      assert items[k].id == name;
    }
  }

  /**
   * The indexes hold exactly the ids of the top-level prompts and of the
   * top-level repeatable sets, each under its own id; a message is in neither.
   */
  lemma IndexContents(s: Survey)
    requires Valid(s)
    ensures s.prompts.Keys == IdsOfKind(s.surveyItems, PromptKind)
    ensures s.repeatableSets.Keys == IdsOfKind(s.surveyItems, SetKind)
    ensures forall name :: name in s.prompts ==> s.prompts[name].Prompt? && s.prompts[name].id == name
    ensures forall name :: name in s.repeatableSets ==>
              s.repeatableSets[name].RepeatableSet? && s.repeatableSets[name].id == name
    ensures forall k :: k in s.surveyItems && s.surveyItems[k].Message? ==>
              s.surveyItems[k] !in s.prompts.Values && s.surveyItems[k] !in s.repeatableSets.Values
  {
    IndexKeys(s.surveyItems, s.prompts, PromptKind);
    IndexKeys(s.surveyItems, s.repeatableSets, SetKind);
  }

  // ----- Counts -----

  /** `getNumSurveyItems()`: the items' own counts, summed in the map's iteration order. */
  method NumSurveyItems(s: Survey) returns (total: int)
    ensures total == SumValues(ItemCounts(s.surveyItems))
  {
    total := 0;
    var remaining := s.surveyItems.Keys;
    ghost var rest := ItemCounts(s.surveyItems);
    while remaining != {}
      invariant rest.Keys == remaining <= s.surveyItems.Keys
      invariant forall k :: k in rest ==> rest[k] == ItemCount(s.surveyItems[k])
      invariant total + SumValues(rest) == SumValues(ItemCounts(s.surveyItems))
      decreases remaining
    {
      HasElement(remaining);
      var k :| k in remaining;
      SumValuesRemove(rest, k);
      total := total + ItemCount(s.surveyItems[k]);
      remaining := remaining - {k};
      rest := rest - {k};
    }
  }

  /** `getNumPrompts()`: the items' own prompt counts, summed in the map's iteration order. */
  method NumPrompts(s: Survey) returns (total: int)
    ensures total == SumValues(PromptCounts(s.surveyItems))
  {
    total := 0;
    var remaining := s.surveyItems.Keys;
    ghost var rest := PromptCounts(s.surveyItems);
    while remaining != {}
      invariant rest.Keys == remaining <= s.surveyItems.Keys
      invariant forall k :: k in rest ==> rest[k] == PromptCount(s.surveyItems[k])
      invariant total + SumValues(rest) == SumValues(PromptCounts(s.surveyItems))
      decreases remaining
    {
      HasElement(remaining);
      var k :| k in remaining;
      SumValuesRemove(rest, k);
      total := total + PromptCount(s.surveyItems[k]);
      remaining := remaining - {k};
      rest := rest - {k};
    }
  }

  /** A survey has no more prompts than items. */
  lemma PromptsAtMostItems(s: Survey)
    ensures 0 <= SumValues(PromptCounts(s.surveyItems)) <= SumValues(ItemCounts(s.surveyItems))
  {
    forall k | k in s.surveyItems
      ensures 0 <= PromptCount(s.surveyItems[k]) <= ItemCount(s.surveyItems[k])
    {
      CountsBounded(s.surveyItems[k]);
    }
    ItemMapCountsBounded(s.surveyItems);
  }

  // ----- Lookup -----

  /**
   * `getSurveyItem(String)`: a blank id is an error; otherwise some
   * top-level item on which the search step succeeds yields the answer (the
   * map's iteration order decides which), and there is none exactly when the
   * step fails on every top-level item.
   */
  method GetSurveyItemById(s: Survey, surveyItemId: Option<string>)
    returns (r: Result<Option<SurveyItem>, SurveyError>)
    ensures IsEmptyOrWhitespaceOnly(surveyItemId) <==> r == Failure(BlankSurveyItemId)
    ensures r.Failure? ==> r.error == BlankSurveyItemId
    ensures r.Success? ==>
              (r.value.None? <==>
                 forall k :: k in s.surveyItems ==> MatchItem(s.surveyItems[k], surveyItemId.value).None?)
    ensures r.Success? && r.value.Some? ==>
              exists k :: k in s.surveyItems && MatchItem(s.surveyItems[k], surveyItemId.value) == r.value
  {
    if IsEmptyOrWhitespaceOnly(surveyItemId) {
      return Failure(BlankSurveyItemId);
    }
    var id := surveyItemId.value;
    var remaining := s.surveyItems.Keys;
    while remaining != {}
      invariant remaining <= s.surveyItems.Keys
      invariant forall k :: k in s.surveyItems && k !in remaining ==> MatchItem(s.surveyItems[k], id).None?
      decreases remaining
    {
      HasElement(remaining);
      var k :| k in remaining;
      var item := s.surveyItems[k];
      if item.Prompt? {
        if item.id == id {
          return Success(Some(item));
        }
      } else if item.RepeatableSet? {
        if item.id == id {
          return Success(Some(item));
        }
        var found := FindInSet(item, id);
        if found.Some? {
          return Success(found);
        }
      }
      remaining := remaining - {k};
    }
    return Success(None);
  }

  /**
   * The search by id succeeds on some top-level item exactly when an item
   * with that id that is not a message sits, at any depth, in the survey.
   */
  lemma SurveyItemFound(s: Survey, id: string)
    ensures (exists k :: k in s.surveyItems && MatchItem(s.surveyItems[k], id).Some?) <==>
            (exists k, x :: k in s.surveyItems && Contains(s.surveyItems[k], x) && x.id == id && !x.Message?)
  {
    if exists k :: k in s.surveyItems && MatchItem(s.surveyItems[k], id).Some? {
      var k :| k in s.surveyItems && MatchItem(s.surveyItems[k], id).Some?;
      MatchItemSound(s.surveyItems[k], id);
      var x := MatchItem(s.surveyItems[k], id).value;
      assert Contains(s.surveyItems[k], x) && x.id == id && !x.Message?;
    }
    if exists k, x :: k in s.surveyItems && Contains(s.surveyItems[k], x) && x.id == id && !x.Message? {
      var k, x :| k in s.surveyItems && Contains(s.surveyItems[k], x) && x.id == id && !x.Message?;
      MatchItemComplete(s.surveyItems[k], id, x);
    }
  }

  /**
   * `getSurveyItem(int)`: some top-level item whose own index (not its key)
   * is `index`, or none exactly when no top-level item has that index.
   */
  method GetSurveyItemByIndex(s: Survey, index: int) returns (r: Option<SurveyItem>)
    ensures r.Some? ==> r.value in s.surveyItems.Values && r.value.index == index
    ensures r.None? <==> forall k :: k in s.surveyItems ==> s.surveyItems[k].index != index
  {
    var remaining := s.surveyItems.Keys;
    while remaining != {}
      invariant remaining <= s.surveyItems.Keys
      invariant forall k :: k in s.surveyItems && k !in remaining ==> s.surveyItems[k].index != index
      decreases remaining
    {
      HasElement(remaining);
      var k :| k in remaining;
      if s.surveyItems[k].index == index {
        return Some(s.surveyItems[k]);
      }
      remaining := remaining - {k};
    }
    return None;
  }

  /**
   * `getPrompt(String)`: the top-level prompt with that id if there is one;
   * otherwise what some repeatable set's `getPrompt` yields (the map's
   * iteration order decides which), or nothing when every set yields
   * nothing. Whatever is found is a prompt with that id.
   */
  method GetPrompt(s: Survey, promptId: string) returns (r: Option<SurveyItem>)
    requires Valid(s)
    ensures promptId in s.prompts ==> r == Some(s.prompts[promptId])
    ensures promptId !in s.prompts ==>
              (r.None? <==>
                 forall name :: name in s.repeatableSets ==> FindPromptInSet(s.repeatableSets[name], promptId).None?)
    ensures promptId !in s.prompts && r.Some? ==>
              exists name :: name in s.repeatableSets && FindPromptInSet(s.repeatableSets[name], promptId) == r
    ensures r.Some? ==> r.value.Prompt? && r.value.id == promptId
  {
    if promptId in s.prompts {
      return Some(s.prompts[promptId]);
    }
    r := None;
    var remaining := s.repeatableSets.Keys;
    while remaining != {}
      invariant remaining <= s.repeatableSets.Keys
      invariant r.None?
      invariant forall name :: name in s.repeatableSets && name !in remaining ==>
                  FindPromptInSet(s.repeatableSets[name], promptId).None?
      decreases remaining
    {
      HasName(remaining);
      var name :| name in remaining;
      r := FindPromptInSet(s.repeatableSets[name], promptId);
      if r.Some? {
        FindPromptInSetSound(s.repeatableSets[name], promptId);
        break;
      }
      remaining := remaining - {name};
    }
  }

  /** No two top-level items share an id. The constructor does not check this. */
  predicate UniqueIds(items: map<int, SurveyItem>)
  {
    forall j, k :: j in items && k in items && j != k ==> items[j].id != items[k].id
  }

  /** A prompt that the lookup finds sits, at some depth, in the survey. */
  lemma PromptFoundSound(s: Survey, id: string)
    requires Valid(s)
    requires id in s.prompts || exists name :: name in s.repeatableSets && FindPromptInSet(s.repeatableSets[name], id).Some?
    ensures exists k, p :: k in s.surveyItems && Contains(s.surveyItems[k], p) && p.Prompt? && p.id == id
  {
    if id in s.prompts {
      ValueHasKey(s.surveyItems, s.prompts[id]);
      var k :| k in s.surveyItems && s.surveyItems[k] == s.prompts[id];
      assert Contains(s.surveyItems[k], s.prompts[id]);
    } else {
      var name :| name in s.repeatableSets && FindPromptInSet(s.repeatableSets[name], id).Some?;
      var rs := s.repeatableSets[name];
      FindPromptInSetSound(rs, id);
      ValueHasKey(s.surveyItems, rs);
      var k :| k in s.surveyItems && s.surveyItems[k] == rs;
      assert Contains(s.surveyItems[k], FindPromptInSet(rs, id).value);
    }
  }

  /**
   * A prompt that sits, at any depth, in the survey is found, provided
   * top-level ids are unique (of two repeatable sets with one id, the index
   * keeps only one).
   */
  lemma PromptFoundComplete(s: Survey, id: string, k: int, p: SurveyItem)
    requires Valid(s) && UniqueIds(s.surveyItems)
    requires k in s.surveyItems && Contains(s.surveyItems[k], p) && p.Prompt? && p.id == id
    ensures id in s.prompts || exists name :: name in s.repeatableSets && FindPromptInSet(s.repeatableSets[name], id).Some?
  {
    var item := s.surveyItems[k];
    if item == p {
      assert HasKind(item, PromptKind);
    } else {
      assert item.RepeatableSet? && HasKind(item, SetKind);
      FindPromptInSetComplete(item, id, p);
      var indexed := s.repeatableSets[item.id];
      ValueHasKey(s.surveyItems, indexed);
      var j :| j in s.surveyItems && s.surveyItems[j] == indexed;
      assert s.surveyItems[j].id == s.surveyItems[k].id;
      assert indexed == item;
    }
  }

  // ----- Items in index order -----

  /** Which top-level items an ordered pass over the survey keeps. */
  datatype Selector =
    | AllItems              // `toJson` with no id filter
    | WithIds(ids: set<string>)  // `toJson` with a filter on item ids
    | PromptsOnly           // `toConcordia` with no prompt id

  predicate Keeps(sel: Selector, item: SurveyItem)
  {
    match sel
    case AllItems => true
    case WithIds(ids) => item.id in ids
    case PromptsOnly => item.Prompt?
  }

  /** The keys of `ks`, in their order, whose items `sel` keeps. */
  function Kept(items: map<int, SurveyItem>, ks: seq<int>, sel: Selector): (r: seq<int>)
    requires forall i :: 0 <= i < |ks| ==> ks[i] in items
    ensures forall i :: 0 <= i < |r| ==> r[i] in items
    decreases |ks|
  {
    if ks == [] then []
    else
      var rest := Kept(items, ks[..|ks| - 1], sel);
      if Keeps(sel, items[ks[|ks| - 1]]) then rest + [ks[|ks| - 1]] else rest
  }

  /** `Kept` keeps exactly the keys of `ks` whose items `sel` keeps. */
  lemma {:induction false} KeptMembers(items: map<int, SurveyItem>, ks: seq<int>, sel: Selector)
    requires forall i :: 0 <= i < |ks| ==> ks[i] in items
    ensures forall k :: k in Kept(items, ks, sel) <==> k in ks && Keeps(sel, items[k])
    decreases |ks|
  {
    if ks != [] {
      var init := ks[..|ks| - 1];
      KeptMembers(items, init, sel);
      assert forall k :: k in ks <==> k in init || k == ks[|ks| - 1];
    }
  }

  /** Ascending keys stay ascending when some are dropped. */
  lemma {:induction false} KeptIncreasing(items: map<int, SurveyItem>, ks: seq<int>, sel: Selector)
    requires forall i :: 0 <= i < |ks| ==> ks[i] in items
    requires StrictlyIncreasing(ks)
    ensures StrictlyIncreasing(Kept(items, ks, sel))
    decreases |ks|
  {
    if ks != [] {
      var init := ks[..|ks| - 1];
      IncreasingSplit(ks);
      KeptIncreasing(items, init, sel);
      KeptMembers(items, init, sel);
      assert forall k :: k in init ==> k < ks[|ks| - 1];
      IncreasingSnoc(Kept(items, init, sel), ks[|ks| - 1]);
    }
  }

  /** Without a filter nothing is dropped. */
  lemma {:induction false} KeptAll(items: map<int, SurveyItem>, ks: seq<int>)
    requires forall i :: 0 <= i < |ks| ==> ks[i] in items
    ensures Kept(items, ks, AllItems) == ks
    decreases |ks|
  {
    if ks != [] {
      KeptAll(items, ks[..|ks| - 1]);
      assert ks == ks[..|ks| - 1] + [ks[|ks| - 1]];
    }
  }

  /** One more key of `ks` taken: it is appended when `sel` keeps its item. */
  lemma KeptStep(items: map<int, SurveyItem>, ks: seq<int>, i: int, sel: Selector)
    requires forall j :: 0 <= j < |ks| ==> ks[j] in items
    requires 0 <= i < |ks|
    ensures Kept(items, ks[..i + 1], sel) ==
            Kept(items, ks[..i], sel) + if Keeps(sel, items[ks[i]]) then [ks[i]] else []
  {
    assert ks[..i + 1][..i] == ks[..i];
  }

  /** The keys of the survey's items that `sel` keeps, in ascending order. */
  function KeptIndices(s: Survey, sel: Selector): (r: seq<int>)
    ensures forall i :: 0 <= i < |r| ==> r[i] in s.surveyItems
  {
    SortedIndicesSpec(s.surveyItems.Keys);
    Kept(s.surveyItems, SortedIndices(s.surveyItems.Keys), sel)
  }

  /**
   * An ordered pass visits the kept items in strictly ascending key order,
   * each kept item exactly once; without a filter it visits every item.
   */
  lemma KeptIndicesOrder(s: Survey, sel: Selector)
    ensures StrictlyIncreasing(KeptIndices(s, sel))
    ensures forall k :: k in KeptIndices(s, sel) <==> k in s.surveyItems && Keeps(sel, s.surveyItems[k])
    ensures sel.AllItems? ==> KeptIndices(s, sel) == SortedIndices(s.surveyItems.Keys)
    ensures sel.AllItems? ==> |KeptIndices(s, sel)| == |s.surveyItems|
  {
    SortedIndicesSpec(s.surveyItems.Keys);
    KeptMembers(s.surveyItems, SortedIndices(s.surveyItems.Keys), sel);
    KeptIncreasing(s.surveyItems, SortedIndices(s.surveyItems.Keys), sel);
    KeptAll(s.surveyItems, SortedIndices(s.surveyItems.Keys));
  }

  // ----- toJson -----

  const JsonKeyId := "id"
  const JsonKeyTitle := "title"
  const JsonKeyDescription := "description"
  const JsonKeyIntroText := "intro_text"
  const JsonKeySubmitText := "submit_text"
  const JsonKeyAnytime := "anytime"
  const JsonKeyPrompts := "prompts"

  /** The seven keys are distinct, so each flag governs a key of its own. */
  lemma JsonKeysDistinct()
    ensures JsonKeyId != JsonKeyTitle && JsonKeyId != JsonKeyDescription && JsonKeyId != JsonKeyIntroText && JsonKeyId != JsonKeySubmitText && JsonKeyId != JsonKeyAnytime && JsonKeyId != JsonKeyPrompts
    ensures JsonKeyTitle != JsonKeyDescription && JsonKeyTitle != JsonKeyIntroText && JsonKeyTitle != JsonKeySubmitText && JsonKeyTitle != JsonKeyAnytime && JsonKeyTitle != JsonKeyPrompts
    ensures JsonKeyDescription != JsonKeyIntroText && JsonKeyDescription != JsonKeySubmitText && JsonKeyDescription != JsonKeyAnytime && JsonKeyDescription != JsonKeyPrompts
    ensures JsonKeyIntroText != JsonKeySubmitText && JsonKeyIntroText != JsonKeyAnytime && JsonKeyIntroText != JsonKeyPrompts
    ensures JsonKeySubmitText != JsonKeyAnytime && JsonKeySubmitText != JsonKeyPrompts
    ensures JsonKeyAnytime != JsonKeyPrompts
  {
  }

  /** The id filter of `toJson`: a Java null set (`None`) keeps every item. */
  function SelectorOf(promptIds: Option<set<string>>): Selector
  {
    if promptIds.None? then AllItems else WithIds(promptIds.value)
  }

  /** The seven flags of `toJson`, one per key. */
  datatype JsonFlags = JsonFlags(
    withId: bool,
    withTitle: bool,
    withDescription: bool,
    withIntroText: bool,
    withSubmitText: bool,
    withAnytime: bool,
    withSurveyItems: bool)

  /** A Java string field as a JSON value: null stays null. */
  function StringValue(s: Option<string>): Option<Json>
  {
    if s.Some? then Some(JString(s.value)) else None
  }

  /**
   * The fields of the object `toJson` builds: the guarded puts, in the
   * order the source makes them. `itemJson` stands for each item's own
   * `toJson`.
   */
  function JsonFields(s: Survey, flags: JsonFlags, promptIds: Option<set<string>>, itemJson: SurveyItem -> Json)
    : map<string, Json>
  {
    var withId := PutIf(flags.withId, map[], JsonKeyId, Some(JString(s.id)));
    var withTitle := PutIf(flags.withTitle, withId, JsonKeyTitle, Some(JString(s.title)));
    var withDescription := PutIf(flags.withDescription, withTitle, JsonKeyDescription, StringValue(s.description));
    var withIntroText := PutIf(flags.withIntroText, withDescription, JsonKeyIntroText, StringValue(s.introText));
    var withSubmitText := PutIf(flags.withSubmitText, withIntroText, JsonKeySubmitText, Some(JString(s.submitText)));
    var withAnytime := PutIf(flags.withAnytime, withSubmitText, JsonKeyAnytime, Some(JBool(s.anytime)));
    PutIf(flags.withSurveyItems, withAnytime, JsonKeyPrompts,
          Some(JArray(RenderAll(s.surveyItems, KeptIndices(s, SelectorOf(promptIds)), itemJson))))
  }

  /** `toJson`: builds the object `JsonFields` describes, one guarded `put` at a time. */
  method ToJson(
    s: Survey,
    withId: bool,
    withTitle: bool,
    withDescription: bool,
    withIntroText: bool,
    withSubmitText: bool,
    withAnytime: bool,
    withSurveyItems: bool,
    promptIds: Option<set<string>>,
    itemJson: SurveyItem -> Json)
    returns (r: Json)
    ensures r == JObject(JsonFields(s, JsonFlags(withId, withTitle, withDescription, withIntroText,
                                                 withSubmitText, withAnytime, withSurveyItems),
                                    promptIds, itemJson))
  {
    var result: map<string, Json> := map[];
    result := PutIf(withId, result, JsonKeyId, Some(JString(s.id)));
    result := PutIf(withTitle, result, JsonKeyTitle, Some(JString(s.title)));
    result := PutIf(withDescription, result, JsonKeyDescription, StringValue(s.description));
    result := PutIf(withIntroText, result, JsonKeyIntroText, StringValue(s.introText));
    result := PutIf(withSubmitText, result, JsonKeySubmitText, Some(JString(s.submitText)));
    result := PutIf(withAnytime, result, JsonKeyAnytime, Some(JBool(s.anytime)));
    if withSurveyItems {
      var indices := SortedIndices(s.surveyItems.Keys);
      SortedIndicesSpec(s.surveyItems.Keys);
      var surveyItemsArray := RenderItems(s.surveyItems, indices, promptIds, itemJson);
      result := Put(result, JsonKeyPrompts, Some(JArray(surveyItemsArray)));
    }
    return JObject(result);
  }

  /** The guarded puts of `toJson`, in the order the source makes them. */
  function JsonPuts(s: Survey, flags: JsonFlags, promptIds: Option<set<string>>, itemJson: SurveyItem -> Json)
    : seq<GuardedPut>
  {
    [ GuardedPut(flags.withId, JsonKeyId, Some(JString(s.id))),
      GuardedPut(flags.withTitle, JsonKeyTitle, Some(JString(s.title))),
      GuardedPut(flags.withDescription, JsonKeyDescription, StringValue(s.description)),
      GuardedPut(flags.withIntroText, JsonKeyIntroText, StringValue(s.introText)),
      GuardedPut(flags.withSubmitText, JsonKeySubmitText, Some(JString(s.submitText))),
      GuardedPut(flags.withAnytime, JsonKeyAnytime, Some(JBool(s.anytime))),
      GuardedPut(flags.withSurveyItems, JsonKeyPrompts,
                 Some(JArray(RenderAll(s.surveyItems, KeptIndices(s, SelectorOf(promptIds)), itemJson)))) ]
  }

  /** The fields `toJson` builds are those the run of its guarded puts leaves. */
  lemma JsonFieldsAsPuts(s: Survey, flags: JsonFlags, promptIds: Option<set<string>>, itemJson: SurveyItem -> Json)
    ensures JsonFields(s, flags, promptIds, itemJson) == ApplyPuts(JsonPuts(s, flags, promptIds, itemJson))
  {
    var puts := JsonPuts(s, flags, promptIds, itemJson);
    assert puts == [puts[0]] + [puts[1]] + [puts[2]] + [puts[3]] + [puts[4]] + [puts[5]] + [puts[6]];
    ApplyPutsSnoc([], puts[0]);
    ApplyPutsSnoc([puts[0]], puts[1]);
    ApplyPutsSnoc([puts[0]] + [puts[1]], puts[2]);
    ApplyPutsSnoc([puts[0]] + [puts[1]] + [puts[2]], puts[3]);
    ApplyPutsSnoc([puts[0]] + [puts[1]] + [puts[2]] + [puts[3]], puts[4]);
    ApplyPutsSnoc([puts[0]] + [puts[1]] + [puts[2]] + [puts[3]] + [puts[4]], puts[5]);
    ApplyPutsSnoc([puts[0]] + [puts[1]] + [puts[2]] + [puts[3]] + [puts[4]] + [puts[5]], puts[6]);
  }

  /**
   * Each flag decides whether its key is present, and the key then holds the
   * survey's field; a null description or intro text is dropped; no other
   * key appears.
   */
  lemma JsonFieldsContents(s: Survey, flags: JsonFlags, promptIds: Option<set<string>>, itemJson: SurveyItem -> Json)
    ensures var fields := JsonFields(s, flags, promptIds, itemJson);
            forall key :: key in fields ==>
              key in {JsonKeyId, JsonKeyTitle, JsonKeyDescription, JsonKeyIntroText,
                      JsonKeySubmitText, JsonKeyAnytime, JsonKeyPrompts}
    ensures var fields := JsonFields(s, flags, promptIds, itemJson);
            && (JsonKeyId in fields <==> flags.withId)
            && (flags.withId ==> fields[JsonKeyId] == JString(s.id))
            && (JsonKeyTitle in fields <==> flags.withTitle)
            && (flags.withTitle ==> fields[JsonKeyTitle] == JString(s.title))
            && (JsonKeySubmitText in fields <==> flags.withSubmitText)
            && (flags.withSubmitText ==> fields[JsonKeySubmitText] == JString(s.submitText))
            && (JsonKeyAnytime in fields <==> flags.withAnytime)
            && (flags.withAnytime ==> fields[JsonKeyAnytime] == JBool(s.anytime))
    ensures var fields := JsonFields(s, flags, promptIds, itemJson);
            && (JsonKeyDescription in fields <==> flags.withDescription && s.description.Some?)
            && (JsonKeyDescription in fields ==> fields[JsonKeyDescription] == JString(s.description.value))
            && (JsonKeyIntroText in fields <==> flags.withIntroText && s.introText.Some?)
            && (JsonKeyIntroText in fields ==> fields[JsonKeyIntroText] == JString(s.introText.value))
    ensures var fields := JsonFields(s, flags, promptIds, itemJson);
            && (JsonKeyPrompts in fields <==> flags.withSurveyItems)
            && (flags.withSurveyItems ==>
                  fields[JsonKeyPrompts] == JArray(RenderAll(s.surveyItems, KeptIndices(s, SelectorOf(promptIds)), itemJson)))
  {
    var puts := JsonPuts(s, flags, promptIds, itemJson);
    JsonFieldsAsPuts(s, flags, promptIds, itemJson);
    JsonKeysDistinct();
    assert DistinctKeys(puts);
    ApplyPutsKeys(puts);
    forall k | k in PutKeys(puts)
      ensures k in {JsonKeyId, JsonKeyTitle, JsonKeyDescription, JsonKeyIntroText,
                    JsonKeySubmitText, JsonKeyAnytime, JsonKeyPrompts}
    {
      var i :| 0 <= i < |puts| && puts[i].key == k;
    }
    ApplyPutsAt(puts, 0);
    ApplyPutsAt(puts, 1);
    ApplyPutsAt(puts, 2);
    ApplyPutsAt(puts, 3);
    ApplyPutsAt(puts, 4);
    ApplyPutsAt(puts, 5);
    ApplyPutsAt(puts, 6);
  }

  /**
   * With `withSurveyItems` the "prompts" array renders the items `promptIds`
   * selects, one element per item, in strictly ascending key order; with no
   * filter it renders every item.
   */
  lemma JsonItems(s: Survey, flags: JsonFlags, promptIds: Option<set<string>>, itemJson: SurveyItem -> Json)
    ensures var fields := JsonFields(s, flags, promptIds, itemJson);
            var shown := KeptIndices(s, SelectorOf(promptIds));
            && (JsonKeyPrompts in fields <==> flags.withSurveyItems)
            && (flags.withSurveyItems ==>
                  && fields[JsonKeyPrompts].JArray?
                  && |fields[JsonKeyPrompts].elems| == |shown|
                  && forall i :: 0 <= i < |shown| ==> fields[JsonKeyPrompts].elems[i] == itemJson(s.surveyItems[shown[i]]))
            && StrictlyIncreasing(shown)
            && (forall k :: k in shown <==> k in s.surveyItems && (promptIds.None? || s.surveyItems[k].id in promptIds.value))
            && (promptIds.None? ==> shown == SortedIndices(s.surveyItems.Keys))
  {
    JsonFieldsContents(s, flags, promptIds, itemJson);
    KeptIndicesOrder(s, SelectorOf(promptIds));
    RenderAllSpec(s.surveyItems, KeptIndices(s, SelectorOf(promptIds)), itemJson);
  }

  /** The JSON of the items at the keys `ks`, in that order. */
  function RenderAll(items: map<int, SurveyItem>, ks: seq<int>, itemJson: SurveyItem -> Json): seq<Json>
    requires forall i :: 0 <= i < |ks| ==> ks[i] in items
    decreases |ks|
  {
    if ks == [] then []
    else RenderAll(items, ks[..|ks| - 1], itemJson) + [itemJson(items[ks[|ks| - 1]])]
  }

  /** One element per key, the JSON of that key's item. */
  lemma {:induction false} RenderAllSpec(items: map<int, SurveyItem>, ks: seq<int>, itemJson: SurveyItem -> Json)
    requires forall i :: 0 <= i < |ks| ==> ks[i] in items
    ensures |RenderAll(items, ks, itemJson)| == |ks|
    ensures forall i :: 0 <= i < |ks| ==> RenderAll(items, ks, itemJson)[i] == itemJson(items[ks[i]])
    decreases |ks|
  {
    if ks != [] {
      RenderAllSpec(items, ks[..|ks| - 1], itemJson);
    }
  }

  /**
   * The loop of `toJson` that fills the "prompts" array, over the keys
   * `indices` (the sorted key list): with no id filter every item is
   * rendered, otherwise only those whose id is in `promptIds`.
   */
  method RenderItems(
    surveyItems: map<int, SurveyItem>,
    indices: seq<int>,
    promptIds: Option<set<string>>,
    itemJson: SurveyItem -> Json)
    returns (surveyItemsArray: seq<Json>)
    requires forall i :: 0 <= i < |indices| ==> indices[i] in surveyItems
    ensures surveyItemsArray == RenderAll(surveyItems, Kept(surveyItems, indices, SelectorOf(promptIds)), itemJson)
  {
    surveyItemsArray := [];
    for i := 0 to |indices|
      invariant surveyItemsArray == RenderAll(surveyItems, Kept(surveyItems, indices[..i], SelectorOf(promptIds)), itemJson)
    {
      var index := indices[i];
      RenderStep(surveyItems, indices, i, SelectorOf(promptIds), itemJson);
      if promptIds.None? {
        surveyItemsArray := surveyItemsArray + [itemJson(surveyItems[index])];
      } else {
        var surveyItem := surveyItems[index];
        if surveyItem.id in promptIds.value {
          surveyItemsArray := surveyItemsArray + [itemJson(surveyItem)];
        }
      }
    }
    assert indices[..|indices|] == indices;
  }

  /** One step of the loop of `toJson`: the next key's item is rendered when it is kept. */
  lemma RenderStep(items: map<int, SurveyItem>, ks: seq<int>, i: int, sel: Selector, itemJson: SurveyItem -> Json)
    requires forall j :: 0 <= j < |ks| ==> ks[j] in items
    requires 0 <= i < |ks|
    ensures Keeps(sel, items[ks[i]]) ==>
              RenderAll(items, Kept(items, ks[..i + 1], sel), itemJson) ==
              RenderAll(items, Kept(items, ks[..i], sel), itemJson) + [itemJson(items[ks[i]])]
    ensures !Keeps(sel, items[ks[i]]) ==>
              RenderAll(items, Kept(items, ks[..i + 1], sel), itemJson) == RenderAll(items, Kept(items, ks[..i], sel), itemJson)
  {
    KeptStep(items, ks, i, sel);
    var shown := Kept(items, ks[..i], sel);
    assert (shown + [ks[i]])[..|shown|] == shown;
    assert shown + [] == shown;
  }

  // ----- toConcordia -----

  const KeySurveyLaunchContext := "survey_launch_context"
  const KeyResponses := "responses"
  const KeyLaunchTime := "launch_time"
  const KeyLaunchTimezone := "launch_timezone"
  const KeyActiveTriggers := "active_triggers"

  /** The schema of the active triggers: an array whose elements are strings. */
  function TriggersSchema(): (r: seq<Event>)
    ensures Balanced(r)
  {
    var element := [StringField(KeyType, TypeString)];
    FieldsThen(element, []);
    assert element + [] == element;
    BalancedWrap(ObjectFieldStart(KeySchema), element, EndObject);
    var fields := [StringField(KeyName, KeyActiveTriggers), StringField(KeyType, TypeArray)];
    FieldsThen(fields, ObjectFieldOf(KeySchema, element));
    BalancedWrap(StartObject, fields + ObjectFieldOf(KeySchema, element), EndObject);
    ObjectOf(fields + ObjectFieldOf(KeySchema, element))
  }

  /**
   * The schema of the survey launch context: an object with a numeric
   * launch time, a string time zone and the array of active triggers.
   */
  function LaunchContextSchema(): (r: seq<Event>)
    ensures Balanced(r)
  {
    var time := FieldSchema(KeyLaunchTime, TypeNumber);
    var zone := FieldSchema(KeyLaunchTimezone, TypeString);
    BalancedConcat(time, zone);
    BalancedConcat(time + zone, TriggersSchema());
    BalancedWrap(ArrayFieldStart(KeySchema), time + zone + TriggersSchema(), EndArray);
    var schema := ArrayFieldOf(KeySchema, time + zone + TriggersSchema());
    var fields := [StringField(KeyName, KeySurveyLaunchContext), StringField(KeyType, TypeObject)];
    FieldsThen(fields, schema);
    BalancedWrap(StartObject, fields + schema, EndObject);
    ObjectOf(fields + schema)
  }

  /**
   * The response schemas the loop of `toConcordia` writes for the keys
   * `ks`, in their order: a prompt writes its own, a message or a
   * repeatable set writes nothing.
   */
  function Fragments(items: map<int, SurveyItem>, ks: seq<int>): (r: seq<Event>)
    requires forall i :: 0 <= i < |ks| ==> ks[i] in items
    ensures Balanced(r)
    decreases |ks|
  {
    if ks == [] then []
    else
      var rest := Fragments(items, ks[..|ks| - 1]);
      var item := items[ks[|ks| - 1]];
      if item.Prompt? then
        BalancedConcat(rest, ConcordiaFragment(item));
        rest + ConcordiaFragment(item)
      else rest
  }

  /** The schemas of a list of prompts, one after another. */
  function PromptFragments(items: map<int, SurveyItem>, ks: seq<int>): seq<Event>
    requires forall i :: 0 <= i < |ks| ==> ks[i] in items && items[ks[i]].Prompt?
    decreases |ks|
  {
    if ks == [] then [] else PromptFragments(items, ks[..|ks| - 1]) + ConcordiaFragment(items[ks[|ks| - 1]])
  }

  /** The responses of every item, in ascending index order. */
  function AllFragments(items: map<int, SurveyItem>): (r: seq<Event>)
    ensures Balanced(r)
  {
    SortedIndicesSpec(items.Keys);
    Fragments(items, SortedIndices(items.Keys))
  }

  /** What `toConcordia` writes into the array of responses. */
  function ResponseFragments(s: Survey, promptId: Option<string>): (r: seq<Event>)
    requires Valid(s)
    ensures Balanced(r)
  {
    match promptId
    case None => AllFragments(s.surveyItems)
    case Some(id) =>
      if id in s.prompts then ConcordiaFragment(s.prompts[id]) else []
  }

  /** `LaunchContextSchema` written onto `base`, in the order of the calls that write it. */
  lemma LaunchContextLayout(base: seq<Event>)
    ensures base + LaunchContextSchema() ==
            base + [StartObject] + [StringField(KeyName, KeySurveyLaunchContext)] + [StringField(KeyType, TypeObject)]
            + [ArrayFieldStart(KeySchema)] + FieldSchema(KeyLaunchTime, TypeNumber) + FieldSchema(KeyLaunchTimezone, TypeString)
            + TriggersSchema() + [EndArray] + [EndObject]
  {
  }

  /** The array of responses: an object whose schema lists `responses`. */
  function ResponsesSchema(responses: seq<Event>): seq<Event>
  {
    ObjectOf([StringField(KeyName, KeyResponses), StringField(KeyType, TypeArray)] + ArrayFieldOf(KeySchema, responses))
  }

  /** Balanced responses make a balanced array of responses. */
  lemma ResponsesBalanced(responses: seq<Event>)
    requires Balanced(responses)
    ensures Balanced(ResponsesSchema(responses))
  {
    var fields := [StringField(KeyName, KeyResponses), StringField(KeyType, TypeArray)];
    BalancedWrap(ArrayFieldStart(KeySchema), responses, EndArray);
    FieldsThen(fields, ArrayFieldOf(KeySchema, responses));
    BalancedWrap(StartObject, fields + ArrayFieldOf(KeySchema, responses), EndObject);
  }

  /** `ResponsesSchema(responses)` written onto `base`, in the order of the calls that write it. */
  lemma ResponsesLayout(base: seq<Event>, responses: seq<Event>)
    ensures base + ResponsesSchema(responses) ==
            base + [StartObject] + [StringField(KeyName, KeyResponses)] + [StringField(KeyType, TypeArray)]
            + [ArrayFieldStart(KeySchema)] + responses + [EndArray] + [EndObject]
  {
  }

  /**
   * Everything `toConcordia` writes: an object whose schema lists the
   * survey launch context and the array of responses.
   */
  function ConcordiaSchema(s: Survey, promptId: Option<string>): (r: seq<Event>)
    requires Valid(s)
    ensures Balanced(r)
  {
    var responses := ResponsesSchema(ResponseFragments(s, promptId));
    ResponsesBalanced(ResponseFragments(s, promptId));
    BalancedConcat(LaunchContextSchema(), responses);
    BalancedWrap(ArrayFieldStart(KeySchema), LaunchContextSchema() + responses, EndArray);
    var schema := ArrayFieldOf(KeySchema, LaunchContextSchema() + responses);
    FieldsThen([StringField(KeyType, TypeObject)], schema);
    BalancedWrap(StartObject, [StringField(KeyType, TypeObject)] + schema, EndObject);
    ObjectOf([StringField(KeyType, TypeObject)] + schema)
  }

  /**
   * The outer object of `toConcordia` around a launch context and an array
   * of responses, written onto `base`, in the order of the calls that write it.
   */
  lemma ConcordiaLayout(base: seq<Event>, context: seq<Event>, responses: seq<Event>)
    ensures base + ObjectOf([StringField(KeyType, TypeObject)] + ArrayFieldOf(KeySchema, context + responses)) ==
            base + [StartObject] + [StringField(KeyType, TypeObject)] + [ArrayFieldStart(KeySchema)]
            + context + responses + [EndArray] + [EndObject]
  {
  }

  /**
   * Whatever the prompt id, the schema holds the launch-context schema,
   * and with it the launch time as a number, the time zone as a string
   * and the active triggers as an array of strings.
   */
  lemma ConcordiaLaunchContext(s: Survey, promptId: Option<string>)
    requires Valid(s)
    ensures Occurs(LaunchContextSchema(), ConcordiaSchema(s, promptId))
    ensures Occurs(FieldSchema(KeyLaunchTime, TypeNumber), ConcordiaSchema(s, promptId))
    ensures Occurs(FieldSchema(KeyLaunchTimezone, TypeString), ConcordiaSchema(s, promptId))
    ensures Occurs(TriggersSchema(), ConcordiaSchema(s, promptId))
  {
    LaunchContextParts();
    var context := LaunchContextSchema();
    var responses := ResponsesSchema(ResponseFragments(s, promptId));
    var header := [StringField(KeyType, TypeObject)];
    forall x | x in {context, FieldSchema(KeyLaunchTime, TypeNumber), FieldSchema(KeyLaunchTimezone, TypeString), TriggersSchema()}
      ensures Occurs(x, ConcordiaSchema(s, promptId))
    {
      if x != context {
        assert Occurs(x, context);
      } else {
        OccursSelf(x);
      }
      OccursLeft(x, context, responses);
      OccursRight(x, [ArrayFieldStart(KeySchema)], context + responses);
      OccursLeft(x, [ArrayFieldStart(KeySchema)] + (context + responses), [EndArray]);
      OccursRight(x, header, ArrayFieldOf(KeySchema, context + responses));
      OccursRight(x, [StartObject], header + ArrayFieldOf(KeySchema, context + responses));
      OccursLeft(x, [StartObject] + (header + ArrayFieldOf(KeySchema, context + responses)), [EndObject]);
    }
  }

  /** The launch-context schema holds its three field schemas. */
  lemma LaunchContextParts()
    ensures Occurs(FieldSchema(KeyLaunchTime, TypeNumber), LaunchContextSchema())
    ensures Occurs(FieldSchema(KeyLaunchTimezone, TypeString), LaunchContextSchema())
    ensures Occurs(TriggersSchema(), LaunchContextSchema())
  {
    var time := FieldSchema(KeyLaunchTime, TypeNumber);
    var zone := FieldSchema(KeyLaunchTimezone, TypeString);
    var triggers := TriggersSchema();
    var fields := [StringField(KeyName, KeySurveyLaunchContext), StringField(KeyType, TypeObject)];
    var schema := ArrayFieldOf(KeySchema, time + zone + triggers);
    forall x | x in {time, zone, triggers}
      ensures Occurs(x, LaunchContextSchema())
    {
      OccursSelf(x);
      if x == time {
        OccursLeft(x, time, zone);
        OccursLeft(x, time + zone, triggers);
      } else if x == zone {
        OccursRight(x, time, zone);
        OccursLeft(x, time + zone, triggers);
      } else {
        OccursRight(x, time + zone, triggers);
      }
      OccursRight(x, [ArrayFieldStart(KeySchema)], time + zone + triggers);
      OccursLeft(x, [ArrayFieldStart(KeySchema)] + (time + zone + triggers), [EndArray]);
      OccursRight(x, fields, schema);
      OccursRight(x, [StartObject], fields + schema);
      OccursLeft(x, [StartObject] + (fields + schema), [EndObject]);
    }
  }

  /** `toConcordia`: writes `ConcordiaSchema(s, promptId)` to the generator, call by call. */
  method ToConcordia(s: Survey, generator: Generator, promptId: Option<string>)
    requires Valid(s)
    modifies generator
    ensures generator.events == old(generator.events) + ConcordiaSchema(s, promptId)
  {
    ConcordiaLayout(generator.events, LaunchContextSchema(), ResponsesSchema(ResponseFragments(s, promptId)));
    generator.WriteStartObject();
    generator.WriteStringField(KeyType, TypeObject);
    generator.WriteArrayFieldStart(KeySchema);
    WriteLaunchContext(generator);
    WriteResponsesSchema(s, generator, promptId);
    generator.WriteEndArray();
    generator.WriteEndObject();
  }

  /** The launch-context part of `toConcordia`. */
  method WriteLaunchContext(generator: Generator)
    modifies generator
    ensures generator.events == old(generator.events) + LaunchContextSchema()
  {
    LaunchContextLayout(generator.events);
    generator.WriteStartObject();
    generator.WriteStringField(KeyName, KeySurveyLaunchContext);
    generator.WriteStringField(KeyType, TypeObject);
    generator.WriteArrayFieldStart(KeySchema);
    WriteFieldSchema(KeyLaunchTime, TypeNumber, generator);
    WriteFieldSchema(KeyLaunchTimezone, TypeString, generator);
    WriteTriggersSchema(generator);
    generator.WriteEndArray();
    generator.WriteEndObject();
  }

  /** The active-triggers part of the launch context. */
  method WriteTriggersSchema(generator: Generator)
    modifies generator
    ensures generator.events == old(generator.events) + TriggersSchema()
  {
    generator.WriteStartObject();
    generator.WriteStringField(KeyName, KeyActiveTriggers);
    generator.WriteStringField(KeyType, TypeArray);
    generator.WriteObjectFieldStart(KeySchema);
    generator.WriteStringField(KeyType, TypeString);
    generator.WriteEndObject();
    generator.WriteEndObject();
  }

  /**
   * The array-of-responses part of `toConcordia`: every prompt in index
   * order when no prompt id is given, else the indexed prompt with that
   * id, if there is one.
   */
  method WriteResponsesSchema(s: Survey, generator: Generator, promptId: Option<string>)
    requires Valid(s)
    modifies generator
    ensures generator.events == old(generator.events) + ResponsesSchema(ResponseFragments(s, promptId))
  {
    ResponsesLayout(generator.events, ResponseFragments(s, promptId));
    generator.WriteStartObject();
    generator.WriteStringField(KeyName, KeyResponses);
    generator.WriteStringField(KeyType, TypeArray);
    generator.WriteArrayFieldStart(KeySchema);
    WriteResponseList(s, generator, promptId);
    generator.WriteEndArray();
    generator.WriteEndObject();
  }

  /** The response values of `toConcordia`. */
  method WriteResponseList(s: Survey, generator: Generator, promptId: Option<string>)
    requires Valid(s)
    modifies generator
    ensures generator.events == old(generator.events) + ResponseFragments(s, promptId)
  {
    if promptId.None? {
      WriteAllResponses(s.surveyItems, generator);
    } else {
      if promptId.value in s.prompts {
        var prompt := s.prompts[promptId.value];
        WriteConcordia(prompt, generator);
      } else {
        assert old(generator.events) + [] == old(generator.events);
      }
    }
  }

  /** With no prompt id: the items' keys are sorted, then written in that order. */
  method WriteAllResponses(surveyItems: map<int, SurveyItem>, generator: Generator)
    modifies generator
    ensures generator.events == old(generator.events) + AllFragments(surveyItems)
  {
    var indices := SortedIndices(surveyItems.Keys);
    SortedIndicesSpec(surveyItems.Keys);
    WriteResponses(surveyItems, indices, generator);
  }

  /**
   * The loop of `toConcordia` with no prompt id: each item in the order of
   * `indices`, skipping messages and repeatable sets.
   */
  method WriteResponses(items: map<int, SurveyItem>, indices: seq<int>, generator: Generator)
    requires forall i :: 0 <= i < |indices| ==> indices[i] in items
    modifies generator
    ensures generator.events == old(generator.events) + Fragments(items, indices)
  {
    for i := 0 to |indices|
      invariant generator.events == old(generator.events) + Fragments(items, indices[..i])
    {
      var surveyItem := items[indices[i]];
      FragmentsStep(items, indices, i);
      if surveyItem.Message? {
        continue;
      }
      if surveyItem.RepeatableSet? {
        continue;
      }
      if surveyItem.Prompt? {
        WriteConcordia(surveyItem, generator);
      }
    }
    assert indices[..|indices|] == indices;
  }

  /** One step of the loop of `toConcordia`: a prompt adds its schema, anything else nothing. */
  lemma FragmentsStep(items: map<int, SurveyItem>, ks: seq<int>, i: int)
    requires forall j :: 0 <= j < |ks| ==> ks[j] in items
    requires 0 <= i < |ks|
    ensures items[ks[i]].Prompt? ==>
              Fragments(items, ks[..i + 1]) == Fragments(items, ks[..i]) + ConcordiaFragment(items[ks[i]])
    ensures !items[ks[i]].Prompt? ==> Fragments(items, ks[..i + 1]) == Fragments(items, ks[..i])
  {
    assert ks[..i + 1][..i] == ks[..i];
  }

  /**
   * With no prompt id, the responses are the schemas of exactly the
   * survey's top-level prompts, in ascending index order; messages and
   * repeatable sets contribute nothing.
   */
  lemma {:induction false} FragmentsArePrompts(items: map<int, SurveyItem>, ks: seq<int>)
    requires forall i :: 0 <= i < |ks| ==> ks[i] in items
    ensures forall i :: 0 <= i < |Kept(items, ks, PromptsOnly)| ==> items[Kept(items, ks, PromptsOnly)[i]].Prompt?
    ensures Fragments(items, ks) == PromptFragments(items, Kept(items, ks, PromptsOnly))
    decreases |ks|
  {
    KeptMembers(items, ks, PromptsOnly);
    if ks != [] {
      var init := ks[..|ks| - 1];
      FragmentsArePrompts(items, init);
      var kept := Kept(items, init, PromptsOnly);
      var last := ks[|ks| - 1];
      if items[last].Prompt? {
        assert (kept + [last])[..|kept|] == kept;
      }
    }
  }

  /** `toConcordia` with no prompt id lists every top-level prompt once, in index order. */
  lemma ConcordiaAllPrompts(s: Survey)
    ensures forall k :: k in KeptIndices(s, PromptsOnly) <==> k in s.surveyItems && s.surveyItems[k].Prompt?
    ensures StrictlyIncreasing(KeptIndices(s, PromptsOnly))
    ensures AllFragments(s.surveyItems) == PromptFragments(s.surveyItems, KeptIndices(s, PromptsOnly))
  {
    SortedIndicesSpec(s.surveyItems.Keys);
    FragmentsArePrompts(s.surveyItems, SortedIndices(s.surveyItems.Keys));
    KeptIndicesOrder(s, PromptsOnly);
  }

  /**
   * `toConcordia` with a prompt id lists the schema of a top-level prompt
   * with that id, and nothing when there is none (a repeatable set's id,
   * a prompt inside a repeatable set, an unknown id).
   */
  lemma ConcordiaSinglePrompt(s: Survey, id: string)
    requires Valid(s)
    ensures (exists k :: k in s.surveyItems && s.surveyItems[k].Prompt? && s.surveyItems[k].id == id) ==>
              exists k :: k in s.surveyItems && s.surveyItems[k].Prompt? && s.surveyItems[k].id == id &&
                          ResponseFragments(s, Some(id)) == ConcordiaFragment(s.surveyItems[k])
    ensures !(exists k :: k in s.surveyItems && s.surveyItems[k].Prompt? && s.surveyItems[k].id == id) ==>
              ResponseFragments(s, Some(id)) == []
  {
    if id in s.prompts {
      ValueHasKey(s.surveyItems, s.prompts[id]);
    }
  }

  // ----- A worked example -----

  /**
   * The shape of the example survey: a prompt `p` at index 0 and a
   * repeatable set `rs` at index 1 that holds a single prompt `q`.
   */
  predicate ExampleShape(items: map<int, SurveyItem>, p: SurveyItem, rs: SurveyItem, q: SurveyItem)
  {
    && p.Prompt? && q.Prompt? && rs.RepeatableSet?
    && rs.items == map[0 := q]
    && items == map[0 := p, 1 := rs]
  }

  /** With non-blank texts and the constructor's indexes, such a survey is one the constructor builds. */
  lemma ExampleValid(s: Survey, p: SurveyItem, rs: SurveyItem, q: SurveyItem)
    requires ExampleShape(s.surveyItems, p, rs, q)
    requires |s.id| > 0 && !IsTrimmed(s.id[0])
    requires |s.title| > 0 && !IsTrimmed(s.title[0])
    requires |s.submitText| > 0 && !IsTrimmed(s.submitText[0])
    requires s.prompts == map[p.id := p] && s.repeatableSets == map[rs.id := rs]
    ensures Valid(s)
  {
    NotBlank(s.id);
    NotBlank(s.title);
    NotBlank(s.submitText);
    assert s.surveyItems[0] == p && s.surveyItems[1] == rs;
  }

  /** Two items and two prompts: the repeatable set counts what it holds, not itself. */
  lemma ExampleCounts(items: map<int, SurveyItem>, p: SurveyItem, rs: SurveyItem, q: SurveyItem)
    requires ExampleShape(items, p, rs, q)
    ensures SumValues(ItemCounts(items)) == 2
    ensures SumValues(PromptCounts(items)) == 2
  {
    SetOfOnePrompt(rs, q);
    var single := map[0 := 1];
    SumValuesInsert(map[], 0, 1);
    assert map[][0 := 1] == single;
    SumValuesInsert(single, 1, 1);
    var both := single[1 := 1];
    assert items.Keys == both.Keys;
    assert ItemCounts(items) == both;
    assert PromptCounts(items) == both;
  }

  /** A repeatable set holding one prompt counts one item and one prompt. */
  lemma SetOfOnePrompt(rs: SurveyItem, q: SurveyItem)
    requires rs.RepeatableSet? && q.Prompt? && rs.items == map[0 := q]
    ensures ItemCount(rs) == 1 && PromptCount(rs) == 1
  {
    var single := map[0 := 1];
    SumValuesInsert(map[], 0, 1);
    assert map[][0 := 1] == single;
    assert ItemCounts(rs.items) == single;
    assert PromptCounts(rs.items) == single;
    assert ItemCount(rs) == SumValues(ItemCounts(rs.items));
    assert PromptCount(rs) == SumValues(PromptCounts(rs.items));
  }

  /** The search for the nested prompt's id succeeds, and only with that prompt. */
  lemma ExampleLookup(items: map<int, SurveyItem>, p: SurveyItem, rs: SurveyItem, q: SurveyItem)
    requires ExampleShape(items, p, rs, q)
    requires q.id != p.id && q.id != rs.id
    ensures exists k :: k in items && MatchItem(items[k], q.id).Some?
    ensures forall k :: k in items && MatchItem(items[k], q.id).Some? ==> MatchItem(items[k], q.id) == Some(q)
  {
    assert Hits(rs, q.id) == {0};
    assert MinKey({0}) == 0;
    assert FindInSet(rs, q.id) == Some(q);
    assert MatchItem(items[1], q.id) == Some(q);
  }

  /** `toConcordia` with no prompt id lists `p` alone. */
  lemma ExampleConcordia(items: map<int, SurveyItem>, p: SurveyItem, rs: SurveyItem, q: SurveyItem)
    requires ExampleShape(items, p, rs, q)
    ensures AllFragments(items) == ConcordiaFragment(p)
  {
    SortedPair(items.Keys, 0, 1);
    var keys := SortedIndices(items.Keys);
    FragmentsStep(items, keys, 0);
    FragmentsStep(items, keys, 1);
    assert keys[..0] == [] && keys[..2] == keys;
    assert [] + ConcordiaFragment(p) == ConcordiaFragment(p);
  }

  // ----- Equality and hashing -----

  /** `equals`: the same id and the same item map; nothing else is compared. */
  predicate Equals(a: Survey, b: Survey)
  {
    a.id == b.id && a.surveyItems == b.surveyItems
  }

  /** Surveys that are `equals` report the same item and prompt counts. */
  lemma EqualsSameCounts(a: Survey, b: Survey)
    requires Equals(a, b)
    ensures SumValues(ItemCounts(a.surveyItems)) == SumValues(ItemCounts(b.surveyItems))
    ensures SumValues(PromptCounts(a.surveyItems)) == SumValues(PromptCounts(b.surveyItems))
  {
  }

  /** `equals` is an equivalence, blind to the title, texts and `anytime` flag. */
  lemma EqualsIsEquivalence(a: Survey, b: Survey, c: Survey)
    ensures Equals(a, a)
    ensures Equals(a, b) ==> Equals(b, a)
    ensures Equals(a, b) && Equals(b, c) ==> Equals(a, c)
    ensures a.id == b.id && a.surveyItems == b.surveyItems ==> Equals(a, b)
  {
  }

  /** With unique ids the index is determined by the items alone. */
  lemma IndexDetermined(items: map<int, SurveyItem>, index1: map<string, SurveyItem>, index2: map<string, SurveyItem>, kind: Kind)
    requires IndexesKind(items, index1, kind) && IndexesKind(items, index2, kind)
    requires UniqueIds(items)
    ensures index1 == index2
  {
    IndexKeys(items, index1, kind);
    IndexKeys(items, index2, kind);
    forall name | name in index1
      ensures index1[name] == index2[name]
    {
      ValueHasKey(items, index1[name]);
      ValueHasKey(items, index2[name]);
      var j :| j in items && items[j] == index1[name];
      var k :| k in items && items[k] == index2[name];
      assert items[j].id == items[k].id;
    }
  }

  /**
   * Equal surveys index the same prompt and repeatable-set ids, and with
   * unique item ids the very same items.
   */
  lemma EqualsSameIndexes(a: Survey, b: Survey)
    requires Valid(a) && Valid(b) && Equals(a, b)
    ensures a.prompts.Keys == b.prompts.Keys
    ensures a.repeatableSets.Keys == b.repeatableSets.Keys
    ensures UniqueIds(a.surveyItems) ==> a.prompts == b.prompts && a.repeatableSets == b.repeatableSets
  {
    IndexKeys(a.surveyItems, a.prompts, PromptKind);
    IndexKeys(b.surveyItems, b.prompts, PromptKind);
    IndexKeys(a.surveyItems, a.repeatableSets, SetKind);
    IndexKeys(b.surveyItems, b.repeatableSets, SetKind);
    if UniqueIds(a.surveyItems) {
      IndexDetermined(a.surveyItems, a.prompts, b.prompts, PromptKind);
      IndexDetermined(a.surveyItems, a.repeatableSets, b.repeatableSets, SetKind);
    }
  }

  /**
   * `hashCode`: `31 * (31 * 1 + id.hashCode()) + surveyItems.hashCode()`
   * in `int` arithmetic. The two field hashes come from `String` and
   * `HashMap` and are parameters.
   */
  function HashCode(s: Survey, idHash: string -> int, itemsHash: map<int, SurveyItem> -> int): (r: int)
    ensures IsInt(r)
  {
    var prime := 31;
    var result := 1;
    var afterId := Wrap(prime * result + idHash(s.id));
    Wrap(prime * afterId + itemsHash(s.surveyItems))
  }

  /** The step-by-step wrap-around equals one wrap of the exact value. */
  lemma HashCodeValue(s: Survey, idHash: string -> int, itemsHash: map<int, SurveyItem> -> int)
    ensures HashCode(s, idHash, itemsHash) == Wrap(961 + 31 * idHash(s.id) + itemsHash(s.surveyItems))
  {
    WrapStep(31, 31 + idHash(s.id), itemsHash(s.surveyItems));
  }

  /** Surveys that are `equals` have the same hash code. */
  lemma EqualsHashCode(a: Survey, b: Survey, idHash: string -> int, itemsHash: map<int, SurveyItem> -> int)
    requires Equals(a, b)
    ensures HashCode(a, idHash, itemsHash) == HashCode(b, idHash, itemsHash)
  {
  }
}
