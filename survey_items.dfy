/**
 * The survey items a survey holds: prompts, repeatable sets of further
 * items, and messages. Survey.java sees them only through the calls it
 * makes on them (`getId`, `getIndex`, `getNumSurveyItems`, `getNumPrompts`,
 * a repeatable set's `getSurveyItem` and `getPrompt`, a prompt's
 * `toConcordia`); the classes themselves are not part of this model, so
 * each of those calls is given a definition here, stated as the capability
 * the survey relies on.
 */
module SurveyItems {
  import opened Wrappers
  import opened Indices
  import opened JsonSink

  /**
   * `responseType` stands for whatever a concrete prompt kind writes as the
   * type of its response value; `items` of a repeatable set is keyed by
   * index, as a survey's are.
   */
  datatype SurveyItem =
    | Prompt(id: string, index: int, responseType: string)
    | RepeatableSet(id: string, index: int, items: map<int, SurveyItem>)
    | Message(id: string, index: int)

  // ----- Counts -----

  /**
   * `getNumSurveyItems()`: a prompt and a message are one item each; a
   * repeatable set counts the items it holds, not itself.
   */
  function ItemCount(item: SurveyItem): int
  {
    match item
    case Prompt(_, _, _) => 1
    case Message(_, _) => 1
    case RepeatableSet(_, _, items) => SumValues(map k | k in items :: ItemCount(items[k]))
  }

  /** `getNumPrompts()`: a prompt is one, a message none, a set what it holds. */
  function PromptCount(item: SurveyItem): int
  {
    match item
    case Prompt(_, _, _) => 1
    case Message(_, _) => 0
    case RepeatableSet(_, _, items) => SumValues(map k | k in items :: PromptCount(items[k]))
  }

  /** The item count of each entry of an item map. */
  function ItemCounts(items: map<int, SurveyItem>): (r: map<int, int>)
    ensures r.Keys == items.Keys
    ensures forall k :: k in r ==> r[k] == ItemCount(items[k])
  {
    map k | k in items :: ItemCount(items[k])
  }

  /** The prompt count of each entry of an item map. */
  function PromptCounts(items: map<int, SurveyItem>): (r: map<int, int>)
    ensures r.Keys == items.Keys
    ensures forall k :: k in r ==> r[k] == PromptCount(items[k])
  {
    map k | k in items :: PromptCount(items[k])
  }

  /** An item holds no more prompts than items, and never a negative number. */
  lemma {:induction false} CountsBounded(item: SurveyItem)
    ensures 0 <= PromptCount(item) <= ItemCount(item)
    decreases item
  {
    if item.RepeatableSet? {
      forall k | k in item.items
        ensures 0 <= PromptCount(item.items[k]) <= ItemCount(item.items[k])
      {
        CountsBounded(item.items[k]);
      }
      ItemMapCountsBounded(item.items);
      assert ItemCount(item) == SumValues(ItemCounts(item.items));
      assert PromptCount(item) == SumValues(PromptCounts(item.items));
    }
  }

  /** The counts of a map summed, given the bound for each entry. */
  lemma ItemMapCountsBounded(items: map<int, SurveyItem>)
    requires forall k :: k in items ==> 0 <= PromptCount(items[k]) <= ItemCount(items[k])
    ensures 0 <= SumValues(PromptCounts(items)) <= SumValues(ItemCounts(items))
  {
    SumValuesNonNegative(PromptCounts(items));
    SumValuesMonotone(PromptCounts(items), ItemCounts(items));
  }

  // ----- Lookup -----

  /** `x` is `item` itself or sits, at any depth, inside it. */
  ghost predicate Contains(item: SurveyItem, x: SurveyItem)
    decreases item
  {
    item == x || (item.RepeatableSet? && exists k :: k in item.items && Contains(item.items[k], x))
  }

  /**
   * The step a search by id takes on one item: a prompt or a repeatable set
   * whose own id matches is the answer, a repeatable set is otherwise
   * searched inside, and a message is never an answer.
   */
  function MatchItem(item: SurveyItem, id: string): Option<SurveyItem>
    decreases item, 2
  {
    match item
    case Prompt(pid, _, _) => if pid == id then Some(item) else None
    case RepeatableSet(sid, _, _) => if sid == id then Some(item) else FindInSet(item, id)
    case Message(_, _) => None
  }

  /**
   * `RepeatableSet.getSurveyItem(id)`: the same step on each item the set
   * holds; when several match, the one at the least index.
   */
  function FindInSet(rs: SurveyItem, id: string): Option<SurveyItem>
    requires rs.RepeatableSet?
    decreases rs, 1
  {
    var hits := Hits(rs, id);
    if hits == {} then None else MatchItem(rs.items[MinKey(hits)], id)
  }

  /** The indices of a set's items on which the search step succeeds. */
  function Hits(rs: SurveyItem, id: string): (r: set<int>)
    requires rs.RepeatableSet?
    ensures r <= rs.items.Keys
    decreases rs, 0
  {
    set k | k in rs.items && MatchItem(rs.items[k], id).Some?
  }

  /** What the search step finds has the id searched for, is no message, and lies inside the item. */
  lemma {:induction false} MatchItemSound(item: SurveyItem, id: string)
    ensures MatchItem(item, id).Some? ==>
      var x := MatchItem(item, id).value;
      x.id == id && !x.Message? && Contains(item, x)
    decreases item
  {
    if item.RepeatableSet? && item.id != id {
      var hits := Hits(item, id);
      if hits != {} {
        var k := MinKey(hits);
        assert MatchItem(item, id) == FindInSet(item, id);
        assert MatchItem(item, id) == MatchItem(item.items[k], id);
        MatchItemSound(item.items[k], id);
        var x := MatchItem(item, id).value;
        assert k in item.items && Contains(item.items[k], x);
      }
    }
  }

  /** Every non-message item with the id, at any depth, makes the search step succeed. */
  lemma {:induction false} MatchItemComplete(item: SurveyItem, id: string, x: SurveyItem)
    requires Contains(item, x) && x.id == id && !x.Message?
    ensures MatchItem(item, id).Some?
    decreases item
  {
    if item != x && item.id != id {
      var k :| k in item.items && Contains(item.items[k], x);
      MatchItemComplete(item.items[k], id, x);
      var hits := Hits(item, id);
      assert k in hits;
      var least := MinKey(hits);
      assert MatchItem(item.items[least], id).Some?;
      assert MatchItem(item, id) == FindInSet(item, id);
      assert MatchItem(item, id) == MatchItem(item.items[least], id);
    }
  }

  /**
   * `RepeatableSet.getPrompt(id)`: a prompt with that id directly in the
   * set first, otherwise what a nested set yields; the least index wins.
   */
  function FindPromptInSet(rs: SurveyItem, id: string): Option<SurveyItem>
    requires rs.RepeatableSet?
    decreases rs
  {
    var direct := set k | k in rs.items && rs.items[k].Prompt? && rs.items[k].id == id;
    if direct != {} then Some(rs.items[MinKey(direct)])
    else
      var nested := set k | k in rs.items && rs.items[k].RepeatableSet? && FindPromptInSet(rs.items[k], id).Some?;
      if nested == {} then None else FindPromptInSet(rs.items[MinKey(nested)], id)
  }

  /** A prompt found in a set is a prompt with that id, inside the set. */
  lemma {:induction false} FindPromptInSetSound(rs: SurveyItem, id: string)
    requires rs.RepeatableSet?
    ensures FindPromptInSet(rs, id).Some? ==>
      var p := FindPromptInSet(rs, id).value;
      p.Prompt? && p.id == id && Contains(rs, p)
    decreases rs
  {
    var direct := set k | k in rs.items && rs.items[k].Prompt? && rs.items[k].id == id;
    if direct != {} {
      var k := MinKey(direct);
      assert Contains(rs.items[k], rs.items[k]);
    } else {
      var nested := set k | k in rs.items && rs.items[k].RepeatableSet? && FindPromptInSet(rs.items[k], id).Some?;
      if nested != {} {
        var k := MinKey(nested);
        FindPromptInSetSound(rs.items[k], id);
      }
    }
  }

  /** Every prompt with the id, at any depth inside the set, is found. */
  lemma {:induction false} FindPromptInSetComplete(rs: SurveyItem, id: string, p: SurveyItem)
    requires rs.RepeatableSet? && Contains(rs, p) && p.Prompt? && p.id == id
    ensures FindPromptInSet(rs, id).Some?
    decreases rs
  {
    var direct := set k | k in rs.items && rs.items[k].Prompt? && rs.items[k].id == id;
    if direct == {} {
      var k :| k in rs.items && Contains(rs.items[k], p);
      var child := rs.items[k];
      assert k !in direct;
      assert child != p;
      FindPromptInSetComplete(child, id, p);
      var nested := set j | j in rs.items && rs.items[j].RepeatableSet? && FindPromptInSet(rs.items[j], id).Some?;
      assert k in nested;
    }
  }

  // ----- Concordia -----

  /** The words of the Concordia schema language. */
  const KeyName := "name"
  const KeyType := "type"
  const KeySchema := "schema"
  const TypeObject := "object"
  const TypeArray := "array"
  const TypeNumber := "number"
  const TypeString := "string"

  /** The schema of one named value of a type: an object naming both. */
  function FieldSchema(name: string, typ: string): (r: seq<Event>)
    ensures Balanced(r)
    ensures StringField(KeyName, name) in r
  {
    var fields := [StringField(KeyName, name), StringField(KeyType, typ)];
    FieldsThen(fields, []);
    assert fields + [] == fields;
    BalancedWrap(StartObject, fields, EndObject);
    ObjectOf(fields)
  }

  /** Writes `FieldSchema(name, typ)`. */
  method WriteFieldSchema(name: string, typ: string, generator: Generator)
    modifies generator
    ensures generator.events == old(generator.events) + FieldSchema(name, typ)
  {
    generator.WriteStartObject();
    generator.WriteStringField(KeyName, name);
    generator.WriteStringField(KeyType, typ);
    generator.WriteEndObject();
  }

  /**
   * `Prompt.toConcordia(generator)`: the schema of one response value,
   * an object naming the prompt and the type of its value.
   */
  function ConcordiaFragment(prompt: SurveyItem): (r: seq<Event>)
    requires prompt.Prompt?
    ensures Balanced(r)
    ensures StringField(KeyName, prompt.id) in r
  {
    FieldSchema(prompt.id, prompt.responseType)
  }

  /** Writes a prompt's fragment to the generator. */
  method WriteConcordia(prompt: SurveyItem, generator: Generator)
    requires prompt.Prompt?
    modifies generator
    ensures generator.events == old(generator.events) + ConcordiaFragment(prompt)
  {
    WriteFieldSchema(prompt.id, prompt.responseType, generator);
  }
}
