/**
 * The streaming Jackson `JsonGenerator` the Concordia schema is written to,
 * as the sequence of calls made on it. `writeArrayFieldStart(name)` and
 * `writeObjectFieldStart(name)` open an array or an object under a field
 * name; `writeEndArray` and `writeEndObject` close the innermost one.
 */
module JsonSink {
  import opened Wrappers

  datatype Event =
    | StartObject
    | EndObject
    | StringField(name: string, value: string)
    | ArrayFieldStart(name: string)
    | ObjectFieldStart(name: string)
    | EndArray

  /** What an open bracket on the generator's stack is. */
  datatype Frame = InObject | InArray

  /**
   * One event against a stack of open brackets (innermost last): an opening
   * pushes its frame, a field leaves the stack as it is, and an end pops the
   * innermost frame when it is of the end's kind, and fails otherwise.
   */
  function Step(event: Event, stack: seq<Frame>): Option<seq<Frame>>
  {
    match event
    case StartObject => Some(stack + [InObject])
    case ObjectFieldStart(_) => Some(stack + [InObject])
    case ArrayFieldStart(_) => Some(stack + [InArray])
    case StringField(_, _) => Some(stack)
    case EndObject =>
      if stack != [] && stack[|stack| - 1] == InObject then Some(stack[..|stack| - 1]) else None
    case EndArray =>
      if stack != [] && stack[|stack| - 1] == InArray then Some(stack[..|stack| - 1]) else None
  }

  /**
   * Runs `events` against a stack of open brackets (innermost last): the
   * stack left at the end, or `None` when an end event does not match the
   * innermost open bracket.
   */
  function Nest(events: seq<Event>, stack: seq<Frame>): Option<seq<Frame>>
    decreases |events|
  {
    if events == [] then Some(stack)
    else
      var next := Step(events[0], stack);
      if next.None? then None else Nest(events[1..], next.value)
  }

  /** Every bracket opened is closed, by an end event of its own kind. */
  predicate Balanced(events: seq<Event>)
  {
    Nest(events, []) == Some([])
  }

  /** Running `a + b` runs `a`, then `b` on the stack `a` leaves. */
  lemma {:induction false} NestAppend(a: seq<Event>, b: seq<Event>, stack: seq<Frame>)
    ensures Nest(a + b, stack) == if Nest(a, stack).None? then None else Nest(b, Nest(a, stack).value)
    decreases |a|
  {
    if a != [] {
      assert (a + b)[0] == a[0];
      assert (a + b)[1..] == a[1..] + b;
      var next := Step(a[0], stack);
      if next.Some? {
        NestAppend(a[1..], b, next.value);
      }
    } else {
      assert a + b == b;
    }
  }

  /** Events that close what they open leave any enclosing stack as it was. */
  lemma {:induction false} NestUnder(events: seq<Event>, stack: seq<Frame>, result: seq<Frame>, base: seq<Frame>)
    requires Nest(events, stack) == Some(result)
    ensures Nest(events, base + stack) == Some(base + result)
    decreases |events|
  {
    if events != [] {
      var s := base + stack;
      match events[0]
      case StartObject =>
        assert s + [InObject] == base + (stack + [InObject]);
        NestUnder(events[1..], stack + [InObject], result, base);
      case ObjectFieldStart(_) =>
        assert s + [InObject] == base + (stack + [InObject]);
        NestUnder(events[1..], stack + [InObject], result, base);
      case ArrayFieldStart(_) =>
        assert s + [InArray] == base + (stack + [InArray]);
        NestUnder(events[1..], stack + [InArray], result, base);
      case StringField(_, _) =>
        NestUnder(events[1..], stack, result, base);
      case EndObject =>
        assert s[..|s| - 1] == base + stack[..|stack| - 1];
        NestUnder(events[1..], stack[..|stack| - 1], result, base);
      case EndArray =>
        assert s[..|s| - 1] == base + stack[..|stack| - 1];
        NestUnder(events[1..], stack[..|stack| - 1], result, base);
    }
  }

  /** Balanced runs of events concatenate to a balanced run. */
  lemma BalancedConcat(a: seq<Event>, b: seq<Event>)
    requires Balanced(a) && Balanced(b)
    ensures Balanced(a + b)
  {
    NestAppend(a, b, []);
  }

  /** A balanced run wrapped in an opening and its matching end is balanced. */
  lemma BalancedWrap(open: Event, inner: seq<Event>, close: Event)
    requires open.StartObject? || open.ObjectFieldStart? || open.ArrayFieldStart?
    requires close == if open.ArrayFieldStart? then EndArray else EndObject
    requires Balanced(inner)
    ensures Balanced([open] + inner + [close])
  {
    var frame := if open.ArrayFieldStart? then InArray else InObject;
    assert [open][1..] == [] && [close][1..] == [];
    assert [] + [frame] == [frame];
    assert Nest([open], []) == Some([frame]);
    assert Nest([close], [frame]) == Some([]);
    NestUnder(inner, [], [], [frame]);
    assert [frame] + [] == [frame];
    NestAppend([open], inner, []);
    NestAppend([open] + inner, [close], []);
  }

  /** A run of field writes opens and closes nothing. */
  lemma {:induction false} FieldsKeepStack(events: seq<Event>, stack: seq<Frame>)
    requires forall i :: 0 <= i < |events| ==> events[i].StringField?
    ensures Nest(events, stack) == Some(stack)
    decreases |events|
  {
    if events != [] {
      FieldsKeepStack(events[1..], stack);
    }
  }

  /** Fields written ahead of balanced events keep them balanced. */
  lemma FieldsThen(fields: seq<Event>, rest: seq<Event>)
    requires forall i :: 0 <= i < |fields| ==> fields[i].StringField?
    requires Balanced(rest)
    ensures Balanced(fields + rest)
  {
    NestAppend(fields, rest, []);
    FieldsKeepStack(fields, []);
  }

  /** `inner` is written, as one contiguous run, somewhere in `outer`. */
  predicate Occurs(inner: seq<Event>, outer: seq<Event>)
  {
    exists i :: 0 <= i <= |outer| && inner <= outer[i..]
  }

  lemma OccursSelf(x: seq<Event>)
    ensures Occurs(x, x)
  {
    assert x <= x[0..];
  }

  /** What occurs in `a` occurs in `a + b`. */
  lemma OccursLeft(x: seq<Event>, a: seq<Event>, b: seq<Event>)
    requires Occurs(x, a)
    ensures Occurs(x, a + b)
  {
    var i :| 0 <= i <= |a| && x <= a[i..];
    assert (a + b)[i..][..|x|] == a[i..][..|x|];
  }

  /** What occurs in `b` occurs in `a + b`. */
  lemma OccursRight(x: seq<Event>, a: seq<Event>, b: seq<Event>)
    requires Occurs(x, b)
    ensures Occurs(x, a + b)
  {
    var i :| 0 <= i <= |b| && x <= b[i..];
    assert (a + b)[|a| + i..] == b[i..];
  }

  /** An object written between `writeStartObject` and `writeEndObject`. */
  function ObjectOf(inner: seq<Event>): seq<Event>
  {
    [StartObject] + inner + [EndObject]
  }

  /** An array written between `writeArrayFieldStart(name)` and `writeEndArray`. */
  function ArrayFieldOf(name: string, inner: seq<Event>): seq<Event>
  {
    [ArrayFieldStart(name)] + inner + [EndArray]
  }

  /** An object written between `writeObjectFieldStart(name)` and `writeEndObject`. */
  function ObjectFieldOf(name: string, inner: seq<Event>): seq<Event>
  {
    [ObjectFieldStart(name)] + inner + [EndObject]
  }

  /** The generator: the events written to it so far, in order. */
  class Generator {
    var events: seq<Event>

    constructor ()
      ensures events == []
    {
      events := [];
    }

    method WriteStartObject()
      modifies this
      ensures events == old(events) + [StartObject]
    {
      events := events + [StartObject];
    }

    method WriteEndObject()
      modifies this
      ensures events == old(events) + [EndObject]
    {
      events := events + [EndObject];
    }

    method WriteStringField(name: string, value: string)
      modifies this
      ensures events == old(events) + [StringField(name, value)]
    {
      events := events + [StringField(name, value)];
    }

    method WriteArrayFieldStart(name: string)
      modifies this
      ensures events == old(events) + [ArrayFieldStart(name)]
    {
      events := events + [ArrayFieldStart(name)];
    }

    method WriteObjectFieldStart(name: string)
      modifies this
      ensures events == old(events) + [ObjectFieldStart(name)]
    {
      events := events + [ObjectFieldStart(name)];
    }

    method WriteEndArray()
      modifies this
      ensures events == old(events) + [EndArray]
    {
      events := events + [EndArray];
    }
  }
}
