/** The inline edit field: a value shown as text until clicked, then an input (or a
    select) holding a pending value, committed by blur or Enter and discarded by Escape.

    The component keeps two state cells, `isEditing` and `currentValue` (the pending
    value), next to its `value` prop. `Step` is the transition function over user
    events and prop changes; the class `Field` performs the same transitions in place. */
module EditableField {
  import opened Types
  import opened JsText

  /** The `type` prop. */
  datatype FieldType = TextField | NumberField | SelectField

  /** `string | number`. */
  datatype FieldValue = Text(s: string) | Number(n: JsNumber)

  /** What can happen to a mounted field: the four DOM events it listens to, and the
      parent re-rendering it with a new `value` prop. */
  datatype Event = Click | Change(raw: string) | Blur | KeyDown(key: string) | NewValue(v: FieldValue)

  /** The prop `value` and the two state cells. */
  datatype FieldState = FieldState(value: FieldValue, isEditing: bool, currentValue: FieldValue)

  /** The state after one event and the value passed to `onChange`, if it was called. */
  datatype Outcome = Outcome(state: FieldState, emitted: Option<FieldValue>)

  /** The state after a sequence of events and every value passed to `onChange`, in order. */
  datatype Trace = Trace(state: FieldState, emitted: seq<FieldValue>)

  /** What the field renders. */
  datatype View =
    | Label(shown: FieldValue)
    | SelectBox(selected: FieldValue, choices: seq<string>)
    | InputBox(inputType: FieldType, shown: FieldValue)

  /** The state right after mounting: not editing, pending value equal to the prop. */
  function Initial(value: FieldValue): FieldState
  {
    FieldState(value, false, value)
  }

  /** A select element is rendered only for the select type with at least one option;
      otherwise an input element is. */
  predicate RendersSelect(kind: FieldType, options: seq<string>)
  {
    kind == SelectField && |options| > 0
  }

  /** The pending value a change event with input text `raw` sets. */
  function Coerce(kind: FieldType, raw: string): FieldValue
  {
    if kind == NumberField then Number(NumberOf(raw)) else Text(raw)
  }

  /** `handleBlur`: leave editing and call `onChange` with the pending value. */
  function Commit(s: FieldState): Outcome
  {
    if s.isEditing then Outcome(s.(isEditing := false), Some(s.currentValue)) else Outcome(s, None)
  }

  /** One transition. Handlers of elements that are not rendered cannot fire: in display
      mode only the click handler exists, in editing mode only change, blur and keydown. */
  function Step(kind: FieldType, s: FieldState, e: Event): (r: Outcome)
    ensures !e.NewValue? ==> r.state.value == s.value
    ensures r.emitted.Some? <==> s.isEditing && (e == Blur || e == KeyDown("Enter"))
    ensures r.emitted.Some? ==> r.emitted.value == s.currentValue && !r.state.isEditing
    ensures r.emitted.Some? ==> r.state.currentValue == s.currentValue
    ensures s.isEditing && e == KeyDown("Escape") ==> r.state == Initial(s.value)
    ensures e == Click ==> r.state.isEditing && r.state.currentValue == s.currentValue
    ensures e.Change? ==> r.state.currentValue == if s.isEditing then Coerce(kind, e.raw) else s.currentValue
  {
    match e
    case Click =>
      if s.isEditing then Outcome(s, None) else Outcome(s.(isEditing := true), None)
    case Change(raw) =>
      if s.isEditing then Outcome(s.(currentValue := Coerce(kind, raw)), None) else Outcome(s, None)
    case Blur =>
      Commit(s)
    case KeyDown(key) =>
      if !s.isEditing then Outcome(s, None)
      else if key == "Enter" then Commit(s)
      else if key == "Escape" then Outcome(s.(currentValue := s.value, isEditing := false), None)
      else Outcome(s, None)
    case NewValue(v) =>
      Outcome(s.(value := v), None)
  }

  function Emitted(o: Option<FieldValue>): seq<FieldValue>
  {
    if o.Some? then [o.value] else []
  }

  /** The transition function of a field of the given type. */
  function StepOf(kind: FieldType): (FieldState, Event) -> Outcome
  {
    (s: FieldState, e: Event) => Step(kind, s, e)
  }

  /** Feeds the events one after another through `step`, collecting what it emits. */
  function Fold(step: (FieldState, Event) -> Outcome, s: FieldState, events: seq<Event>): Trace
    decreases |events|
  {
    if events == [] then Trace(s, [])
    else
      var o := step(s, events[0]);
      var t := Fold(step, o.state, events[1..]);
      Trace(t.state, Emitted(o.emitted) + t.emitted)
  }

  /** Feeds the events to the field one after another. */
  function Run(kind: FieldType, s: FieldState, events: seq<Event>): Trace
  {
    Fold(StepOf(kind), s, events)
  }

  /** The rendered view. */
  function Render(kind: FieldType, options: seq<string>, s: FieldState): View
  {
    if !s.isEditing then Label(s.value)
    else if RendersSelect(kind, options) then SelectBox(s.currentValue, options)
    else InputBox(kind, s.currentValue)
  }

  // ---- Traces ----

  /** Running `a + b` runs `a`, then `b` from where `a` left the field. */
  predicate FoldsInTwo(step: (FieldState, Event) -> Outcome, s: FieldState, a: seq<Event>, b: seq<Event>)
  {
    var ta := Fold(step, s, a);
    var tb := Fold(step, ta.state, b);
    Fold(step, s, a + b) == Trace(tb.state, ta.emitted + tb.emitted)
  }

  lemma {:induction false} FoldAppend(step: (FieldState, Event) -> Outcome, s: FieldState, a: seq<Event>, b: seq<Event>)
    ensures FoldsInTwo(step, s, a, b)
    decreases |a|
  {
    if a == [] {
      assert a + b == b;
    } else {
      FoldAppend(step, step(s, a[0]).state, a[1..], b);
      assert a == [a[0]] + a[1..];
      FoldAppendStep(step, s, a[0], a[1..], b);
    }
  }

  /** The inductive step of `FoldAppend`. */
  lemma FoldAppendStep(step: (FieldState, Event) -> Outcome, s: FieldState, e: Event, a: seq<Event>, b: seq<Event>)
    requires FoldsInTwo(step, step(s, e).state, a, b)
    ensures FoldsInTwo(step, s, [e] + a, b)
  {
    var o := step(s, e);
    var ta := Fold(step, o.state, a);
    var tb := Fold(step, ta.state, b);
    var lead := Emitted(o.emitted);
    FoldCons(step, s, e, a);
    FoldCons(step, s, e, a + b);
    AppendAssoc([e], a, b);
    AppendAssoc(lead, ta.emitted, tb.emitted);
  }

  lemma AppendAssoc<T>(x: seq<T>, y: seq<T>, z: seq<T>)
    ensures x + y + z == x + (y + z)
  {
  }

  /** Folding a non-empty list is one step followed by the rest. */
  lemma FoldCons(step: (FieldState, Event) -> Outcome, s: FieldState, e: Event, rest: seq<Event>)
    ensures var o := step(s, e);
      Fold(step, s, [e] + rest) ==
      Trace(Fold(step, o.state, rest).state, Emitted(o.emitted) + Fold(step, o.state, rest).emitted)
  {
    assert ([e] + rest)[0] == e && ([e] + rest)[1..] == rest;
  }

  lemma RunAppend(kind: FieldType, s: FieldState, a: seq<Event>, b: seq<Event>)
    ensures Run(kind, s, a + b) ==
      Trace(Run(kind, Run(kind, s, a).state, b).state,
            Run(kind, s, a).emitted + Run(kind, Run(kind, s, a).state, b).emitted)
  {
    FoldAppend(StepOf(kind), s, a, b);
  }

  /** Running a single event is one step. */
  lemma RunSingle(kind: FieldType, s: FieldState, e: Event)
    ensures Run(kind, s, [e]) == Trace(Step(kind, s, e).state, Emitted(Step(kind, s, e).emitted))
  {
    FoldCons(StepOf(kind), s, e, []);
    assert [e] + [] == [e];
    assert StepOf(kind)(s, e) == Step(kind, s, e);
  }

  predicate AllChanges(events: seq<Event>)
  {
    forall i :: 0 <= i < |events| ==> events[i].Change?
  }

  /** The pending value after typing `edits`, starting from pending value `p`. */
  function Pending(kind: FieldType, p: FieldValue, edits: seq<Event>): FieldValue
    requires AllChanges(edits)
    decreases |edits|
  {
    if edits == [] then p else Pending(kind, Coerce(kind, edits[0].raw), edits[1..])
  }

  /** While editing, change events only replace the pending value; nothing is emitted. */
  lemma {:induction false} EditsStayEditing(kind: FieldType, s: FieldState, edits: seq<Event>)
    requires s.isEditing && AllChanges(edits)
    ensures Run(kind, s, edits) == Trace(s.(currentValue := Pending(kind, s.currentValue, edits)), [])
    decreases |edits|
  {
    if edits != [] {
      var s1 := s.(currentValue := Coerce(kind, edits[0].raw));
      assert Step(kind, s, edits[0]) == Outcome(s1, None);
      EditsStayEditing(kind, s1, edits[1..]);
    }
  }

  /** Click, any number of edits, then blur or Enter: back in display mode and `onChange`
      called exactly once, with the pending value. The click keeps whatever pending value
      the field already had. */
  lemma CommitEmitsOnce(kind: FieldType, s: FieldState, edits: seq<Event>, commit: Event)
    requires !s.isEditing && AllChanges(edits)
    requires commit == Blur || commit == KeyDown("Enter")
    ensures var p := Pending(kind, s.currentValue, edits);
      Run(kind, s, [Click] + edits + [commit]) == Trace(FieldState(s.value, false, p), [p])
  {
    var s1 := s.(isEditing := true);
    var p := Pending(kind, s.currentValue, edits);
    var s2 := s1.(currentValue := p);
    RunSingle(kind, s, Click);
    EditsStayEditing(kind, s1, edits);
    RunSingle(kind, s2, commit);
    assert Run(kind, s2, [commit]) == Trace(FieldState(s.value, false, p), [p]);
    RunAppend(kind, s1, edits, [commit]);
    assert Run(kind, s1, edits + [commit]) == Trace(FieldState(s.value, false, p), [] + [p]);
    RunAppend(kind, s, [Click], edits + [commit]);
    assert [Click] + edits + [commit] == [Click] + (edits + [commit]);
  }

  /** Click, any number of edits, then Escape: back in display mode with the pending
      value reset to the prop, and `onChange` never called. */
  lemma CancelRestores(kind: FieldType, s: FieldState, edits: seq<Event>)
    requires !s.isEditing && AllChanges(edits)
    ensures Run(kind, s, [Click] + edits + [KeyDown("Escape")]) == Trace(Initial(s.value), [])
  {
    var s1 := s.(isEditing := true);
    var s2 := s1.(currentValue := Pending(kind, s.currentValue, edits));
    RunSingle(kind, s, Click);
    EditsStayEditing(kind, s1, edits);
    RunSingle(kind, s2, KeyDown("Escape"));
    assert Run(kind, s2, [KeyDown("Escape")]) == Trace(Initial(s.value), []);
    RunAppend(kind, s1, edits, [KeyDown("Escape")]);
    RunAppend(kind, s, [Click], edits + [KeyDown("Escape")]);
    assert [Click] + edits + [KeyDown("Escape")] == [Click] + (edits + [KeyDown("Escape")]);
  }


  /** A click does not re-read the prop: after the parent changes `value`, committing
      without typing emits the old pending value, not the new prop. */
  lemma ClickKeepsOldPending()
    ensures Run(TextField, Initial(Text("a")), [NewValue(Text("b")), Click, Blur]).emitted == [Text("a")]
  {
    var s0 := Initial(Text("a"));
    var s1 := s0.(value := Text("b"));
    var s2 := s1.(isEditing := true);
    assert Step(TextField, s0, NewValue(Text("b"))) == Outcome(s1, None);
    assert Step(TextField, s1, Click) == Outcome(s2, None);
    assert Step(TextField, s2, Blur) == Outcome(s2.(isEditing := false), Some(Text("a")));
    assert [NewValue(Text("b")), Click, Blur][1..] == [Click, Blur];
    assert [Click, Blur][1..] == [Blur];
  }

  // ---- Select fields ----

  predicate IsOption(options: seq<string>, v: FieldValue)
  {
    v.Text? && v.s in options
  }

  /** What a select element with these options can deliver: a change to one of the
      options, and (from the parent) a prop that is one of the options. */
  predicate Offered(options: seq<string>, e: Event)
  {
    match e
    case Change(raw) => raw in options
    case NewValue(v) => IsOption(options, v)
    case _ => true
  }

  /** A select field whose prop is one of its options keeps its pending value among
      the options and only ever emits options. */
  lemma {:induction false} SelectEmitsOnlyOptions(options: seq<string>, s: FieldState, events: seq<Event>)
    requires IsOption(options, s.value) && IsOption(options, s.currentValue)
    requires forall i :: 0 <= i < |events| ==> Offered(options, events[i])
    ensures var t := Run(SelectField, s, events);
      IsOption(options, t.state.value) && IsOption(options, t.state.currentValue) &&
      forall i :: 0 <= i < |t.emitted| ==> IsOption(options, t.emitted[i])
    decreases |events|
  {
    if events != [] {
      var o := Step(SelectField, s, events[0]);
      assert Offered(options, events[0]);
      assert IsOption(options, o.state.value) && IsOption(options, o.state.currentValue);
      SelectEmitsOnlyOptions(options, o.state, events[1..]);
      assert forall i :: 0 <= i < |events[1..]| ==> events[1..][i] == events[i + 1];
    }
  }

  /** A number field whose prop and pending value are numbers, and whose parent only
      passes numbers down, keeps both numbers and only ever emits numbers: every change
      goes through `Number`, and Escape restores the prop. */
  lemma {:induction false} NumberFieldEmitsNumbers(s: FieldState, events: seq<Event>)
    requires s.value.Number? && s.currentValue.Number?
    requires forall i :: 0 <= i < |events| ==> (events[i].NewValue? ==> events[i].v.Number?)
    ensures var t := Run(NumberField, s, events);
      t.state.value.Number? && t.state.currentValue.Number? &&
      forall i :: 0 <= i < |t.emitted| ==> t.emitted[i].Number?
    decreases |events|
  {
    if events != [] {
      var o := Step(NumberField, s, events[0]);
      assert events[0].NewValue? ==> events[0].v.Number?;
      assert o.state.value.Number? && o.state.currentValue.Number?;
      NumberFieldEmitsNumbers(o.state, events[1..]);
      assert forall i :: 0 <= i < |events[1..]| ==> events[1..][i] == events[i + 1];
    }
  }

  /** A text or select field whose prop and pending value are strings, and whose parent
      only passes strings down, keeps both strings and only ever emits strings: a change
      stores the raw input text. */
  lemma {:induction false} TextFieldEmitsText(kind: FieldType, s: FieldState, events: seq<Event>)
    requires kind != NumberField
    requires s.value.Text? && s.currentValue.Text?
    requires forall i :: 0 <= i < |events| ==> (events[i].NewValue? ==> events[i].v.Text?)
    ensures var t := Run(kind, s, events);
      t.state.value.Text? && t.state.currentValue.Text? &&
      forall i :: 0 <= i < |t.emitted| ==> t.emitted[i].Text?
    decreases |events|
  {
    if events != [] {
      var o := Step(kind, s, events[0]);
      assert events[0].NewValue? ==> events[0].v.Text?;
      assert o.state.value.Text? && o.state.currentValue.Text?;
      TextFieldEmitsText(kind, o.state, events[1..]);
      assert forall i :: 0 <= i < |events[1..]| ==> events[1..][i] == events[i + 1];
    }
  }

  /** With no options the select type falls back to a plain input, whose change event
      may set any text as the pending value. */
  lemma EmptyOptionsFallBack(s: FieldState, raw: string)
    requires s.isEditing
    ensures Render(SelectField, [], s) == InputBox(SelectField, s.currentValue)
    ensures Step(SelectField, s, Change(raw)).state.currentValue == Text(raw)
  {
  }

  /** In display mode the view shows the prop, never the pending value; so after a
      commit the view shows the prop until the parent passes the new value down. */
  lemma DisplayShowsProp(kind: FieldType, options: seq<string>, s: FieldState, e: Event)
    requires s.isEditing && (e == Blur || e == KeyDown("Enter") || e == KeyDown("Escape"))
    ensures Render(kind, options, Step(kind, s, e).state) == Label(s.value)
  {
  }

  /** The component, with its two state cells updated in place by the event handlers. */
  class Field {
    const kind: FieldType
    const options: seq<string>
    var value: FieldValue
    var isEditing: bool
    var currentValue: FieldValue

    function State(): FieldState
      reads this
    {
      FieldState(value, isEditing, currentValue)
    }

    /** Mounting: `useState(false)` and `useState(value)`. */
    constructor (value: FieldValue, kind: FieldType, options: seq<string>)
      ensures this.kind == kind && this.options == options
      ensures State() == Initial(value)
      ensures !isEditing && currentValue == value
      ensures View() == Label(value)
    {
      this.kind := kind;
      this.options := options;
      this.value := value;
      isEditing := false;
      currentValue := value;
    }

    /** The display element's click handler: enter editing, keep the pending value. */
    method OnClick()
      modifies this
      ensures State() == Step(kind, old(State()), Event.Click).state
      ensures isEditing && currentValue == old(currentValue) && value == old(value)
      ensures View() == if RendersSelect(kind, options) then SelectBox(currentValue, options)
                        else InputBox(kind, currentValue)
    {
      if !isEditing {
        isEditing := true;
      }
    }

    /** The input's (or select's) change handler. */
    method OnChange(raw: string)
      modifies this
      ensures State() == Step(kind, old(State()), Change(raw)).state
      ensures old(isEditing) ==> currentValue == Coerce(kind, raw)
      ensures isEditing == old(isEditing) && value == old(value)
    {
      if isEditing {
        currentValue := if kind == NumberField then Number(NumberOf(raw)) else Text(raw);
      }
    }

    /** `handleBlur`; returns the value passed to `onChange`, if it was called. */
    method HandleBlur() returns (emitted: Option<FieldValue>)
      modifies this
      ensures Outcome(State(), emitted) == Step(kind, old(State()), Blur)
      ensures old(isEditing) ==> !isEditing && emitted == Some(old(currentValue))
      ensures !old(isEditing) ==> emitted == None && State() == old(State())
      ensures View() == Label(value)
    {
      if isEditing {
        isEditing := false;
        emitted := Some(currentValue);
      } else {
        emitted := None;
      }
    }

    /** `handleKeyDown`: Enter commits like a blur, Escape reverts the pending value to
        the prop and leaves editing without calling `onChange`, other keys do nothing. */
    method HandleKeyDown(key: string) returns (emitted: Option<FieldValue>)
      modifies this
      ensures Outcome(State(), emitted) == Step(kind, old(State()), KeyDown(key))
      ensures old(isEditing) && key == "Enter" ==> !isEditing && emitted == Some(old(currentValue))
      ensures old(isEditing) && key == "Escape" ==> State() == Initial(value) && emitted == None
      ensures old(isEditing) && (key == "Enter" || key == "Escape") ==> View() == Label(value)
    {
      emitted := None;
      if isEditing {
        if key == "Enter" {
          emitted := HandleBlur();
        } else if key == "Escape" {
          currentValue := value;
          isEditing := false;
        }
      }
    }

    /** The parent re-renders the field with a new `value` prop; the state cells keep
        their values. */
    method Rerender(v: FieldValue)
      modifies this
      ensures State() == Step(kind, old(State()), NewValue(v)).state
      ensures value == v && isEditing == old(isEditing) && currentValue == old(currentValue)
    {
      value := v;
    }

    /** What the field currently renders. */
    function View(): View
      reads this
    {
      Render(kind, options, State())
    }
  }
}
