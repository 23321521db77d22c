/** A Project Conversation: proposed Task operations, the Human's decisions on
    them and what became of each (`domain/conversation.rs`). */
module Conversations {
  import opened Durability
  import opened Tasks
  import opened Orders

  datatype FieldChange =
    | TitleChange(fromTitle: string, toTitle: string)
    | DescriptionChange(fromDescription: Option<string>, toDescription: string)
    | PriorityChange(fromPriority: Priority, toPriority: Priority)
    | CategoryChange(fromCategory: Category, toCategory: Category)

  datatype Field = TitleField | DescriptionField | PriorityField | CategoryField
  datatype Value = Text(text: Option<string>) | Urgency(priority: Priority) | Kind(category: Category)

  function FieldOf(c: FieldChange): Field {
    match c
    case TitleChange(_, _) => TitleField
    case DescriptionChange(_, _) => DescriptionField
    case PriorityChange(_, _) => PriorityField
    case CategoryChange(_, _) => CategoryField
  }

  function Read(t: Task, f: Field): Value {
    match f
    case TitleField => Text(Some(t.title))
    case DescriptionField => Text(t.description)
    case PriorityField => Urgency(t.priority)
    case CategoryField => Kind(t.category)
  }

  /** The value SlashIt observed when the proposal was made. */
  function From(c: FieldChange): Value {
    match c
    case TitleChange(from, _) => Text(Some(from))
    case DescriptionChange(from, _) => Text(from)
    case PriorityChange(from, _) => Urgency(from)
    case CategoryChange(from, _) => Kind(from)
  }

  function To(c: FieldChange): Value {
    match c
    case TitleChange(_, to) => Text(Some(to))
    case DescriptionChange(_, to) => Text(Some(to))
    case PriorityChange(_, to) => Urgency(to)
    case CategoryChange(_, to) => Kind(to)
  }

  predicate IsObservedIn(c: FieldChange, t: Task) {
    Read(t, FieldOf(c)) == From(c)
  }

  predicate IsAppliedTo(c: FieldChange, t: Task) {
    Read(t, FieldOf(c)) == To(c)
  }

  function Apply(c: FieldChange, t: Task): Task {
    match c
    case TitleChange(_, to) => t.(title := to)
    case DescriptionChange(_, to) => t.(description := Some(to))
    case PriorityChange(_, to) => t.(priority := to)
    case CategoryChange(_, to) => t.(category := to)
  }

  function ApplyAll(changes: seq<FieldChange>, t: Task): Task
    decreases |changes|
  {
    if changes == [] then t else ApplyAll(changes[1..], Apply(changes[0], t))
  }

  predicate AllApplied(changes: seq<FieldChange>, t: Task) {
    forall c :: c in changes ==> IsAppliedTo(c, t)
  }

  predicate AllObserved(changes: seq<FieldChange>, t: Task) {
    forall c :: c in changes ==> IsObservedIn(c, t)
  }

  /** No two changes want different values of one field. */
  predicate Consistent(changes: seq<FieldChange>) {
    forall c, d :: c in changes && d in changes && FieldOf(c) == FieldOf(d) ==> To(c) == To(d)
  }

  /** The loop that applies the approved changes to the Task. */
  method ApplyChanges(changes: seq<FieldChange>, found: Task) returns (t: Task)
    ensures t == ApplyAll(changes, found)
  {
    t := found;
    for i := 0 to |changes|
      invariant ApplyAll(changes[i..], t) == ApplyAll(changes, found)
    {
      assert changes[i..][1..] == changes[i + 1..];
      t := Apply(changes[i], t);
    }
  }

  /** The value the last change to a field asks for. */
  function LastFor(changes: seq<FieldChange>, f: Field): (v: Option<Value>)
    ensures v.None? <==> forall c :: c in changes ==> FieldOf(c) != f
    ensures v.Some? ==> exists c :: c in changes && FieldOf(c) == f && To(c) == v.value
    decreases |changes|
  {
    if changes == [] then None
    else
      var rest := LastFor(changes[1..], f);
      if rest.Some? then rest else if FieldOf(changes[0]) == f then Some(To(changes[0])) else None
  }

  /** An edit sets each named field to the last value asked for, and keeps the
      value of every other field it could have named. */
  lemma {:induction false} EditedField(changes: seq<FieldChange>, t: Task, f: Field)
    ensures Read(ApplyAll(changes, t), f) ==
      match LastFor(changes, f) { case Some(v) => v case None => Read(t, f) }
    decreases |changes|
  {
    if changes != [] {
      EditedField(changes[1..], Apply(changes[0], t), f);
      AppliedField(changes[0], t, f);
    }
  }

  lemma AppliedField(c: FieldChange, t: Task, f: Field)
    ensures Read(Apply(c, t), f) == if FieldOf(c) == f then To(c) else Read(t, f)
  {
  }

  /** Nothing else about the Task changes. */
  lemma {:induction false} OnlyApprovedFields(changes: seq<FieldChange>, t: Task)
    ensures OnlyNamedFields(t, ApplyAll(changes, t))
    decreases |changes|
  {
    if changes == [] {
      assert t == t.(title := t.title, description := t.description, priority := t.priority, category := t.category);
    } else {
      OnlyApprovedFields(changes[1..], Apply(changes[0], t));
      OneFieldApplied(changes[0], t, ApplyAll(changes[1..], Apply(changes[0], t)));
    }
  }

  predicate OnlyNamedFields(t: Task, r: Task) {
    r == t.(title := r.title, description := r.description, priority := r.priority, category := r.category)
  }

  lemma OneFieldApplied(c: FieldChange, t: Task, r: Task)
    requires OnlyNamedFields(Apply(c, t), r)
    ensures OnlyNamedFields(t, r)
  {
  }

  /** A retry finds every change in place exactly when no two of them disagree. */
  lemma AppliedIffConsistent(changes: seq<FieldChange>, t: Task)
    ensures AllApplied(changes, ApplyAll(changes, t)) <==> Consistent(changes)
  {
    forall c | c in changes
      ensures LastFor(changes, FieldOf(c)).Some?
      ensures Read(ApplyAll(changes, t), FieldOf(c)) == LastFor(changes, FieldOf(c)).value
    {
      EditedField(changes, t, FieldOf(c));
    }
  }

  /** What the Coordinator asked of one Task; `None` leaves a field alone. */
  datatype Wish = Wish(
    title: Option<string>, description: Option<string>, priority: Option<Priority>, category: Option<Category>)

  function Asked(w: Wish, f: Field): Option<Value> {
    match f
    case TitleField => if w.title.Some? then Some(Text(w.title)) else None
    case DescriptionField => if w.description.Some? then Some(Text(w.description)) else None
    case PriorityField => if w.priority.Some? then Some(Urgency(w.priority.value)) else None
    case CategoryField => if w.category.Some? then Some(Kind(w.category.value)) else None
  }

  /** The change to one field, when what was asked differs from what the Task holds. */
  function Difference(t: Task, w: Wish, f: Field): (changes: seq<FieldChange>)
    ensures forall c :: c in changes ==> FieldOf(c) == f && From(c) == Read(t, f) && Asked(w, f) == Some(To(c))
    ensures changes == [] <==> Asked(w, f).None? || Asked(w, f).value == Read(t, f)
    ensures |changes| <= 1
  {
    if Asked(w, f).None? || Asked(w, f).value == Read(t, f) then []
    else match f
      case TitleField => [TitleChange(t.title, w.title.value)]
      case DescriptionField => [DescriptionChange(t.description, w.description.value)]
      case PriorityField => [PriorityChange(t.priority, w.priority.value)]
      case CategoryField => [CategoryChange(t.category, w.category.value)]
  }

  /** `TaskMutation::edit`: the differences from the Task, in the code's order.
      An empty list is refused as an edit that changes nothing. */
  function Differences(t: Task, w: Wish): seq<FieldChange> {
    Difference(t, w, TitleField) + Difference(t, w, DescriptionField)
    + Difference(t, w, PriorityField) + Difference(t, w, CategoryField)
  }

  lemma DifferencesHave(t: Task, w: Wish, c: FieldChange)
    ensures c in Differences(t, w) <==> c in Difference(t, w, FieldOf(c))
  {
  }

  /** A proposed edit shows the Human the Task's own values, repeats none of
      them, names no field twice, and gives the Task exactly what was asked. */
  lemma ProposedEdit(t: Task, w: Wish, f: Field)
    ensures var changes := Differences(t, w);
      && AllObserved(changes, t) && Consistent(changes)
      && (forall c :: c in changes ==> !IsAppliedTo(c, t))
      && Read(ApplyAll(changes, t), f) == match Asked(w, f) { case Some(v) => v case None => Read(t, f) }
  {
    var changes := Differences(t, w);
    forall c | c in changes ensures From(c) == Read(t, FieldOf(c)) && Asked(w, FieldOf(c)) == Some(To(c)) && To(c) != Read(t, FieldOf(c)) {
      DifferencesHave(t, w, c);
    }
    EditedField(changes, t, f);
    if Asked(w, f).Some? && Asked(w, f).value != Read(t, f) {
      var c := Difference(t, w, f)[0];
      DifferencesHave(t, w, c);
      assert c in changes && FieldOf(c) == f;
    }
  }

  // ------------------------------------------------------------ the record

  datatype Mutation =
    | CreateTask(task: Id, title: string, description: Option<string>, priority: Priority, category: Category)
    | EditTask(target: Id, changes: seq<FieldChange>)
    | MoveTask(target: Id, from: Status, to: Status)
    | EnqueueTask(target: Id, from: Status, shown: Option<string>)
    | ExecuteRequest(target: Id, from: Status, request: string, input: string, checkout: Option<Evidence>)

  datatype ActionStatus = Proposed | Approved | Applied | Rejected | Refused

  /** Why an approved operation was refused for good. */
  datatype Reason =
    | TaskGone
    | TaskElsewhere
    | IdElsewhere
    | EditedSince
    | MoveUnavailable
    | MovedSince
    | NotFromBacklog
    | LeftBacklog
    | InputDiffers
    | QueueBlocked
    | RequestNotAttached
    | CheckoutDiffers(why: string)

  datatype ActionOutcome =
    | AppliedTo(task: Id, title: string)
    | FoundQueued(task: Id, title: string)
    | RefusedFor(reason: Reason)

  datatype Action = Action(id: Id, mutation: Mutation, status: ActionStatus, outcome: Option<ActionOutcome>)

  datatype Line =
    | Message(text: string)
    | ProposedLine(action: Id)
    | DecisionLine(action: Id, approved: bool)
    | AppliedLine(action: Id, task: Id)
    | RefusedLine(action: Id, reason: Reason)

  datatype Conversation = Conversation(lines: seq<Line>, actions: seq<Action>)

  function Find(actions: seq<Action>, id: Id): (a: Option<Action>)
    ensures a.Some? ==> a.value in actions && a.value.id == id
    ensures a.None? ==> forall b :: b in actions ==> b.id != id
  {
    if actions == [] then None
    else if actions[0].id == id then Some(actions[0])
    else Find(actions[1..], id)
  }

  /** `set_status` on the action itself: an outcome, once set, is never cleared. */
  function Marked(a: Action, status: ActionStatus, outcome: Option<ActionOutcome>): Action {
    a.(status := status, outcome := if outcome.Some? then outcome else a.outcome)
  }

  function SetStatus(actions: seq<Action>, id: Id, status: ActionStatus, outcome: Option<ActionOutcome>): seq<Action> {
    if actions == [] then []
    else if actions[0].id == id then
      [Marked(actions[0], status, outcome)] + actions[1..]
    else [actions[0]] + SetStatus(actions[1..], id, status, outcome)
  }

  function Decisions(lines: seq<Line>, id: Id): seq<bool> {
    if lines == [] then []
    else
      var last := lines[|lines| - 1];
      Decisions(lines[..|lines| - 1], id) + (if last.DecisionLine? && last.action == id then [last.approved] else [])
  }

  /** The lines that say what became of the action. */
  function Outcomes(lines: seq<Line>, id: Id): seq<Line> {
    if lines == [] then []
    else
      var last := lines[|lines| - 1];
      Outcomes(lines[..|lines| - 1], id)
      + (if (last.AppliedLine? || last.RefusedLine?) && last.action == id then [last] else [])
  }

  /** The status agrees with the lines: at most one decision and one outcome. */
  ghost predicate ActionSound(lines: seq<Line>, a: Action) {
    match a.status
    case Proposed => Decisions(lines, a.id) == [] && Outcomes(lines, a.id) == [] && a.outcome.None?
    case Approved => Decisions(lines, a.id) == [true] && Outcomes(lines, a.id) == [] && a.outcome.None?
    case Rejected => Decisions(lines, a.id) == [false] && Outcomes(lines, a.id) == [] && a.outcome.None?
    case Applied =>
      && Decisions(lines, a.id) == [true] && a.outcome.Some? && !a.outcome.value.RefusedFor?
      && Outcomes(lines, a.id) == [AppliedLine(a.id, a.outcome.value.task)]
    case Refused =>
      && Decisions(lines, a.id) == [true] && a.outcome.Some? && a.outcome.value.RefusedFor?
      && Outcomes(lines, a.id) == [RefusedLine(a.id, a.outcome.value.reason)]
  }

  ghost predicate Sound(c: Conversation) {
    && (forall a :: a in c.actions ==> ActionSound(c.lines, a))
    && (forall i, j :: 0 <= i < j < |c.actions| ==> c.actions[i].id != c.actions[j].id)
  }

  lemma AppendedLine(lines: seq<Line>, l: Line, id: Id)
    ensures Decisions(lines + [l], id) == Decisions(lines, id) + (if l.DecisionLine? && l.action == id then [l.approved] else [])
    ensures Outcomes(lines + [l], id)
         == Outcomes(lines, id) + (if (l.AppliedLine? || l.RefusedLine?) && l.action == id then [l] else [])
  {
    assert (lines + [l])[..|lines|] == lines;
  }

  /** `set_status` changes the action it names and no other. */
  lemma {:induction false} SetStatusAt(actions: seq<Action>, id: Id, status: ActionStatus, outcome: Option<ActionOutcome>)
    requires forall i, j :: 0 <= i < j < |actions| ==> actions[i].id != actions[j].id
    ensures var r := SetStatus(actions, id, status, outcome);
      && |r| == |actions|
      && forall i :: 0 <= i < |r| ==>
           r[i] == (if actions[i].id == id then Marked(actions[i], status, outcome) else actions[i])
  {
    if actions != [] && actions[0].id != id {
      SetStatusAt(actions[1..], id, status, outcome);
    }
  }

  lemma {:induction false} FindAt(actions: seq<Action>, i: nat)
    requires forall i, j :: 0 <= i < j < |actions| ==> actions[i].id != actions[j].id
    requires i < |actions|
    ensures Find(actions, actions[i].id) == Some(actions[i])
  {
    if i > 0 {
      assert actions[0].id != actions[i].id;
      FindAt(actions[1..], i - 1);
    }
  }

  /** The action named by a status change is as the change says; every other
      action is as it was. */
  lemma {:induction false} FoundAfter(
    actions: seq<Action>, id: Id, status: ActionStatus, outcome: Option<ActionOutcome>, other: Id)
    ensures Find(SetStatus(actions, id, status, outcome), other) ==
      if other != id || Find(actions, other).None? then Find(actions, other)
      else Some(Marked(Find(actions, id).value, status, outcome))
  {
    if actions != [] {
      FoundAfter(actions[1..], id, status, outcome, other);
    }
  }

  lemma RecordedIsSound(c: Conversation, id: Id, status: ActionStatus, outcome: Option<ActionOutcome>, l: Line)
    requires Sound(c) && Find(c.actions, id).Some?
    requires l.Message? || l.action == id
    requires ActionSound(c.lines + [l], Marked(Find(c.actions, id).value, status, outcome))
    ensures Sound(Conversation(c.lines + [l], SetStatus(c.actions, id, status, outcome)))
  {
    var r := Conversation(c.lines + [l], SetStatus(c.actions, id, status, outcome));
    SetStatusAt(c.actions, id, status, outcome);
    forall i | 0 <= i < |r.actions| ensures ActionSound(r.lines, r.actions[i]) {
      assert c.actions[i] in c.actions;
      AppendedLine(c.lines, l, c.actions[i].id);
      FindAt(c.actions, i);
    }
  }
}
