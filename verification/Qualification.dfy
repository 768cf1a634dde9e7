/** The deterministic qualification dialogue: one caller utterance at a time, over
    any schema and any language pack. */
module Qualification {
  import opened Common
  import opened Text

  type Id = string

  datatype FieldType = Enum | Boolean | Money | EnergyOrMoney | CapacityKw | Phone | Pincode | Name | FreeText | Time

  datatype Measure = Inr | Kwh | Kw

  datatype FieldValue = FieldValue(
    value: Str, raw: Str, confidence: real, confirmed: bool, measure: Option<Measure>, unknown: bool)

  /** What a parser found; never "unknown" and never confirmed. */
  datatype Extracted = Extracted(value: Str, raw: Str, confidence: real, measure: Option<Measure>)

  datatype Gate = Gate(field: Id, equals: set<Str>)

  datatype Field = Field(
    id: Id,
    kind: FieldType,
    required: bool,
    confirm: bool,
    disqualifyWhen: Option<set<Str>>,
    skipWhen: Option<Gate>,
    maxAttempts: nat)

  datatype Schema = Schema(fields: seq<Field>, maxUnresolvedFields: nat)

  datatype Intent = DoNotCall | WrongNumber | Human | CallBackLater | Affirm | Deny | DontKnow

  /** Intents and parsers of the caller's language; any are allowed. */
  datatype Pack = Pack(intents: Str -> set<Intent>, extract: (Field, Str) -> Option<Extracted>)

  datatype Status = InProgress | Complete | Disqualified | DoNotCallStatus | WrongNumberStatus | CallbackRequested

  datatype Snapshot = Snapshot(
    fields: map<Id, FieldValue>,
    attempts: map<Id, nat>,
    status: Status,
    disqualifiedBy: Option<Id>,
    pending: Option<Id>,
    awaiting: Option<Id>,
    humanRequested: bool,
    unresolved: seq<Id>)

  const EMPTY := Snapshot(map[], map[], InProgress, None, None, None, false, [])

  const CONFIRMATION_THRESHOLD := 0.8

  predicate Terminal(status: Status) {
    status in {Disqualified, DoNotCallStatus, WrongNumberStatus, CallbackRequested}
  }

  predicate Restatable(kind: FieldType) { kind in {Money, EnergyOrMoney, CapacityKw, Phone, Pincode} }

  predicate Verbatim(field: Field) { field.kind in {FreeText, Time} && !field.confirm }

  function Max(a: real, b: real): real { if a >= b then a else b }

  function Attempts(s: Snapshot, id: Id): nat { if id in s.attempts then s.attempts[id] else 0 }

  function Value(found: Extracted): FieldValue {
    FieldValue(found.value, found.raw, found.confidence, false, found.measure, false)
  }

  predicate HasMeasure(s: Snapshot, id: Id) { id in s.fields && s.fields[id].measure.Some? }

  function Without(ids: seq<Id>, id: Id): (rest: seq<Id>)
    ensures forall x :: x in rest <==> x in ids && x != id
  {
    if ids == [] then []
    else if ids[0] == id then Without(ids[1..], id)
    else [ids[0]] + Without(ids[1..], id)
  }

  function FieldById(fields: seq<Field>, id: Id): (found: Option<Field>)
    ensures found.Some? ==> found.value in fields && found.value.id == id
    ensures found.None? ==> forall f :: f in fields ==> f.id != id
  {
    if fields == [] then None
    else if fields[0].id == id then Some(fields[0])
    else FieldById(fields[1..], id)
  }

  predicate Skipped(s: Snapshot, field: Field) {
    field.skipWhen.Some? && field.skipWhen.value.field in s.fields
    && s.fields[field.skipWhen.value.field].value in field.skipWhen.value.equals
  }

  /** The field still has to be asked. */
  predicate Open(s: Snapshot, field: Field) {
    && field.id !in s.fields && field.id !in s.unresolved
    && Attempts(s, field.id) < field.maxAttempts && !Skipped(s, field)
  }

  /** The first field that still has to be asked. */
  function NextField(fields: seq<Field>, s: Snapshot): (next: Option<Field>)
    ensures next.Some? ==> next.value in fields && Open(s, next.value)
    ensures next.None? ==> forall f :: f in fields ==> !Open(s, f)
  {
    if fields == [] then None
    else if Open(s, fields[0]) then Some(fields[0])
    else NextField(fields[1..], s)
  }

  /** It is the first such field: everything before it is answered, given up or skipped. */
  lemma {:induction false} NextFieldIsFirst(fields: seq<Field>, s: Snapshot) returns (i: nat)
    requires NextField(fields, s).Some?
    ensures i < |fields| && fields[i] == NextField(fields, s).value && forall j :: 0 <= j < i ==> !Open(s, fields[j])
  {
    if Open(s, fields[0]) {
      i := 0;
    } else {
      var rest := NextFieldIsFirst(fields[1..], s);
      i := rest + 1;
      forall j | 0 <= j < i ensures !Open(s, fields[j]) { if j > 0 { assert fields[j] == fields[1..][j - 1]; } }
    }
  }

  function IdOf(field: Option<Field>): Option<Id> {
    if field.Some? then Some(field.value.id) else None
  }

  function Close(s: Snapshot, status: Status): Snapshot { s.(status := status, pending := None, awaiting := None) }

  function ApplyDisqualifier(s: Snapshot, field: Option<Field>): Snapshot {
    if field.None? || field.value.disqualifyWhen.None? || field.value.id !in s.fields then s
    else
      var v := s.fields[field.value.id];
      if v.unknown || v.value !in field.value.disqualifyWhen.value then s
      else s.(status := Disqualified, disqualifiedBy := Some(field.value.id), pending := None, awaiting := None)
  }

  predicate Answered(s: Snapshot, id: Id) { id in s.fields && !s.fields[id].unknown }

  function BumpAttempt(s: Snapshot, field: Field): Snapshot {
    var attempt := Attempts(s, field.id) + 1;
    var t := s.(attempts := s.attempts[field.id := attempt]);
    if attempt >= field.maxAttempts && field.required && !Answered(s, field.id) && field.id !in s.unresolved
    then t.(unresolved := t.unresolved + [field.id]) else t
  }

  /** What one step decided: the snapshot, whether it used the utterance up, and
      whether the call returns here. */
  datatype Step = Step(s: Snapshot, consumed: bool, stops: bool)

  function Keep(s: Snapshot, id: Id, value: FieldValue): Snapshot { s.(fields := s.fields[id := value]) }

  function Released(s: Snapshot): Snapshot { s.(awaiting := None) }

  /** The read-back is asked again, or given up once the attempts are spent. */
  function AskAgain(s: Snapshot, field: Field): Snapshot {
    var t := BumpAttempt(s, field);
    if Attempts(t, field.id) >= field.maxAttempts then Released(t) else t
  }

  /** A pending read-back is answered before anything else. */
  function AnswerConfirmation(pack: Pack, schema: Schema, s: Snapshot, text: Str): Step
    requires s.awaiting.Some?
  {
    var id := s.awaiting.value;
    var field := FieldById(schema.fields, id);
    var intents := pack.intents(text);
    var affirmed, denied := Affirm in intents, Deny in intents;
    var energy := field.Some? && field.value.kind == EnergyOrMoney;
    var clarified := if energy then pack.extract(field.value, text) else None;
    if clarified.Some? && clarified.value.measure.Some? && !HasMeasure(s, id) then
      var v := Value(clarified.value).(confirmed := true, confidence := Max(clarified.value.confidence, 0.9));
      Step(ApplyDisqualifier(Released(Keep(s, id, v)), field), true, false)
    else if affirmed && !denied && (!energy || HasMeasure(s, id)) then
      var kept := if id in s.fields
        then Keep(s, id, s.fields[id].(confirmed := true, confidence := Max(s.fields[id].confidence, 0.95))) else s;
      var t := ApplyDisqualifier(Released(kept), field);
      Step(t, true, Terminal(t.status))
    else if energy && affirmed && !denied && id in s.fields && !HasMeasure(s, id) then
      var t := BumpAttempt(s, field.value);
      Step(if Attempts(t, id) >= field.value.maxAttempts
           then Released(t).(unresolved := Without(t.unresolved, id)) else t, true, false)
    else if field.None? then Step(s, true, false)
    else
      var corrected := if denied || Restatable(field.value.kind) then pack.extract(field.value, text) else None;
      if corrected.Some? then
        var kept := Keep(s, id, Value(corrected.value));
        if field.value.confirm || corrected.value.confidence < CONFIRMATION_THRESHOLD
        then Step(AskAgain(kept, field.value), true, false)
        else
          var t := ApplyDisqualifier(Released(kept), field);
          Step(t, true, Terminal(t.status))
      else if denied then
        Step(BumpAttempt(Released(s).(fields := s.fields - {id}), field.value), true, false)
      else if !field.value.confirm then
        var t := ApplyDisqualifier(Released(s), field);
        Step(t, false, Terminal(t.status))
      else Step(AskAgain(s, field.value), true, false)
  }

  function CaptureField(s: Snapshot, field: Field, found: Extracted): Snapshot {
    var kept := Keep(s, field.id, Value(found)).(unresolved := Without(s.unresolved, field.id));
    if (field.confirm || found.confidence < CONFIRMATION_THRESHOLD) && !Verbatim(field)
    then kept.(awaiting := Some(field.id)) else ApplyDisqualifier(kept, Some(field))
  }

  /** The utterance answers the question that was asked. */
  function AnswerQuestion(pack: Pack, schema: Schema, s: Snapshot, text: Str): Step
    requires s.pending.Some?
  {
    var field := FieldById(schema.fields, s.pending.value);
    if field.None? then Step(s, true, false)
    else
      var f := field.value;
      if DontKnow in pack.intents(text) then
        var t := Keep(s, f.id, FieldValue([], text, 0.0, false, None, true));
        Step(if f.required && f.id !in t.unresolved then t.(unresolved := t.unresolved + [f.id]) else t, true, false)
      else
        var found := pack.extract(f, text);
        if found.Some? then
          var t := CaptureField(s, f, found.value);
          Step(t, true, Terminal(t.status))
        else Step(BumpAttempt(s, f), true, false)
  }

  /** Too many unresolved fields ask for a person; then the next question is chosen. */
  function ChooseNext(schema: Schema, s: Snapshot): Snapshot {
    var t := if |s.unresolved| >= schema.maxUnresolvedFields then s.(humanRequested := true) else s;
    if t.awaiting.Some? then t
    else
      var next := NextField(schema.fields, t);
      var asked := t.(pending := IdOf(next));
      if next.None? && t.status == InProgress then asked.(status := Complete) else asked
  }

  /** The part of an utterance that is an answer, after the caller-level intents. */
  function AnswerStep(pack: Pack, schema: Schema, s: Snapshot, text: Str): Step {
    var first := if s.awaiting.Some? then AnswerConfirmation(pack, schema, s, text) else Step(s, false, false);
    if first.stops then first
    else
      var t := if s.awaiting.Some? && !first.consumed && first.s.awaiting.None?
        then first.s.(pending := IdOf(NextField(schema.fields, first.s))) else first.s;
      if t.awaiting.None? && !first.consumed && t.pending.Some? then AnswerQuestion(pack, schema, t, text)
      else Step(t, first.consumed, false)
  }

  /** One utterance; an empty one is the start of the call. */
  function Apply(pack: Pack, schema: Schema, previous: Snapshot, utterance: Str): Snapshot {
    var text := Trim(utterance);
    if Terminal(previous.status) then previous
    else if text == [] then ChooseNext(schema, previous)
    else
      var intents := pack.intents(text);
      var s := if Human in intents then previous.(humanRequested := true) else previous;
      if DoNotCall in intents then Close(previous, DoNotCallStatus)
      else if WrongNumber in intents then Close(previous, WrongNumberStatus)
      else if CallBackLater in intents then Close(s, CallbackRequested)
      else
        var step := AnswerStep(pack, schema, s, text);
        if step.stops then step.s else ChooseNext(schema, step.s)
  }

  // ---- the invariant ---------------------------------------------------------

  ghost predicate DistinctIds(fields: seq<Field>) {
    forall i, j :: 0 <= i < j < |fields| ==> fields[i].id != fields[j].id
  }

  ghost predicate NoRepeats(ids: seq<Id>) {
    forall i, j :: 0 <= i < j < |ids| ==> ids[i] != ids[j]
  }

  /** A field waiting for confirmation has a value and attempts left. */
  ghost predicate AwaitingOk(fields: seq<Field>, s: Snapshot) {
    s.awaiting.Some? ==>
      var field := FieldById(fields, s.awaiting.value);
      && field.Some? && Answered(s, s.awaiting.value)
      && Attempts(s, s.awaiting.value) < field.value.maxAttempts
      && s.awaiting.value !in s.unresolved
  }

  /** The field read back is the one that was asked last. */
  ghost predicate ReadsBackPending(s: Snapshot) { s.awaiting.Some? ==> s.pending == s.awaiting }

  /** While no read-back is open, a field that was asked is unfilled and has attempts left. */
  ghost predicate PendingOk(fields: seq<Field>, s: Snapshot) {
    s.pending.Some? && s.awaiting.None? ==>
      var field := FieldById(fields, s.pending.value);
      && field.Some? && s.pending.value !in s.fields
      && Attempts(s, s.pending.value) < field.value.maxAttempts
  }

  /** Unresolved fields are listed once and have no answer. */
  ghost predicate UnresolvedOk(s: Snapshot) {
    NoRepeats(s.unresolved) && forall id :: id in s.unresolved ==> !Answered(s, id)
  }

  /** Complete: every field is filled, given up or skipped, and nothing is asked. */
  ghost predicate CompleteOk(fields: seq<Field>, s: Snapshot) {
    s.status == Complete ==>
      s.awaiting.None? && s.pending.None? && forall f :: f in fields ==> !Open(s, f)
  }

  ghost predicate Inv(fields: seq<Field>, s: Snapshot) {
    && UnresolvedOk(s) && ReadsBackPending(s)
    && (!Terminal(s.status) ==> AwaitingOk(fields, s) && PendingOk(fields, s) && CompleteOk(fields, s))
  }

  /** A field that was asked has a value exactly while that value is being read back. */
  ghost predicate FilledIffReadBack(s: Snapshot) {
    !Terminal(s.status) && s.pending.Some? ==> (s.pending.value in s.fields <==> s.awaiting == s.pending)
  }

  lemma AskedIsFilledIff(fields: seq<Field>, s: Snapshot)
    requires Inv(fields, s)
    ensures FilledIffReadBack(s)
  {
  }

  // ---- the measure -------------------------------------------------------------

  function Left(field: Field, s: Snapshot): nat {
    if Attempts(s, field.id) <= field.maxAttempts then field.maxAttempts - Attempts(s, field.id) else 0
  }

  function Weight(field: Field, s: Snapshot): nat {
    3 * Left(field, s) + if field.id in s.fields then 0 else 2
  }

  function Total(fields: seq<Field>, s: Snapshot): nat {
    if fields == [] then 0 else Weight(fields[0], s) + Total(fields[1..], s)
  }

  /** What is left to do: three per attempt left, two per field without a value,
      one for an open read-back, one if nothing was asked yet. */
  function Remaining(fields: seq<Field>, s: Snapshot): nat {
    Total(fields, s) + if s.awaiting.Some? || s.pending.None? then 1 else 0
  }

  /** `b` differs from `a` at most in what it knows about `id`. */
  ghost predicate OnlyTouches(a: Snapshot, b: Snapshot, id: Id) {
    && (forall x :: x != id ==> (x in a.fields <==> x in b.fields))
    && (forall x :: x != id && x in a.fields ==> a.fields[x] == b.fields[x])
    && (forall x :: x != id ==> Attempts(a, x) == Attempts(b, x))
  }

  lemma {:induction false} TotalChange(fields: seq<Field>, a: Snapshot, b: Snapshot, field: Field)
    requires DistinctIds(fields) && OnlyTouches(a, b, field.id)
    ensures field in fields ==> Total(fields, b) + Weight(field, a) == Total(fields, a) + Weight(field, b)
    ensures (forall f :: f in fields ==> f.id != field.id) ==> Total(fields, b) == Total(fields, a)
  {
    if fields != [] {
      TotalChange(fields[1..], a, b, field);
      if fields[0] == field {
        assert forall f :: f in fields[1..] ==> f.id != field.id;
      } else if field in fields {
        assert field in fields[1..];
        assert fields[0].id != field.id;
      }
    }
  }

  // ---- one step at a time ----------------------------------------------------

  lemma {:induction false} WithoutKeepsOnce(ids: seq<Id>, id: Id)
    requires NoRepeats(ids)
    ensures NoRepeats(Without(ids, id))
  {
    if ids != [] {
      WithoutKeepsOnce(ids[1..], id);
      var rest := Without(ids[1..], id);
      assert ids[0] !in ids[1..];
      assert ids[0] !in rest;
    }
  }

  lemma BumpFacts(s: Snapshot, field: Field)
    requires UnresolvedOk(s)
    ensures var t := BumpAttempt(s, field);
      && UnresolvedOk(t) && OnlyTouches(s, t, field.id)
      && t.fields == s.fields && Attempts(t, field.id) == Attempts(s, field.id) + 1
      && t.awaiting == s.awaiting && t.pending == s.pending && t.status == s.status
      && (Answered(s, field.id) ==> t.unresolved == s.unresolved)
  {
  }

  lemma DisqualifierFacts(s: Snapshot, field: Option<Field>)
    ensures var t := ApplyDisqualifier(s, field);
      && t.fields == s.fields && t.attempts == s.attempts && t.unresolved == s.unresolved
      && (t == s || (t.status == Disqualified && t.awaiting.None?))
  {
  }

  /** Answering a read-back touches that field only; it keeps waiting only at
      the price of an attempt, and an unused utterance changes no answer. */
  ghost predicate ConfirmResult(s: Snapshot, field: Field, step: Step) {
    var t := step.s;
    && OnlyTouches(s, t, field.id) && UnresolvedOk(t)
    && (t.awaiting.Some? ==> t.awaiting == s.awaiting && t.pending == s.pending)
    && t.status in {s.status, Disqualified}
    && (step.stops ==> Terminal(t.status))
    && (!Terminal(t.status) ==>
          && (t.awaiting.Some? ==>
                && Answered(t, field.id) && Attempts(t, field.id) < field.maxAttempts && field.id !in t.unresolved
                && Weight(field, t) + 3 <= Weight(field, s))
          && Weight(field, t) <= Weight(field, s))
    && (!step.consumed ==>
          t.fields == s.fields && t.attempts == s.attempts && t.awaiting.None? && (Terminal(t.status) ==> step.stops))
  }

  /** The snapshot after the read-back's value may have been replaced. */
  ghost predicate Rewritten(s: Snapshot, kept: Snapshot, field: Field) {
    && OnlyTouches(s, kept, field.id) && UnresolvedOk(kept)
    && kept.attempts == s.attempts && kept.status == s.status && kept.awaiting == s.awaiting
    && kept.pending == s.pending
    && kept.unresolved == s.unresolved && Answered(kept, field.id)
  }

  ghost predicate Asked(s: Snapshot, field: Field) {
    && UnresolvedOk(s) && s.status == InProgress && s.awaiting == Some(field.id)
    && Answered(s, field.id) && Attempts(s, field.id) < field.maxAttempts && field.id !in s.unresolved
  }

  lemma KeepRewrites(s: Snapshot, field: Field, v: FieldValue)
    requires Asked(s, field) && !v.unknown
    ensures Rewritten(s, Keep(s, field.id, v), field) && Rewritten(s, s, field)
  {
  }

  lemma ReadBackEnds(s: Snapshot, kept: Snapshot, field: Field, consumed: bool, stops: bool)
    requires Asked(s, field) && Rewritten(s, kept, field) && (!consumed ==> kept == s && stops)
    ensures var t := ApplyDisqualifier(Released(kept), Some(field));
      ConfirmResult(s, field, Step(t, consumed, stops && Terminal(t.status)))
  {
    DisqualifierFacts(Released(kept), Some(field));
  }

  lemma ReadBackAgain(s: Snapshot, kept: Snapshot, field: Field)
    requires Asked(s, field) && Rewritten(s, kept, field)
    ensures ConfirmResult(s, field, Step(AskAgain(kept, field), true, false))
  {
    BumpFacts(kept, field);
  }

  lemma UnitStillUnknown(s: Snapshot, field: Field)
    requires Asked(s, field)
    ensures var t := BumpAttempt(s, field);
      ConfirmResult(s, field, Step(if Attempts(t, field.id) >= field.maxAttempts
        then Released(t).(unresolved := Without(t.unresolved, field.id)) else t, true, false))
  {
    BumpFacts(s, field);
    WithoutKeepsOnce(s.unresolved, field.id);
  }

  lemma ValueDenied(s: Snapshot, field: Field)
    requires Asked(s, field)
    ensures ConfirmResult(s, field,
                          Step(BumpAttempt(Released(s).(fields := s.fields - {field.id}), field), true, false))
  {
    BumpFacts(Released(s).(fields := s.fields - {field.id}), field);
  }

  lemma ConfirmFacts(pack: Pack, schema: Schema, s: Snapshot, text: Str)
    requires Inv(schema.fields, s) && s.status == InProgress && s.awaiting.Some?
    ensures var field := FieldById(schema.fields, s.awaiting.value);
      field.Some? && ConfirmResult(s, field.value, AnswerConfirmation(pack, schema, s, text))
  {
    hide ConfirmResult;
    hide Rewritten;
    hide UnresolvedOk;
    hide ApplyDisqualifier;
    hide BumpAttempt;
    var id := s.awaiting.value;
    var field := FieldById(schema.fields, id).value;
    var intents := pack.intents(text);
    var affirmed, denied := Affirm in intents, Deny in intents;
    var energy := field.kind == EnergyOrMoney;
    var found := pack.extract(field, text);
    var affirmedValue := s.fields[id].(confirmed := true, confidence := Max(s.fields[id].confidence, 0.95));
    KeepRewrites(s, field, affirmedValue);
    if energy && found.Some? && found.value.measure.Some? && !HasMeasure(s, id) {
      var v := Value(found.value).(confirmed := true, confidence := Max(found.value.confidence, 0.9));
      KeepRewrites(s, field, v);
      ReadBackEnds(s, Keep(s, id, v), field, true, false);
    } else if affirmed && !denied && (!energy || HasMeasure(s, id)) {
      ReadBackEnds(s, Keep(s, id, affirmedValue), field, true, true);
    } else if energy && affirmed && !denied {
      UnitStillUnknown(s, field);
    } else {
      if (denied || Restatable(field.kind)) && found.Some? {
        KeepRewrites(s, field, Value(found.value));
        ReadBackAgain(s, Keep(s, id, Value(found.value)), field);
        ReadBackEnds(s, Keep(s, id, Value(found.value)), field, true, true);
      } else if denied {
        ValueDenied(s, field);
      } else {
        ReadBackEnds(s, s, field, false, true);
        ReadBackAgain(s, s, field);
      }
    }
  }

  ghost predicate QuestionResult(s: Snapshot, field: Field, step: Step) {
    var t := step.s;
    && OnlyTouches(s, t, field.id) && UnresolvedOk(t)
    && (t.awaiting.Some? ==> t.awaiting == Some(field.id) && t.pending == s.pending)
    && t.status in {s.status, Disqualified}
    && (step.stops ==> Terminal(t.status))
    && (!Terminal(t.status) ==>
          && (t.awaiting.Some? ==>
                && Answered(t, field.id) && Attempts(t, field.id) < field.maxAttempts && field.id !in t.unresolved)
          && Weight(field, t) + 2 <= Weight(field, s))
  }

  lemma FilledIn(s: Snapshot, field: Field, v: FieldValue)
    requires UnresolvedOk(s) && s.status == InProgress && s.awaiting.None? && field.id !in s.fields
    requires Attempts(s, field.id) < field.maxAttempts && !v.unknown
    ensures var kept := Keep(s, field.id, v).(unresolved := Without(s.unresolved, field.id));
      && QuestionResult(s, field, Step(kept.(awaiting := Some(field.id)), true, false))
      && var t := ApplyDisqualifier(kept, Some(field));
         QuestionResult(s, field, Step(t, true, Terminal(t.status)))
  {
    WithoutKeepsOnce(s.unresolved, field.id);
    DisqualifierFacts(Keep(s, field.id, v).(unresolved := Without(s.unresolved, field.id)), Some(field));
  }

  lemma SaidUnknown(s: Snapshot, field: Field, text: Str)
    requires UnresolvedOk(s) && s.status == InProgress && s.awaiting.None? && field.id !in s.fields
    ensures var t := Keep(s, field.id, FieldValue([], text, 0.0, false, None, true));
      QuestionResult(s, field, Step(if field.required && field.id !in t.unresolved
        then t.(unresolved := t.unresolved + [field.id]) else t, true, false))
  {
  }

  lemma NotUnderstood(s: Snapshot, field: Field)
    requires UnresolvedOk(s) && s.status == InProgress && s.awaiting.None? && field.id !in s.fields
    requires Attempts(s, field.id) < field.maxAttempts
    ensures QuestionResult(s, field, Step(BumpAttempt(s, field), true, false))
  {
    BumpFacts(s, field);
  }

  lemma QuestionFacts(pack: Pack, schema: Schema, s: Snapshot, text: Str)
    requires UnresolvedOk(s) && s.status == InProgress && s.awaiting.None? && s.pending.Some?
    requires PendingOk(schema.fields, s)
    ensures var field := FieldById(schema.fields, s.pending.value);
      field.Some? && QuestionResult(s, field.value, AnswerQuestion(pack, schema, s, text))
  {
    hide QuestionResult;
    hide UnresolvedOk;
    hide ApplyDisqualifier;
    hide BumpAttempt;
    var f := FieldById(schema.fields, s.pending.value).value;
    var found := pack.extract(f, text);
    SaidUnknown(s, f, text);
    NotUnderstood(s, f);
    if found.Some? { FilledIn(s, f, Value(found.value)); }
  }

  lemma {:induction false} FieldByIdFinds(fields: seq<Field>, field: Field)
    requires DistinctIds(fields) && field in fields
    ensures FieldById(fields, field.id) == Some(field)
  {
    if fields[0] != field {
      assert field in fields[1..];
      FieldByIdFinds(fields[1..], field);
    }
  }

  lemma NextIsPendingOk(fields: seq<Field>, s: Snapshot)
    requires DistinctIds(fields)
    ensures PendingOk(fields, s.(pending := IdOf(NextField(fields, s))))
  {
    var next := NextField(fields, s);
    if next.Some? { FieldByIdFinds(fields, next.value); }
  }

  function Weighed(fields: seq<Field>, s: Snapshot): nat { Total(fields, s) + if s.awaiting.Some? then 1 else 0 }

  /** What the answering part of an utterance does, whichever branch it takes. */
  ghost predicate AnswerResult(fields: seq<Field>, s: Snapshot, step: Step, id: Id) {
    var t := step.s;
    && OnlyTouches(s, t, id) && UnresolvedOk(t) && ReadsBackPending(t)
    && t.status in {InProgress, Disqualified}
    && (step.stops ==> Terminal(t.status))
    && (!Terminal(t.status) ==> AwaitingOk(fields, t) && Weighed(fields, t) < Remaining(fields, s))
  }

  lemma NothingAsked(fields: seq<Field>, s: Snapshot)
    requires UnresolvedOk(s) && s.status == InProgress && s.awaiting.None? && s.pending.None?
    ensures AnswerResult(fields, s, Step(s, false, false), "")
  {
  }

  lemma ReadBackIsAnswer(fields: seq<Field>, s: Snapshot, field: Field, step: Step)
    requires DistinctIds(fields) && s.status == InProgress && s.awaiting == s.pending == Some(field.id)
    requires field in fields && ConfirmResult(s, field, step)
    ensures AnswerResult(fields, s, step, field.id)
  {
    FieldByIdFinds(fields, field);
    TotalChange(fields, s, step.s, field);
  }

  lemma MovedOn(s: Snapshot, field: Field, step: Step, t: Snapshot)
    requires ConfirmResult(s, field, step) && !step.consumed && !step.stops && t == step.s.(pending := t.pending)
    ensures ConfirmResult(s, field, Step(t, false, false))
  {
  }

  lemma UnresolvedReads(a: Snapshot, b: Snapshot)
    requires UnresolvedOk(a) && a.unresolved == b.unresolved && a.fields == b.fields
    ensures UnresolvedOk(b)
  {
  }

  lemma QuestionIsAnswer(pack: Pack, schema: Schema, s: Snapshot, t: Snapshot, text: Str) returns (id: Id)
    requires DistinctIds(schema.fields) && UnresolvedOk(t) && t.status == InProgress && t.awaiting.None?
    requires t.pending.Some?
    requires PendingOk(schema.fields, t) && t.fields == s.fields && t.attempts == s.attempts
    ensures AnswerResult(schema.fields, s, AnswerQuestion(pack, schema, t, text), id)
  {
    hide UnresolvedOk;
    hide AnswerQuestion;
    QuestionFacts(pack, schema, t, text);
    id := t.pending.value;
    var field := FieldById(schema.fields, id).value;
    var step := AnswerQuestion(pack, schema, t, text);
    FieldByIdFinds(schema.fields, field);
    TotalChange(schema.fields, s, step.s, field);
    assert Weight(field, t) == Weight(field, s);
  }

  lemma AnswerStepFacts(pack: Pack, schema: Schema, s: Snapshot, text: Str) returns (id: Id)
    requires DistinctIds(schema.fields) && Inv(schema.fields, s) && s.status == InProgress
    ensures AnswerResult(schema.fields, s, AnswerStep(pack, schema, s, text), id)
  {
    hide UnresolvedOk;
    hide AnswerQuestion;
    hide AnswerConfirmation;
    hide Weight;
    hide AnswerResult;
    var fields := schema.fields;
    if s.awaiting.None? {
      if s.pending.None? {
        id := "";
        NothingAsked(fields, s);
      } else {
        id := QuestionIsAnswer(pack, schema, s, s, text);
      }
    } else {
      id := s.awaiting.value;
      ConfirmFacts(pack, schema, s, text);
      var field := FieldById(fields, id).value;
      var first := AnswerConfirmation(pack, schema, s, text);
      ReadBackIsAnswer(fields, s, field, first);
      if !first.stops && !first.consumed {
        var t := first.s.(pending := IdOf(NextField(fields, first.s)));
        NextIsPendingOk(fields, first.s);
        UnresolvedReads(first.s, t);
        if t.pending.Some? {
          id := QuestionIsAnswer(pack, schema, s, t, text);
        } else {
          MovedOn(s, field, first, t);
          ReadBackIsAnswer(fields, s, field, Step(t, false, false));
        }
      }
    }
  }

  lemma ChooseNextFacts(schema: Schema, t: Snapshot)
    requires DistinctIds(schema.fields) && UnresolvedOk(t) && ReadsBackPending(t)
    requires !Terminal(t.status) ==>
      AwaitingOk(schema.fields, t) && (t.status == Complete ==> CompleteOk(schema.fields, t))
    ensures var after := ChooseNext(schema, t);
      && Inv(schema.fields, after) && after.fields == t.fields && after.attempts == t.attempts
      && (after.status == t.status || (t.status == InProgress && after.status == Complete))
      && (after.status == InProgress ==> Remaining(schema.fields, after) <= Weighed(schema.fields, t))
  {
    hide UnresolvedOk;
    var u := if |t.unresolved| >= schema.maxUnresolvedFields then t.(humanRequested := true) else t;
    NextIsPendingOk(schema.fields, u);
    var after := ChooseNext(schema, t);
    UnresolvedReads(t, after);
    SameTotal(schema.fields, t, after);
    forall f | f in schema.fields ensures Open(after, f) == Open(u, f) == Open(t, f) {}
  }

  lemma {:induction false} SameTotal(fields: seq<Field>, a: Snapshot, b: Snapshot)
    requires a.fields == b.fields && a.attempts == b.attempts
    ensures Total(fields, a) == Total(fields, b)
  {
    if fields != [] { SameTotal(fields[1..], a, b); }
  }

  // ---- every utterance, every conversation -----------------------------------

  /** One utterance keeps the invariant, changes what is known about one field at
      most, never reopens a closed or complete conversation, and, while the
      conversation goes on, leaves strictly less to do when anything was said. */
  lemma EveryUtterance(pack: Pack, schema: Schema, s: Snapshot, utterance: Str) returns (id: Id)
    requires DistinctIds(schema.fields) && Inv(schema.fields, s)
    ensures var t := Apply(pack, schema, s, utterance);
      && Inv(schema.fields, t) && OnlyTouches(s, t, id)
      && (Terminal(s.status) ==> t == s)
      && (s.status == Complete ==> t.status != InProgress && t.fields == s.fields)
      && (s.status == InProgress && t.status == InProgress ==>
            Remaining(schema.fields, t) + (if Trim(utterance) != [] then 1 else 0) <= Remaining(schema.fields, s))
  {
    hide Inv;
    hide OnlyTouches;
    hide AnswerStep;
    hide ChooseNext;
    hide Remaining;
    hide Trim;
    id := "";
    var text := Trim(utterance);
    var heard := if Human in pack.intents(text) then s.(humanRequested := true) else s;
    Untouched(schema.fields, s, s);
    if Terminal(s.status) {
    } else if text == [] {
      OnlyChoosing(schema, s, s);
    } else {
      Closing(schema.fields, s);
      HumanKeepsInv(schema.fields, s);
      Closing(schema.fields, heard);
      Untouched(schema.fields, s, heard);
      var intents := pack.intents(text);
      if DoNotCall !in intents && WrongNumber !in intents && CallBackLater !in intents {
        if s.status == Complete {
          CompleteStays(pack, schema, heard, text);
          OnlyChoosing(schema, s, heard);
        } else {
          id := AnswerStepFacts(pack, schema, heard, text);
          AnswerThenChoose(schema, heard, AnswerStep(pack, schema, heard, text), id);
          TouchesFrom(s, heard, Apply(pack, schema, s, utterance), id);
          RemainingReads(schema.fields, s, heard);
        }
      }
    }
  }

  lemma Untouched(fields: seq<Field>, a: Snapshot, b: Snapshot)
    requires a.fields == b.fields && a.attempts == b.attempts
    ensures OnlyTouches(a, b, "")
    ensures forall status :: OnlyTouches(a, Close(b, status), "")
  {
  }

  lemma TouchesFrom(a: Snapshot, b: Snapshot, c: Snapshot, id: Id)
    requires a.fields == b.fields && a.attempts == b.attempts && OnlyTouches(b, c, id)
    ensures OnlyTouches(a, c, id)
  {
  }

  lemma OnlyChoosing(schema: Schema, a: Snapshot, s: Snapshot)
    requires DistinctIds(schema.fields) && Inv(schema.fields, s) && !Terminal(s.status)
    requires a.fields == s.fields && a.attempts == s.attempts
    ensures var t := ChooseNext(schema, s);
      && Inv(schema.fields, t) && OnlyTouches(a, t, "") && t.fields == a.fields
      && (s.status == Complete ==> t.status == Complete)
      && (t.status == InProgress ==> Remaining(schema.fields, t) <= Remaining(schema.fields, s))
  {
    hide Remaining;
    ChooseNextFacts(schema, s);
    WeighedRemains(schema.fields, s);
  }

  lemma WeighedRemains(fields: seq<Field>, s: Snapshot)
    ensures Weighed(fields, s) <= Remaining(fields, s)
  {
  }

  lemma RemainingReads(fields: seq<Field>, a: Snapshot, b: Snapshot)
    requires a.fields == b.fields && a.attempts == b.attempts && a.awaiting == b.awaiting && a.pending == b.pending
    ensures Remaining(fields, a) == Remaining(fields, b)
  {
    SameTotal(fields, a, b);
  }

  lemma Closing(fields: seq<Field>, s: Snapshot)
    requires Inv(fields, s)
    ensures forall status :: Terminal(status) ==> Inv(fields, Close(s, status))
  {
  }

  lemma HumanKeepsInv(fields: seq<Field>, s: Snapshot)
    requires Inv(fields, s)
    ensures Inv(fields, s.(humanRequested := true))
  {
    var t := s.(humanRequested := true);
    forall f | f in fields ensures Open(t, f) == Open(s, f) {}
  }

  lemma CompleteStays(pack: Pack, schema: Schema, s: Snapshot, text: Str)
    requires Inv(schema.fields, s) && s.status == Complete
    ensures AnswerStep(pack, schema, s, text) == Step(s, false, false)
  {
  }

  lemma AnswerThenChoose(schema: Schema, s: Snapshot, step: Step, id: Id)
    requires DistinctIds(schema.fields) && AnswerResult(schema.fields, s, step, id)
    ensures var t := if step.stops then step.s else ChooseNext(schema, step.s);
      && Inv(schema.fields, t) && OnlyTouches(s, t, id)
      && (t.status == InProgress ==> Remaining(schema.fields, t) < Remaining(schema.fields, s))
  {
    hide UnresolvedOk;
    hide Remaining;
    hide Weighed;
    if !step.stops { ChooseNextFacts(schema, step.s); }
  }

  /** A conversation, from the empty snapshot. */
  function Converse(pack: Pack, schema: Schema, utterances: seq<Str>): Snapshot {
    if utterances == [] then EMPTY
    else Apply(pack, schema, Converse(pack, schema, utterances[..|utterances| - 1]), utterances[|utterances| - 1])
  }

  /** How many utterances said anything. */
  function Said(utterances: seq<Str>): nat {
    if utterances == [] then 0
    else Said(utterances[..|utterances| - 1]) + if Trim(utterances[|utterances| - 1]) != [] then 1 else 0
  }

  function SumOfAttempts(fields: seq<Field>): nat {
    if fields == [] then 0 else fields[0].maxAttempts + SumOfAttempts(fields[1..])
  }

  lemma {:induction false} TotalAtStart(fields: seq<Field>)
    ensures Total(fields, EMPTY) == 3 * SumOfAttempts(fields) + 2 * |fields|
  {
    if fields != [] { TotalAtStart(fields[1..]); }
  }

  lemma {:induction false} ConversationInvariant(pack: Pack, schema: Schema, utterances: seq<Str>)
    requires DistinctIds(schema.fields)
    ensures var s := Converse(pack, schema, utterances);
      && Inv(schema.fields, s) && FilledIffReadBack(s)
      && (s.status == InProgress ==>
            Remaining(schema.fields, s) + Said(utterances) <= Remaining(schema.fields, EMPTY))
  {
    hide Apply;
    hide Remaining;
    if utterances != [] {
      var before := utterances[..|utterances| - 1];
      ConversationInvariant(pack, schema, before);
      var id := EveryUtterance(pack, schema, Converse(pack, schema, before), utterances[|utterances| - 1]);
    }
  }

  /** The dialogue cannot loop: however the caller answers, it is complete or
      closed within 3 * (sum of attempts) + 2 * fields + 1 utterances. */
  lemma {:induction false} ConversationEnds(pack: Pack, schema: Schema, utterances: seq<Str>)
    requires DistinctIds(schema.fields)
    requires Said(utterances) >= 3 * SumOfAttempts(schema.fields) + 2 * |schema.fields| + 1
    ensures Converse(pack, schema, utterances).status != InProgress
  {
    hide Apply;
    ConversationInvariant(pack, schema, utterances);
    TotalAtStart(schema.fields);
    var s := Converse(pack, schema, utterances);
    if s.status == InProgress && Remaining(schema.fields, s) == 0 {
      SomethingIsLeft(schema.fields, s);
    }
  }

  lemma SomethingIsLeft(fields: seq<Field>, s: Snapshot)
    requires DistinctIds(fields) && Inv(fields, s) && s.status == InProgress
    ensures Remaining(fields, s) > 0
  {
    if s.awaiting.None? && s.pending.Some? {
      PartOfTotal(fields, s, FieldById(fields, s.pending.value).value);
    }
  }

  lemma {:induction false} PartOfTotal(fields: seq<Field>, s: Snapshot, field: Field)
    requires field in fields
    ensures Weight(field, s) <= Total(fields, s)
  {
    if fields[0] != field { PartOfTotal(fields[1..], s, field); }
  }

  // ---- the step-by-step form ---------------------------------------------------

  /** The engine's own form: a copied snapshot, changed step by step. */
  method ApplyUtterance(pack: Pack, schema: Schema, previous: Snapshot, utterance: Str) returns (s: Snapshot)
    ensures s == Apply(pack, schema, previous, utterance)
  {
    hide Trim;
    hide AnswerConfirmation;
    hide AnswerQuestion;
    hide NextField;
    s := previous;
    var text := Trim(utterance);
    if Terminal(s.status) { return; }
    if text != [] {
      var intents := pack.intents(text);
      if DoNotCall in intents { return Close(s, DoNotCallStatus); }
      if WrongNumber in intents { return Close(s, WrongNumberStatus); }
      if Human in intents { s := s.(humanRequested := true); }
      if CallBackLater in intents { return Close(s, CallbackRequested); }

      var consumed := s.awaiting.Some?;
      var hadConfirmation := consumed;
      if s.awaiting.Some? {
        var stops: bool;
        s, consumed, stops := Confirm(pack, schema, s, text);
        if stops { return; }
      }
      if hadConfirmation && !consumed && s.awaiting.None? {
        s := s.(pending := IdOf(NextField(schema.fields, s)));
      }
      if s.awaiting.None? && !consumed && s.pending.Some? {
        var stops: bool;
        s, stops := Answer(pack, schema, s, text);
        if stops { return; }
      }
    }
    if |s.unresolved| >= schema.maxUnresolvedFields { s := s.(humanRequested := true); }
    if s.awaiting.None? {
      var next := NextField(schema.fields, s);
      s := s.(pending := IdOf(next));
      if next.None? && s.status == InProgress { s := s.(status := Complete); }
    }
  }

  method Answer(pack: Pack, schema: Schema, before: Snapshot, text: Str) returns (s: Snapshot, stops: bool)
    requires before.pending.Some?
    ensures Step(s, true, stops) == AnswerQuestion(pack, schema, before, text)
  {
    s, stops := before, false;
    var field := FieldById(schema.fields, s.pending.value);
    if field.Some? {
      var f := field.value;
      if DontKnow in pack.intents(text) {
        s := Keep(s, f.id, FieldValue([], text, 0.0, false, None, true));
        if f.required && f.id !in s.unresolved { s := s.(unresolved := s.unresolved + [f.id]); }
      } else {
        var found := pack.extract(f, text);
        if found.Some? {
          s := CaptureField(s, f, found.value);
          stops := Terminal(s.status);
        } else {
          s := BumpAttempt(s, f);
        }
      }
    }
  }

  method Confirm(pack: Pack, schema: Schema, before: Snapshot, text: Str)
    returns (s: Snapshot, consumed: bool, stops: bool)
    requires before.awaiting.Some?
    ensures Step(s, consumed, stops) == AnswerConfirmation(pack, schema, before, text)
  {
    s, consumed, stops := before, true, false;
    var id := s.awaiting.value;
    var field := FieldById(schema.fields, id);
    var intents := pack.intents(text);
    var affirmed, denied := Affirm in intents, Deny in intents;
    var energy := field.Some? && field.value.kind == EnergyOrMoney;
    var clarified := if energy then pack.extract(field.value, text) else None;
    if clarified.Some? && clarified.value.measure.Some? && !HasMeasure(s, id) {
      s := Keep(s, id, Value(clarified.value).(confirmed := true, confidence := Max(clarified.value.confidence, 0.9)));
      s := ApplyDisqualifier(Released(s), field);
    } else if affirmed && !denied && (!energy || HasMeasure(s, id)) {
      if id in s.fields {
        s := Keep(s, id, s.fields[id].(confirmed := true, confidence := Max(s.fields[id].confidence, 0.95)));
      }
      s := ApplyDisqualifier(Released(s), field);
      stops := Terminal(s.status);
    } else if energy && affirmed && !denied && id in s.fields && !HasMeasure(s, id) {
      s := BumpAttempt(s, field.value);
      if Attempts(s, id) >= field.value.maxAttempts {
        s := Released(s).(unresolved := Without(s.unresolved, id));
      }
    } else if field.Some? {
      var corrected := if denied || Restatable(field.value.kind) then pack.extract(field.value, text) else None;
      if corrected.Some? {
        s := Keep(s, id, Value(corrected.value));
        if field.value.confirm || corrected.value.confidence < CONFIRMATION_THRESHOLD {
          s := BumpAttempt(s, field.value);
          if Attempts(s, id) >= field.value.maxAttempts { s := Released(s); }
        } else {
          s := ApplyDisqualifier(Released(s), field);
          stops := Terminal(s.status);
        }
      } else if denied {
        s := Released(s).(fields := s.fields - {id});
        s := BumpAttempt(s, field.value);
      } else if !field.value.confirm {
        s := ApplyDisqualifier(Released(s), field);
        stops := Terminal(s.status);
        consumed := false;
      } else {
        s := BumpAttempt(s, field.value);
        if Attempts(s, id) >= field.value.maxAttempts { s := Released(s); }
      }
    }
  }
}
