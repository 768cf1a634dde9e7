/** What a captured value is worth: it is what the parser heard, and nothing uncertain
    is accepted without having been read back. */
module QualificationValues {
  import opened Common
  import opened Text
  import opened Qualification

  /** The value may be relied on, is about to be confirmed, or was asked for as often as
      it may be. */
  predicate Trusted(s: Snapshot, field: Field)
    requires field.id in s.fields
  {
    var v := s.fields[field.id];
    || v.confirmed
    || (!field.confirm && v.confidence >= 0.8)
    || (!field.confirm && (field.kind == FreeText || field.kind == Time))
    || s.awaiting == Some(field.id)
    || Attempts(s, field.id) >= field.maxAttempts
  }

  /** The words are those the parser found in the utterance, or those known before, which
      the caller has now confirmed. */
  predicate WellFounded(pack: Pack, s: Snapshot, t: Snapshot, field: Field, text: Str)
    requires field.id in t.fields
  {
    var v, found := t.fields[field.id], pack.extract(field, text);
    || (found.Some? && v.value == found.value.value && v.raw == found.value.raw && v.measure == found.value.measure)
    || (&& field.id in s.fields && v.value == s.fields[field.id].value && v.raw == s.fields[field.id].raw
        && v.measure == s.fields[field.id].measure && v.unknown == s.fields[field.id].unknown && v.confirmed)
  }

  predicate Changed(s: Snapshot, t: Snapshot, id: Id) {
    Answered(t, id) && (id !in s.fields || s.fields[id] != t.fields[id])
  }

  /** What holds of one field after a step that may have changed it. */
  predicate StepOk(pack: Pack, s: Snapshot, t: Snapshot, field: Field, text: Str) {
    && (Changed(s, t, field.id) ==> Trusted(t, field) && WellFounded(pack, s, t, field, text))
    && Attempts(s, field.id) <= Attempts(t, field.id)
    && (field.confirm && Answered(t, field.id) && s.awaiting == Some(field.id) ==>
          Terminal(t.status) || Trusted(t, field))
  }

  lemma DisqualifiedReads(s: Snapshot, field: Option<Field>)
    ensures var t := ApplyDisqualifier(s, field);
      && t.fields == s.fields && t.attempts == s.attempts
      && (t.awaiting == s.awaiting || (t.awaiting.None? && Terminal(t.status)))
  {
  }

  lemma BumpReads(s: Snapshot, field: Field)
    ensures var t := BumpAttempt(s, field);
      t.fields == s.fields && t.awaiting == s.awaiting && Attempts(t, field.id) == Attempts(s, field.id) + 1
  {
  }

  lemma AskAgainTrusts(s: Snapshot, field: Field)
    requires s.awaiting == Some(field.id) && field.id in s.fields
    ensures var t := AskAgain(s, field);
      t.fields == s.fields && Trusted(t, field) && Attempts(s, field.id) <= Attempts(t, field.id)
  {
    BumpReads(s, field);
  }

  /** The value may be what the parser found, or what was known, confirmed. */
  predicate Proper(pack: Pack, s: Snapshot, v: FieldValue, field: Field, text: Str)
    requires field.id in s.fields
  {
    WellFounded(pack, s, Keep(s, field.id, v), field, text)
  }

  /** A read-back that ends with `v`. */
  lemma EndedOk(pack: Pack, s: Snapshot, v: FieldValue, field: Field, text: Str)
    requires field.id in s.fields && Proper(pack, s, v, field, text)
    requires v.confirmed || (!field.confirm && v.confidence >= 0.8)
    ensures StepOk(pack, s, ApplyDisqualifier(Released(Keep(s, field.id, v)), Some(field)), field, text)
  {
    hide ApplyDisqualifier;
    DisqualifiedReads(Released(Keep(s, field.id, v)), Some(field));
  }

  /** A read-back of `v` that is asked again. */
  lemma AgainOk(pack: Pack, s: Snapshot, v: FieldValue, field: Field, text: Str)
    requires s.awaiting == Some(field.id) && field.id in s.fields
    requires v == s.fields[field.id] || Proper(pack, s, v, field, text)
    ensures StepOk(pack, s, AskAgain(Keep(s, field.id, v), field), field, text)
  {
    hide AskAgain;
    AskAgainTrusts(Keep(s, field.id, v), field);
  }

  lemma UnitOk(pack: Pack, s: Snapshot, field: Field, text: Str)
    requires s.awaiting == Some(field.id) && field.id in s.fields
    ensures var t := BumpAttempt(s, field);
      StepOk(pack, s, if Attempts(t, field.id) >= field.maxAttempts
                      then Released(t).(unresolved := Without(t.unresolved, field.id)) else t, field, text)
  {
    hide BumpAttempt;
    BumpReads(s, field);
  }

  lemma DeniedOk(pack: Pack, s: Snapshot, field: Field, text: Str)
    requires s.awaiting == Some(field.id) && field.id in s.fields
    ensures StepOk(pack, s, BumpAttempt(Released(s).(fields := s.fields - {field.id}), field), field, text)
  {
    hide BumpAttempt;
    BumpReads(Released(s).(fields := s.fields - {field.id}), field);
  }

  lemma PassedOk(pack: Pack, s: Snapshot, field: Field, text: Str)
    requires !field.confirm
    ensures StepOk(pack, s, ApplyDisqualifier(Released(s), Some(field)), field, text)
  {
    DisqualifiedReads(Released(s), Some(field));
  }

  lemma ConfirmationOk(pack: Pack, schema: Schema, s: Snapshot, text: Str, field: Field)
    requires s.awaiting == Some(field.id) && FieldById(schema.fields, field.id) == Some(field)
    requires Answered(s, field.id)
    ensures StepOk(pack, s, AnswerConfirmation(pack, schema, s, text).s, field, text)
  {
    hide StepOk;
    hide ApplyDisqualifier;
    hide BumpAttempt;
    hide AskAgain;
    var id, found, intents := field.id, pack.extract(field, text), pack.intents(text);
    var affirmed, denied := Affirm in intents, Deny in intents;
    var energy := field.kind == EnergyOrMoney;
    assert Keep(s, id, s.fields[id]) == s by { assert s.fields[id := s.fields[id]] == s.fields; }
    if energy && found.Some? && found.value.measure.Some? && !HasMeasure(s, id) {
      EndedOk(pack, s, Value(found.value).(confirmed := true, confidence := Max(found.value.confidence, 0.9)), field,
              text);
    } else if affirmed && !denied && (!energy || HasMeasure(s, id)) {
      EndedOk(pack, s, s.fields[id].(confirmed := true, confidence := Max(s.fields[id].confidence, 0.95)), field, text);
    } else if energy && affirmed && !denied {
      UnitOk(pack, s, field, text);
    } else if (denied || Restatable(field.kind)) && found.Some? {
      var v := Value(found.value);
      if field.confirm || v.confidence < CONFIRMATION_THRESHOLD { AgainOk(pack, s, v, field, text); }
      else { EndedOk(pack, s, v, field, text); }
    } else if denied {
      DeniedOk(pack, s, field, text);
    } else if !field.confirm {
      PassedOk(pack, s, field, text);
    } else {
      AgainOk(pack, s, s.fields[id], field, text);
    }
  }

  lemma QuestionOk(pack: Pack, schema: Schema, s: Snapshot, text: Str, field: Field)
    requires s.pending == Some(field.id) && s.awaiting.None? && FieldById(schema.fields, field.id) == Some(field)
    ensures StepOk(pack, s, AnswerQuestion(pack, schema, s, text).s, field, text)
  {
    hide BumpAttempt;
    hide ApplyDisqualifier;
    BumpReads(s, field);
    var found := pack.extract(field, text);
    if found.Some? {
      DisqualifiedReads(Keep(s, field.id, Value(found.value)).(unresolved := Without(s.unresolved, field.id)),
                        Some(field));
    }
  }

  /** The answer to a question is read back exactly when the field asks for it, or the
      parser was not sure; never the caller's own words or times. */
  lemma ReadBackIff(pack: Pack, schema: Schema, s: Snapshot, text: Str, field: Field)
    requires s.pending == Some(field.id) && s.awaiting.None? && FieldById(schema.fields, field.id) == Some(field)
    ensures var t, found := AnswerQuestion(pack, schema, s, text).s, pack.extract(field, text);
      t.awaiting == Some(field.id) <==>
        && DontKnow !in pack.intents(text) && found.Some?
        && (field.confirm || (found.value.confidence < 0.8 && field.kind != FreeText && field.kind != Time))
  {
    BumpReads(s, field);
  }

  // ---- one utterance --------------------------------------------------------------------

  /** Every known value that a step changed, or left open, is in order. */
  ghost predicate AllOk(pack: Pack, fields: seq<Field>, s: Snapshot, t: Snapshot, text: Str) {
    && (forall f :: f in fields ==> StepOk(pack, s, t, f, text))
    && (forall id :: Changed(s, t, id) ==> exists f :: f in fields && f.id == id)
  }

  lemma OthersOk(pack: Pack, fields: seq<Field>, s: Snapshot, t: Snapshot, text: Str, field: Field)
    requires DistinctIds(fields) && field in fields && OnlyTouches(s, t, field.id) && StepOk(pack, s, t, field, text)
    requires s.awaiting.None? || s.awaiting == Some(field.id)
    ensures AllOk(pack, fields, s, t, text)
  {
    hide WellFounded;
    hide Trusted;
    forall f | f in fields ensures StepOk(pack, s, t, f, text) {
      if f.id == field.id { SameField(fields, f, field); }
    }
    forall id | Changed(s, t, id) ensures exists f :: f in fields && f.id == id {}
  }

  lemma SameField(fields: seq<Field>, a: Field, b: Field)
    requires DistinctIds(fields) && a in fields && b in fields && a.id == b.id
    ensures a == b
  {
  }

  lemma NothingChanged(pack: Pack, fields: seq<Field>, s: Snapshot, t: Snapshot, text: Str)
    requires s.fields == t.fields && s.attempts == t.attempts && (Terminal(t.status) || t.awaiting == s.awaiting)
    ensures AllOk(pack, fields, s, t, text)
  {
  }

  /** Reading on: what the next step only chooses a question after. */
  lemma ChosenOk(pack: Pack, schema: Schema, s: Snapshot, t: Snapshot, text: Str)
    requires AllOk(pack, schema.fields, s, t, text)
    ensures AllOk(pack, schema.fields, s, ChooseNext(schema, t), text)
  {
    var after := ChooseNext(schema, t);
    assert after.fields == t.fields && after.attempts == t.attempts && after.awaiting == t.awaiting;
    forall f | f in schema.fields ensures StepOk(pack, s, after, f, text) {
      assert StepOk(pack, s, t, f, text);
    }
    forall id | Changed(s, after, id) ensures exists f :: f in schema.fields && f.id == id {
      assert Changed(s, t, id);
    }
  }

  /** One utterance, from any snapshot the dialogue can be in: what it changed is what the
      parser heard, or what the caller confirmed; and it is confirmed, certain enough,
      verbatim, about to be read back, or out of attempts. */
  lemma {:induction false} UtteranceValues(pack: Pack, schema: Schema, s: Snapshot, utterance: Str)
    requires DistinctIds(schema.fields) && Inv(schema.fields, s)
    ensures AllOk(pack, schema.fields, s, Apply(pack, schema, s, utterance), Trim(utterance))
  {
    hide AllOk;
    hide AnswerStep;
    hide ChooseNext;
    hide Inv;
    hide Trim;
    var text := Trim(utterance);
    var fields := schema.fields;
    var heard := if Human in pack.intents(text) then s.(humanRequested := true) else s;
    NothingChanged(pack, fields, s, s, text);
    NothingChanged(pack, fields, s, Close(s, DoNotCallStatus), text);
    NothingChanged(pack, fields, s, Close(s, WrongNumberStatus), text);
    NothingChanged(pack, fields, s, Close(heard, CallbackRequested), text);
    if !Terminal(s.status) {
      ChosenOk(pack, schema, s, s, text);
      if text != [] {
        HumanKeepsInv(fields, s);
        AnswerValues(pack, schema, heard, text);
        HumanReads(pack, fields, s, heard, AnswerStep(pack, schema, heard, text).s, text);
        ChosenOk(pack, schema, s, AnswerStep(pack, schema, heard, text).s, text);
      }
    }
  }

  lemma HumanReads(pack: Pack, fields: seq<Field>, a: Snapshot, b: Snapshot, t: Snapshot, text: Str)
    requires a.fields == b.fields && a.attempts == b.attempts && a.awaiting == b.awaiting
    requires AllOk(pack, fields, b, t, text)
    ensures AllOk(pack, fields, a, t, text)
  {
    forall f | f in fields ensures StepOk(pack, a, t, f, text) { assert StepOk(pack, b, t, f, text); }
    forall id | Changed(a, t, id) ensures exists f :: f in fields && f.id == id { assert Changed(b, t, id); }
  }

  /** The answering part of an utterance. */
  lemma AnswerValues(pack: Pack, schema: Schema, s: Snapshot, text: Str)
    requires DistinctIds(schema.fields) && Inv(schema.fields, s) && !Terminal(s.status)
    ensures AllOk(pack, schema.fields, s, AnswerStep(pack, schema, s, text).s, text)
  {
    hide AllOk;
    hide AnswerConfirmation;
    hide AnswerQuestion;
    hide UnresolvedOk;
    if s.status == Complete {
      NothingChanged(pack, schema.fields, s, s, text);
    } else if s.awaiting.Some? {
      var field := FieldById(schema.fields, s.awaiting.value).value;
      ConfirmFacts(pack, schema, s, text);
      ConfirmationOk(pack, schema, s, text, field);
      var first := AnswerConfirmation(pack, schema, s, text);
      OthersOk(pack, schema.fields, s, first.s, text, field);
      if !first.stops && !first.consumed { MovedOnValues(pack, schema, s, text, field); }
    } else if s.pending.Some? {
      var field := FieldById(schema.fields, s.pending.value).value;
      QuestionFacts(pack, schema, s, text);
      QuestionOk(pack, schema, s, text, field);
      OthersOk(pack, schema.fields, s, AnswerQuestion(pack, schema, s, text).s, text, field);
    } else {
      NothingChanged(pack, schema.fields, s, s, text);
    }
  }

  /** The read-back of a field that need not be confirmed was passed over: the utterance
      answers the next question. */
  lemma MovedOnValues(pack: Pack, schema: Schema, s: Snapshot, text: Str, field: Field)
    requires DistinctIds(schema.fields) && Inv(schema.fields, s) && s.status == InProgress
    requires s.awaiting == Some(field.id) && FieldById(schema.fields, field.id) == Some(field)
    requires var first := AnswerConfirmation(pack, schema, s, text); !first.stops && !first.consumed
    ensures AllOk(pack, schema.fields, s, AnswerStep(pack, schema, s, text).s, text)
  {
    hide AllOk;
    hide AnswerQuestion;
    hide UnresolvedOk;
    ConfirmFacts(pack, schema, s, text);
    NotConfirmed(pack, schema, s, text, field);
    hide AnswerConfirmation;
    var first := AnswerConfirmation(pack, schema, s, text).s;
    var t := first.(pending := IdOf(NextField(schema.fields, first)));
    NextIsPendingOk(schema.fields, first);
    if t.pending.Some? {
      var next := FieldById(schema.fields, t.pending.value).value;
      UnresolvedReads(first, t);
      QuestionFacts(pack, schema, t, text);
      QuestionOk(pack, schema, t, text, next);
      var after := AnswerQuestion(pack, schema, t, text).s;
      OthersOk(pack, schema.fields, t, after, text, next);
      PassedOver(pack, schema.fields, s, t, after, text, field);
    } else {
      NothingChanged(pack, schema.fields, t, t, text);
      PassedOver(pack, schema.fields, s, t, t, text, field);
    }
  }

  lemma NotConfirmed(pack: Pack, schema: Schema, s: Snapshot, text: Str, field: Field)
    requires s.awaiting == Some(field.id) && FieldById(schema.fields, field.id) == Some(field)
    ensures !AnswerConfirmation(pack, schema, s, text).consumed ==> !field.confirm
  {
  }

  lemma PassedOver(pack: Pack, fields: seq<Field>, s: Snapshot, t: Snapshot, after: Snapshot, text: Str, field: Field)
    requires DistinctIds(fields) && field in fields && !field.confirm && s.awaiting == Some(field.id)
    requires s.fields == t.fields && s.attempts == t.attempts && AllOk(pack, fields, t, after, text)
    ensures AllOk(pack, fields, s, after, text)
  {
    forall f | f in fields ensures StepOk(pack, s, after, f, text) {
      assert StepOk(pack, t, after, f, text);
      if f.id == field.id { SameField(fields, f, field); }
    }
    forall id | Changed(s, after, id) ensures exists f :: f in fields && f.id == id { assert Changed(t, after, id); }
  }

  // ---- every conversation -----------------------------------------------------------------

  /** Of the fields that must be confirmed: a known value is confirmed, is being read
      back, or has used up its attempts. */
  ghost predicate NothingSilently(fields: seq<Field>, s: Snapshot) {
    forall f :: f in fields && f.confirm && Answered(s, f.id) ==> IsConfirmed(s, f)
  }

  predicate IsConfirmed(s: Snapshot, f: Field)
    requires f.id in s.fields
  {
    s.fields[f.id].confirmed || s.awaiting == Some(f.id) || Attempts(s, f.id) >= f.maxAttempts
  }

  lemma StillConfirmed(pack: Pack, fields: seq<Field>, s: Snapshot, t: Snapshot, text: Str)
    requires NothingSilently(fields, s) && AllOk(pack, fields, s, t, text) && !Terminal(t.status)
    ensures NothingSilently(fields, t)
  {
    hide WellFounded;
    forall f | f in fields && f.confirm && Answered(t, f.id) ensures IsConfirmed(t, f) {
      assert StepOk(pack, s, t, f, text);
      if !Changed(s, t, f.id) { assert Answered(s, f.id) && IsConfirmed(s, f); }
    }
  }

  /** Over every conversation that is not closed. */
  lemma {:induction false} NothingIsAcceptedSilently(pack: Pack, schema: Schema, utterances: seq<Str>)
    requires DistinctIds(schema.fields)
    ensures var s := Converse(pack, schema, utterances); !Terminal(s.status) ==> NothingSilently(schema.fields, s)
  {
    hide Apply;
    hide Inv;
    hide AllOk;
    hide IsConfirmed;
    if utterances != [] {
      var before, last := utterances[..|utterances| - 1], utterances[|utterances| - 1];
      var s := Converse(pack, schema, before);
      NothingIsAcceptedSilently(pack, schema, before);
      ConversationInvariant(pack, schema, before);
      UtteranceValues(pack, schema, s, last);
      var id := EveryUtterance(pack, schema, s, last);
      if !Terminal(Apply(pack, schema, s, last).status) {
        StillConfirmed(pack, schema.fields, s, Apply(pack, schema, s, last), Trim(last));
      }
    }
  }

  // ---- read-backs the caller passes over ---------------------------------------------------

  /** Neither confirmed, nor heard well enough to need no yes. */
  predicate Uncertain(s: Snapshot, field: Field) {
    field.id in s.fields && !s.fields[field.id].confirmed && (field.confirm || s.fields[field.id].confidence < 0.8)
  }

  /** It is kept uncertain and not asked about again, although there are attempts left. */
  predicate KeptUnconfirmed(s: Snapshot, field: Field) {
    Uncertain(s, field) && s.awaiting != Some(field.id) && Attempts(s, field.id) < field.maxAttempts
  }

  /** The answer to the read-back is neither yes, no, nor the value said again. */
  predicate PassesOver(pack: Pack, s: Snapshot, text: Str, field: Field) {
    && Uncertain(s, field) && !field.confirm
    && Affirm !in pack.intents(text) && Deny !in pack.intents(text)
    && !(Restatable(field.kind) && pack.extract(field, text).Some?)
  }

  lemma ReadBackKeeps(pack: Pack, schema: Schema, s: Snapshot, text: Str, field: Field)
    requires s.awaiting == Some(field.id) && FieldById(schema.fields, field.id) == Some(field)
    requires Answered(s, field.id) && Attempts(s, field.id) < field.maxAttempts
    ensures KeptUnconfirmed(AnswerConfirmation(pack, schema, s, text).s, field) <==>
      PassesOver(pack, s, text, field)
  {
    hide ApplyDisqualifier;
    hide BumpAttempt;
    hide AskAgain;
    var id, found, intents := field.id, pack.extract(field, text), pack.intents(text);
    var affirmed, denied := Affirm in intents, Deny in intents;
    var energy := field.kind == EnergyOrMoney;
    if energy && found.Some? && found.value.measure.Some? && !HasMeasure(s, id) {
      var v := Value(found.value).(confirmed := true, confidence := Max(found.value.confidence, 0.9));
      DisqualifiedReads(Released(Keep(s, id, v)), Some(field));
    } else if affirmed && !denied && (!energy || HasMeasure(s, id)) {
      var v := s.fields[id].(confirmed := true, confidence := Max(s.fields[id].confidence, 0.95));
      DisqualifiedReads(Released(Keep(s, id, v)), Some(field));
    } else if energy && affirmed && !denied {
      BumpReads(s, field);
    } else if (denied || Restatable(field.kind)) && found.Some? {
      DisqualifiedReads(Released(Keep(s, id, Value(found.value))), Some(field));
      AskAgainEnds(Keep(s, id, Value(found.value)), field);
    } else if denied {
      BumpReads(Released(s).(fields := s.fields - {id}), field);
    } else {
      DisqualifiedReads(Released(s), Some(field));
      AskAgainEnds(s, field);
    }
  }

  /** It stays being read back, or is out of attempts. */
  lemma AskAgainEnds(s: Snapshot, field: Field)
    requires s.awaiting == Some(field.id)
    ensures !KeptUnconfirmed(AskAgain(s, field), field)
  {
    BumpReads(s, field);
  }

  lemma ChoosingKeeps(schema: Schema, s: Snapshot, field: Field)
    ensures KeptUnconfirmed(ChooseNext(schema, s), field) <==> KeptUnconfirmed(s, field)
  {
  }

  /** A value that is being read back is kept unconfirmed, with attempts left, exactly when
      the field itself asks for no confirmation and the answer is neither yes, no, nor the
      value said again. */
  lemma KeptUnconfirmedIff(pack: Pack, schema: Schema, s: Snapshot, utterance: Str, field: Field)
    requires DistinctIds(schema.fields) && Inv(schema.fields, s) && !Terminal(s.status)
    requires s.awaiting == Some(field.id) && FieldById(schema.fields, field.id) == Some(field)
    requires Trim(utterance) != [] && pack.intents(Trim(utterance)) !! {DoNotCall, WrongNumber, CallBackLater}
    ensures KeptUnconfirmed(Apply(pack, schema, s, utterance), field) <==> PassesOver(pack, s, Trim(utterance), field)
  {
    hide Trim;
    hide Inv;
    hide AnswerStep;
    hide ChooseNext;
    hide KeptUnconfirmed;
    var text := Trim(utterance);
    var heard := if Human in pack.intents(text) then s.(humanRequested := true) else s;
    HumanKeepsInv(schema.fields, s);
    AskedIsAnswered(schema.fields, s, field);
    ChoosingKeeps(schema, AnswerStep(pack, schema, heard, text).s, field);
    ReadBackKeeps(pack, schema, heard, text, field);
    AnswerKeeps(pack, schema, heard, text, field);
  }

  lemma AskedIsAnswered(fields: seq<Field>, s: Snapshot, field: Field)
    requires Inv(fields, s) && !Terminal(s.status)
    requires s.awaiting == Some(field.id) && FieldById(fields, field.id) == Some(field)
    ensures Answered(s, field.id) && Attempts(s, field.id) < field.maxAttempts
  {
  }

  /** What follows a read-back does not touch the field it was about. */
  lemma AnswerKeeps(pack: Pack, schema: Schema, s: Snapshot, text: Str, field: Field)
    requires DistinctIds(schema.fields) && Inv(schema.fields, s) && !Terminal(s.status)
    requires s.awaiting == Some(field.id) && FieldById(schema.fields, field.id) == Some(field)
    ensures KeptUnconfirmed(AnswerStep(pack, schema, s, text).s, field) <==>
      KeptUnconfirmed(AnswerConfirmation(pack, schema, s, text).s, field)
  {
    hide AnswerConfirmation;
    hide AnswerQuestion;
    hide UnresolvedOk;
    ConfirmFacts(pack, schema, s, text);
    var first := AnswerConfirmation(pack, schema, s, text);
    if !first.stops && !first.consumed {
      var t := first.s.(pending := IdOf(NextField(schema.fields, first.s)));
      NextIsPendingOk(schema.fields, first.s);
      if t.pending.Some? {
        UnresolvedReads(first.s, t);
        QuestionFacts(pack, schema, t, text);
      }
    }
  }

  const BADLY_HEARD := Field("name", Name, true, false, None, None, 2)

  /** Reads every word as a value, never surely, and no utterance as an intent. */
  const UNSURE := Pack((t: Str) => {}, (f: Field, t: Str) => Some(Extracted(t, t, 0.5, None)))

  const ASKED := EMPTY.(pending := Some("name"))

  const READING :=
    ASKED.(fields := map["name" := FieldValue([65], [65], 0.5, false, None, false)], awaiting := Some("name"))

  lemma HearsBadly()
    ensures Apply(UNSURE, Schema([BADLY_HEARD], 1), ASKED, [65]) == READING
  {
    assert Trim([65]) == [65];
    assert UNSURE.intents([65]) == {};
    var t := AnswerQuestion(UNSURE, Schema([BADLY_HEARD], 1), ASKED, [65]).s;
    assert FieldById([BADLY_HEARD], "name") == Some(BADLY_HEARD);
    assert t.fields == READING.fields;
    assert Without([], "name") == [];
  }

  lemma GoesOn()
    ensures Apply(UNSURE, Schema([BADLY_HEARD], 1), READING, [66]) ==
      READING.(pending := None, awaiting := None, status := Complete)
  {
    assert Trim([66]) == [66];
    assert UNSURE.intents([66]) == {};
    assert FieldById([BADLY_HEARD], "name") == Some(BADLY_HEARD);
    var t := AnswerConfirmation(UNSURE, Schema([BADLY_HEARD], 1), READING, [66]).s;
    assert t == Released(READING);
    assert NextField([BADLY_HEARD], t) == None;
  }

  /** A name heard badly, and a caller who goes on without answering the read-back: the
      conversation is complete with that name. */
  lemma PassedOverInARun()
    ensures var s := Converse(UNSURE, Schema([BADLY_HEARD], 1), [[], [65], [66]]);
      s.status == Complete && KeptUnconfirmed(s, BADLY_HEARD) && s.fields["name"].value == [65]
  {
    var said: seq<Str> := [[], [65], [66]];
    assert said[..2][..1] == [[]] && said[..2] == [[], [65]] && said[..1][..0] == [];
    HearsBadly();
    GoesOn();
    hide Apply;
    hide AnswerStep;
    assert Converse(UNSURE, Schema([BADLY_HEARD], 1), [[]]) == ASKED by {
      Starts();
    }
    assert Converse(UNSURE, Schema([BADLY_HEARD], 1), said[..2]) == READING;
    assert Converse(UNSURE, Schema([BADLY_HEARD], 1), said)
      == READING.(pending := None, awaiting := None, status := Complete);
  }

  lemma Starts()
    ensures Apply(UNSURE, Schema([BADLY_HEARD], 1), EMPTY, []) == ASKED
  {
    assert NextField([BADLY_HEARD], EMPTY) == Some(BADLY_HEARD);
  }
}
