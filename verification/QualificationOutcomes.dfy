/** How a conversation comes out: what closes it, what disqualifies the caller, which
    fields are given up, and when a person is asked for. */
module QualificationOutcomes {
  import opened Common
  import opened Text
  import opened Qualification

  /** The known value of the field is one that disqualifies. */
  predicate Bars(s: Snapshot, field: Field) {
    field.disqualifyWhen.Some? && Answered(s, field.id) && s.fields[field.id].value in field.disqualifyWhen.value
  }

  /** A required field that the caller does not know, or was asked for too often. */
  predicate GivenUp(s: Snapshot, field: Field) {
    && field.required && !Answered(s, field.id)
    && (field.id in s.fields || (Attempts(s, field.id) > 0 && Attempts(s, field.id) >= field.maxAttempts))
  }

  predicate Pends(s: Snapshot, field: Field) {
    s.awaiting == Some(field.id) || Attempts(s, field.id) >= field.maxAttempts
  }

  predicate Listed(s: Snapshot, field: Field) { field.id in s.unresolved <==> GivenUp(s, field) }

  /** Between utterances: a value that disqualifies has ended the conversation, unless it
      is still to be confirmed or its attempts are spent; whoever is disqualified is so by
      such a value; and the unresolved fields are those that were given up. */
  ghost predicate Outcomes(fields: seq<Field>, s: Snapshot) {
    && (!Terminal(s.status) ==> forall f :: f in fields && Bars(s, f) ==> Pends(s, f))
    && (s.status == Disqualified ==> exists f :: f in fields && Bars(s, f) && s.disqualifiedBy == Some(f.id))
    && (forall f :: f in fields ==> Listed(s, f))
  }

  /** What one step does to the field it is about. */
  ghost predicate StepResult(s: Snapshot, t: Snapshot, field: Field) {
    && (t.status == s.status || (t.status == Disqualified && Bars(t, field) && t.disqualifiedBy == Some(field.id)))
    && (!Terminal(t.status) && Bars(t, field) ==> Pends(t, field))
    && Listed(t, field)
    && (forall x :: x != field.id ==> (x in t.unresolved <==> x in s.unresolved))
    && (!Terminal(t.status) ==> t.awaiting.None? || t.awaiting == Some(field.id))
  }

  lemma BumpChanges(s: Snapshot, field: Field)
    ensures var t := BumpAttempt(s, field);
      && t == s.(attempts := t.attempts, unresolved := t.unresolved)
      && Attempts(t, field.id) == Attempts(s, field.id) + 1
      && (forall x :: x != field.id ==> (x in t.unresolved <==> x in s.unresolved))
      && (field.id in t.unresolved <==>
            field.id in s.unresolved
            || (Attempts(t, field.id) >= field.maxAttempts && field.required && !Answered(s, field.id)))
  {
  }

  lemma DisqualifierChanges(s: Snapshot, field: Field)
    requires !Terminal(s.status)
    ensures var t := ApplyDisqualifier(s, Some(field));
      && t.fields == s.fields && t.attempts == s.attempts && t.unresolved == s.unresolved
      && (if Bars(s, field) then t.status == Disqualified && t.disqualifiedBy == Some(field.id) && t.awaiting.None?
          else t == s)
  {
  }

  // ---- the ways a read-back can go ---------------------------------------------------------

  lemma ReadBackEnded(s: Snapshot, v: FieldValue, field: Field)
    requires s.status == InProgress && s.awaiting == Some(field.id) && field.id !in s.unresolved && !v.unknown
    ensures StepResult(s, ApplyDisqualifier(Released(Keep(s, field.id, v)), Some(field)), field)
  {
    hide ApplyDisqualifier;
    DisqualifierChanges(Released(Keep(s, field.id, v)), field);
  }

  lemma ReadBackOpen(s: Snapshot, v: FieldValue, field: Field)
    requires s.status == InProgress && s.awaiting == Some(field.id) && field.id !in s.unresolved && !v.unknown
    ensures StepResult(s, AskAgain(Keep(s, field.id, v), field), field)
  {
    hide BumpAttempt;
    BumpChanges(Keep(s, field.id, v), field);
  }

  lemma UnitMissing(s: Snapshot, field: Field)
    requires s.status == InProgress && s.awaiting == Some(field.id) && field.id !in s.unresolved
    requires Answered(s, field.id)
    ensures var t := BumpAttempt(s, field);
      StepResult(s, if Attempts(t, field.id) >= field.maxAttempts
                    then Released(t).(unresolved := Without(t.unresolved, field.id)) else t, field)
  {
    hide BumpAttempt;
    BumpChanges(s, field);
  }

  lemma Denied(s: Snapshot, field: Field)
    requires s.status == InProgress && s.awaiting == Some(field.id) && field.id !in s.unresolved
    ensures StepResult(s, BumpAttempt(Released(s).(fields := s.fields - {field.id}), field), field)
  {
    hide BumpAttempt;
    BumpChanges(Released(s).(fields := s.fields - {field.id}), field);
  }

  lemma ConfirmationResult(pack: Pack, schema: Schema, s: Snapshot, text: Str, field: Field)
    requires s.status == InProgress && s.awaiting == Some(field.id) && FieldById(schema.fields, field.id) == Some(field)
    requires Answered(s, field.id) && field.id !in s.unresolved
    ensures StepResult(s, AnswerConfirmation(pack, schema, s, text).s, field)
  {
    hide StepResult;
    hide ApplyDisqualifier;
    hide BumpAttempt;
    hide AskAgain;
    var id, found, intents := field.id, pack.extract(field, text), pack.intents(text);
    var affirmed, denied := Affirm in intents, Deny in intents;
    var energy := field.kind == EnergyOrMoney;
    assert Keep(s, id, s.fields[id]) == s by { assert s.fields[id := s.fields[id]] == s.fields; }
    if energy && found.Some? && found.value.measure.Some? && !HasMeasure(s, id) {
      ReadBackEnded(s, Value(found.value).(confirmed := true, confidence := Max(found.value.confidence, 0.9)), field);
    } else if affirmed && !denied && (!energy || HasMeasure(s, id)) {
      ReadBackEnded(s, s.fields[id].(confirmed := true, confidence := Max(s.fields[id].confidence, 0.95)), field);
    } else if energy && affirmed && !denied {
      UnitMissing(s, field);
    } else if (denied || Restatable(field.kind)) && found.Some? {
      ReadBackOpen(s, Value(found.value), field);
      ReadBackEnded(s, Value(found.value), field);
    } else if denied {
      Denied(s, field);
    } else {
      ReadBackEnded(s, s.fields[id], field);
      ReadBackOpen(s, s.fields[id], field);
    }
  }

  // ---- the ways an answer can go --------------------------------------------------------------

  lemma Captured(s: Snapshot, v: FieldValue, field: Field)
    requires s.status == InProgress && s.awaiting.None? && !v.unknown
    ensures var kept := Keep(s, field.id, v).(unresolved := Without(s.unresolved, field.id));
      StepResult(s, kept.(awaiting := Some(field.id)), field)
        && StepResult(s, ApplyDisqualifier(kept, Some(field)), field)
  {
    hide ApplyDisqualifier;
    DisqualifierChanges(Keep(s, field.id, v).(unresolved := Without(s.unresolved, field.id)), field);
  }

  lemma NotUnderstoodResult(s: Snapshot, field: Field)
    requires s.status == InProgress && s.awaiting.None? && field.id !in s.fields && Listed(s, field)
    requires Attempts(s, field.id) < field.maxAttempts
    ensures StepResult(s, BumpAttempt(s, field), field)
  {
    hide BumpAttempt;
    BumpChanges(s, field);
  }

  lemma QuestionOutcome(pack: Pack, schema: Schema, s: Snapshot, text: Str, field: Field)
    requires s.status == InProgress && s.awaiting.None? && s.pending == Some(field.id)
    requires FieldById(schema.fields, field.id) == Some(field) && field.id !in s.fields && Listed(s, field)
    requires Attempts(s, field.id) < field.maxAttempts
    ensures StepResult(s, AnswerQuestion(pack, schema, s, text).s, field)
  {
    hide BumpAttempt;
    hide ApplyDisqualifier;
    NotUnderstoodResult(s, field);
    var found := pack.extract(field, text);
    if found.Some? { Captured(s, Value(found.value), field); }
  }

  // ---- whole utterances ------------------------------------------------------------------------

  lemma SameField(fields: seq<Field>, a: Field, b: Field)
    requires DistinctIds(fields) && a in fields && b in fields && a.id == b.id
    ensures a == b
  {
  }

  lemma OutcomesStep(fields: seq<Field>, s: Snapshot, t: Snapshot, field: Field)
    requires DistinctIds(fields) && field in fields && Outcomes(fields, s) && s.status == InProgress
    requires OnlyTouches(s, t, field.id) && StepResult(s, t, field)
    requires s.awaiting.None? || s.awaiting == Some(field.id)
    ensures Outcomes(fields, t)
  {
    forall f | f in fields ensures Listed(t, f) && (!Terminal(t.status) && Bars(t, f) ==> Pends(t, f)) {
      if f.id == field.id {
        SameField(fields, f, field);
      } else {
        assert Listed(s, f) && Bars(t, f) == Bars(s, f);
      }
    }
  }

  /** What neither a question nor a closing changes. */
  lemma OutcomesRead(fields: seq<Field>, s: Snapshot, t: Snapshot)
    requires Outcomes(fields, s) && t.fields == s.fields && t.attempts == s.attempts && t.unresolved == s.unresolved
    requires t.status == Disqualified <==> s.status == Disqualified
    requires t.disqualifiedBy == s.disqualifiedBy
    requires !Terminal(t.status) ==> !Terminal(s.status) && t.awaiting == s.awaiting
    ensures Outcomes(fields, t)
  {
    forall f | f in fields ensures Listed(t, f) && (!Terminal(t.status) && Bars(t, f) ==> Pends(t, f)) {
      assert Listed(s, f) && Bars(t, f) == Bars(s, f);
    }
    if t.status == Disqualified {
      var f :| f in fields && Bars(s, f) && s.disqualifiedBy == Some(f.id);
      assert Bars(t, f);
    }
  }

  lemma AnswerOutcomes(pack: Pack, schema: Schema, s: Snapshot, text: Str)
    requires DistinctIds(schema.fields) && Inv(schema.fields, s) && s.status == InProgress && Outcomes(schema.fields, s)
    ensures Outcomes(schema.fields, AnswerStep(pack, schema, s, text).s)
  {
    hide AnswerConfirmation;
    hide AnswerQuestion;
    hide UnresolvedOk;
    hide Outcomes;
    hide StepResult;
    if s.awaiting.Some? {
      var field := FieldById(schema.fields, s.awaiting.value).value;
      ConfirmFacts(pack, schema, s, text);
      ConfirmationResult(pack, schema, s, text, field);
      var first := AnswerConfirmation(pack, schema, s, text);
      OutcomesStep(schema.fields, s, first.s, field);
      if !first.stops && !first.consumed {
        var t := first.s.(pending := IdOf(NextField(schema.fields, first.s)));
        OutcomesRead(schema.fields, first.s, t);
        NextIsPendingOk(schema.fields, first.s);
        UnresolvedReads(first.s, t);
        if t.pending.Some? { QuestionOutcomes(pack, schema, t, text); }
      }
    } else if s.pending.Some? {
      QuestionOutcomes(pack, schema, s, text);
    }
  }

  lemma QuestionOutcomes(pack: Pack, schema: Schema, s: Snapshot, text: Str)
    requires DistinctIds(schema.fields) && UnresolvedOk(s) && PendingOk(schema.fields, s) && Outcomes(schema.fields, s)
    requires s.status == InProgress && s.awaiting.None? && s.pending.Some?
    ensures Outcomes(schema.fields, AnswerQuestion(pack, schema, s, text).s)
  {
    hide AnswerQuestion;
    hide UnresolvedOk;
    hide StepResult;
    var field := FieldById(schema.fields, s.pending.value).value;
    QuestionFacts(pack, schema, s, text);
    assert Listed(s, field);
    QuestionOutcome(pack, schema, s, text, field);
    hide Outcomes;
    OutcomesStep(schema.fields, s, AnswerQuestion(pack, schema, s, text).s, field);
  }

  /** One utterance keeps the outcomes in order. */
  lemma {:induction false} UtteranceOutcomes(pack: Pack, schema: Schema, s: Snapshot, utterance: Str)
    requires DistinctIds(schema.fields) && Inv(schema.fields, s) && Outcomes(schema.fields, s)
    ensures Outcomes(schema.fields, Apply(pack, schema, s, utterance))
  {
    hide AnswerStep;
    hide Outcomes;
    hide Inv;
    hide Trim;
    var text := Trim(utterance);
    if !Terminal(s.status) {
      var heard := if Human in pack.intents(text) then s.(humanRequested := true) else s;
      OutcomesRead(schema.fields, s, heard);
      if text == [] {
        OutcomesRead(schema.fields, s, ChooseNext(schema, s));
      } else if DoNotCall in pack.intents(text) {
        OutcomesRead(schema.fields, s, Close(s, DoNotCallStatus));
      } else if WrongNumber in pack.intents(text) {
        OutcomesRead(schema.fields, s, Close(s, WrongNumberStatus));
      } else if CallBackLater in pack.intents(text) {
        OutcomesRead(schema.fields, heard, Close(heard, CallbackRequested));
      } else {
        HumanKeepsInv(schema.fields, s);
        if s.status == Complete {
          CompleteStays(pack, schema, heard, text);
        } else {
          AnswerOutcomes(pack, schema, heard, text);
        }
        var step := AnswerStep(pack, schema, heard, text);
        if !step.stops { OutcomesRead(schema.fields, step.s, ChooseNext(schema, step.s)); }
      }
    }
  }

  /** In every conversation. */
  lemma {:induction false} ConversationOutcomes(pack: Pack, schema: Schema, utterances: seq<Str>)
    requires DistinctIds(schema.fields)
    ensures Outcomes(schema.fields, Converse(pack, schema, utterances))
  {
    hide Apply;
    hide Inv;
    hide Outcomes;
    if utterances == [] {
      EmptyOutcomes(schema.fields);
    } else {
      var before := utterances[..|utterances| - 1];
      ConversationOutcomes(pack, schema, before);
      ConversationInvariant(pack, schema, before);
      UtteranceOutcomes(pack, schema, Converse(pack, schema, before), utterances[|utterances| - 1]);
    }
  }

  lemma EmptyOutcomes(fields: seq<Field>)
    ensures Outcomes(fields, EMPTY)
  {
  }

  // ---- what the caller can say at any time --------------------------------------------------------

  /** What closes a conversation, in this order; and a person is asked for when the caller
      wants one, or too many fields are unresolved. */
  lemma {:induction false} ClosesIff(pack: Pack, schema: Schema, s: Snapshot, utterance: Str)
    requires DistinctIds(schema.fields) && Inv(schema.fields, s) && !Terminal(s.status)
    ensures var t, text := Apply(pack, schema, s, utterance), Trim(utterance);
      var said := if text == [] then {} else pack.intents(text);
      && (t.status == DoNotCallStatus <==> DoNotCall in said)
      && (t.status == WrongNumberStatus <==> WrongNumber in said && DoNotCall !in said)
      && (t.status == CallbackRequested <==> CallBackLater in said && DoNotCall !in said && WrongNumber !in said)
      && (!Terminal(t.status) ==>
            (t.humanRequested <==> s.humanRequested || Human in said || |t.unresolved| >= schema.maxUnresolvedFields))
  {
    hide AnswerStep;
    hide Inv;
    hide Trim;
    var text := Trim(utterance);
    if text != [] {
      HumanKeepsInv(schema.fields, s);
      var heard := if Human in pack.intents(text) then s.(humanRequested := true) else s;
      if s.status == Complete {
        CompleteStays(pack, schema, heard, text);
      } else {
        var id := AnswerStepFacts(pack, schema, heard, text);
        HumanStays(pack, schema, heard, text);
      }
    }
  }

  lemma HumanStays(pack: Pack, schema: Schema, s: Snapshot, text: Str)
    ensures AnswerStep(pack, schema, s, text).s.humanRequested == s.humanRequested
  {
    hide Without;
    hide NextField;
    hide FieldById;
    hide BumpAttempt;
    hide ApplyDisqualifier;
    assert forall a: Snapshot, f :: BumpAttempt(a, f).humanRequested == a.humanRequested by {
      forall a: Snapshot, f ensures BumpAttempt(a, f).humanRequested == a.humanRequested { BumpChanges(a, f); }
    }
    assert forall a: Snapshot, f :: ApplyDisqualifier(a, f).humanRequested == a.humanRequested by {
      forall a: Snapshot, f ensures ApplyDisqualifier(a, f).humanRequested == a.humanRequested {
        DisqualifierReads(a, f);
      }
    }
  }

  lemma DisqualifierReads(s: Snapshot, field: Option<Field>)
    ensures ApplyDisqualifier(s, field).humanRequested == s.humanRequested
  {
  }
}
