/** The form validator: rule dispatch by derived key, single- and multi-field
    validation, and error clearing. The three notification callbacks are foreign
    code, so each call to one is recorded as a notice appended to a trace. */
module Validator {
  import opened Configuration

  /** The `{field, message}` record handed to `onErrors`. */
  datatype ErrorRecord<F, M> = ErrorRecord(field: F, message: M)

  /** One call of a notification callback, with its arguments. */
  datatype Notice<F, E, M, H> =
    | AddErrorCall(callback: Callback<H>, field: F, message: M)
    | RemoveErrorCall(callback: Callback<H>, field: F)
    | OnErrorsCall(callback: Callback<H>, errors: seq<ErrorRecord<F, M>>, event: E)

  /** `runValidation`: the message the field's rule throws, if any. The rule is
      looked up under the derived key and called with the raw field; a key
      without a rule means the field is valid. */
  function RunValidation<F, E, M, H>(c: Config<F, E, M, H>, field: F, event: E): (r: Option<M>)
    ensures c.getFieldKey(field) !in c.rules ==> r == None
    ensures c.getFieldKey(field) in c.rules ==> r == c.rules[c.getFieldKey(field)](field, event)
  {
    var key := c.getFieldKey(field);
    if key in c.rules then c.rules[key](field, event) else None
  }

  /** The per-field notification of one field: `removeError` when its rule
      passes, `addError` with the thrown message when it fails. */
  function FieldNotice<F, E, M, H>(c: Config<F, E, M, H>, field: F, event: E): (n: Notice<F, E, M, H>)
    ensures !n.OnErrorsCall? && n.field == field
    ensures n.RemoveErrorCall? <==> RunValidation(c, field, event).None?
  {
    match RunValidation(c, field, event)
    case None => RemoveErrorCall(c.removeError, field)
    case Some(message) => AddErrorCall(c.addError, field, message)
  }

  /** The notices of `validateField`. */
  function FieldTrace<F, E, M, H>(c: Config<F, E, M, H>, field: F, event: E): (t: seq<Notice<F, E, M, H>>)
    ensures 1 <= |t| <= 2 && t[0] == FieldNotice(c, field, event)
    ensures |t| == 2 <==> RunValidation(c, field, event).Some?
    ensures |t| == 2 ==> t[1].OnErrorsCall? && t[1].callback == c.onErrors && t[1].event == event
  {
    match RunValidation(c, field, event)
    case None => [RemoveErrorCall(c.removeError, field)]
    case Some(message) =>
      [AddErrorCall(c.addError, field, message), OnErrorsCall(c.onErrors, [ErrorRecord(field, message)], event)]
  }

  /** The per-field notices of a list of fields, in input order. */
  function FieldNotices<F, E, M, H>(c: Config<F, E, M, H>, fields: seq<F>, event: E): (t: seq<Notice<F, E, M, H>>)
    ensures |t| == |fields|
    decreases |fields|
  {
    if fields == [] then []
    else FieldNotices(c, fields[..|fields| - 1], event) + [FieldNotice(c, fields[|fields| - 1], event)]
  }

  /** The error records of the failing fields, in input order. */
  function Failures<F, E, M, H>(c: Config<F, E, M, H>, fields: seq<F>, event: E): (errors: seq<ErrorRecord<F, M>>)
    ensures |errors| <= |fields|
    ensures forall k :: 0 <= k < |errors| ==> errors[k].field in fields
    decreases |fields|
  {
    if fields == [] then []
    else
      var last := fields[|fields| - 1];
      Failures(c, fields[..|fields| - 1], event) +
        match RunValidation(c, last, event)
        case None => []
        case Some(message) => [ErrorRecord(last, message)]
  }

  /** The notices of `validateFields`: the per-field notices, then one
      `onErrors` call with all failures when there are any. */
  function FieldsTrace<F, E, M, H>(c: Config<F, E, M, H>, fields: seq<F>, event: E): (t: seq<Notice<F, E, M, H>>)
    ensures |t| == |fields| + (if |Failures(c, fields, event)| == 0 then 0 else 1)
  {
    var errors := Failures(c, fields, event);
    FieldNotices(c, fields, event) + if |errors| == 0 then [] else [OnErrorsCall(c.onErrors, errors, event)]
  }

  /** The notices of `clearErrors`. */
  function ClearNotices<F, E, M, H>(c: Config<F, E, M, H>, fields: seq<F>): (t: seq<Notice<F, E, M, H>>)
    ensures |t| == |fields|
    ensures forall k :: 0 <= k < |t| ==> t[k].RemoveErrorCall? && t[k].callback == c.removeError
    decreases |fields|
  {
    if fields == [] then []
    else ClearNotices(c, fields[..|fields| - 1]) + [RemoveErrorCall(c.removeError, fields[|fields| - 1])]
  }

  /** The validator object. Its options are the shared defaults object itself;
      `trace` records the callback calls its operations make. */
  class FormValidator<F(==), E, M, H> {
    var options: Options<F, E, M, H>
    var trace: seq<Notice<F, E, M, H>>

    /** `new formValidator(overrides)`: adopt the shared defaults object as the
        options and copy each supplied key into it, overwriting in place. */
    constructor (defaults: Options<F, E, M, H>, overrides: seq<Setting<F, E, M, H>>)
      modifies defaults
      ensures options == defaults
      ensures defaults.value == Overlay(old(defaults.value), overrides)
      ensures trace == []
    {
      options := defaults;
      trace := [];
      new;
      var i := 0;
      while i < |overrides|
        invariant 0 <= i <= |overrides|
        invariant options == defaults && trace == []
        invariant Overlay(defaults.value, overrides[i..]) == Overlay(old(defaults.value), overrides)
      {
        assert overrides[i..][1..] == overrides[i + 1..];
        defaults.value := Apply(defaults.value, overrides[i]);
        i := i + 1;
      }
    }

    /** `validateField`: true iff the field's rule does not throw; notifies
        `removeError`, or `addError` then `onErrors` with a one-record list. */
    method ValidateField(field: F, event: E) returns (ok: bool)
      modifies this
      ensures options == old(options)
      ensures ok <==> RunValidation(options.value, field, event).None?
      ensures trace == old(trace) + FieldTrace(options.value, field, event)
    {
      var c := options.value;
      match RunValidation(c, field, event)
      case None =>
        trace := trace + [RemoveErrorCall(c.removeError, field)];
        ok := true;
      case Some(message) =>
        trace := trace + [AddErrorCall(c.addError, field, message)];
        var errors := [ErrorRecord(field, message)];
        trace := trace + [OnErrorsCall(c.onErrors, errors, event)];
        ok := false;
    }

    /** `validateFields`: validate every field in order, collecting failures,
        and report them once at the end; true iff no field failed. */
    method ValidateFields(fields: seq<F>, event: E) returns (ok: bool)
      modifies this
      ensures options == old(options)
      ensures ok <==> |Failures(options.value, fields, event)| == 0
      ensures trace == old(trace) + FieldsTrace(options.value, fields, event)
    {
      var c := options.value;
      var errors: seq<ErrorRecord<F, M>> := [];
      var i := 0;
      while i < |fields|
        invariant 0 <= i <= |fields|
        invariant options == old(options)
        invariant trace == old(trace) + FieldNotices(c, fields[..i], event)
        invariant errors == Failures(c, fields[..i], event)
      {
        assert fields[..i + 1][..i] == fields[..i];
        match RunValidation(c, fields[i], event) {
          case None =>
            trace := trace + [RemoveErrorCall(c.removeError, fields[i])];
          case Some(message) =>
            trace := trace + [AddErrorCall(c.addError, fields[i], message)];
            errors := errors + [ErrorRecord(fields[i], message)];
        }
        i := i + 1;
      }
      assert fields[..i] == fields;
      if |errors| > 0 {
        trace := trace + [OnErrorsCall(c.onErrors, errors, event)];
        ok := false;
      } else {
        ok := true;
      }
    }

    /** `clearError`: notify `removeError` without running any rule. */
    method ClearError(field: F)
      modifies this
      ensures options == old(options)
      ensures trace == old(trace) + [RemoveErrorCall(options.value.removeError, field)]
    {
      trace := trace + [RemoveErrorCall(options.value.removeError, field)];
    }

    /** `clearErrors`: notify `removeError` for each field in order. */
    method ClearErrors(fields: seq<F>)
      modifies this
      ensures options == old(options)
      ensures trace == old(trace) + ClearNotices(options.value, fields)
    {
      var i := 0;
      while i < |fields|
        invariant 0 <= i <= |fields|
        invariant options == old(options)
        invariant trace == old(trace) + ClearNotices(options.value, fields[..i])
      {
        assert fields[..i + 1][..i] == fields[..i];
        trace := trace + [RemoveErrorCall(options.value.removeError, fields[i])];
        i := i + 1;
      }
      assert fields[..i] == fields;
    }
  }

  /** Two constructions from the same defaults object share one options object,
      and the second sees the first's overrides as its starting point. */
  method ConstructTwice<F(==), E, M, H>(
    defaults: Options<F, E, M, H>, first: seq<Setting<F, E, M, H>>, second: seq<Setting<F, E, M, H>>)
    returns (v1: FormValidator<F, E, M, H>, v2: FormValidator<F, E, M, H>)
    modifies defaults
    ensures v1.options == defaults && v2.options == defaults
    ensures defaults.value == Overlay(old(defaults.value), first + second)
  {
    v1 := new FormValidator(defaults, first);
    v2 := new FormValidator(defaults, second);
    OverlayAppend(old(defaults.value), first, second);
  }

  /** Validating one field: no rule for its key gives a single `removeError`;
      a rule throwing m gives `addError(field, m)` then `onErrors` with the one
      record and the same event, and no `removeError`. */
  lemma FieldTraceCases<F, E, M, H>(c: Config<F, E, M, H>, field: F, event: E)
    ensures c.getFieldKey(field) !in c.rules ==> FieldTrace(c, field, event) == [RemoveErrorCall(c.removeError, field)]
    ensures forall m :: RunValidation(c, field, event) == Some(m) ==>
      FieldTrace(c, field, event) ==
        [AddErrorCall(c.addError, field, m), OnErrorsCall(c.onErrors, [ErrorRecord(field, m)], event)]
    ensures (exists i :: 0 <= i < |FieldTrace(c, field, event)| && FieldTrace(c, field, event)[i].RemoveErrorCall?)
      <==> RunValidation(c, field, event).None?
  {
    if RunValidation(c, field, event).None? {
      assert FieldTrace(c, field, event)[0].RemoveErrorCall?;
    }
  }

  /** Exactly one per-field notice per input field, in input order. */
  lemma {:induction false} FieldNoticesAt<F, E, M, H>(c: Config<F, E, M, H>, fields: seq<F>, event: E)
    ensures |FieldNotices(c, fields, event)| == |fields|
    ensures forall i :: 0 <= i < |fields| ==> FieldNotices(c, fields, event)[i] == FieldNotice(c, fields[i], event)
    decreases |fields|
  {
    if fields != [] {
      var init := fields[..|fields| - 1];
      FieldNoticesAt(c, init, event);
      assert forall i :: 0 <= i < |init| ==> init[i] == fields[i];
    }
  }

  /** The failures of a concatenation are the failures of each part, in order. */
  lemma {:induction false} FailuresAppend<F, E, M, H>(c: Config<F, E, M, H>, a: seq<F>, b: seq<F>, event: E)
    ensures Failures(c, a + b, event) == Failures(c, a, event) + Failures(c, b, event)
    decreases |b|
  {
    if b == [] {
      assert a + b == a;
    } else {
      var init := b[..|b| - 1];
      assert (a + b)[..|a + b| - 1] == a + init;
      assert (a + b)[|a + b| - 1] == b[|b| - 1];
      FailuresAppend(c, a, init, event);
    }
  }

  /** A record is among the failures iff some input field has that field and
      its rule throws that message. */
  lemma {:induction false} FailuresMember<F, E, M, H>(
    c: Config<F, E, M, H>, fields: seq<F>, event: E, r: ErrorRecord<F, M>)
    ensures r in Failures(c, fields, event) <==>
      exists i :: 0 <= i < |fields| && fields[i] == r.field && RunValidation(c, fields[i], event) == Some(r.message)
    decreases |fields|
  {
    if fields != [] {
      var init := fields[..|fields| - 1];
      var last := fields[|fields| - 1];
      FailuresMember(c, init, event, r);
      if r in Failures(c, fields, event) && r !in Failures(c, init, event) {
        assert fields[|fields| - 1] == r.field && RunValidation(c, fields[|fields| - 1], event) == Some(r.message);
      }
      if exists i :: 0 <= i < |fields| && fields[i] == r.field && RunValidation(c, fields[i], event) == Some(r.message) {
        var i :| 0 <= i < |fields| && fields[i] == r.field && RunValidation(c, fields[i], event) == Some(r.message);
        if i < |init| {
          assert init[i] == fields[i];
        }
      }
    }
  }

  /** No failures iff every field's rule passes. */
  lemma {:induction false} FailuresEmptyIff<F, E, M, H>(c: Config<F, E, M, H>, fields: seq<F>, event: E)
    ensures |Failures(c, fields, event)| == 0 <==> forall i :: 0 <= i < |fields| ==> RunValidation(c, fields[i], event).None?
    decreases |fields|
  {
    if fields != [] {
      var init := fields[..|fields| - 1];
      FailuresEmptyIff(c, init, event);
      assert forall i :: 0 <= i < |init| ==> init[i] == fields[i];
    }
  }

  /** The shape of `validateFields`' notices: the per-field notices in input
      order come first; `onErrors` appears at most once, only when some field
      failed, as the very last notice, carrying all failures and the event. */
  lemma FieldsTraceShape<F, E, M, H>(c: Config<F, E, M, H>, fields: seq<F>, event: E)
    ensures |FieldsTrace(c, fields, event)| == |fields| + (if |Failures(c, fields, event)| == 0 then 0 else 1)
    ensures forall i :: 0 <= i < |fields| ==> FieldsTrace(c, fields, event)[i] == FieldNotice(c, fields[i], event)
    ensures forall i :: 0 <= i < |FieldsTrace(c, fields, event)| && FieldsTrace(c, fields, event)[i].OnErrorsCall? ==>
      i == |fields| && |Failures(c, fields, event)| > 0
    ensures |Failures(c, fields, event)| > 0 ==>
      FieldsTrace(c, fields, event)[|fields|] == OnErrorsCall(c.onErrors, Failures(c, fields, event), event)
  {
    FieldNoticesAt(c, fields, event);
  }

  /** `validateFields` on one field notifies exactly as `validateField` does. */
  lemma SingleFieldAgrees<F, E, M, H>(c: Config<F, E, M, H>, field: F, event: E)
    ensures FieldsTrace(c, [field], event) == FieldTrace(c, field, event)
    ensures |Failures(c, [field], event)| == 0 <==> RunValidation(c, field, event).None?
  {
    assert [field][..0] == [];
    assert FieldNotices(c, [field], event) == [FieldNotice(c, field, event)];
    match RunValidation(c, field, event)
    case None =>
      assert Failures(c, [field], event) == [];
    case Some(m) =>
      assert Failures(c, [field], event) == [ErrorRecord(field, m)];
  }

  /** `clearErrors` notifies `removeError` exactly once per field, in order,
      and nothing else. */
  lemma {:induction false} ClearNoticesAt<F, E, M, H>(c: Config<F, E, M, H>, fields: seq<F>)
    ensures |ClearNotices(c, fields)| == |fields|
    ensures forall i :: 0 <= i < |fields| ==> ClearNotices(c, fields)[i] == RemoveErrorCall(c.removeError, fields[i])
    decreases |fields|
  {
    if fields != [] {
      var init := fields[..|fields| - 1];
      ClearNoticesAt(c, init);
      assert forall i :: 0 <= i < |init| ==> init[i] == fields[i];
    }
  }

  /** `clearErrors` of one field notifies exactly as `clearError` does. */
  lemma SingleClearAgrees<F, E, M, H>(c: Config<F, E, M, H>, field: F)
    ensures ClearNotices(c, [field]) == [RemoveErrorCall(c.removeError, field)]
  {
    assert [field][..0] == [];
  }

  /** When no field has a rule under its key, validating the fields notifies
      exactly as clearing them does, and succeeds. */
  lemma {:induction false} NoRulesValidatesAsClear<F, E, M, H>(c: Config<F, E, M, H>, fields: seq<F>, event: E)
    requires forall i :: 0 <= i < |fields| ==> c.getFieldKey(fields[i]) !in c.rules
    ensures Failures(c, fields, event) == []
    ensures FieldsTrace(c, fields, event) == ClearNotices(c, fields)
    decreases |fields|
  {
    if fields != [] {
      var init := fields[..|fields| - 1];
      assert forall i :: 0 <= i < |init| ==> init[i] == fields[i];
      NoRulesValidatesAsClear(c, init, event);
    }
  }

  /** With the shipped defaults, every field is valid and is keyed by itself. */
  lemma UnconfiguredValidatesEverything<F, E, M, H>(fields: seq<F>, event: E)
    ensures forall f :: Defaults<F, E, M, H>().getFieldKey(f) == f
    ensures Failures(Defaults<F, E, M, H>(), fields, event) == []
    ensures FieldsTrace(Defaults<F, E, M, H>(), fields, event) == ClearNotices(Defaults<F, E, M, H>(), fields)
  {
    NoRulesValidatesAsClear(Defaults<F, E, M, H>(), fields, event);
  }

  /** The rule outcome depends only on the derived key's rule, not on the raw
      field's own entry or any other rule. */
  lemma RunValidationUsesKey<F, E, M, H>(c1: Config<F, E, M, H>, c2: Config<F, E, M, H>, field: F, event: E)
    requires c1.getFieldKey(field) == c2.getFieldKey(field)
    requires c1.getFieldKey(field) in c1.rules <==> c2.getFieldKey(field) in c2.rules
    requires c1.getFieldKey(field) in c1.rules ==> c1.rules[c1.getFieldKey(field)] == c2.rules[c2.getFieldKey(field)]
    ensures RunValidation(c1, field, event) == RunValidation(c2, field, event)
  {
  }

  /** The three-field example: only the middle field fails with message m. */
  lemma MiddleFieldFails<F, E, M, H>(c: Config<F, E, M, H>, f1: F, f2: F, f3: F, event: E, m: M)
    requires RunValidation(c, f1, event) == None
    requires RunValidation(c, f2, event) == Some(m)
    requires RunValidation(c, f3, event) == None
    ensures Failures(c, [f1, f2, f3], event) == [ErrorRecord(f2, m)]
    ensures FieldsTrace(c, [f1, f2, f3], event) ==
      [RemoveErrorCall(c.removeError, f1), AddErrorCall(c.addError, f2, m),
       RemoveErrorCall(c.removeError, f3), OnErrorsCall(c.onErrors, [ErrorRecord(f2, m)], event)]
  {
    var fs := [f1, f2, f3];
    assert fs[..2] == [f1, f2] && [f1, f2][..1] == [f1] && [f1][..0] == [];
    assert Failures(c, [f1], event) == [];
    assert Failures(c, [f1, f2], event) == [ErrorRecord(f2, m)];
    assert FieldNotices(c, [f1], event) == [RemoveErrorCall(c.removeError, f1)];
    assert FieldNotices(c, [f1, f2], event) == [RemoveErrorCall(c.removeError, f1), AddErrorCall(c.addError, f2, m)];
  }
}
