/** The configuration of a form validator: the five option keys, their built-in
    defaults, the caller's overrides, and the shared, mutable `defaults` object
    that every validator adopts as its own options. */
module Configuration {

  datatype Option<+T> = None | Some(value: T)

  /** A notification callback: the built-in no-op, or one a caller supplied
      (identified by an opaque handle H; its body is foreign code). */
  datatype Callback<H> = NoOp | Handler(handle: H)

  /** A validation rule, called with the raw field and the event. `Some(m)`
      stands for "the rule threw m"; `None` for "the rule returned". */
  type Rule<-F, -E, M> = (F, E) -> Option<M>

  /** The effective options: one value per option key. */
  datatype Config<!F, !E, M, H> = Config(
    addError: Callback<H>,
    removeError: Callback<H>,
    rules: map<F, Rule<F, E, M>>,
    getFieldKey: F -> F,
    onErrors: Callback<H>)
  {
    /** The current entry for one option key, as a key/value pair. */
    function Entry(name: OptionName): (s: Setting<F, E, M, H>)
      ensures s.Name() == name
    {
      match name
      case AddErrorOption => SetAddError(addError)
      case RemoveErrorOption => SetRemoveError(removeError)
      case RulesOption => SetRules(rules)
      case GetFieldKeyOption => SetGetFieldKey(getFieldKey)
      case OnErrorsOption => SetOnErrors(onErrors)
    }
  }

  /** The option keys a caller may supply. */
  datatype OptionName =
    | AddErrorOption
    | RemoveErrorOption
    | RulesOption
    | GetFieldKeyOption
    | OnErrorsOption

  /** One own property of the caller's options object: a key and its value. */
  datatype Setting<!F, !E, M, H> =
    | SetAddError(addError: Callback<H>)
    | SetRemoveError(removeError: Callback<H>)
    | SetRules(rules: map<F, Rule<F, E, M>>)
    | SetGetFieldKey(getFieldKey: F -> F)
    | SetOnErrors(onErrors: Callback<H>)
  {
    function Name(): OptionName {
      match this
      case SetAddError(_) => AddErrorOption
      case SetRemoveError(_) => RemoveErrorOption
      case SetRules(_) => RulesOption
      case SetGetFieldKey(_) => GetFieldKeyOption
      case SetOnErrors(_) => OnErrorsOption
    }
  }

  /** The built-in defaults: no-op callbacks, no rules, identity key function. */
  function Defaults<F, E, M, H>(): (c: Config<F, E, M, H>)
    ensures c.addError == NoOp && c.removeError == NoOp && c.onErrors == NoOp
    ensures c.rules == map[]
  {
    Config(NoOp, NoOp, map[], f => f, NoOp)
  }

  /** `options[i] = value` for one key: that key now holds the supplied value
      outright, and every other key keeps its value. */
  function Apply<F, E, M, H>(c: Config<F, E, M, H>, s: Setting<F, E, M, H>): (r: Config<F, E, M, H>)
    ensures r.Entry(s.Name()) == s
    ensures forall n :: n != s.Name() ==> r.Entry(n) == c.Entry(n)
  {
    match s
    case SetAddError(cb) => c.(addError := cb)
    case SetRemoveError(cb) => c.(removeError := cb)
    case SetRules(rules) => c.(rules := rules)
    case SetGetFieldKey(key) => c.(getFieldKey := key)
    case SetOnErrors(cb) => c.(onErrors := cb)
  }

  /** The configuration after copying the caller's settings one by one, in order. */
  function Overlay<F, E, M, H>(c: Config<F, E, M, H>, ss: seq<Setting<F, E, M, H>>): (r: Config<F, E, M, H>)
    ensures |ss| > 0 ==> r.Entry(ss[|ss| - 1].Name()) == ss[|ss| - 1]
    decreases |ss|
  {
    if ss == [] then c else Overlay(Apply(c, ss[0]), ss[1..])
  }

  /** A key the caller does not supply keeps its current value. */
  lemma {:induction false} OverlayKeepsUnsupplied<F, E, M, H>(
    c: Config<F, E, M, H>, ss: seq<Setting<F, E, M, H>>, n: OptionName)
    requires forall i :: 0 <= i < |ss| ==> ss[i].Name() != n
    ensures Overlay(c, ss).Entry(n) == c.Entry(n)
    decreases |ss|
  {
    if ss != [] {
      assert ss[0].Name() != n;
      OverlayKeepsUnsupplied(Apply(c, ss[0]), ss[1..], n);
    }
  }

  /** A key the caller supplies ends up holding the (last) supplied value
      outright; in particular a supplied rule map replaces the current one
      instead of being merged into it. */
  lemma {:induction false} OverlayTakesSupplied<F, E, M, H>(
    c: Config<F, E, M, H>, ss: seq<Setting<F, E, M, H>>, i: nat)
    requires i < |ss|
    requires forall j :: i < j < |ss| ==> ss[j].Name() != ss[i].Name()
    ensures Overlay(c, ss).Entry(ss[i].Name()) == ss[i]
    ensures ss[i].SetRules? ==> Overlay(c, ss).rules == ss[i].rules
    decreases |ss|
  {
    if i == 0 {
      OverlayKeepsUnsupplied(Apply(c, ss[0]), ss[1..], ss[0].Name());
    } else {
      OverlayTakesSupplied(Apply(c, ss[0]), ss[1..], i - 1);
    }
    if ss[i].SetRules? {
      assert Overlay(c, ss).Entry(RulesOption) == ss[i];
    }
  }

  /** Two overlays in a row are one overlay of the concatenated settings. */
  lemma {:induction false} OverlayAppend<F, E, M, H>(
    c: Config<F, E, M, H>, a: seq<Setting<F, E, M, H>>, b: seq<Setting<F, E, M, H>>)
    ensures Overlay(Overlay(c, a), b) == Overlay(c, a + b)
    decreases |a|
  {
    if a == [] {
      assert a + b == b;
    } else {
      assert (a + b)[0] == a[0];
      assert (a + b)[1..] == a[1..] + b;
      OverlayAppend(Apply(c, a[0]), a[1..], b);
    }
  }

  /** An override made by one construction survives a later construction that
      does not supply that key. */
  lemma OverridePersists<F, E, M, H>(
    c: Config<F, E, M, H>, first: seq<Setting<F, E, M, H>>, second: seq<Setting<F, E, M, H>>, i: nat)
    requires i < |first|
    requires forall j :: i < j < |first| ==> first[j].Name() != first[i].Name()
    requires forall j :: 0 <= j < |second| ==> second[j].Name() != first[i].Name()
    ensures Overlay(Overlay(c, first), second).Entry(first[i].Name()) == first[i]
  {
    OverlayTakesSupplied(c, first, i);
    OverlayKeepsUnsupplied(Overlay(c, first), second, first[i].Name());
  }

  /** The object `formValidator.prototype.defaults`: one object shared by all
      validators, updated in place by every construction. */
  class Options<F(==), E, M, H> {
    var value: Config<F, E, M, H>

    /** The object as the library ships it. */
    constructor Shipped()
      ensures value == Defaults()
    {
      value := Defaults();
    }
  }
}
