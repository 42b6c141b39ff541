/**
 * The option object and its builder. Every method states the new state of
 * the object as a function (from module OptionSpec) of the old one.
 */
module Impl {
  import opened Wrappers
  import opened Tooltips
  import opened OptionSpec

  /** The persisted storage of one option: a mutable value and a fixed default. */
  class Binding<T> {
    var value: T
    const default: T

    constructor (default: T, value: T)
      ensures this.default == default && this.value == value
    {
      this.default := default;
      this.value := value;
    }
  }

  /** An opaque controller factory; a controller is what it makes for one option. */
  datatype ControllerFactory = ControllerFactory(id: nat)
  datatype Controller = Controller(factory: ControllerFactory)

  /** The placeholder name of an option built without a name. */
  const PlaceholderName: Text := "Name not specified!"

  class OptionImpl<T(==)> {
    const name: Text
    var tooltip: Text
    const tooltipSources: seq<TooltipSource<T>>
    const controller: Controller
    const binding: Binding<T>
    var available: bool
    const flags: set<Flag>
    var pendingValue: T
    var listeners: seq<Listener>
    /** Every listener invocation so far, in order. */
    ghost var trace: seq<Notification<T>>

    ghost function Snapshot(): State<T>
      reads this, binding
    {
      State(pendingValue, binding.value, binding.default, tooltip,
            tooltipSources, available, listeners, trace)
    }

    ghost predicate Valid()
      reads this, binding
    {
      Invariant(Snapshot())
    }

    /**
     * Stores the fields, makes the controller, appends the tooltip refresher
     * after the given listeners and requests the binding's current value.
     */
    constructor (name: Text, sources: seq<TooltipSource<T>>, factory: ControllerFactory,
                 binding: Binding<T>, available: bool, flags: set<Flag>, ls: seq<Listener>)
      modifies binding
      ensures this.name == name && this.tooltipSources == sources && this.binding == binding
      ensures this.flags == flags && this.controller == Controller(factory)
      ensures Snapshot() == Construct(old(binding.value), binding.default, sources, available, ls)
      ensures binding.value == old(binding.value) && pendingValue == binding.value && !Changed()
      ensures listeners == ls + [TooltipRefresh]
      ensures Valid()
    {
      this.name := name;
      this.binding := binding;
      this.available := available;
      this.flags := flags;
      this.listeners := ls;
      this.controller := Controller(factory);
      this.tooltipSources := sources;
      this.tooltip := "";
      this.pendingValue := binding.value;
      this.trace := [];
      new;
      AddListener(TooltipRefresh);
      RequestSet(binding.value);
      ConstructedIsClean(old(binding.value), binding.default, sources, available, ls);
    }

    predicate Changed()
      reads this, binding
      ensures Changed() == OptionSpec.Changed(Snapshot())
    {
      binding.value != pendingValue
    }

    predicate IsPendingValueDefault()
      reads this, binding
      ensures IsPendingValueDefault() == OptionSpec.IsPendingValueDefault(Snapshot())
    {
      binding.default == pendingValue
    }

    method SetAvailable(available: bool)
      modifies this`available
      ensures Snapshot() == OptionSpec.SetAvailable(old(Snapshot()), available)
      ensures old(Valid()) ==> Valid()
    {
      this.available := available;
    }

    /** Appends a listener; nothing runs. */
    method AddListener(l: Listener)
      modifies this`listeners
      ensures Snapshot() == OptionSpec.AddListener(old(Snapshot()), l)
      ensures old(Valid()) && (l != InstantApply || !old(Changed())) ==> Valid()
    {
      listeners := listeners + [l];
    }

    /** Runs one listener with the value it is passed. */
    method Fire(l: Listener, value: T)
      modifies this, binding
      ensures Snapshot() == OptionSpec.Fire(old(Snapshot()), l, value)
    {
      trace := trace + [Notified(l, value)];
      match l
      case TooltipRefresh =>
        tooltip := ConcatenateTooltip(tooltipSources, value);
      case InstantApply =>
        var _ := ApplyValue();
      case User(_) =>
    }

    /** Sets the pending value, then runs every listener in list order. */
    method RequestSet(value: T)
      modifies this, binding
      ensures Snapshot() == OptionSpec.RequestSet(old(Snapshot()), value)
      ensures pendingValue == value && listeners == old(listeners)
      ensures binding.value == if InstantApply in listeners then value else old(binding.value)
      ensures Changed() <==> InstantApply !in listeners && value != old(binding.value)
      ensures TooltipRefresh in listeners ==> Valid()
    {
      pendingValue := value;
      ghost var start := Snapshot();
      for i := 0 to |listeners|
        invariant listeners == start.listeners
        invariant Snapshot() == NotifyAll(start, listeners[..i])
      {
        Fire(listeners[i], pendingValue);
        assert listeners[..i + 1][..i] == listeners[..i];
      }
      assert listeners[..|listeners|] == listeners;
      RequestSetEffect(old(Snapshot()), value);
      RequestSetChanged(old(Snapshot()), value);
    }

    /** Writes the pending value to the binding if the option is dirty. */
    method ApplyValue() returns (applied: bool)
      modifies binding
      ensures (Snapshot(), applied) == OptionSpec.ApplyValue(old(Snapshot()))
      ensures applied == old(Changed()) && !Changed()
      ensures old(Valid()) ==> Valid()
    {
      if Changed() {
        binding.value := pendingValue;
        return true;
      }
      return false;
    }

    method ForgetPendingValue()
      modifies this, binding
      ensures Snapshot() == OptionSpec.ForgetPendingValue(old(Snapshot()))
      ensures pendingValue == binding.value == old(binding.value) && !Changed()
      ensures listeners == old(listeners)
      ensures old(Valid()) ==> Valid()
    {
      RequestSet(binding.value);
      ForgetPendingValueCleans(old(Snapshot()));
      if old(Valid()) {
        InvariantPreserved(old(Snapshot()), binding.value, available, TooltipRefresh);
      }
    }

    method RequestSetDefault()
      modifies this, binding
      ensures Snapshot() == OptionSpec.RequestSetDefault(old(Snapshot()))
      ensures pendingValue == binding.default && IsPendingValueDefault()
      ensures listeners == old(listeners)
      ensures binding.value == if InstantApply in listeners then binding.default else old(binding.value)
      ensures Changed() <==> InstantApply !in listeners && binding.default != old(binding.value)
      ensures old(Valid()) ==> Valid()
    {
      RequestSet(binding.default);
      RequestSetDefaultEffect(old(Snapshot()));
      if old(Valid()) {
        InvariantPreserved(old(Snapshot()), binding.default, available, TooltipRefresh);
      }
    }
  }

  /** Accumulates an option's configuration; every rule is checked once, in Build. */
  class BuilderImpl<T(==)> {
    var name: Text
    var tooltipSources: seq<TooltipSource<T>>
    var controlGetter: Option<ControllerFactory>
    var binding: Binding?<T>
    var available: bool
    var instant: bool
    var flags: set<Flag>
    var listeners: seq<Listener>

    constructor ()
      ensures name == PlaceholderName && tooltipSources == [] && controlGetter == None
      ensures binding == null && available && !instant && flags == {} && listeners == []
    {
      name := PlaceholderName;
      tooltipSources := [];
      controlGetter := None;
      binding := null;
      available := true;
      instant := false;
      flags := {};
      listeners := [];
    }

    method SetName(name: Text)
      modifies this`name
      ensures this.name == name
    {
      this.name := name;
    }

    /** Appends value-dependent tooltip sources, in order. */
    method AddTooltipGetters(getters: seq<T -> Text>)
      modifies this`tooltipSources
      ensures |tooltipSources| == |old(tooltipSources)| + |getters|
      ensures tooltipSources[..|old(tooltipSources)|] == old(tooltipSources)
      ensures forall i :: 0 <= i < |getters| ==>
        tooltipSources[|old(tooltipSources)| + i] == Dynamic(getters[i])
    {
      tooltipSources := tooltipSources + seq(|getters|, i requires 0 <= i < |getters| => Dynamic(getters[i]));
    }

    /** Appends fixed tooltip lines, in order; each ignores the option's value. */
    method AddTooltipTexts(texts: seq<Text>)
      modifies this`tooltipSources
      ensures |tooltipSources| == |old(tooltipSources)| + |texts|
      ensures tooltipSources[..|old(tooltipSources)|] == old(tooltipSources)
      ensures forall i :: 0 <= i < |texts| ==>
        tooltipSources[|old(tooltipSources)| + i] == Literal(texts[i])
    {
      tooltipSources := tooltipSources + seq(|texts|, i requires 0 <= i < |texts| => Literal(texts[i]));
    }

    method SetController(factory: ControllerFactory)
      modifies this`controlGetter
      ensures controlGetter == Some(factory)
    {
      controlGetter := Some(factory);
    }

    method SetBinding(binding: Binding<T>)
      modifies this`binding
      ensures this.binding == binding
    {
      this.binding := binding;
    }

    /** Makes a binding from a default and the storage's current value. */
    method SetGenericBinding(default: T, current: T)
      modifies this`binding
      ensures binding != null && fresh(binding)
      ensures binding.default == default && binding.value == current
    {
      binding := new Binding(default, current);
    }

    method SetAvailable(available: bool)
      modifies this`available
      ensures this.available == available
    {
      this.available := available;
    }

    /** Adds flags; a flag added twice is kept once. */
    method AddFlags(fs: seq<Flag>)
      modifies this`flags
      ensures flags == old(flags) + set f | f in fs
    {
      flags := flags + set f | f in fs;
    }

    method SetInstant(instant: bool)
      modifies this`instant
      ensures this.instant == instant
    {
      this.instant := instant;
    }

    /** Appends listeners, in order. */
    method AddListeners(ls: seq<Listener>)
      modifies this`listeners
      ensures listeners == old(listeners) + ls
    {
      listeners := listeners + ls;
    }

    /**
     * Checks the three rules, then (for an instant option) appends the
     * auto-apply listener to the builder's own list and constructs the option.
     */
    method Build() returns (r: Result<OptionImpl<T>, BuildError>)
      modifies this`listeners, binding
      ensures var check := ValidateBuild(controlGetter.Some?, binding != null, instant, flags);
        && (check.Some? ==> r == Failure(check.value) && listeners == old(listeners))
        && (check.None? <==> r.Success?)
      ensures binding != null ==> binding.value == old(binding.value)
      ensures r.Success? ==>
        && binding != null && controlGetter.Some?
        && listeners == BuiltListeners(old(listeners), instant)
        && fresh(r.value)
        && r.value.name == name && r.value.flags == flags && r.value.binding == binding
        && r.value.controller == Controller(controlGetter.value)
        && r.value.tooltipSources == tooltipSources
        && r.value.listeners == BuiltListeners(old(listeners), instant) + [TooltipRefresh]
        && r.value.Snapshot() == Construct(old(binding.value), binding.default, tooltipSources,
                                        available, BuiltListeners(old(listeners), instant))
        && r.value.pendingValue == binding.value && !r.value.Changed()
        && r.value.Valid()
    {
      var check := ValidateBuild(controlGetter.Some?, binding != null, instant, flags);
      if check.Some? {
        return Failure(check.value);
      }
      if instant {
        listeners := listeners + [InstantApply];
      }
      var option := new OptionImpl(name, tooltipSources, controlGetter.value, binding,
                                   available, flags, listeners);
      return Success(option);
    }
  }

  /**
   * The worked example of an option's life: default 0, stored value 5,
   * then an edit, a commit, a reset to default and a discard.
   */
  method ExampleLifecycle()
  {
    var storage := new Binding(0, 5);
    var option := new OptionImpl<int>(PlaceholderName, [], ControllerFactory(0), storage, true, {}, []);
    assert option.pendingValue == 5 && !option.Changed();
    option.RequestSet(7);
    assert option.pendingValue == 7 && option.Changed();
    var applied := option.ApplyValue();
    assert applied && storage.value == 7 && !option.Changed();
    option.RequestSetDefault();
    assert option.pendingValue == 0 && option.Changed();
    option.ForgetPendingValue();
    assert option.pendingValue == 7 && !option.Changed();
  }

  /** Build-time rules: an instant option may not carry flags; without them it stays clean. */
  method ExampleInstantBuild()
  {
    var storage := new Binding(false, false);
    var builder := new BuilderImpl<bool>();
    var built := builder.Build();
    assert built == Failure(MissingController);
    builder.SetController(ControllerFactory(1));
    builder.SetBinding(storage);
    builder.SetInstant(true);
    builder.AddFlags([Flag(0), Flag(0)]);
    assert builder.flags == {Flag(0)};
    built := builder.Build();
    assert built == Failure(InstantWithFlags) && storage.value == false;
  }

  /** An instant option built from a builder commits every edit at once. */
  method ExampleInstantOption()
  {
    var storage := new Binding(10, 3);
    var builder := new BuilderImpl<int>();
    builder.SetController(ControllerFactory(2));
    builder.SetBinding(storage);
    builder.SetInstant(true);
    var built := builder.Build();
    var option := built.value;
    assert option.listeners == [InstantApply, TooltipRefresh];
    option.RequestSet(4);
    assert storage.value == 4 && !option.Changed();
  }
}
