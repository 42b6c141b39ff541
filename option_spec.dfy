/**
 * The value state machine of one option, as pure functions over a snapshot
 * of its state. The classes in module Impl are proved against these
 * functions; the lemmas here state what the option promises.
 */
module OptionSpec {
  import opened Wrappers
  import opened Tooltips

  /** A change listener. Only its kind is modelled; a user listener only observes. */
  datatype Listener = TooltipRefresh | InstantApply | User(id: nat)

  /** One listener invocation: which listener ran and the value it was passed. */
  datatype Notification<T> = Notified(listener: Listener, value: T)

  /** An opaque option flag (such as "requires a restart"). */
  datatype Flag = Flag(id: nat)

  /** Why building an option fails. */
  datatype BuildError = MissingController | MissingBinding | InstantWithFlags

  /**
   * A snapshot of an option: the pending edit value, the value held by its
   * binding (`persisted`) and the binding's default, the current tooltip and
   * its sources, availability, the listener list and the log of every
   * listener invocation so far.
   */
  datatype State<!T> = State(
    pending: T,
    persisted: T,
    default: T,
    tooltip: Text,
    sources: seq<TooltipSource<T>>,
    available: bool,
    listeners: seq<Listener>,
    trace: seq<Notification<T>>)

  /** The option is dirty: the pending value differs from the persisted one. */
  predicate Changed<T(==)>(s: State<T>)
  {
    s.persisted != s.pending
  }

  predicate IsPendingValueDefault<T(==)>(s: State<T>)
  {
    s.default == s.pending
  }

  /** Writes the pending value to the binding when dirty; the flag says whether it did. */
  function ApplyValue<T(==)>(s: State<T>): (r: (State<T>, bool))
    ensures r.1 == Changed(s)
    ensures !Changed(r.0)
    ensures r.0 == s.(persisted := r.0.persisted)
    ensures !r.1 ==> r.0 == s
  {
    if Changed(s) then (s.(persisted := s.pending), true) else (s, false)
  }

  /** Runs one listener, passing it `value`, and logs the invocation. */
  function Fire<T(==)>(s: State<T>, l: Listener, value: T): (r: State<T>)
  {
    var called := s.(trace := s.trace + [Notified(l, value)]);
    match l
    case TooltipRefresh => called.(tooltip := Render(s.sources, value))
    case InstantApply => ApplyValue(called).0
    case User(_) => called
  }

  /** Runs the listeners `ls` in order, each passed the pending value current at its call. */
  function NotifyAll<T(==)>(s: State<T>, ls: seq<Listener>): (r: State<T>)
  {
    if ls == [] then s
    else
      var before := NotifyAll(s, ls[..|ls| - 1]);
      Fire(before, ls[|ls| - 1], before.pending)
  }

  /** The invocations expected when `ls` are each notified of `value`, in order. */
  function Notifications<T>(ls: seq<Listener>, value: T): (r: seq<Notification<T>>)
  {
    seq(|ls|, i requires 0 <= i < |ls| => Notified(ls[i], value))
  }

  /** The single mutation entry point: set the pending value, then notify every listener. */
  function RequestSet<T(==)>(s: State<T>, value: T): (r: State<T>)
  {
    NotifyAll(s.(pending := value), s.listeners)
  }

  function ForgetPendingValue<T(==)>(s: State<T>): (r: State<T>)
  {
    RequestSet(s, s.persisted)
  }

  function RequestSetDefault<T(==)>(s: State<T>): (r: State<T>)
  {
    RequestSet(s, s.default)
  }

  function SetAvailable<T>(s: State<T>, available: bool): (r: State<T>)
  {
    s.(available := available)
  }

  function AddListener<T>(s: State<T>, l: Listener): (r: State<T>)
  {
    s.(listeners := s.listeners + [l])
  }

  /** The listener list of a built option: the builder's, then auto-apply when instant. */
  function BuiltListeners(ls: seq<Listener>, instant: bool): (r: seq<Listener>)
  {
    if instant then ls + [InstantApply] else ls
  }

  /**
   * The state right after construction: the tooltip refresher is added after
   * all other listeners, then the binding's value is requested.
   */
  function Construct<T(==)>(value: T, default: T, sources: seq<TooltipSource<T>>,
                            available: bool, ls: seq<Listener>): (r: State<T>)
  {
    RequestSet(State(value, value, default, "", sources, available, ls + [TooltipRefresh], []), value)
  }

  /** The three build-time rules, checked in this order. */
  function ValidateBuild(hasController: bool, hasBinding: bool, instant: bool, flags: set<Flag>)
    : (r: Option<BuildError>)
    ensures r == None <==> hasController && hasBinding && (!instant || flags == {})
    ensures r == Some(MissingController) <==> !hasController
    ensures r == Some(MissingBinding) <==> hasController && !hasBinding
    ensures r == Some(InstantWithFlags) <==> hasController && hasBinding && instant && flags != {}
  {
    if !hasController then Some(MissingController)
    else if !hasBinding then Some(MissingBinding)
    else if instant && flags != {} then Some(InstantWithFlags)
    else None
  }

  /**
   * The object invariant of a constructed option: the tooltip reflects the
   * pending value, and an instant option is never dirty.
   */
  predicate Invariant<T(==)>(s: State<T>)
  {
    && TooltipRefresh in s.listeners
    && s.tooltip == Render(s.sources, s.pending)
    && (InstantApply in s.listeners ==> !Changed(s))
  }

  // ----- Properties -----

  /**
   * Notifying `ls` passes every listener the same value, once each and in
   * order; only the binding (through auto-apply), the tooltip and the log change.
   */
  lemma {:induction false} NotifyAllEffect<T>(s: State<T>, ls: seq<Listener>)
    ensures NotifyAll(s, ls) == s.(
      persisted := if InstantApply in ls then s.pending else s.persisted,
      tooltip := if TooltipRefresh in ls then Render(s.sources, s.pending) else s.tooltip,
      trace := s.trace + Notifications(ls, s.pending))
  {
    if ls == [] {
      assert s.trace + Notifications(ls, s.pending) == s.trace;
    } else {
      var init, last := ls[..|ls| - 1], ls[|ls| - 1];
      assert ls == init + [last];
      NotifyAllEffect(s, init);
      assert Notifications(ls, s.pending) == Notifications(init, s.pending) + [Notified(last, s.pending)];
    }
  }

  /**
   * requestSet(v): the pending value becomes v, every listener is invoked
   * exactly once in list order with v, and apart from what the listeners do
   * (auto-apply writes the binding, the refresher rebuilds the tooltip)
   * nothing else changes.
   */
  lemma RequestSetEffect<T>(s: State<T>, v: T)
    ensures RequestSet(s, v) == s.(
      pending := v,
      persisted := if InstantApply in s.listeners then v else s.persisted,
      tooltip := if TooltipRefresh in s.listeners then Render(s.sources, v) else s.tooltip,
      trace := s.trace + Notifications(s.listeners, v))
  {
    NotifyAllEffect(s.(pending := v), s.listeners);
  }

  /** After requestSet(v) the option is dirty exactly when v differs from the persisted value and no auto-apply ran. */
  lemma RequestSetChanged<T>(s: State<T>, v: T)
    ensures RequestSet(s, v).pending == v
    ensures Changed(RequestSet(s, v)) <==> InstantApply !in s.listeners && v != s.persisted
  {
    RequestSetEffect(s, v);
  }

  /** Right after construction the option is clean and mirrors the binding. */
  lemma ConstructedIsClean<T>(value: T, default: T, sources: seq<TooltipSource<T>>,
                                  available: bool, ls: seq<Listener>)
    ensures var s := Construct(value, default, sources, available, ls);
      && s.pending == value && s.persisted == value && s.default == default
      && !Changed(s)
      && s.available == available
      && s.listeners == ls + [TooltipRefresh]
      && s.tooltip == Render(sources, value)
      && s.trace == Notifications(ls + [TooltipRefresh], value)
      && Invariant(s)
  {
    RequestSetEffect(State(value, value, default, "", sources, available, ls + [TooltipRefresh], []), value);
  }

  /** forgetPendingValue discards the edit: pending equals the untouched persisted value. */
  lemma ForgetPendingValueCleans<T>(s: State<T>)
    ensures ForgetPendingValue(s).pending == s.persisted
    ensures ForgetPendingValue(s).persisted == s.persisted
    ensures !Changed(ForgetPendingValue(s))
  {
    RequestSetEffect(s, s.persisted);
  }

  /** requestSetDefault makes the pending value the binding's default. */
  lemma RequestSetDefaultEffect<T>(s: State<T>)
    ensures RequestSetDefault(s).pending == s.default
    ensures IsPendingValueDefault(RequestSetDefault(s))
    ensures Changed(RequestSetDefault(s)) <==> InstantApply !in s.listeners && s.default != s.persisted
  {
    RequestSetEffect(s, s.default);
  }

  /** With auto-apply installed, every requestSet leaves the option clean and persists the value. */
  lemma InstantApplyKeepsClean<T>(s: State<T>, v: T)
    requires InstantApply in s.listeners
    ensures RequestSet(s, v).persisted == v
    ensures !Changed(RequestSet(s, v))
  {
    RequestSetEffect(s, v);
  }

  /** With the refresher installed, the tooltip after requestSet(v) is rendered from v. */
  lemma TooltipFollowsPending<T>(s: State<T>, v: T)
    requires TooltipRefresh in s.listeners
    ensures RequestSet(s, v).tooltip == Render(s.sources, v)
  {
    RequestSetEffect(s, v);
  }

  /** A listener added later is notified after all the earlier ones. */
  lemma AddedListenerRunsLast<T>(s: State<T>, l: Listener, v: T)
    ensures RequestSet(AddListener(s, l), v).trace
         == s.trace + Notifications(s.listeners, v) + [Notified(l, v)]
  {
    RequestSetEffect(AddListener(s, l), v);
    assert Notifications(s.listeners + [l], v) == Notifications(s.listeners, v) + [Notified(l, v)];
  }

  /** Toggling availability and adding a listener touch no value state and run no listener. */
  lemma SetAvailableAddListenerQuiet<T>(s: State<T>, b: bool, l: Listener)
    ensures SetAvailable(s, b).trace == s.trace && AddListener(s, l).trace == s.trace
    ensures Changed(SetAvailable(s, b)) == Changed(s) && Changed(AddListener(s, l)) == Changed(s)
    ensures SetAvailable(s, b).pending == s.pending && AddListener(s, l).pending == s.pending
    ensures AddListener(s, l).listeners[..|s.listeners|] == s.listeners
  {
  }

  /**
   * Every operation of a constructed option keeps its invariant; adding the
   * auto-apply listener to a dirty option afterwards is the one exception.
   */
  lemma InvariantPreserved<T>(s: State<T>, v: T, b: bool, l: Listener)
    requires Invariant(s)
    ensures Invariant(RequestSet(s, v))
    ensures Invariant(ForgetPendingValue(s))
    ensures Invariant(RequestSetDefault(s))
    ensures Invariant(ApplyValue(s).0)
    ensures Invariant(SetAvailable(s, b))
    ensures l != InstantApply || !Changed(s) ==> Invariant(AddListener(s, l))
  {
    RequestSetEffect(s, v);
    RequestSetEffect(s, s.persisted);
    RequestSetEffect(s, s.default);
  }

  /**
   * A freshly built instant option runs the builder's listeners, then
   * auto-apply, then the refresher, each with the binding's value, and is clean.
   */
  lemma InstantListenerOrder<T>(value: T, default: T, sources: seq<TooltipSource<T>>,
                                available: bool, ls: seq<Listener>)
    ensures var s := Construct(value, default, sources, available, BuiltListeners(ls, true));
      && s.listeners == ls + [InstantApply, TooltipRefresh]
      && s.trace == Notifications(ls, value) + [Notified(InstantApply, value), Notified(TooltipRefresh, value)]
      && s.persisted == value && !Changed(s)
  {
    var built := BuiltListeners(ls, true);
    ConstructedIsClean(value, default, sources, available, built);
    assert built + [TooltipRefresh] == ls + [InstantApply, TooltipRefresh];
    assert Notifications(ls + [InstantApply, TooltipRefresh], value)
        == Notifications(ls, value) + [Notified(InstantApply, value), Notified(TooltipRefresh, value)];
  }
}
