/**
 * The dispatcher shared by the widgets (assets/js/tea.js): one current model,
 * `update` run per message, a check that the new model brings no top-level key
 * the initial model lacked, then the command, the view, and the reconciliation
 * of keyed subscriptions.
 *
 * `update` and `subscriptions` are the widget's pure functions. Commands and
 * the view are not executed: every call the runtime makes into the widget is
 * appended to the ghost `trace`, in order.
 */
module Tea {

  /** A model as the runtime sees it: its top-level keys in `Object.keys` order, and the rest. */
  datatype Model<P> = Model(keys: seq<string>, payload: P)

  /** A command is known to the runtime by name only; its `run` is recorded, not executed. */
  datatype Command = Command(name: string)

  /**
   * A subscription record: its key, the identity of the JavaScript object that
   * carries it, and whether that object has a `stop` method when it is stopped.
   */
  datatype Subscription = Subscription(key: string, id: nat, hasStop: bool)

  /** What `update` did: returned a new model and a command, or threw. */
  datatype Step<P> = Next(model: Model<P>, command: Command) | Threw

  /** One call from the runtime into the widget. */
  datatype Effect<M, P> =
    | Updated(msg: M, model: Model<P>)
    | Ran(command: Command)
    | Viewed(model: Model<P>)
    | Started(sub: Subscription)
    | Stopped(sub: Subscription)

  /** How a dispatch ended: normally, by `update` throwing, or by the shape check throwing. */
  datatype Outcome = Done | UpdateThrew | KeysAdded(diff: seq<string>)

  /** The keys of `newKeys` that `allowed` lacks, in their order (the `diff` of the shape check). */
  function AddedKeys(newKeys: seq<string>, allowed: seq<string>): (diff: seq<string>)
    ensures forall k :: k in diff <==> k in newKeys && k !in allowed
    ensures |diff| <= |newKeys|
  {
    if newKeys == [] then []
    else
      var rest := AddedKeys(newKeys[1..], allowed);
      assert forall k :: k in newKeys <==> k == newKeys[0] || k in newKeys[1..] by {
        assert newKeys == [newKeys[0]] + newKeys[1..];
      }
      if newKeys[0] in allowed then rest else [newKeys[0]] + rest
  }

  /** The shape check passes exactly when every key of the new model is an initial key; dropping keys is allowed. */
  lemma ShapeCheckIsSubset(newKeys: seq<string>, allowed: seq<string>)
    ensures AddedKeys(newKeys, allowed) == [] <==> (set k | k in newKeys) <= (set k | k in allowed)
  {
    var diff := AddedKeys(newKeys, allowed);
    if diff != [] {
      assert diff[0] in diff;
      var a, b := set k | k in newKeys, set k | k in allowed;
      assert diff[0] in a && diff[0] !in b;
      assert !(a <= b);
    } else {
      forall k | k in newKeys ensures k in allowed {
        assert k !in diff;
      }
    }
  }

  predicate HasKey(subs: seq<Subscription>, key: string)
  {
    exists i :: 0 <= i < |subs| && subs[i].key == key
  }

  /** `stop?.()` on each active record whose key the desired list lacks, in the active list's order. */
  function StopEffects<M, P>(active: seq<Subscription>, desired: seq<Subscription>): (effects: seq<Effect<M, P>>)
    ensures |effects| <= |active|
    ensures forall i :: 0 <= i < |effects| ==> effects[i].Stopped?
  {
    if active == [] then []
    else
      var last := active[|active| - 1];
      StopEffects(active[..|active| - 1], desired)
        + if !HasKey(desired, last.key) && last.hasStop then [Stopped(last)] else []
  }

  /** `start(dispatch)` on each desired record whose key was not active, in the desired list's order. */
  function StartEffects<M, P>(desired: seq<Subscription>, active: seq<Subscription>): (effects: seq<Effect<M, P>>)
    ensures |effects| <= |desired|
    ensures forall i :: 0 <= i < |effects| ==> effects[i].Started?
  {
    if desired == [] then []
    else
      var last := desired[|desired| - 1];
      StartEffects(desired[..|desired| - 1], active)
        + if !HasKey(active, last.key) then [Started(last)] else []
  }

  /** The stop pass over one more active record adds at most that record's stop. */
  lemma StopEffectsStep<M, P>(active: seq<Subscription>, i: nat, desired: seq<Subscription>)
    requires i < |active|
    ensures StopEffects<M, P>(active[..i + 1], desired) == StopEffects<M, P>(active[..i], desired)
      + if !HasKey(desired, active[i].key) && active[i].hasStop then [Stopped(active[i])] else []
  {
    assert active[..i + 1][..i] == active[..i];
  }

  /** The start pass over one more desired record adds at most that record's start. */
  lemma StartEffectsStep<M, P>(desired: seq<Subscription>, j: nat, active: seq<Subscription>)
    requires j < |desired|
    ensures StartEffects<M, P>(desired[..j + 1], active) == StartEffects<M, P>(desired[..j], active)
      + if !HasKey(active, desired[j].key) then [Started(desired[j])] else []
  {
    assert desired[..j + 1][..j] == desired[..j];
  }

  /** Everything one reconciliation calls: first the stops, then the starts. */
  function Reconcile<M, P>(active: seq<Subscription>, desired: seq<Subscription>): (effects: seq<Effect<M, P>>)
    ensures |effects| <= |active| + |desired|
    ensures forall i :: 0 <= i < |effects| ==> effects[i].Stopped? || effects[i].Started?
    ensures forall i, j :: 0 <= i < j < |effects| && effects[j].Stopped? ==> effects[i].Stopped?
  {
    StopEffects(active, desired) + StartEffects(desired, active)
  }

  lemma {:induction false} StopEffectsExactly<M, P>(active: seq<Subscription>, desired: seq<Subscription>, e: Effect<M, P>)
    ensures e in StopEffects<M, P>(active, desired) <==>
      e.Stopped? && e.sub in active && e.sub.hasStop && !HasKey(desired, e.sub.key)
  {
    if active != [] {
      var init := active[..|active| - 1];
      StopEffectsExactly(init, desired, e);
      assert active == init + [active[|active| - 1]];
    }
  }

  lemma {:induction false} StartEffectsExactly<M, P>(desired: seq<Subscription>, active: seq<Subscription>, e: Effect<M, P>)
    ensures e in StartEffects<M, P>(desired, active) <==>
      e.Started? && e.sub in desired && !HasKey(active, e.sub.key)
  {
    if desired != [] {
      var init := desired[..|desired| - 1];
      StartEffectsExactly(init, active, e);
      assert desired == init + [desired[|desired| - 1]];
    }
  }

  /**
   * Reconciliation stops exactly the stoppable active records whose key is no
   * longer desired, and starts exactly the desired records whose key was not active.
   */
  lemma ReconcileExactly<M, P>(active: seq<Subscription>, desired: seq<Subscription>, s: Subscription)
    ensures Stopped(s) in Reconcile<M, P>(active, desired) <==> s in active && s.hasStop && !HasKey(desired, s.key)
    ensures Started(s) in Reconcile<M, P>(active, desired) <==> s in desired && !HasKey(active, s.key)
  {
    StopEffectsExactly<M, P>(active, desired, Stopped(s));
    StopEffectsExactly<M, P>(active, desired, Started(s));
    StartEffectsExactly<M, P>(desired, active, Stopped(s));
    StartEffectsExactly<M, P>(desired, active, Started(s));
  }

  /** A key that is active before and desired after is neither stopped nor restarted. */
  lemma ContinuingKeyUntouched<M, P>(active: seq<Subscription>, desired: seq<Subscription>, key: string, e: Effect<M, P>)
    requires HasKey(active, key) && HasKey(desired, key)
    requires e in Reconcile<M, P>(active, desired)
    ensures (e.Started? || e.Stopped?) && e.sub.key != key
  {
    StopEffectsExactly<M, P>(active, desired, e);
    StartEffectsExactly<M, P>(desired, active, e);
  }

  /**
   * As written, the active list after a reconciliation is the desired list
   * itself, so a continuing key is carried by the new record, whose `start`
   * never ran. With records that get their `stop` from `start` (as the list
   * widget's do), the listener started for the first record is never stopped.
   */
  lemma StartedListenerNeverStopped()
    ensures var first := Subscription("directionToggle", 1, true);
            var again := Subscription("directionToggle", 2, false);
            && Reconcile<int, int>([], [first]) == [Started(first)]
            && Reconcile<int, int>([first], [again]) == []
            && Reconcile<int, int>([again], []) == []
  {
    var first := Subscription("directionToggle", 1, true);
    var again := Subscription("directionToggle", 2, false);
    assert [first][..0] == [] && [again][..0] == [];
    assert [first][0].key == again.key && [again][0].key == first.key;
  }

  /** The first active record carrying `key`. */
  function FirstWithKey(active: seq<Subscription>, key: string): (s: Subscription)
    requires HasKey(active, key)
    ensures s in active && s.key == key
  {
    if active[0].key == key then active[0]
    else
      assert HasKey(active[1..], key) by {
        var i :| 0 <= i < |active| && active[i].key == key;
        assert active[1..][i - 1].key == key;
      }
      FirstWithKey(active[1..], key)
  }

  /**
   * The list that should be kept instead of the desired list: for a
   * continuing key, the record that was started, not its new copy.
   */
  function KeepStarted(active: seq<Subscription>, desired: seq<Subscription>): (kept: seq<Subscription>)
    ensures |kept| == |desired|
    ensures forall i :: 0 <= i < |desired| ==> kept[i].key == desired[i].key
    ensures forall i :: 0 <= i < |desired| ==>
      if HasKey(active, desired[i].key) then kept[i] in active else kept[i] == desired[i]
  {
    seq(|desired|, i requires 0 <= i < |desired| =>
      if HasKey(active, desired[i].key) then FirstWithKey(active, desired[i].key) else desired[i])
  }

  /** Keeping the started record, every record left active was active before or has just been started. */
  lemma KeptRecordsWereStarted<M, P>(active: seq<Subscription>, desired: seq<Subscription>, s: Subscription)
    requires s in KeepStarted(active, desired)
    ensures s in active || Started(s) in Reconcile<M, P>(active, desired)
  {
    var kept := KeepStarted(active, desired);
    var i :| 0 <= i < |kept| && kept[i] == s;
    if !HasKey(active, desired[i].key) {
      ReconcileExactly<M, P>(active, desired, s);
    }
  }

  /** Keeping the started record, the sequence above stops the listener it started. */
  lemma KeepingStartedStopsListener()
    ensures var first := Subscription("directionToggle", 1, true);
            var again := Subscription("directionToggle", 2, false);
            && KeepStarted([], [first]) == [first]
            && KeepStarted([first], [again]) == [first]
            && Reconcile<int, int>([first], []) == [Stopped(first)]
  {
    var first := Subscription("directionToggle", 1, true);
    var again := Subscription("directionToggle", 2, false);
    assert [first][0].key == again.key;
    assert [first][..0] == [];
  }

  class App<M, P> {
    /** The model `createApp` was given, and its keys, captured once. */
    const initialModel: Model<P>
    const initialKeys: seq<string>
    const update: (M, Model<P>) -> Step<P>
    const subscriptions: Model<P> -> seq<Subscription>
    /** The messages `init(dispatch)` dispatches, in order. */
    const initMessages: seq<M>

    var current: Model<P>
    var active: seq<Subscription>
    ghost var trace: seq<Effect<M, P>>

    /** The committed model never carries a key the initial model lacked. */
    ghost predicate Valid()
      reads this
    {
      forall k :: k in current.keys ==> k in initialKeys
    }

    constructor (initialModel: Model<P>, update: (M, Model<P>) -> Step<P>,
                 subscriptions: Model<P> -> seq<Subscription>, initMessages: seq<M>)
      ensures Valid()
      ensures this.initialModel == initialModel && initialKeys == initialModel.keys
      ensures this.update == update && this.subscriptions == subscriptions
      ensures this.initMessages == initMessages
      ensures current == initialModel && active == [] && trace == []
    {
      this.initialModel := initialModel;
      initialKeys := initialModel.keys;
      this.update := update;
      this.subscriptions := subscriptions;
      this.initMessages := initMessages;
      current := initialModel;
      active := [];
      trace := [];
    }

    /**
     * `refreshSubscriptions`: stop what is no longer desired, start what is
     * new, and make the desired list itself the active list.
     */
    method RefreshSubscriptions(model: Model<P>)
      modifies this
      ensures current == old(current)
      ensures active == subscriptions(model)
      ensures trace == old(trace) + Reconcile(old(active), subscriptions(model))
    {
      var newSubs := subscriptions(model);
      var i := 0;
      while i < |active|
        invariant 0 <= i <= |active|
        invariant current == old(current) && active == old(active)
        invariant trace == old(trace) + StopEffects(active[..i], newSubs)
      {
        var sub := active[i];
        StopEffectsStep<M, P>(active, i, newSubs);
        if !HasKey(newSubs, sub.key) && sub.hasStop {
          trace := trace + [Stopped(sub)];
        }
        i := i + 1;
      }
      assert active[..i] == active;
      ghost var stopped := trace;
      var j := 0;
      while j < |newSubs|
        invariant 0 <= j <= |newSubs|
        invariant current == old(current) && active == old(active)
        invariant trace == stopped + StartEffects(newSubs[..j], active)
      {
        var sub := newSubs[j];
        StartEffectsStep<M, P>(newSubs, j, active);
        if !HasKey(active, sub.key) {
          trace := trace + [Started(sub)];
        }
        j := j + 1;
      }
      assert newSubs[..j] == newSubs;
      assert trace == old(trace) + (StopEffects(active, newSubs) + StartEffects(newSubs, active));
      active := newSubs;
    }

    /**
     * `dispatch(msg)`. When `update` throws or the new model brings a key the
     * initial model lacked, the dispatch throws and nothing else happens.
     * Otherwise the new model is committed and the command, the view and the
     * reconciliation run, in that order.
     */
    method Dispatch(msg: M) returns (outcome: Outcome)
      requires Valid()
      modifies this
      ensures Valid()
      ensures update(msg, old(current)).Threw? ==>
        && outcome == UpdateThrew
        && current == old(current) && active == old(active)
        && trace == old(trace) + [Updated(msg, old(current))]
      ensures update(msg, old(current)).Next? ==>
        var next := update(msg, old(current));
        var diff := AddedKeys(next.model.keys, initialKeys);
        if diff != [] then
          && outcome == KeysAdded(diff)
          && current == old(current) && active == old(active)
          && trace == old(trace) + [Updated(msg, old(current))]
        else
          && outcome == Done
          && current == next.model
          && active == subscriptions(next.model)
          && trace == old(trace) + [Updated(msg, old(current)), Ran(next.command), Viewed(next.model)]
                      + Reconcile(old(active), subscriptions(next.model))
    {
      trace := trace + [Updated(msg, current)];
      var step := update(msg, current);
      if step.Threw? {
        return UpdateThrew;
      }
      var diff := AddedKeys(step.model.keys, initialKeys);
      if |diff| > 0 {
        return KeysAdded(diff);
      }
      current := step.model;
      trace := trace + [Ran(step.command)];
      trace := trace + [Viewed(current)];
      RefreshSubscriptions(current);
      outcome := Done;
    }

    /**
     * `start()`: `init(dispatch)`, which dispatches its messages in order; a
     * throwing dispatch ends it. The first `update` sees the first init message
     * and the model current when `start` was called.
     */
    method Start() returns (outcome: Outcome)
      requires Valid()
      modifies this
      ensures Valid()
      ensures initMessages == [] ==> outcome == Done && trace == old(trace) && current == old(current)
      ensures initMessages != [] ==>
        |trace| > |old(trace)| && trace[|old(trace)|] == Updated(initMessages[0], old(current))
    {
      outcome := Done;
      var i := 0;
      while i < |initMessages| && outcome == Done
        invariant 0 <= i <= |initMessages|
        invariant Valid()
        invariant i == 0 ==> outcome == Done && trace == old(trace) && current == old(current)
        invariant i > 0 ==> |trace| > |old(trace)| && trace[|old(trace)|] == Updated(initMessages[0], old(current))
      {
        ghost var before := trace;
        outcome := Dispatch(initMessages[i]);
        assert before <= trace;
        i := i + 1;
      }
    }
  }
}
