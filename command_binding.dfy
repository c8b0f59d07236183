/**
  The pure parts of the `command` binding handler: how a binding value becomes
  a map from event names to commands, how those names are split between
  registered binding handlers and plain DOM events, and which `canExecute`
  drives the element's enabled state.

  A JavaScript object is modelled by what the handler reads of it: its own
  `execute` and `canExecute` properties, and its enumerable properties in
  `for ... in` order. `X` stands for the function values those properties hold,
  which the handler passes on without calling.
 */
module CommandBinding {
  import opened Wrappers

  /** The `execute` and `canExecute` properties of a command-like object (None when absent or falsy). */
  datatype Entry<X> = Entry(execute: Option<X>, canExecute: Option<X>)

  /** A binding value: its own command properties, and its enumerable properties in iteration order. */
  datatype BindingValue<X> = BindingValue(own: Entry<X>, members: seq<(string, Entry<X>)>)

  /** The property names of an object are distinct. */
  ghost predicate DistinctNames<X>(commands: seq<(string, Entry<X>)>)
  {
    forall i, j :: 0 <= i < j < |commands| ==> commands[i].0 != commands[j].0
  }

  /**
    `value.execute ? { click: value } : value`: a single command is bound to
    `click`; anything else is already a map from event names to commands.
   */
  function Normalize<X>(value: BindingValue<X>): (commands: seq<(string, Entry<X>)>)
    ensures value.own.execute.Some? ==> commands == [("click", value.own)]
    ensures value.own.execute.None? ==> commands == value.members
    ensures DistinctNames(value.members) ==> DistinctNames(commands)
  {
    if value.own.execute.Some? then [("click", value.own)] else value.members
  }

  /** The (name, execute) pairs handed to registered binding handlers, in iteration order. */
  function HandlerEntries<X>(commands: seq<(string, Entry<X>)>, registered: set<string>): seq<(string, Option<X>)>
  {
    if |commands| == 0 then []
    else
      var last := commands[|commands| - 1];
      HandlerEntries(commands[..|commands| - 1], registered)
      + (if last.0 in registered then [(last.0, last.1.execute)] else [])
  }

  /**
    The handler group holds exactly the commands whose names are registered
    binding handlers, each with its own `execute`.
   */
  lemma {:induction false} HandlerEntriesExact<X>(commands: seq<(string, Entry<X>)>, registered: set<string>)
    ensures forall e :: e in HandlerEntries(commands, registered) ==>
      e.0 in registered && exists k :: 0 <= k < |commands| && e == (commands[k].0, commands[k].1.execute)
    ensures forall k :: 0 <= k < |commands| && commands[k].0 in registered ==>
      (commands[k].0, commands[k].1.execute) in HandlerEntries(commands, registered)
  {
    if |commands| > 0 {
      var prefix := commands[..|commands| - 1];
      HandlerEntriesExact(prefix, registered);
      forall e | e in HandlerEntries(commands, registered)
        ensures e.0 in registered && exists k :: 0 <= k < |commands| && e == (commands[k].0, commands[k].1.execute)
      {
        if e in HandlerEntries(prefix, registered) {
          var k :| 0 <= k < |prefix| && e == (prefix[k].0, prefix[k].1.execute);
          assert prefix[k] == commands[k];
        } else {
          assert e == (commands[|commands| - 1].0, commands[|commands| - 1].1.execute);
        }
      }
      forall k | 0 <= k < |commands| && commands[k].0 in registered
        ensures (commands[k].0, commands[k].1.execute) in HandlerEntries(commands, registered)
      {
        if k < |prefix| {
          assert prefix[k] == commands[k];
        }
      }
    }
  }

  /** `initBindingHandlers`: walk the commands and collect those whose name is a registered binding handler. */
  method InitBindingHandlers<X>(commands: seq<(string, Entry<X>)>, registered: set<string>)
    returns (inits: seq<(string, Option<X>)>)
    ensures inits == HandlerEntries(commands, registered)
  {
    inits := [];
    var i := 0;
    while i < |commands|
      invariant 0 <= i <= |commands|
      invariant inits == HandlerEntries(commands[..i], registered)
    {
      assert commands[..i + 1][..i] == commands[..i];
      if commands[i].0 in registered {
        inits := inits + [(commands[i].0, commands[i].1.execute)];
      }
      i := i + 1;
    }
    assert commands[..|commands|] == commands;
  }

  /**
    `initEventHandlers`: build the events map from every command whose name is
    not a registered binding handler to that command's `execute`.
   */
  method InitEventHandlers<X>(commands: seq<(string, Entry<X>)>, registered: set<string>)
    returns (events: map<string, Option<X>>)
    requires DistinctNames(commands)
    ensures events.Keys == set k | 0 <= k < |commands| && commands[k].0 !in registered :: commands[k].0
    ensures forall k :: 0 <= k < |commands| && commands[k].0 !in registered ==>
      commands[k].0 in events && events[commands[k].0] == commands[k].1.execute
  {
    events := map[];
    var i := 0;
    while i < |commands|
      invariant 0 <= i <= |commands|
      invariant events.Keys == set k | 0 <= k < i && commands[k].0 !in registered :: commands[k].0
      invariant forall k :: 0 <= k < i && commands[k].0 !in registered ==>
        commands[k].0 in events && events[commands[k].0] == commands[k].1.execute
    {
      if commands[i].0 !in registered {
        events := events[commands[i].0 := commands[i].1.execute];
      }
      i := i + 1;
    }
  }

  /**
    `update`: the value's own `canExecute` when it has one, otherwise the first
    command's `canExecute` in iteration order; None means no enabled-state update.
   */
  method SelectCanExecute<X>(value: BindingValue<X>) returns (c: Option<X>)
    ensures value.own.canExecute.Some? ==> c == value.own.canExecute
    ensures value.own.canExecute.None? && c.Some? ==>
      exists k :: 0 <= k < |value.members| && c == value.members[k].1.canExecute
        && forall j :: 0 <= j < k ==> value.members[j].1.canExecute.None?
    ensures c.None? <==>
      value.own.canExecute.None? && forall k :: 0 <= k < |value.members| ==> value.members[k].1.canExecute.None?
  {
    c := value.own.canExecute;
    if c.None? {
      var i := 0;
      while i < |value.members|
        invariant 0 <= i <= |value.members|
        invariant c.None?
        invariant forall j :: 0 <= j < i ==> value.members[j].1.canExecute.None?
      {
        if value.members[i].1.canExecute.Some? {
          c := value.members[i].1.canExecute;
          return;
        }
        i := i + 1;
      }
    }
  }
}
