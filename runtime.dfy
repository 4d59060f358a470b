/**
 * The component host built by `createElement`: the dispatch on its argument,
 * the reactive cell per declared prop, the mount and cleanup callback lists
 * and the Custom Element callbacks that drive them; and the conditional
 * render helper `show`. Reactive cells are plain values here, callbacks and
 * setup functions are opaque identities, and the shadow root and the render
 * effect are left to the platform.
 */
module Runtime {
  import opened Base

  /** Identity of a callback passed to `onMount` or `onCleanup`. */
  type CallbackId = nat

  /** Identity of a user setup function. */
  type SetupId = nat

  /** A prop schema, reduced to its key names in the order `Object.keys`
      lists them (JavaScript never repeats a key; nothing here relies on
      the keys being distinct). */
  datatype Schema = Schema(keys: seq<string>)

  /** The argument of `createElement`: a bare setup function, or an object
      carrying a prop schema and a setup function. */
  datatype ElementOptions =
    | SetupFunction(setup: SetupId)
    | SetupObject(props: Schema, setup: SetupId)
  {
    function Setup(): SetupId
    {
      match this
      case SetupFunction(s) => s
      case SetupObject(_, s) => s
    }
  }

  /** What `createElement` keeps from its argument. */
  datatype Definition = Definition(props: Option<Schema>, setup: SetupId)

  /** The dispatch on the argument of `createElement`. */
  function Resolve(options: ElementOptions): (d: Definition)
    ensures d.setup == options.Setup()
    ensures d.props.Some? <==> options.SetupObject?
    ensures options.SetupObject? ==> d.props.value == options.props
  {
    if options.SetupFunction? then Definition(None, options.setup)
    else Definition(Some(options.props), options.setup)
  }

  /** The static `observedAttributes` of the element class. */
  function ObservedAttributes(d: Definition): (names: seq<string>)
    ensures d.props.Some? ==> names == d.props.value.keys
    ensures names == [] <==> d.props.None? || d.props.value.keys == []
  {
    if d.props.Some? then d.props.value.keys else []
  }

  /** The names a definition declares, as a set. */
  ghost function DeclaredNames(d: Definition): set<string>
  {
    set k | k in ObservedAttributes(d)
  }

  /** The platform reports exactly the schema's keys, in order; without a
      schema it observes nothing. */
  lemma ObservedAttributesOfOptions(options: ElementOptions)
    ensures options.SetupFunction? ==> ObservedAttributes(Resolve(options)) == []
    ensures options.SetupObject? ==> ObservedAttributes(Resolve(options)) == options.props.keys
  {
  }

  /** The value held by a prop cell: `undefined` until the first attribute
      change, then whatever the platform passed (`null` on removal). */
  datatype AttrValue = Undefined | Null | Text(s: string)

  /** One unset cell per name. */
  function EmptyCells(names: seq<string>): (cells: map<string, AttrValue>)
    ensures cells.Keys == set k | k in names
    ensures forall k :: k in cells ==> cells[k] == Undefined
  {
    map k | k in names :: Undefined
  }

  /** A call the setup function makes on the registrars it is given. */
  datatype Registration = Mount(callback: CallbackId) | Cleanup(callback: CallbackId)

  /** The mount callbacks among the registrations, in registration order. */
  function Mounts(regs: seq<Registration>): seq<CallbackId>
  {
    if regs == [] then []
    else Mounts(regs[..|regs| - 1]) + (if regs[|regs| - 1].Mount? then [regs[|regs| - 1].callback] else [])
  }

  /** The cleanup callbacks among the registrations, in registration order. */
  function Cleanups(regs: seq<Registration>): seq<CallbackId>
  {
    if regs == [] then []
    else Cleanups(regs[..|regs| - 1]) + (if regs[|regs| - 1].Cleanup? then [regs[|regs| - 1].callback] else [])
  }

  /** Every registration lands in exactly one of the two lists. */
  lemma {:induction false} RegistrationsSplit(regs: seq<Registration>)
    ensures |Mounts(regs)| + |Cleanups(regs)| == |regs|
    ensures forall c :: c in Mounts(regs) <==> Mount(c) in regs
    ensures forall c :: c in Cleanups(regs) <==> Cleanup(c) in regs
  {
    if regs != [] {
      var init := regs[..|regs| - 1];
      RegistrationsSplit(init);
      assert regs == init + [regs[|regs| - 1]];
    }
  }

  /** Filtering keeps registration order: the callbacks registered in a
      later stretch follow those registered earlier, in both lists. */
  lemma {:induction false} RegistrationsKeepOrder(a: seq<Registration>, b: seq<Registration>)
    ensures Mounts(a + b) == Mounts(a) + Mounts(b)
    ensures Cleanups(a + b) == Cleanups(a) + Cleanups(b)
  {
    if b == [] {
      assert a + b == a;
    } else {
      var init := b[..|b| - 1];
      RegistrationsKeepOrder(a, init);
      assert (a + b)[..|a + b| - 1] == a + init;
      assert (a + b)[|a + b| - 1] == b[|b| - 1];
    }
  }

  /** The element class returned by `createElement`. */
  class Element {
    /** The dispatched argument of `createElement`, shared by all instances. */
    const definition: Definition
    /** Declared prop name to its reactive cell. */
    var attrs: map<string, AttrValue>
    /** Mount callbacks, in registration order. */
    var inits: seq<CallbackId>
    /** Cleanup callbacks, in registration order. */
    var deinits: seq<CallbackId>
    /** The keys of the props bag handed to the setup function. */
    ghost var setupProps: set<string>
    /** The callbacks run so far, in the order they ran. */
    ghost var log: seq<CallbackId>

    /** The cells are exactly the observed attributes, and the setup function
        saw the same keys. */
    ghost predicate Valid()
      reads this
    {
      attrs.Keys == DeclaredNames(definition) && setupProps == attrs.Keys
    }

    /**
     * Construction: dispatch, one unset cell per declared key, then the setup
     * function runs once with the props bag, registering `registrations` in
     * order.
     */
    constructor (options: ElementOptions, registrations: seq<Registration>)
      ensures Valid()
      ensures definition == Resolve(options)
      ensures attrs == EmptyCells(ObservedAttributes(definition))
      ensures setupProps == DeclaredNames(definition)
      ensures inits == Mounts(registrations) && deinits == Cleanups(registrations)
      ensures log == []
    {
      definition := Resolve(options);
      attrs := map[];
      inits := [];
      deinits := [];
      log := [];
      new;
      if definition.props.Some? {
        var keys := definition.props.value.keys;
        for i := 0 to |keys|
          invariant attrs == EmptyCells(keys[..i])
          invariant inits == [] && deinits == [] && log == []
        {
          assert keys[..i + 1] == keys[..i] + [keys[i]];
          attrs := attrs[keys[i] := Undefined];
        }
        assert keys[..|keys|] == keys;
      }
      setupProps := attrs.Keys;
      for i := 0 to |registrations|
        invariant Valid() && attrs == EmptyCells(ObservedAttributes(definition)) && log == []
        invariant inits == Mounts(registrations[..i]) && deinits == Cleanups(registrations[..i])
      {
        assert registrations[..i + 1][..i] == registrations[..i];
        match registrations[i]
        case Mount(cb) => OnMount(cb);
        case Cleanup(cb) => OnCleanup(cb);
      }
      assert registrations[..|registrations|] == registrations;
    }

    /** The `onMount` registrar: appends to the end of `inits`. */
    method OnMount(callback: CallbackId)
      modifies this
      ensures inits == old(inits) + [callback]
      ensures attrs == old(attrs) && deinits == old(deinits)
      ensures setupProps == old(setupProps) && log == old(log)
    {
      inits := inits + [callback];
    }

    /** The `onCleanup` registrar: appends to the end of `deinits`. */
    method OnCleanup(callback: CallbackId)
      modifies this
      ensures deinits == old(deinits) + [callback]
      ensures attrs == old(attrs) && inits == old(inits)
      ensures setupProps == old(setupProps) && log == old(log)
    {
      deinits := deinits + [callback];
    }

    /** Writes the new value, uncoerced, into the cell of a declared name;
        an undeclared name changes nothing. */
    method AttributeChangedCallback(name: string, oldValue: AttrValue, newValue: AttrValue)
      requires Valid()
      modifies this
      ensures Valid()
      ensures name in old(attrs) ==> attrs == old(attrs)[name := newValue]
      ensures name !in old(attrs) ==> attrs == old(attrs)
      ensures inits == old(inits) && deinits == old(deinits) && log == old(log)
    {
      if name in attrs {
        attrs := attrs[name := newValue];
      }
    }

    /** Runs every mount callback once, in registration order. */
    method ConnectedCallback()
      modifies this`log
      ensures log == old(log) + inits
    {
      for i := 0 to |inits|
        invariant log == old(log) + inits[..i]
      {
        assert inits[..i + 1] == inits[..i] + [inits[i]];
        log := log + [inits[i]];
      }
      assert inits[..|inits|] == inits;
    }

    /** Runs every cleanup callback once, in registration order. */
    method DisconnectedCallback()
      modifies this`log
      ensures log == old(log) + deinits
    {
      for i := 0 to |deinits|
        invariant log == old(log) + deinits[..i]
      {
        assert deinits[..i + 1] == deinits[..i] + [deinits[i]];
        log := log + [deinits[i]];
      }
      assert deinits[..|deinits|] == deinits;
    }
  }

  /** Nothing is removed from the lists, so connecting again after a
      disconnection replays the mount callbacks, and attribute changes in
      between do not disturb the lists. */
  method Reconnect(e: Element, name: string, value: AttrValue)
    requires e.Valid()
    modifies e
    ensures e.Valid()
    ensures e.inits == old(e.inits) && e.deinits == old(e.deinits)
    ensures e.log == old(e.log) + e.inits + e.deinits + e.inits
  {
    e.ConnectedCallback();
    e.AttributeChangedCallback(name, Undefined, value);
    e.DisconnectedCallback();
    e.ConnectedCallback();
  }

  // ---------------------------------------------------------------------------
  // show

  /** A render result: lit's `nothing` sentinel, or an opaque template. */
  datatype Rendered = Nothing | TemplateResult(id: nat)

  /** What `show` returns, and whether it invoked its `children` function. */
  datatype Shown = Shown(rendered: Rendered, childrenCalled: bool)

  /** `show({when, fallback}, children)`: `children` stands for the value the
      children function would return; an omitted fallback is `nothing`. */
  function Show(when: bool, fallback: Option<Rendered>, children: Rendered): (r: Shown)
    ensures r.childrenCalled <==> when
    ensures when ==> r.rendered == children
    ensures !when && fallback.None? ==> r.rendered == Nothing
    ensures !when && fallback.Some? ==> r.rendered == fallback.value
  {
    var fallbackValue := if fallback.Some? then fallback.value else Nothing;
    if when then Shown(children, true) else Shown(fallbackValue, false)
  }

  /** While hidden, what is shown cannot depend on the children. */
  lemma ShowHiddenIgnoresChildren(fallback: Option<Rendered>, c1: Rendered, c2: Rendered)
    ensures Show(false, fallback, c1) == Show(false, fallback, c2)
  {
  }
}
