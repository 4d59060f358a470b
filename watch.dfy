/**
 * The `watch` directive and the `withWatch` template-tag wrapper. Values
 * interpolated into a template are either passed through or wrapped in
 * `watch`, by a rule on the value and on the raw text before it; the
 * directive keeps one reactive subscription to its current getter and
 * pushes new values into its part. The reactive runtime (roots, effects)
 * and lit's part are represented by the state they would hold.
 */
module Watch {
  import opened Base

  // ---------------------------------------------------------------------------
  // String splitting, as JavaScript's `s.split(" ")`

  /** `s.split(" ")`: the chunks between spaces; never empty. */
  function Split(s: string): (parts: seq<string>)
    ensures |parts| >= 1
    ensures forall i :: 0 <= i < |parts| ==> ' ' !in parts[i]
  {
    if s == [] then [[]]
    else if s[0] == ' ' then [[]] + Split(s[1..])
    else
      var rest := Split(s[1..]);
      [[s[0]] + rest[0]] + rest[1..]
  }

  /** `parts.join(" ")`. */
  function Join(parts: seq<string>): (s: string)
    requires |parts| >= 1
    ensures |parts[0]| <= |s| && s[..|parts[0]|] == parts[0]
    ensures |parts[|parts| - 1]| <= |s| && s[|s| - |parts[|parts| - 1]|..] == parts[|parts| - 1]
  {
    if |parts| == 1 then parts[0] else parts[0] + " " + Join(parts[1..])
  }

  /** Joining the chunks gives back the string. */
  lemma {:induction false} JoinSplit(s: string)
    ensures Join(Split(s)) == s
  {
    if s != [] {
      JoinSplit(s[1..]);
      var rest := Split(s[1..]);
      if s[0] == ' ' {
        assert Split(s)[1..] == rest;
      } else if |rest| == 1 {
        assert Split(s) == [[s[0]] + rest[0]];
      } else {
        assert Split(s)[1..] == rest[1..];
        assert Join(Split(s)) == [s[0]] + rest[0] + " " + Join(rest[1..]);
      }
    }
  }

  /** A string without spaces is a single chunk. */
  lemma {:induction false} SplitNoSpace(a: string)
    requires ' ' !in a
    ensures Split(a) == [a]
  {
    if a != [] {
      assert ' ' !in a[1..] by {
        forall c | c in a[1..] ensures c != ' ' { assert c in a; }
      }
      SplitNoSpace(a[1..]);
      assert [a[0]] + a[1..] == a;
    }
  }

  /** A chunk followed by a space splits off as the first part. */
  lemma {:induction false} SplitAfterChunk(a: string, b: string)
    requires ' ' !in a
    ensures Split(a + " " + b) == [a] + Split(b)
  {
    if a == [] {
      assert a + " " + b == [' '] + b;
      assert (a + " " + b)[1..] == b;
    } else {
      var s := a + " " + b;
      assert s[1..] == a[1..] + " " + b;
      assert ' ' !in a[1..] by {
        forall c | c in a[1..] ensures c != ' ' { assert c in a; }
      }
      SplitAfterChunk(a[1..], b);
      assert [a[0]] + a[1..] == a;
    }
  }

  /** Splitting a join of space-free chunks gives back the chunks. */
  lemma {:induction false} SplitJoin(parts: seq<string>)
    requires |parts| >= 1
    requires forall i :: 0 <= i < |parts| ==> ' ' !in parts[i]
    ensures Split(Join(parts)) == parts
  {
    if |parts| == 1 {
      SplitNoSpace(parts[0]);
    } else {
      SplitJoin(parts[1..]);
      SplitAfterChunk(parts[0], Join(parts[1..]));
      assert [parts[0]] + parts[1..] == parts;
    }
  }

  /** The last chunk of a split is a suffix of the string; it is the whole
      string when there is one chunk, and a space precedes it otherwise. */
  lemma {:induction false} SplitLast(s: string)
    ensures var p := Split(s); var last := p[|p| - 1];
      |last| <= |s| && s[|s| - |last|..] == last &&
      (|p| == 1 ==> last == s) &&
      (|p| > 1 ==> |last| < |s| && s[|s| - |last| - 1] == ' ')
  {
    if s != [] {
      SplitLast(s[1..]);
      var rest := Split(s[1..]);
      if s[0] != ' ' && |rest| == 1 {
        assert [s[0]] + s[1..] == s;
      }
    }
  }

  /** The text after the last space (the whole string if it has none): the
      attribute or text chunk an interpolation directly follows. */
  function LastChunk(s: string): (chunk: string)
    ensures ' ' !in chunk
    ensures |chunk| <= |s| && s[|s| - |chunk|..] == chunk
    ensures chunk == s || s[|s| - |chunk| - 1] == ' '
  {
    var parts := Split(s);
    SplitLast(s);
    parts[|parts| - 1]
  }

  /** The last chunk is the only suffix without a space that stands at the
      start of the string or after a space. */
  lemma LastChunkUnique(s: string, c: string)
    requires ' ' !in c
    requires |c| <= |s| && s[|s| - |c|..] == c
    requires c == s || s[|s| - |c| - 1] == ' '
    ensures LastChunk(s) == c
  {
  }

  // ---------------------------------------------------------------------------
  // withWatch

  /** An interpolated value: a function with its declared parameter count
      (`length`), or anything else. */
  datatype Value = Function(id: nat, arity: nat) | NonFunction(id: nat)

  /** A value as handed to the tag: wrapped in `watch`, or unchanged. */
  datatype Binding = Watched(getter: Value) | Unwrapped(value: Value)

  /** A tagged template's strings: the cooked texts and the raw texts. */
  datatype TemplateStrings = TemplateStrings(cooked: seq<string>, raw: seq<string>)

  /** The call `withWatch(tag)` makes on the underlying tag. */
  datatype TagCall = TagCall(strings: TemplateStrings, values: seq<Binding>)

  predicate StartsWith(s: string, c: char)
  {
    |s| > 0 && s[0] == c
  }

  /** The wrapping rule for one value and the raw text before it. */
  predicate ShouldWrap(v: Value, raw: string)
  {
    var prevPart := LastChunk(raw);
    var noArgs := v.Function? && v.arity == 0;
    var isEvent := StartsWith(prevPart, '@');
    var isProperty := StartsWith(prevPart, '.');
    noArgs && !isEvent && !isProperty
  }

  function Bind(v: Value, raw: string): Binding
  {
    if ShouldWrap(v, raw) then Watched(v) else Unwrapped(v)
  }

  /**
   * `withWatch(tag)(strings, ...values)`. A tagged template always has one
   * raw string more than it has values.
   */
  function WithWatch(strings: TemplateStrings, values: seq<Value>): (call: TagCall)
    requires |strings.raw| == |values| + 1
    ensures call.strings == strings
    ensures |call.values| == |values|
    ensures forall i :: 0 <= i < |values| ==>
      (call.values[i] == Watched(values[i]) || call.values[i] == Unwrapped(values[i]))
    ensures forall i :: 0 <= i < |values| ==>
      (call.values[i].Watched? <==>
        values[i].Function? && values[i].arity == 0 &&
        !StartsWith(LastChunk(strings.raw[i]), '@') && !StartsWith(LastChunk(strings.raw[i]), '.'))
  {
    TagCall(strings, seq(|values|, i requires 0 <= i < |values| => Bind(values[i], strings.raw[i])))
  }

  /** A value bound at an event (`@name=`) or property (`.name=`) position is
      never wrapped, even a zero-parameter function. */
  lemma EventAndPropertyBindingsUnwrapped(strings: TemplateStrings, values: seq<Value>, i: nat,
                                          before: string, marker: char, name: string)
    requires |strings.raw| == |values| + 1 && i < |values|
    requires marker == '@' || marker == '.'
    requires ' ' !in name
    requires strings.raw[i] == before + " " + [marker] + name
    ensures WithWatch(strings, values).values[i] == Unwrapped(values[i])
  {
    var raw := strings.raw[i];
    var c := [marker] + name;
    assert ' ' !in c;
    assert raw[|raw| - |c|..] == c;
    assert raw[|raw| - |c| - 1] == ' ';
    LastChunkUnique(raw, c);
  }

  /** A zero-parameter function whose preceding text ends in a space (a text
      position) is wrapped. */
  lemma TextPositionFunctionWrapped(strings: TemplateStrings, values: seq<Value>, i: nat, id: nat)
    requires |strings.raw| == |values| + 1 && i < |values|
    requires values[i] == Function(id, 0)
    requires |strings.raw[i]| > 0 && strings.raw[i][|strings.raw[i]| - 1] == ' '
    ensures WithWatch(strings, values).values[i] == Watched(values[i])
  {
    var raw := strings.raw[i];
    LastChunkUnique(raw, []);
  }

  // ---------------------------------------------------------------------------
  // WatchDirective

  /** Identity of a getter (an accessor), compared by reference. */
  type GetterId = nat

  /** Identity of a reactive root created with `createRoot`. */
  type RootId = nat

  /** A value a getter yields. */
  type Payload = nat

  /**
   * The directive's fields (`getter`, `dispose`) together with the half of
   * the outside world they act on: lit's connection state, the roots that
   * are still live (not disposed), the next fresh root, and the values
   * passed to `setValue`, in order.
   */
  datatype DirectiveState = DirectiveState(
    getter: Option<GetterId>,
    dispose: Option<RootId>,
    connected: bool,
    live: set<RootId>,
    nextRoot: RootId,
    committed: seq<Payload>)

  /** The roots the `dispose` field can still reach. */
  function Handle(st: DirectiveState): set<RootId>
  {
    if st.dispose.Some? then {st.dispose.value} else {}
  }

  /** `this.dispose?.()`. */
  function DisposeCurrent(st: DirectiveState): DirectiveState
  {
    st.(live := st.live - Handle(st))
  }

  /** A fresh root whose effect subscribes, its id stored in `dispose`. */
  function Subscribe(st: DirectiveState): DirectiveState
  {
    st.(dispose := Some(st.nextRoot), live := st.live + {st.nextRoot}, nextRoot := st.nextRoot + 1)
  }

  /** No subscription leaks: every live root is the one `dispose` holds, and
      every root id used is below `nextRoot`. */
  ghost predicate NoLeak(st: DirectiveState)
  {
    && st.live <= Handle(st)
    && (forall r :: r in st.live ==> r < st.nextRoot)
    && (st.dispose.Some? ==> st.dispose.value < st.nextRoot)
  }

  function Initial(connected: bool): (st: DirectiveState)
    ensures NoLeak(st) && st.live == {} && st.committed == []
  {
    DirectiveState(None, None, connected, {}, 0, [])
  }

  /**
   * `render(getter)`: a getter other than the recorded one disposes the old
   * root and subscribes afresh; the effect's synchronous first run reads the
   * getter but does not call `setValue`, since `updateFromLit` is still true.
   */
  function RenderStep(st: DirectiveState, g: GetterId): (st': DirectiveState)
    ensures st'.getter == Some(g)
    ensures st'.connected == st.connected && st'.committed == st.committed
    ensures st.getter == Some(g) ==> st' == st
    ensures st.getter != Some(g) ==>
      st'.dispose == Some(st.nextRoot) && st'.live == (st.live - Handle(st)) + {st.nextRoot} &&
      st'.nextRoot == st.nextRoot + 1
  {
    if st.getter == Some(g) then st
    else Subscribe(DisposeCurrent(st).(getter := Some(g)))
  }

  /** A dependency of live root `root` changed and its effect re-runs, reading
      `v`; after the first run every run calls `setValue`. */
  function EffectRunStep(st: DirectiveState, root: RootId, v: Payload): (st': DirectiveState)
    ensures st'.committed == if root in st.live then st.committed + [v] else st.committed
    ensures st'.(committed := st.committed) == st
  {
    if root in st.live then st.(committed := st.committed + [v]) else st
  }

  /** `disconnected()`. */
  function DisconnectedStep(st: DirectiveState): (st': DirectiveState)
    ensures !st'.connected
    ensures st'.live == st.live - Handle(st)
    ensures st'.getter == st.getter && st'.dispose == st.dispose && st'.committed == st.committed
  {
    DisposeCurrent(st).(connected := false)
  }

  /** `reconnected()` as written: with a recorded getter it subscribes afresh,
      overwriting `dispose`, and the first run calls `setValue` with the
      getter's value `v`. lit calls it only on a disconnected directive. */
  function ReconnectedAsWritten(st: DirectiveState, v: Payload): (st': DirectiveState)
    requires !st.connected
    ensures st'.connected && st'.getter == st.getter
    ensures st.getter.Some? ==>
      st'.dispose == Some(st.nextRoot) && st'.live == st.live + {st.nextRoot} &&
      st'.committed == st.committed + [v]
    ensures st.getter.None? ==> st'.live == st.live && st'.committed == st.committed
  {
    if st.getter.Some? then Subscribe(st).(connected := true, committed := st.committed + [v])
    else st.(connected := true)
  }

  /** `reconnected()` as intended: a root still held by `dispose` is disposed
      before the new one replaces it. lit calls it only on a disconnected
      directive. */
  function ReconnectedStep(st: DirectiveState, v: Payload): (st': DirectiveState)
    requires !st.connected
    ensures st'.connected && st'.getter == st.getter
    ensures st.getter.Some? ==>
      st'.dispose == Some(st.nextRoot) && st'.live == (st.live - Handle(st)) + {st.nextRoot} &&
      st'.committed == st.committed + [v]
    ensures st.getter.None? ==> st'.live == st.live && st'.committed == st.committed
  {
    if st.getter.Some? then Subscribe(DisposeCurrent(st)).(connected := true, committed := st.committed + [v])
    else st.(connected := true)
  }

  /** Rendering the recorded getter again changes nothing: no new root, no
      disposal, no `setValue`. */
  lemma RenderSameGetter(st: DirectiveState, g: GetterId)
    requires st.getter == Some(g)
    ensures RenderStep(st, g) == st
  {
  }

  /** Rendering a new getter disposes the previous root, records the getter
      and holds exactly one live root, a fresh one; nothing is committed. */
  lemma RenderNewGetter(st: DirectiveState, g: GetterId)
    requires NoLeak(st) && st.getter != Some(g)
    ensures var st' := RenderStep(st, g);
      && st'.getter == Some(g)
      && st'.dispose == Some(st.nextRoot)
      && st.nextRoot !in st.live
      && st'.live == {st.nextRoot}
      && (st.dispose.Some? ==> st.dispose.value !in st'.live)
      && st'.committed == st.committed
      && st'.connected == st.connected
  {
  }

  /** Only the root `dispose` holds can call `setValue`; a re-run of any
      other root commits nothing. */
  lemma OnlyCurrentRootCommits(st: DirectiveState, root: RootId, v: Payload)
    requires NoLeak(st)
    ensures EffectRunStep(st, root, v).committed ==
      if st.dispose == Some(root) && root in st.live then st.committed + [v] else st.committed
  {
  }

  /** After `render(g)`, a change of what `g` reads is pushed with `setValue`. */
  lemma LaterRunsCommit(st: DirectiveState, g: GetterId, v: Payload)
    requires NoLeak(st) && st.getter != Some(g)
    ensures var st' := RenderStep(st, g);
      EffectRunStep(st', st'.dispose.value, v).committed == st.committed + [v]
  {
  }

  /** After `disconnected()` no root is live, so nothing more is committed
      until the next render or reconnection. */
  lemma DisconnectedDisposesAll(st: DirectiveState, root: RootId, v: Payload)
    requires NoLeak(st)
    ensures DisconnectedStep(st).live == {}
    ensures EffectRunStep(DisconnectedStep(st), root, v) == DisconnectedStep(st)
  {
  }

  /** `reconnected()` resubscribes only with a recorded getter, and then its
      first run commits the current value. */
  lemma ReconnectedResubscribes(st: DirectiveState, v: Payload)
    requires NoLeak(st) && !st.connected
    ensures var st' := ReconnectedStep(st, v);
      && st'.connected
      && (st.getter.None? ==> st'.live == st.live && st'.committed == st.committed && st'.dispose == st.dispose)
      && (st.getter.Some? ==>
            st'.live == {st.nextRoot} && st'.dispose == Some(st.nextRoot) && st'.committed == st.committed + [v])
  {
  }

  /** Every step keeps the no-leak invariant. */
  lemma StepsKeepNoLeak(st: DirectiveState, g: GetterId, root: RootId, v: Payload)
    requires NoLeak(st)
    ensures NoLeak(RenderStep(st, g))
    ensures NoLeak(EffectRunStep(st, root, v))
    ensures NoLeak(DisconnectedStep(st))
    ensures !st.connected ==> NoLeak(ReconnectedStep(st, v))
  {
  }

  /** In the usual order (disconnected before reconnected) nothing is live
      on reconnection, and the code as written does what was intended. */
  lemma ReconnectedAsWrittenAfterDisconnect(st: DirectiveState, v: Payload)
    requires NoLeak(st)
    ensures ReconnectedAsWritten(DisconnectedStep(st), v) == ReconnectedStep(DisconnectedStep(st), v)
  {
  }

  /**
   * A directive first rendered while disconnected (lit's `isConnected: false`
   * render option) subscribes in `render`; `reconnected()` as written then
   * overwrites `dispose` with a second root, and the first one stays live
   * after `disconnected()` and after a new getter is rendered: its effect
   * still calls `setValue`.
   */
  lemma ReconnectedAsWrittenLeaks()
    ensures var st := ReconnectedAsWritten(RenderStep(Initial(false), 7), 1);
      && st.live == {0, 1}
      && DisconnectedStep(st).live == {0}
      && RenderStep(DisconnectedStep(st), 8).live == {0, 2}
      && EffectRunStep(RenderStep(DisconnectedStep(st), 8), 0, 5).committed == [1, 5]
      && !NoLeak(st)
  {
  }

  /** The same sequence with the intended `reconnected()` leaves nothing live. */
  lemma ReconnectedDoesNotLeak()
    ensures var st := ReconnectedStep(RenderStep(Initial(false), 7), 1);
      && st.live == {1}
      && DisconnectedStep(st).live == {}
      && NoLeak(st)
  {
  }

  /** The directive itself; `State()` is its abstract value. */
  class WatchDirective {
    var getter: Option<GetterId>
    var dispose: Option<RootId>
    var connected: bool
    /** The roots not yet disposed (state of the reactive runtime). */
    var live: set<RootId>
    var nextRoot: RootId
    /** The values passed to `setValue`, in order. */
    var committed: seq<Payload>

    function State(): DirectiveState
      reads this
    {
      DirectiveState(getter, dispose, connected, live, nextRoot, committed)
    }

    ghost predicate Valid()
      reads this
    {
      NoLeak(State())
    }

    /** A fresh directive; `isConnected` is lit's connection state at creation. */
    constructor (isConnected: bool)
      ensures Valid() && State() == Initial(isConnected)
    {
      getter, dispose, connected := None, None, isConnected;
      live, nextRoot, committed := {}, 0, [];
    }

    /** `createRoot(dispose => ...)`: a fresh live root, stored in `dispose`. */
    method CreateRoot()
      modifies this
      ensures State() == Subscribe(old(State()))
    {
      dispose := Some(nextRoot);
      live := live + {nextRoot};
      nextRoot := nextRoot + 1;
    }

    /** `this.dispose?.()`. */
    method DisposeRoot()
      modifies this
      ensures State() == DisposeCurrent(old(State()))
    {
      if dispose.Some? {
        live := live - {dispose.value};
      }
    }

    /** `render(getter)`; `current` is what `untrack(getter)` yields now. */
    method Render(g: GetterId, current: Payload) returns (r: Payload)
      requires Valid()
      modifies this
      ensures Valid()
      ensures State() == RenderStep(old(State()), g)
      ensures r == current
    {
      if getter != Some(g) {
        DisposeRoot();
        getter := Some(g);
        var updateFromLit := true;
        CreateRoot();
        EffectBody(current, updateFromLit);  // the effect's synchronous first run
        updateFromLit := false;
      }
      r := current;
    }

    /** The body of a subscription's effect, having read `v` from the getter:
        it calls `setValue` unless the run is the one `render` itself causes. */
    method EffectBody(v: Payload, updateFromLit: bool)
      modifies this`committed
      ensures committed == if updateFromLit then old(committed) else old(committed) + [v]
    {
      if !updateFromLit {
        committed := committed + [v];
      }
    }

    /** A dependency of `root`'s effect changed; the effect re-runs reading `v`. */
    method EffectRun(root: RootId, v: Payload)
      requires Valid()
      modifies this
      ensures Valid()
      ensures State() == EffectRunStep(old(State()), root, v)
    {
      if root in live {
        EffectBody(v, false);
      }
    }

    /** `disconnected()`. */
    method Disconnected()
      requires Valid()
      modifies this
      ensures Valid()
      ensures State() == DisconnectedStep(old(State()))
    {
      DisposeRoot();
      connected := false;
    }

    /** `reconnected()`, disposing a root still held before resubscribing;
        `current` is what the recorded getter yields now. */
    method Reconnected(current: Payload)
      requires Valid() && !connected
      modifies this
      ensures Valid()
      ensures State() == ReconnectedStep(old(State()), current)
    {
      if getter.Some? {
        DisposeRoot();
        CreateRoot();
        EffectBody(current, false);
      }
      connected := true;
    }
  }
}
