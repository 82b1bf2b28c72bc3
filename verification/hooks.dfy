/**
 The `EventHooks` registry: callbacks stored under the string key
 `"<collection> <phase><VERB>"`, five registration operations that overwrite
 the entry for their key, and `fireBefore`/`fireAfter`, which call the stored
 callback if there is one. Callbacks are values of the type parameter `F`.
 */
module EventHooks {
  import opened Wrappers
  import opened Json

  datatype Phase = Before | After

  function PhaseName(p: Phase): string {
    match p
    case Before => "before"
    case After => "after"
  }

  /** The listener key: `${coll} before${verb}` or `${coll} after${verb}`. */
  function ListenerKey(coll: string, phase: Phase, verb: string): string {
    coll + " " + PhaseName(phase) + verb
  }

  /** The `listeners` object of an `EventHooks` instance. */
  datatype Registry<F> = Registry(listeners: map<string, F>)

  /** The callback stored for a (collection, phase, verb) triple, if any. */
  function Lookup<F>(r: Registry<F>, coll: string, phase: Phase, verb: string): Option<F> {
    var key := ListenerKey(coll, phase, verb);
    if key in r.listeners then Some(r.listeners[key]) else None
  }

  /** `new EventHooks()`: no listener for any key. */
  function New<F>(): (r: Registry<F>)
    ensures forall coll, phase, verb :: Lookup(r, coll, phase, verb) == None
  {
    Registry(map[])
  }

  /** The five registration operations the class offers. */
  datatype Slot = BeforePUT | BeforePOST | AfterPOST | BeforePATCH | BeforeDELETE

  function SlotPhase(s: Slot): Phase {
    if s == AfterPOST then After else Before
  }

  function SlotVerb(s: Slot): (v: string)
    ensures ' ' !in v
  {
    match s
    case BeforePUT => "PUT"
    case BeforePOST => "POST"
    case AfterPOST => "POST"
    case BeforePATCH => "PATCH"
    case BeforeDELETE => "DELETE"
  }

  /** In `c + " " + s` with a space-free `s`, the last space sits right after `c`. */
  lemma LastSpaceAfterName(c: string, s: string)
    requires ' ' !in s
    ensures (c + " " + s)[|c|] == ' '
    ensures forall i :: |c| < i < |c + " " + s| ==> (c + " " + s)[i] != ' '
  {
  }

  /** A string has at most one last space. */
  lemma LastSpaceUnique(k: string, n1: nat, n2: nat)
    requires n1 < |k| && n2 < |k|
    requires k[n1] == ' ' && k[n2] == ' '
    requires forall i :: n1 < i < |k| ==> k[i] != ' '
    requires forall i :: n2 < i < |k| ==> k[i] != ' '
    ensures n1 == n2
  {
  }

  /** `c + " " + s` with a space-free `s` splits back into `c` and `s`. */
  lemma {:induction false} SplitAtLastSpace(c1: string, s1: string, c2: string, s2: string)
    requires ' ' !in s1 && ' ' !in s2
    requires c1 + " " + s1 == c2 + " " + s2
    ensures c1 == c2 && s1 == s2
  {
    var k := c1 + " " + s1;
    LastSpaceAfterName(c1, s1);
    LastSpaceAfterName(c2, s2);
    LastSpaceUnique(k, |c1|, |c2|);
    assert c1 == k[..|c1|] == c2;
    assert s1 == k[|c1| + 1..] == s2;
  }

  /** The phase name and verb read back from their concatenation. */
  lemma {:induction false} SplitPhaseName(p1: Phase, v1: string, p2: Phase, v2: string)
    requires PhaseName(p1) + v1 == PhaseName(p2) + v2
    ensures p1 == p2 && v1 == v2
  {
    var s := PhaseName(p1) + v1;
    assert PhaseName(p1)[0] == s[0] == PhaseName(p2)[0];
    assert v1 == s[|PhaseName(p1)|..] == v2;
  }

  /** A phase name followed by a space-free verb holds no space. */
  lemma PhaseAndVerbSpaceFree(p: Phase, v: string)
    requires ' ' !in v
    ensures ' ' !in PhaseName(p) + v
  {
  }

  /** Keys of space-free verbs are injective: the last space of a key is the
      one after the collection name, and the two phase names differ in their
      first letter. Collection names may contain spaces. */
  lemma {:induction false} ListenerKeyInjective(c1: string, p1: Phase, v1: string, c2: string, p2: Phase, v2: string)
    requires ' ' !in v1 && ' ' !in v2
    requires ListenerKey(c1, p1, v1) == ListenerKey(c2, p2, v2)
    ensures c1 == c2 && p1 == p2 && v1 == v2
  {
    var s1 := PhaseName(p1) + v1;
    var s2 := PhaseName(p2) + v2;
    assert ListenerKey(c1, p1, v1) == c1 + " " + s1;
    assert ListenerKey(c2, p2, v2) == c2 + " " + s2;
    PhaseAndVerbSpaceFree(p1, v1);
    PhaseAndVerbSpaceFree(p2, v2);
    SplitAtLastSpace(c1, s1, c2, s2);
    SplitPhaseName(p1, v1, p2, v2);
  }

  /** For the same collection and verb the before key is never the after key. */
  lemma PhaseKeysDistinct(coll: string, verb: string)
    ensures ListenerKey(coll, Before, verb) != ListenerKey(coll, After, verb)
  {
  }

  /** Distinct (collection, slot) pairs have distinct listener keys. */
  lemma OtherSlotKeysDiffer(coll: string, slot: Slot)
    ensures forall c, s :: (c != coll || s != slot) ==>
              ListenerKey(c, SlotPhase(s), SlotVerb(s)) != ListenerKey(coll, SlotPhase(slot), SlotVerb(slot))
  {
    forall c, s | c != coll || s != slot
      ensures ListenerKey(c, SlotPhase(s), SlotVerb(s)) != ListenerKey(coll, SlotPhase(slot), SlotVerb(slot))
    {
      if ListenerKey(c, SlotPhase(s), SlotVerb(s)) == ListenerKey(coll, SlotPhase(slot), SlotVerb(slot)) {
        ListenerKeyInjective(c, SlotPhase(s), SlotVerb(s), coll, SlotPhase(slot), SlotVerb(slot));
        assert false;
      }
    }
  }

  /** `this.listeners[key] = func; return this;` */
  function Register<F>(r: Registry<F>, slot: Slot, coll: string, callback: F): (r': Registry<F>)
    ensures Lookup(r', coll, SlotPhase(slot), SlotVerb(slot)) == Some(callback)
    ensures forall c, s :: (c != coll || s != slot) ==>
              Lookup(r', c, SlotPhase(s), SlotVerb(s)) == Lookup(r, c, SlotPhase(s), SlotVerb(s))
    ensures r'.listeners.Keys == r.listeners.Keys + {ListenerKey(coll, SlotPhase(slot), SlotVerb(slot))}
    ensures forall k :: k in r.listeners && k != ListenerKey(coll, SlotPhase(slot), SlotVerb(slot)) ==>
              r'.listeners[k] == r.listeners[k]
  {
    OtherSlotKeysDiffer(coll, slot);
    Registry(r.listeners[ListenerKey(coll, SlotPhase(slot), SlotVerb(slot)) := callback])
  }

  function BeforePut<F>(r: Registry<F>, coll: string, callback: F): (r': Registry<F>)
    ensures Lookup(r', coll, Before, "PUT") == Some(callback)
  {
    Register(r, BeforePUT, coll, callback)
  }

  function BeforePost<F>(r: Registry<F>, coll: string, callback: F): (r': Registry<F>)
    ensures Lookup(r', coll, Before, "POST") == Some(callback)
  {
    Register(r, BeforePOST, coll, callback)
  }

  function AfterPost<F>(r: Registry<F>, coll: string, callback: F): (r': Registry<F>)
    ensures Lookup(r', coll, After, "POST") == Some(callback)
  {
    Register(r, AfterPOST, coll, callback)
  }

  function BeforePatch<F>(r: Registry<F>, coll: string, callback: F): (r': Registry<F>)
    ensures Lookup(r', coll, Before, "PATCH") == Some(callback)
  {
    Register(r, BeforePATCH, coll, callback)
  }

  function BeforeDelete<F>(r: Registry<F>, coll: string, callback: F): (r': Registry<F>)
    ensures Lookup(r', coll, Before, "DELETE") == Some(callback)
  {
    Register(r, BeforeDELETE, coll, callback)
  }

  /** A call of a stored callback with its argument. */
  datatype Invocation<F> = Invocation(callback: F, data: Value)

  /** `fireBefore`/`fireAfter`: the stored callback is called with `data`,
      nothing happens when none is stored. The registry is only read. */
  function Fire<F>(r: Registry<F>, phase: Phase, coll: string, verb: string, data: Value): (o: Option<Invocation<F>>)
    ensures o.None? <==> Lookup(r, coll, phase, verb).None?
    ensures o.Some? ==> o.value == Invocation(Lookup(r, coll, phase, verb).value, data)
  {
    var key := ListenerKey(coll, phase, verb);
    if key in r.listeners then Some(Invocation(r.listeners[key], data)) else None
  }

  function FireBefore<F>(r: Registry<F>, coll: string, verb: string, data: Value): (o: Option<Invocation<F>>)
    ensures o.None? <==> Lookup(r, coll, Before, verb).None?
    ensures o.Some? ==> o.value.callback == Lookup(r, coll, Before, verb).value && o.value.data == data
  {
    Fire(r, Before, coll, verb, data)
  }

  function FireAfter<F>(r: Registry<F>, coll: string, verb: string, data: Value): (o: Option<Invocation<F>>)
    ensures o.None? <==> Lookup(r, coll, After, verb).None?
    ensures o.Some? ==> o.value.callback == Lookup(r, coll, After, verb).value && o.value.data == data
  {
    Fire(r, After, coll, verb, data)
  }

  /** Registering an after-hook never changes what `fireBefore` calls for a
      space-free verb, and registering a before-hook never changes `fireAfter`. */
  lemma FireIgnoresOtherPhase<F>(r: Registry<F>, slot: Slot, coll: string, callback: F, c: string, verb: string, data: Value)
    requires ' ' !in verb
    ensures SlotPhase(slot) == After ==>
              FireBefore(Register(r, slot, coll, callback), c, verb, data) == FireBefore(r, c, verb, data)
    ensures SlotPhase(slot) == Before ==>
              FireAfter(Register(r, slot, coll, callback), c, verb, data) == FireAfter(r, c, verb, data)
  {
    var key := ListenerKey(coll, SlotPhase(slot), SlotVerb(slot));
    if ListenerKey(c, Before, verb) == key {
      ListenerKeyInjective(c, Before, verb, coll, SlotPhase(slot), SlotVerb(slot));
    }
    if ListenerKey(c, After, verb) == key {
      ListenerKeyInjective(c, After, verb, coll, SlotPhase(slot), SlotVerb(slot));
    }
  }

  /** A registration changes what is fired for its own (collection, phase,
      verb) only: every other firing with a space-free verb calls what it
      called before. */
  lemma {:induction false} RegisterLeavesOtherFiringsAlone<F>(r: Registry<F>, slot: Slot, coll: string, callback: F,
                                                             p: Phase, c: string, verb: string, data: Value)
    requires ' ' !in verb
    requires (c, p, verb) != (coll, SlotPhase(slot), SlotVerb(slot))
    ensures Fire(Register(r, slot, coll, callback), p, c, verb, data) == Fire(r, p, c, verb, data)
  {
    if ListenerKey(c, p, verb) == ListenerKey(coll, SlotPhase(slot), SlotVerb(slot)) {
      ListenerKeyInjective(c, p, verb, coll, SlotPhase(slot), SlotVerb(slot));
    }
  }

  // ---------------------------------------------------------------------
  // The registry as a state machine over a trace of registrations and firings
  // ---------------------------------------------------------------------

  datatype Event<F> =
    | Registration(slot: Slot, coll: string, callback: F)
    | Firing(phase: Phase, coll: string, verb: string, data: Value)

  /** One event: a registration yields the updated registry, a firing yields
      the callback invocation it makes, if any. */
  function Step<F>(r: Registry<F>, e: Event<F>): (Registry<F>, Option<Invocation<F>>) {
    match e
    case Registration(slot, coll, callback) => (Register(r, slot, coll, callback), None)
    case Firing(phase, coll, verb, data) => (r, Fire(r, phase, coll, verb, data))
  }

  /** The registry after a trace and the invocations made along it, in order. */
  function Run<F>(r: Registry<F>, trace: seq<Event<F>>): (Registry<F>, seq<Invocation<F>>)
    decreases |trace|
  {
    if trace == [] then (r, [])
    else
      var (r1, calls) := Run(r, trace[..|trace| - 1]);
      var (r2, o) := Step(r1, trace[|trace| - 1]);
      (r2, if o.Some? then calls + [o.value] else calls)
  }

  /** Reference definition: the callback of the last registration of `slot`
      for `coll` in the trace. */
  function LastRegistration<F>(trace: seq<Event<F>>, coll: string, slot: Slot): Option<F>
    decreases |trace|
  {
    if trace == [] then None
    else
      var e := trace[|trace| - 1];
      if e.Registration? && e.coll == coll && e.slot == slot then Some(e.callback)
      else LastRegistration(trace[..|trace| - 1], coll, slot)
  }

  /** Last registration wins: after any trace, the callback stored for a slot
      is the one registered last, or the initial one if the trace never
      registers it. */
  lemma {:induction false} LastRegistrationWins<F>(r: Registry<F>, trace: seq<Event<F>>, coll: string, slot: Slot)
    ensures Lookup(Run(r, trace).0, coll, SlotPhase(slot), SlotVerb(slot))
            == (if LastRegistration(trace, coll, slot).Some? then LastRegistration(trace, coll, slot)
                else Lookup(r, coll, SlotPhase(slot), SlotVerb(slot)))
    decreases |trace|
  {
    if trace != [] {
      LastRegistrationWins(r, trace[..|trace| - 1], coll, slot);
    }
  }

  /** Some registration in the trace stored the callback `f`. */
  ghost predicate RegisteredIn<F>(trace: seq<Event<F>>, f: F) {
    exists j :: 0 <= j < |trace| && trace[j].Registration? && trace[j].callback == f
  }

  /** A registry only ever calls what it was handed: along any trace, every
      stored callback and every callback invoked was either in the initial
      registry or stored by a registration of the trace. */
  lemma {:induction false} CallsOnlyRegistered<F>(r: Registry<F>, trace: seq<Event<F>>)
    ensures forall k :: k in Run(r, trace).0.listeners ==>
              (k in r.listeners && r.listeners[k] == Run(r, trace).0.listeners[k])
              || RegisteredIn(trace, Run(r, trace).0.listeners[k])
    ensures forall i :: 0 <= i < |Run(r, trace).1| ==>
              (exists k :: k in r.listeners && r.listeners[k] == Run(r, trace).1[i].callback)
              || RegisteredIn(trace, Run(r, trace).1[i].callback)
    decreases |trace|
  {
    if trace != [] {
      var prefix := trace[..|trace| - 1];
      var e := trace[|trace| - 1];
      CallsOnlyRegistered(r, prefix);
      var (r1, calls1) := Run(r, prefix);
      forall f | RegisteredIn(prefix, f) ensures RegisteredIn(trace, f) {
        var j :| 0 <= j < |prefix| && prefix[j].Registration? && prefix[j].callback == f;
        assert trace[j] == prefix[j];
      }
      if e.Registration? {
        assert RegisteredIn(trace, e.callback) by {
          assert trace[|trace| - 1] == e;
        }
      }
    }
  }

  /** Firing never mutates the registry: a trace of firings leaves it as it was. */
  lemma {:induction false} FiringNeverMutates<F>(r: Registry<F>, trace: seq<Event<F>>)
    requires forall i :: 0 <= i < |trace| ==> trace[i].Firing?
    ensures Run(r, trace).0 == r
    decreases |trace|
  {
    if trace != [] {
      FiringNeverMutates(r, trace[..|trace| - 1]);
    }
  }

  /** A registry nobody registered into makes no calls, whatever is fired. */
  lemma {:induction false} FreshRegistryNeverCalls<F>(trace: seq<Event<F>>)
    requires forall i :: 0 <= i < |trace| ==> trace[i].Firing?
    ensures Run(New<F>(), trace).1 == []
    decreases |trace|
  {
    if trace != [] {
      FreshRegistryNeverCalls(trace[..|trace| - 1]);
      FiringNeverMutates(New<F>(), trace[..|trace| - 1]);
    }
  }
}
