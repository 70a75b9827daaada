/**
 * The compiled-trampoline path of the interpreter
 * (crates/runtime/src/interpreter/trampoline.rs): a cache of trampolines
 * keyed by callee address, and `invoke`, which lays the arguments out in
 * 16-byte `values_vec` slots, calls through the trampoline and reads the
 * results back from the same slots.
 *
 * Building a trampoline needs the code generator, and calling it runs
 * native code; both are inputs here: the outcome the builder would have on
 * a miss, and the effect of the call on the slots.
 */
module Trampoline {
  import opened Base
  import opened Interpreter

  /** `size_of::<VMInvokeArgument>()`, the slot size handed to the builder. */
  const VALUE_SIZE: nat := 16

  const TRAP_ERROR: string := "trap or error during invoke()"

  /** A lookup in the trampoline park: a hit returns the stored
   *  trampoline, a miss stores and returns what the builder produced, and
   *  a failed build changes nothing. */
  function Lookup(park: map<nat, nat>, callee: nat, built: Result<nat, string>): (Result<nat, string>, map<nat, nat>)
  {
    if callee in park then (Ok(park[callee]), park)
    else
      match built
      case Err(e) => (Err(e), park)
      case Ok(body) => (Ok(body), park[callee := body])
  }

  /** The result and the new park of a lookup. */
  function LookupResult(park: map<nat, nat>, callee: nat, built: Result<nat, string>): Result<nat, string>
  {
    Lookup(park, callee, built).0
  }

  function LookupPark(park: map<nat, nat>, callee: nat, built: Result<nat, string>): map<nat, nat>
  {
    Lookup(park, callee, built).1
  }

  /** A lookup never forgets or changes an entry, adds at most the callee's,
   *  and a stored callee is answered from the park whatever the builder
   *  would do. */
  lemma LookupKeepsPark(park: map<nat, nat>, callee: nat, built: Result<nat, string>)
    ensures var park' := LookupPark(park, callee, built);
      (forall a :: a in park ==> a in park' && park'[a] == park[a])
      && forall a :: a in park' && a != callee ==> a in park
    ensures callee in park ==> (LookupResult(park, callee, built) == Ok(park[callee])
                                && LookupPark(park, callee, built) == park)
    ensures LookupResult(park, callee, built).Err? ==> LookupPark(park, callee, built) == park
  {
  }

  /** After a successful lookup, the callee is stored with the returned
   *  trampoline, so a second lookup returns the same one and builds
   *  nothing. */
  lemma LookupMemoises(park: map<nat, nat>, callee: nat, built: Result<nat, string>, built': Result<nat, string>)
    requires LookupResult(park, callee, built).Ok?
    ensures var park' := LookupPark(park, callee, built);
      callee in park' && Ok(park'[callee]) == LookupResult(park, callee, built)
      && LookupResult(park', callee, built') == LookupResult(park, callee, built)
      && LookupPark(park', callee, built') == park'
  {
  }

  /** A run of lookups: each call's callee and the builder's outcome were
   *  it to miss. */
  function Lookups(park: map<nat, nat>, calls: seq<(nat, Result<nat, string>)>): (r: (seq<Result<nat, string>>, map<nat, nat>))
    ensures |r.0| == |calls|
    decreases |calls|
  {
    if calls == [] then ([], park)
    else
      var n := |calls| - 1;
      var (results, park') := Lookups(park, calls[..n]);
      (results + [LookupResult(park', calls[n].0, calls[n].1)], LookupPark(park', calls[n].0, calls[n].1))
  }

  /** The park after a run holds every trampoline the run returned, under
   *  its callee. */
  lemma {:induction false} LookupsStore(park: map<nat, nat>, calls: seq<(nat, Result<nat, string>)>)
    ensures var (results, park') := Lookups(park, calls);
      forall i :: 0 <= i < |calls| && results[i].Ok? ==> calls[i].0 in park' && park'[calls[i].0] == results[i].value
    decreases |calls|
  {
    if calls != [] {
      var n := |calls| - 1;
      LookupsStore(park, calls[..n]);
      var (results, park1) := Lookups(park, calls[..n]);
      LookupKeepsPark(park1, calls[n].0, calls[n].1);
      assert forall i :: 0 <= i < n ==> calls[..n][i] == calls[i];
    }
  }

  /** Memoisation over a run: once a callee has been given a trampoline,
   *  every later call for that callee gets the same one, whatever its
   *  signature or the builder would do. */
  lemma LookupsMemoise(park: map<nat, nat>, calls: seq<(nat, Result<nat, string>)>, i: nat, j: nat)
    requires i < j < |calls| && calls[i].0 == calls[j].0
    requires Lookups(park, calls).0[i].Ok?
    ensures Lookups(park, calls).0[j] == Lookups(park, calls).0[i]
  {
    var prefix := calls[..j];
    assert prefix[i] == calls[i];
    LookupsStore(park, prefix);
    var (results, park1) := Lookups(park, prefix);
    assert Lookups(park, calls).0[..j] == results by {
      assert calls[..|calls| - 1][..j] == prefix;
      LookupsPrefix(park, calls, j);
    }
    assert Lookups(park, calls).0[j] == LookupResult(park1, calls[j].0, calls[j].1) by {
      LookupsAt(park, calls, j);
    }
  }

  /** A run's results on a prefix are the prefix of its results. */
  lemma {:induction false} LookupsPrefix(park: map<nat, nat>, calls: seq<(nat, Result<nat, string>)>, j: nat)
    requires j <= |calls|
    ensures Lookups(park, calls).0[..j] == Lookups(park, calls[..j]).0
    decreases |calls|
  {
    if j < |calls| {
      var n := |calls| - 1;
      assert calls[..n][..j] == calls[..j];
      LookupsPrefix(park, calls[..n], j);
    } else {
      assert calls[..j] == calls;
    }
  }

  /** Call `j` of a run is answered from the park the earlier calls left. */
  lemma LookupsAt(park: map<nat, nat>, calls: seq<(nat, Result<nat, string>)>, j: nat)
    requires j < |calls|
    ensures Lookups(park, calls).0[j] == LookupResult(Lookups(park, calls[..j]).1, calls[j].0, calls[j].1)
  {
    LookupsPrefix(park, calls, j + 1);
    assert calls[..j + 1][..j] == calls[..j];
  }

  /** The trampoline cache: generated trampolines by callee address. The
   *  code memory is represented by how often it has been published. */
  class TrampolineCache {
    var park: map<nat, nat>
    var publications: nat

    constructor()
      ensures park == map[] && publications == 0
    {
      park := map[];
      publications := 0;
    }

    /** `get_trampoline`: the signature and slot size only matter to the
     *  builder, whose outcome on a miss is `built`. */
    method GetTrampoline(callee: nat, signature: Signature, valueSize: nat, built: Result<nat, string>)
      returns (r: Result<nat, string>)
      modifies this
      ensures r == LookupResult(old(park), callee, built)
      ensures park == LookupPark(old(park), callee, built) && publications == old(publications)
    {
      if callee in park {
        return Ok(park[callee]);
      }
      match built
      case Err(e) =>
        return Err(e);
      case Ok(body) =>
        park := park[callee := body];
        return Ok(body);
    }

    /** `get_published_trampoline`: a lookup, then the code memory is
     *  published unless the lookup failed. */
    method GetPublishedTrampoline(callee: nat, signature: Signature, valueSize: nat, built: Result<nat, string>)
      returns (r: Result<nat, string>)
      modifies this
      ensures r == LookupResult(old(park), callee, built)
      ensures park == LookupPark(old(park), callee, built)
      ensures publications == if r.Ok? then old(publications) + 1 else old(publications)
    {
      r := GetTrampoline(callee, signature, valueSize, built);
      if r.Err? {
        return;
      }
      PublishCompiledCode();
    }

    method PublishCompiledCode()
      modifies this
      ensures park == old(park) && publications == old(publications) + 1
    {
      publications := publications + 1;
    }
  }

  /** The slots after argument `i` has been written into slot `base + i`
   *  for every argument. */
  function StoreArgs(slots: seq<nat>, args: seq<Val>, base: nat): (r: seq<nat>)
    requires base + |args| <= |slots|
    ensures |r| == |slots|
    ensures forall i :: 0 <= i < |args| ==> r[base + i] == WriteVal(slots[base + i], args[i])
    ensures forall k :: 0 <= k < base || base + |args| <= k < |slots| ==> r[k] == slots[k]
    decreases |args|
  {
    if args == [] then slots
    else
      var n := |args| - 1;
      var before := StoreArgs(slots, args[..n], base);
      before[base + n := WriteVal(slots[base + n], args[n])]
  }

  /** The types of a list of values. */
  function TypesOf(vs: seq<Val>): (ts: seq<IrType>)
    ensures |ts| == |vs| && forall i :: 0 <= i < |vs| ==> ts[i] == TypeOf(vs[i])
  {
    seq(|vs|, i requires 0 <= i < |vs| => TypeOf(vs[i]))
  }

  /** The types a signature declares for its results. */
  function ResultTypes(sig: Signature): (ts: seq<IrType>)
    ensures |ts| == |sig.results| && forall j :: 0 <= j < |sig.results| ==> ts[j] == sig.results[j].valueType
  {
    seq(|sig.results|, j requires 0 <= j < |sig.results| => sig.results[j].valueType)
  }

  /** Whoever reads the argument slots with the arguments' own types gets
   *  the arguments back. */
  lemma StoredArgsReadBack(slots: seq<nat>, args: seq<Val>, base: nat)
    requires base + |args| <= |slots|
    ensures ReadSlots(TypesOf(args), StoreArgs(slots, args, base)[base..]) == Done(args)
  {
    var out := StoreArgs(slots, args, base)[base..];
    var types := TypesOf(args);
    var rs := ReadSlots(types, out);
    forall i | 0 <= i < |args|
      ensures ReadVal(out[i], types[i]) == Done(args[i])
    {
      ReadWriteRoundTrip(slots[base + i], args[i]);
    }
    ReadSlotsExact(types, out, args);
  }

  /** `ReadSlots` gives the values that every slot reads as. */
  lemma {:induction false} ReadSlotsExact(types: seq<IrType>, slots: seq<nat>, vs: seq<Val>)
    requires |types| == |vs| <= |slots|
    requires forall i :: 0 <= i < |vs| ==> ReadVal(slots[i], types[i]) == Done(vs[i])
    ensures ReadSlots(types, slots) == Done(vs)
    decreases |types|
  {
    if types != [] {
      var n := |types| - 1;
      ReadSlotsExact(types[..n], slots, vs[..n]);
      assert vs[..n] + [vs[n]] == vs;
    }
  }

  /** What the native call does to the slots, or its failure. */
  type NativeCall = (nat, seq<nat>) -> Result<seq<nat>, ()>

  /** The number of slots `invoke` allocates. */
  function SlotCount(sig: Signature): nat
    requires |sig.params| > 0
  {
    Max(|sig.params| - 1, |sig.results|)
  }

  /** `invoke`: the results, the trampoline error, or a panic. */
  function InvokeSpec(park: map<nat, nat>, address: nat, sig: Signature, args: seq<Val>,
                      built: Result<nat, string>, call: NativeCall): (r: Exec<Result<seq<Val>, string>>)
    requires |sig.params| > 0 ==> |args| <= SlotCount(sig)
    requires forall code, vs :: call(code, vs).Ok? ==> |call(code, vs).value| == |vs|
  {
    if |sig.params| == 0 then Panic(SUBTRACT_OVERFLOW_PANIC)
    else
      var slots := StoreArgs(seq(SlotCount(sig), _ => 0), args, 0);
      match LookupResult(park, address, built)
      case Err(e) => Done(Err(e))
      case Ok(code) =>
        match call(code, slots)
        case Err(_) => Done(Err(TRAP_ERROR))
        case Ok(out) =>
          match ReadSlots(ResultTypes(sig), out)
          case Panic(m) => Panic(m)
          case Done(vs) => Done(Ok(vs))
  }

  /** `invoke` passes the trampoline every argument in its own slot, from
   *  slot 0; the trampoline it calls is the cache's answer for the
   *  address; result `j` is read from slot `j` with its declared type; a
   *  trap is reported as a trampoline error. */
  lemma InvokeSpecLayout(park: map<nat, nat>, address: nat, sig: Signature, args: seq<Val>,
                         built: Result<nat, string>, call: NativeCall)
    requires |sig.params| > 0 && |args| <= SlotCount(sig)
    requires forall code, vs :: call(code, vs).Ok? ==> |call(code, vs).value| == |vs|
    ensures var slots := StoreArgs(seq(SlotCount(sig), _ => 0), args, 0);
      |slots| == SlotCount(sig) && |slots| >= |sig.params| - 1 && |slots| >= |sig.results|
      && (forall i :: 0 <= i < |args| ==> ReadVal(slots[i], TypeOf(args[i])) == Done(args[i]))
      && forall k :: |args| <= k < |slots| ==> slots[k] == 0
    ensures var r := InvokeSpec(park, address, sig, args, built, call);
      var slots := StoreArgs(seq(SlotCount(sig), _ => 0), args, 0);
      match LookupResult(park, address, built)
      case Err(e) => r == Done(Err(e))
      case Ok(code) =>
        match call(code, slots)
        case Err(_) => r == Done(Err(TRAP_ERROR))
        case Ok(out) => ((r.Done? <==> forall j :: 0 <= j < |sig.results| ==> !sig.results[j].valueType.OtherType?)
                         && (r.Done? ==> (r.value.Ok? && |r.value.value| == |sig.results|
                                          && forall j :: 0 <= j < |sig.results| ==>
                                               ReadVal(out[j], sig.results[j].valueType) == Done(r.value.value[j]))))
  {
    var slots := StoreArgs(seq(SlotCount(sig), _ => 0), args, 0);
    forall i | 0 <= i < |args|
      ensures ReadVal(slots[i], TypeOf(args[i])) == Done(args[i])
    {
      ReadWriteRoundTrip(0, args[i]);
    }
  }

  /** `invoke` through the cache. */
  method Invoke(cache: TrampolineCache, address: nat, sig: Signature, args: seq<Val>,
                built: Result<nat, string>, call: NativeCall) returns (r: Exec<Result<seq<Val>, string>>)
    requires |sig.params| > 0 ==> |args| <= SlotCount(sig)
    requires forall code, vs :: call(code, vs).Ok? ==> |call(code, vs).value| == |vs|
    modifies cache
    ensures r == InvokeSpec(old(cache.park), address, sig, args, built, call)
    ensures |sig.params| == 0 ==> cache.park == old(cache.park) && cache.publications == old(cache.publications)
    ensures |sig.params| > 0 ==> cache.park == LookupPark(old(cache.park), address, built)
    ensures |sig.params| > 0 ==> cache.publications == old(cache.publications) + (if LookupResult(old(cache.park), address, built).Ok? then 1 else 0)
  {
    if |sig.params| == 0 {
      return Panic(SUBTRACT_OVERFLOW_PANIC);
    }
    var valuesVec := WriteArgs(seq(SlotCount(sig), _ => 0), args, 0);
    var code := cache.GetPublishedTrampoline(address, sig, VALUE_SIZE, built);
    if code.Err? {
      return Done(Err(code.error));
    }
    var outcome := call(code.value, valuesVec);
    if outcome.Err? {
      return Done(Err(TRAP_ERROR));
    }
    var out := outcome.value;
    var values := ReadResults(sig, out);
    match values
    case Panic(m) => return Panic(m);
    case Done(vs) => return Done(Ok(vs));
  }

  /** The argument loop: argument `i` written into slot `base + i`. */
  method WriteArgs(slots: seq<nat>, args: seq<Val>, base: nat) returns (out: seq<nat>)
    requires base + |args| <= |slots|
    ensures out == StoreArgs(slots, args, base)
  {
    out := slots;
    var index := 0;
    while index < |args|
      invariant index <= |args| && out == StoreArgs(slots, args[..index], base)
    {
      assert args[..index + 1][..index] == args[..index];
      out := out[base + index := WriteVal(out[base + index], args[index])];
      index := index + 1;
    }
    assert args[..index] == args;
  }

  /** The `map`/`collect` over the signature's results. */
  method ReadResults(sig: Signature, out: seq<nat>) returns (r: Exec<seq<Val>>)
    requires |sig.results| <= |out|
    ensures r == ReadSlots(ResultTypes(sig), out)
  {
    var types := ResultTypes(sig);
    var values := [];
    var j := 0;
    while j < |types|
      invariant j <= |types| && ReadSlots(types[..j], out) == Done(values)
    {
      assert types[..j + 1][..j] == types[..j];
      var v := ReadVal(out[j], types[j]);
      if v.Panic? {
        ReadSlotsPanicStays(types, j + 1, out);
        return Panic(v.msg);
      }
      values := values + [v.value];
      j := j + 1;
    }
    assert types[..j] == types;
    return Done(values);
  }
}
