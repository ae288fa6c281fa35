/** `Response.prepare_data` and `Response.check_status_code`: what a response
    does with its data and status code while it is being constructed. */
module Normalize {
  import opened Wire
  import opened Dicts
  import opened Text

  /** The values prepare_data returns unchanged. */
  predicate IsPrimitive(v: Value) {
    v.Null? || v.Bool? || v.Int? || v.Float? || v.Str? || v.Bytes?
  }

  /** The values prepare_data accepts: no generator or foreign object occurs
      outside a schema model (whose dump is returned without a look inside). */
  predicate Supported(v: Value)
    decreases v
  {
    match v
    case Dict(es) => forall e :: e in es ==> Supported(e.1)
    case Iter(_, items) => forall x :: x in items ==> Supported(x)
    case Generator(_, _) => false
    case Other(_) => false
    case _ => true
  }

  /** The wire-safe shapes: primitives, dicts and lists of wire-safe shapes. */
  predicate Normalized(v: Value)
    decreases v
  {
    match v
    case Dict(es) => forall e :: e in es ==> Normalized(e.1)
    case Iter(kind, items) => kind == List && forall x :: x in items ==> Normalized(x)
    case Model(_, _) => false
    case Generator(_, _) => false
    case Other(_) => false
    case _ => true
  }

  /** Every schema model occurring in `v` dumps to a wire-safe shape. */
  predicate DumpsNormalized(v: Value, rt: Runtime)
    decreases v
  {
    match v
    case Dict(es) => forall e :: e in es ==> DumpsNormalized(e.1, rt)
    case Iter(_, items) => forall x :: x in items ==> DumpsNormalized(x, rt)
    case Model(c, id) => Normalized(rt.modelDump(c, id))
    case _ => true
  }

  function InvalidTypeMessage(v: Value): string {
    "Invalid Response Type: " + ClassRepr(v)
  }

  /** The first rejected value, depth first in iteration order: the one whose
      type prepare_data names in its TypeError. */
  function FirstUnsupported(v: Value): (r: Option<Value>)
    ensures r.Some? <==> !Supported(v)
    ensures r.Some? ==> r.value.Generator? || r.value.Other?
    decreases v, 1
  {
    match v
    case Dict(es) => FirstUnsupportedEntry(es)
    case Iter(_, items) => FirstUnsupportedItem(items)
    case Generator(_, _) => Some(v)
    case Other(_) => Some(v)
    case _ => None
  }

  function FirstUnsupportedEntry(es: seq<(string, Value)>): (r: Option<Value>)
    ensures r.Some? <==> exists e :: e in es && !Supported(e.1)
    ensures r.Some? ==> r.value.Generator? || r.value.Other?
    decreases es, 0
  {
    if es == [] then None
    else
      assert es[0] in es;
      assert es[0].1 < es[0];
      assert forall e :: e in es <==> e == es[0] || e in es[1..];
      match FirstUnsupported(es[0].1)
      case Some(u) => Some(u)
      case None => FirstUnsupportedEntry(es[1..])
  }

  function FirstUnsupportedItem(items: seq<Value>): (r: Option<Value>)
    ensures r.Some? <==> exists x :: x in items && !Supported(x)
    ensures r.Some? ==> r.value.Generator? || r.value.Other?
    decreases items, 0
  {
    if items == [] then None
    else
      assert items[0] in items;
      assert forall x :: x in items <==> x == items[0] || x in items[1..];
      match FirstUnsupported(items[0])
      case Some(u) => Some(u)
      case None => FirstUnsupportedItem(items[1..])
  }

  /** `prepare_data`: primitives unchanged, a dict rebuilt with prepared
      values, a schema model dumped, a list, tuple, set or cursor turned into a
      list of prepared elements; anything else raises TypeError. */
  function PrepareData(v: Value, rt: Runtime): (r: Result<Value>)
    ensures IsPrimitive(v) ==> r == Ok(v)
    ensures r.Ok? <==> Supported(v)
    ensures r.Err? ==> r.error == TypeError(InvalidTypeMessage(FirstUnsupported(v).value))
    ensures v.Dict? && r.Ok? ==> r.value.Dict? && Keys(r.value.entries) == Keys(v.entries)
    ensures v.Iter? && r.Ok? ==> r.value.Iter? && r.value.kind == List && |r.value.items| == |v.items|
    ensures v.Model? ==> r == Ok(rt.modelDump(v.className, v.id))
    decreases v, 1
  {
    match v
    case Dict(es) =>
      var prepared :- PrepareEntries(es, rt);
      Ok(Dict(prepared))
    case Model(c, id) => Ok(rt.modelDump(c, id))
    case Iter(_, items) =>
      var prepared :- PrepareItems(items, rt);
      Ok(Iter(List, prepared))
    case Generator(_, _) => Err(TypeError(InvalidTypeMessage(v)))
    case Other(_) => Err(TypeError(InvalidTypeMessage(v)))
    case _ => Ok(v)
  }

  /** The dict comprehension of prepare_data; stops at the first error. */
  function PrepareEntries(es: seq<(string, Value)>, rt: Runtime): (r: Result<seq<(string, Value)>>)
    ensures r.Ok? <==> forall e :: e in es ==> Supported(e.1)
    ensures r.Err? ==> r.error == TypeError(InvalidTypeMessage(FirstUnsupportedEntry(es).value))
    ensures r.Ok? ==> Keys(r.value) == Keys(es)
    decreases es, 0
  {
    if es == [] then Ok([])
    else
      assert es[0] in es;
      assert es[0].1 < es[0];
      assert forall e :: e in es <==> e == es[0] || e in es[1..];
      var head :- PrepareData(es[0].1, rt);
      var tail :- PrepareEntries(es[1..], rt);
      assert Keys(es) == [es[0].0] + Keys(es[1..]);
      assert Keys([(es[0].0, head)] + tail) == [es[0].0] + Keys(tail) by {
        assert ([(es[0].0, head)] + tail)[1..] == tail;
      }
      Ok([(es[0].0, head)] + tail)
  }

  /** The list comprehension of prepare_data; stops at the first error. */
  function PrepareItems(items: seq<Value>, rt: Runtime): (r: Result<seq<Value>>)
    ensures r.Ok? <==> forall x :: x in items ==> Supported(x)
    ensures r.Err? ==> r.error == TypeError(InvalidTypeMessage(FirstUnsupportedItem(items).value))
    ensures r.Ok? ==> |r.value| == |items|
    decreases items, 0
  {
    if items == [] then Ok([])
    else
      assert items[0] in items;
      assert forall x :: x in items <==> x == items[0] || x in items[1..];
      var head :- PrepareData(items[0], rt);
      var tail :- PrepareItems(items[1..], rt);
      Ok([head] + tail)
  }

  /** A dict is prepared key by key: same keys in the same order, each value
      the preparation of the original one. */
  lemma {:induction false} PrepareEntriesPointwise(es: seq<(string, Value)>, rt: Runtime)
    requires PrepareEntries(es, rt).Ok?
    ensures |PrepareEntries(es, rt).value| == |es|
    ensures forall i :: 0 <= i < |es| ==>
      PrepareData(es[i].1, rt).Ok? && PrepareEntries(es, rt).value[i] == (es[i].0, PrepareData(es[i].1, rt).value)
    decreases es
  {
    if es != [] {
      PrepareEntriesPointwise(es[1..], rt);
      var r := PrepareEntries(es, rt).value;
      forall i | 0 <= i < |es|
        ensures PrepareData(es[i].1, rt).Ok? && r[i] == (es[i].0, PrepareData(es[i].1, rt).value)
      {
        if i > 0 {
          assert es[i] == es[1..][i - 1];
        }
      }
    }
  }

  /** A list, tuple, set or cursor is prepared element by element, in order. */
  lemma {:induction false} PrepareItemsPointwise(items: seq<Value>, rt: Runtime)
    requires PrepareItems(items, rt).Ok?
    ensures |PrepareItems(items, rt).value| == |items|
    ensures forall i :: 0 <= i < |items| ==>
      PrepareData(items[i], rt).Ok? && PrepareItems(items, rt).value[i] == PrepareData(items[i], rt).value
    decreases items
  {
    if items != [] {
      PrepareItemsPointwise(items[1..], rt);
      var r := PrepareItems(items, rt).value;
      forall i | 0 <= i < |items|
        ensures PrepareData(items[i], rt).Ok? && r[i] == PrepareData(items[i], rt).value
      {
        if i > 0 {
          assert items[i] == items[1..][i - 1];
        }
      }
    }
  }

  /** A wire-safe value is returned unchanged. */
  lemma {:induction false} NormalizedIsFixpoint(v: Value, rt: Runtime)
    requires Normalized(v)
    ensures PrepareData(v, rt) == Ok(v)
    decreases v, 1
  {
    match v
    case Dict(es) => NormalizedEntriesFixpoint(es, rt);
    case Iter(_, items) => NormalizedItemsFixpoint(items, rt);
    case _ =>
  }

  lemma {:induction false} NormalizedEntriesFixpoint(es: seq<(string, Value)>, rt: Runtime)
    requires forall e :: e in es ==> Normalized(e.1)
    ensures PrepareEntries(es, rt) == Ok(es)
    decreases es, 0
  {
    if es != [] {
      assert es[0] in es;
      assert es[0].1 < es[0];
      NormalizedIsFixpoint(es[0].1, rt);
      assert forall e :: e in es[1..] ==> e in es;
      NormalizedEntriesFixpoint(es[1..], rt);
      assert [(es[0].0, es[0].1)] + es[1..] == es;
    }
  }

  lemma {:induction false} NormalizedItemsFixpoint(items: seq<Value>, rt: Runtime)
    requires forall x :: x in items ==> Normalized(x)
    ensures PrepareItems(items, rt) == Ok(items)
    decreases items, 0
  {
    if items != [] {
      NormalizedIsFixpoint(items[0], rt);
      assert forall x :: x in items[1..] ==> x in items;
      NormalizedItemsFixpoint(items[1..], rt);
      assert [items[0]] + items[1..] == items;
    }
  }

  /** What prepare_data returns is wire-safe, provided every schema model in
      the input dumps to a wire-safe value (the dump is not prepared again). */
  lemma {:induction false} PreparedIsNormalized(v: Value, rt: Runtime)
    requires PrepareData(v, rt).Ok? && DumpsNormalized(v, rt)
    ensures Normalized(PrepareData(v, rt).value)
    decreases v, 1
  {
    match v
    case Dict(es) => PreparedEntriesNormalized(es, rt);
    case Iter(_, items) => PreparedItemsNormalized(items, rt);
    case _ =>
  }

  lemma {:induction false} PreparedEntriesNormalized(es: seq<(string, Value)>, rt: Runtime)
    requires PrepareEntries(es, rt).Ok?
    requires forall e :: e in es ==> DumpsNormalized(e.1, rt)
    ensures forall e :: e in PrepareEntries(es, rt).value ==> Normalized(e.1)
    decreases es, 0
  {
    if es != [] {
      assert es[0] in es;
      assert es[0].1 < es[0];
      assert forall e :: e in es[1..] ==> e in es;
      PreparedIsNormalized(es[0].1, rt);
      PreparedEntriesNormalized(es[1..], rt);
      var head := PrepareData(es[0].1, rt).value;
      var tail := PrepareEntries(es[1..], rt).value;
      assert PrepareEntries(es, rt).value == [(es[0].0, head)] + tail;
    }
  }

  lemma {:induction false} PreparedItemsNormalized(items: seq<Value>, rt: Runtime)
    requires PrepareItems(items, rt).Ok?
    requires forall x :: x in items ==> DumpsNormalized(x, rt)
    ensures forall x :: x in PrepareItems(items, rt).value ==> Normalized(x)
    decreases items, 0
  {
    if items != [] {
      assert forall x :: x in items[1..] ==> x in items;
      PreparedIsNormalized(items[0], rt);
      PreparedItemsNormalized(items[1..], rt);
      var head := PrepareData(items[0], rt).value;
      var tail := PrepareItems(items[1..], rt).value;
      assert PrepareItems(items, rt).value == [head] + tail;
    }
  }

  /** Preparing prepared data changes nothing (for inputs whose models dump
      to wire-safe values, in particular for inputs without models). */
  lemma PrepareIdempotent(v: Value, rt: Runtime)
    requires PrepareData(v, rt).Ok? && DumpsNormalized(v, rt)
    ensures PrepareData(PrepareData(v, rt).value, rt) == PrepareData(v, rt)
  {
    PreparedIsNormalized(v, rt);
    NormalizedIsFixpoint(PrepareData(v, rt).value, rt);
  }

  /** A model's dump is returned as it is: prepared data can still hold
      values that preparing it again would reject. */
  lemma ModelDumpNotPrepared(rt: Runtime, c: string, id: nat)
    requires rt.modelDump(c, id) == Other("datetime.datetime")
    ensures PrepareData(Model(c, id), rt) == Ok(Other("datetime.datetime"))
    ensures PrepareData(PrepareData(Model(c, id), rt).value, rt).Err?
  {
  }

  function StatusCodeMessage(v: Value, rt: Runtime): string {
    "Response `status_code` Should Be `int`. (`" + PyStr(v, rt) + "` is " + ClassRepr(v) + ")"
  }

  /** `check_status_code`: any int (a bool included, since bool subclasses
      int, and any range) is returned unchanged; anything else raises. */
  function CheckStatusCode(v: Value, rt: Runtime): (r: Result<StatusCode>)
    ensures r.Ok? <==> v.Int? || v.Bool?
    ensures r.Ok? ==> r.value == v
    ensures r.Err? ==> r.error == TypeError(StatusCodeMessage(v, rt))
  {
    if v.Int? || v.Bool? then Ok(v) else Err(TypeError(StatusCodeMessage(v, rt)))
  }
}
